/**
 * The records that travel between the extension's pages: the track (from the
 * player page to the background page and on to the encoder worker) with the
 * JavaScript truthiness its optional fields are tested with, and the player
 * page's answer to `prepareRecording`.
 */
module Tracks {
  import opened Wrappers

  /** A JavaScript field value of the kinds the track record holds. */
  datatype Value = Absent | Text(s: string) | Number(n: int) | NotANumber

  /** JavaScript truthiness: `undefined`, `""`, `0` and `NaN` are falsy. */
  predicate Truthy(v: Value) {
    match v
    case Absent => false
    case Text(s) => s != ""
    case Number(n) => n != 0
    case NotANumber => false
  }

  /** Truthiness of an optional string field. */
  predicate TruthyText(v: Option<string>) {
    v.Some? && v.value != ""
  }

  /**
   * One track. `kind` is the source's `type` field (`'ad'` marks an
   * advertisement), `directory` the optional download folder, `url` the
   * reference to the encoded file that the worker fills in on completion.
   */
  datatype Track = Track(
    artist: Option<string>,
    title: Option<string>,
    duration: Value,
    cover: string,
    kbps: int,
    playlist: Value,
    album: Value,
    albumArtist: Value,
    albumReleaseDate: Value,
    albumReleaseYear: Value,
    discNumber: Value,
    trackNumber: Value,
    spotifyId: Value,
    kind: Option<string>,
    directory: Option<string>,
    url: Option<string>)

  /** The track the player is showing, as an advertisement or as music. */
  predicate IsAd(t: Track) {
    t.kind == Some("ad")
  }

  /** The player page's answer to `prepareRecording`: the volume before recording and a possible error. */
  datatype PrepareAnswer = PrepareAnswer(volume: real, error: Option<string>)
}
