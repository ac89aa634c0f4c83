/**
 * The content script on the player page (src/content.js): reading the playing
 * track off the page, the `prepareRecording` / `startRecording` /
 * `stopRecording` handlers, and the replacement of the player's volume bar while
 * a recording runs.
 *
 * The page is seen through what the source queries from it (a `PlayerPage`
 * value) and through the few parts of the document the script changes (a
 * `PlayerDom` object).
 */
module Content {
  import opened Wrappers
  import opened Tracks
  import opened JsStrings

  // ---------------------------------------------------------------------------
  // Durations

  /**
   * `durationToSeconds`: split at `:` and read minutes and seconds from the
   * first two fields with `parseInt(_, 10)`; `None` stands for `NaN`, which also
   * results when there is no second field (`parseInt(undefined)`).
   */
  function DurationToSeconds(duration: string): (r: Option<int>)
    ensures r.Some? ==> |Split(duration, ':')| >= 2
    ensures r.Some? ==> ParseInt(Split(duration, ':')[0]).Some? && ParseInt(Split(duration, ':')[1]).Some?
  {
    var times := Split(duration, ':');
    var minutes := ParseInt(times[0]);
    var seconds := if |times| >= 2 then ParseInt(times[1]) else None;
    if minutes.None? || seconds.None? then None
    else Some(minutes.value * 60 + seconds.value)
  }

  predicate AllDigits(d: string) {
    forall k :: 0 <= k < |d| ==> IsDigit(d[k])
  }

  lemma NoColonInDigits(d: string)
    requires AllDigits(d)
    ensures ':' !in d
  {
  }

  /** The duration once the fields are split off and read. */
  lemma DurationOfFields(duration: string, minutes: int, seconds: int)
    requires |Split(duration, ':')| >= 2
    requires ParseInt(Split(duration, ':')[0]) == Some(minutes)
    requires ParseInt(Split(duration, ':')[1]) == Some(seconds)
    ensures DurationToSeconds(duration).Some? && DurationToSeconds(duration).value == minutes * 60 + seconds
  {
  }

  /** Splitting `m:ss` at `:` when neither field holds one. */
  lemma SplitTwoFields(m: string, ss: string)
    requires ':' !in m && ':' !in ss
    ensures Split(m + ":" + ss, ':') == [m, ss]
  {
    assert m + ":" + ss == m + [':'] + ss;
    SplitAt(m, ':', ss);
  }

  /** For `m:ss` with decimal fields the duration is `m * 60 + ss` seconds. */
  lemma DurationOfDigits(m: string, ss: string)
    requires m != [] && AllDigits(m)
    requires ss != [] && AllDigits(ss)
    ensures DurationToSeconds(m + ":" + ss).Some?
    ensures DurationToSeconds(m + ":" + ss).value == DigitsValue(m) * 60 + DigitsValue(ss)
  {
    NoColonInDigits(m);
    NoColonInDigits(ss);
    SplitTwoFields(m, ss);
    ParseIntOfDigits(m);
    ParseIntOfDigits(ss);
    DurationOfFields(m + ":" + ss, DigitsValue(m) as int, DigitsValue(ss) as int);
  }

  /** Splitting `h:mm:ss` at `:` when no field holds one. */
  lemma SplitThreeFields(h: string, mm: string, ss: string)
    requires ':' !in h && ':' !in mm && ':' !in ss
    ensures Split(h + ":" + mm + ":" + ss, ':') == [h, mm, ss]
  {
    var tail := mm + [':'] + ss;
    assert h + ":" + mm + ":" + ss == h + [':'] + tail;
    SplitAt(h, ':', tail);
    SplitAt(mm, ':', ss);
  }

  /**
   * An hour-long `h:mm:ss` is read only through its first two fields, as
   * `h * 60 + mm`: the seconds field is never looked at.
   */
  lemma DurationOfThreeFields(h: string, mm: string, ss: string)
    requires h != [] && AllDigits(h)
    requires mm != [] && AllDigits(mm)
    requires AllDigits(ss)
    ensures DurationToSeconds(h + ":" + mm + ":" + ss).Some?
    ensures DurationToSeconds(h + ":" + mm + ":" + ss).value == DigitsValue(h) * 60 + DigitsValue(mm)
  {
    NoColonInDigits(h);
    NoColonInDigits(mm);
    NoColonInDigits(ss);
    SplitThreeFields(h, mm, ss);
    ParseIntOfDigits(h);
    ParseIntOfDigits(mm);
    DurationOfFields(h + ":" + mm + ":" + ss, DigitsValue(h) as int, DigitsValue(mm) as int);
  }

  /** A duration without a `:` has no seconds field, so it reads as `NaN`. */
  lemma DurationWithoutColon(duration: string)
    requires ':' !in duration
    ensures DurationToSeconds(duration) == None
  {
  }

  /** The decimal digit for `d`. */
  function Digit(d: nat): (c: char)
    requires d < 10
    ensures IsDigit(c) && (c as int) - ('0' as int) == d
  {
    '0' + (d as char)
  }

  /** Seconds below a hundred as two digits, with a leading zero. */
  function TwoDigits(x: nat): (r: string)
    requires x < 100
    ensures |r| == 2 && AllDigits(r) && DigitsValue(r) == x
  {
    var r := [Digit(x / 10), Digit(x % 10)];
    var first := r[..1];
    assert first == [Digit(x / 10)] && first[..0] == [];
    assert DigitsValue(first) == x / 10;
    assert DigitsValue(r) == DigitsValue(first) * 10 + x % 10;
    r
  }

  /** The player's `m:ss` rendering of a number of seconds. */
  function FormatDuration(seconds: nat): string {
    NatToDigits(seconds / 60) + ":" + TwoDigits(seconds % 60)
  }

  /** Reading a rendered duration back gives the number of seconds. */
  lemma FormatDurationRoundTrip(seconds: nat)
    ensures DurationToSeconds(FormatDuration(seconds)).Some?
    ensures DurationToSeconds(FormatDuration(seconds)).value == seconds
  {
    var q, r := seconds / 60, seconds % 60;
    var m, ss := NatToDigits(q), TwoDigits(r);
    NatToDigitsValue(q);
    DurationOfDigits(m, ss);
    assert DigitsValue(m) * 60 + DigitsValue(ss) == seconds;
  }

  /** The track's duration field: the number, or `NaN`. */
  function DurationValue(d: Option<int>): Value {
    if d.Some? then Number(d.value) else NotANumber
  }

  // ---------------------------------------------------------------------------
  // Cover and labels

  /** `cover.substring('url("'.length, cover.length - '")'.length)`. */
  function CoverUrl(style: string): (r: string)
    ensures |r| <= |style|
  {
    Substring(style, 5, |style| - 2)
  }

  /** Unwrapping `url("u")` gives `u`. */
  lemma CoverOfWrapped(u: string)
    ensures CoverUrl("url(\"" + u + "\")") == u
  {
    var style := "url(\"" + u + "\")";
    assert |style| == |u| + 7;
    assert style[5..|style| - 2] == u;
  }

  /** A background image of `none`, or none at all, is clamped and swapped into `ne` and `""`. */
  lemma CoverOfNone()
    ensures CoverUrl("none") == "ne"
    ensures CoverUrl("") == ""
  {
    assert "none"[2..4] == "ne";
  }

  /** `toLocaleLowerCase` on one ASCII letter. */
  function LowerChar(c: char): char {
    if 'A' <= c <= 'Z' then ((c as int) + 32) as char else c
  }

  /** `toLocaleLowerCase`, on the ASCII letters. */
  function AsciiLower(s: string): (r: string)
    ensures |r| == |s| && forall k :: 0 <= k < |s| ==> r[k] == LowerChar(s[k])
  {
    if s == [] then [] else [LowerChar(s[0])] + AsciiLower(s[1..])
  }

  // ---------------------------------------------------------------------------
  // The track read off the page

  /**
   * What `getTrackInfo` queries from the page: the now-playing bar's artist,
   * title, elapsed-time text and cover style; whether the ads container is
   * present; whether the recently-played widget shows its playing icon, its type
   * label if it has one, and the name of the first playback-history entry.
   */
  datatype PlayerPage = PlayerPage(
    artist: string,
    title: string,
    durationText: string,
    coverStyle: string,
    hasAds: bool,
    isGroup: bool,
    typeLabel: Option<string>,
    lastPlayed: string)

  /** `type && type.innerText.toLocaleLowerCase() === word`, with `type = isGroup && label`. */
  predicate GroupIs(p: PlayerPage, word: string) {
    p.isGroup && p.typeLabel.Some? && AsciiLower(p.typeLabel.value) == word
  }

  /** `getTrackInfo`: the track record built from the page. */
  function GetTrackInfo(p: PlayerPage): (r: Track)
    ensures r.kbps == 256 || r.kbps == 128
    ensures !IsAd(r) && r.directory.None? && r.url.None?
  {
    var isPremium := !p.hasAds;
    var isAlbum := GroupIs(p, "album");
    var isPlaylist := GroupIs(p, "playlist");
    Track(
      artist := Some(p.artist),
      title := Some(p.title),
      duration := DurationValue(DurationToSeconds(p.durationText)),
      cover := CoverUrl(p.coverStyle),
      kbps := if isPremium then 256 else 128,
      playlist := if p.isGroup && isPlaylist then Text(p.lastPlayed) else Absent,
      album := if p.isGroup && isAlbum then Text(p.lastPlayed) else Absent,
      albumArtist := Absent,
      albumReleaseDate := Absent,
      albumReleaseYear := Absent,
      discNumber := Absent,
      trackNumber := Absent,
      spotifyId := Absent,
      kind := None,
      directory := None,
      url := None)
  }

  /**
   * The fields of the built track: 256 kbps exactly without ads and 128 with
   * them; a playlist only for a playing playlist group and an album only for a
   * playing album group, never both; the cover unwrapped; nothing else set.
   */
  lemma TrackInfoFields(p: PlayerPage)
    ensures var t := GetTrackInfo(p);
      && (t.kbps == 256 <==> !p.hasAds) && (t.kbps == 128 <==> p.hasAds)
      && (t.playlist != Absent <==> p.isGroup && GroupIs(p, "playlist"))
      && (t.album != Absent <==> p.isGroup && GroupIs(p, "album"))
      && !(t.playlist != Absent && t.album != Absent)
      && (t.playlist != Absent ==> t.playlist == Text(p.lastPlayed))
      && (t.album != Absent ==> t.album == Text(p.lastPlayed))
      && t.artist == Some(p.artist) && t.title == Some(p.title)
      && t.cover == CoverUrl(p.coverStyle)
      && !IsAd(t) && t.directory.None? && t.url.None?
  {
  }

  /** A page showing `m:ss` yields a track of `m * 60 + ss` seconds. */
  lemma TrackInfoDuration(p: PlayerPage, m: string, ss: string)
    requires m != [] && AllDigits(m) && ss != [] && AllDigits(ss)
    requires p.durationText == m + ":" + ss
    ensures GetTrackInfo(p).duration.Number?
    ensures GetTrackInfo(p).duration.n == DigitsValue(m) * 60 + DigitsValue(ss)
  {
    DurationOfDigits(m, ss);
  }

  // ---------------------------------------------------------------------------
  // Recording handlers

  const RemoteDeviceError := "cannot record from remote device"

  /** The answer to `prepareRecording`: an error exactly on a remote device, and the old volume. */
  function PrepareDecision(isLocal: bool, oldVolume: real): (r: PrepareAnswer)
    ensures r.error.Some? <==> !isLocal
    ensures r.volume == oldVolume
  {
    PrepareAnswer(oldVolume, if isLocal then None else Some(RemoteDeviceError))
  }

  datatype Button = PlayButton | PauseButton

  /**
   * The parts of the document the script changes: whether the hijacked volume
   * bar is present, whether the player's own bar is displayed, the `setvolume`
   * events dispatched and the player buttons clicked, oldest first.
   */
  class PlayerDom {
    var hijacked: bool
    var originalShown: bool
    var volumeEvents: seq<real>
    var clicks: seq<Button>

    constructor ()
      ensures !hijacked && originalShown && volumeEvents == [] && clicks == []
    {
      hijacked, originalShown := false, true;
      volumeEvents, clicks := [], [];
    }

    /** `setVolume`: dispatch one `setvolume` event. */
    method SetVolume(volume: real)
      modifies this
      ensures volumeEvents == old(volumeEvents) + [volume]
      ensures hijacked == old(hijacked) && originalShown == old(originalShown) && clicks == old(clicks)
    {
      volumeEvents := volumeEvents + [volume];
    }

    /**
     * `hijackVolumeControl`: add the replacement bar and hide the original one,
     * unless the replacement is already there, in which case nothing changes.
     */
    method HijackVolumeControl()
      modifies this
      ensures hijacked
      ensures originalShown == (old(originalShown) && old(hijacked))
      ensures old(hijacked) ==> originalShown == old(originalShown)
      ensures volumeEvents == old(volumeEvents) && clicks == old(clicks)
    {
      if hijacked {
        return;
      }
      hijacked := true;
      originalShown := false;
    }

    /** `releaseVolumeControl`: remove the replacement bar if any and show the original. */
    method ReleaseVolumeControl()
      modifies this
      ensures !hijacked && originalShown
      ensures volumeEvents == old(volumeEvents) && clicks == old(clicks)
    {
      if hijacked {
        hijacked := false;
      }
      originalShown := true;
    }

    /**
     * `prepareRecording`: on a local device hijack the volume bar and set the
     * player to full volume; answer with the volume read before, and the error
     * on a remote device, where nothing changes.
     */
    method PrepareRecording(isLocal: bool, oldVolume: real) returns (answer: PrepareAnswer)
      modifies this
      ensures answer == PrepareDecision(isLocal, oldVolume)
      ensures answer.error.None? ==>
        && hijacked && originalShown == (old(originalShown) && old(hijacked))
        && volumeEvents == old(volumeEvents) + [1.0] && clicks == old(clicks)
      ensures answer.error.Some? ==>
        && hijacked == old(hijacked) && originalShown == old(originalShown)
        && volumeEvents == old(volumeEvents) && clicks == old(clicks)
    {
      var error := if !isLocal then Some(RemoteDeviceError) else None;
      if error.None? {
        HijackVolumeControl();
        SetVolume(1.0);
      }
      answer := PrepareAnswer(oldVolume, error);
    }

    /** `startRecording`: press play when the play button is shown. */
    method StartRecording(playShown: bool)
      modifies this
      ensures clicks == old(clicks) + (if playShown then [PlayButton] else [])
      ensures hijacked == old(hijacked) && originalShown == old(originalShown) && volumeEvents == old(volumeEvents)
    {
      if playShown {
        clicks := clicks + [PlayButton];
      }
    }

    /**
     * `stopRecording`: give the player its own volume bar back, restore the
     * volume sent along, and press pause when the pause button is shown.
     */
    method StopRecording(volume: real, pauseShown: bool)
      modifies this
      ensures !hijacked && originalShown
      ensures volumeEvents == old(volumeEvents) + [volume]
      ensures clicks == old(clicks) + (if pauseShown then [PauseButton] else [])
    {
      ReleaseVolumeControl();
      SetVolume(volume);
      if pauseShown {
        clicks := clicks + [PauseButton];
      }
    }

    /** The `initplayer` listener: full volume for the first track of a running recording. */
    method OnInitPlayer(isRecording: bool)
      modifies this
      ensures volumeEvents == old(volumeEvents) + (if isRecording then [1.0] else [])
      ensures hijacked == old(hijacked) && originalShown == old(originalShown) && clicks == old(clicks)
    {
      if isRecording {
        SetVolume(1.0);
      }
    }

    /** On load: a recording already running takes the volume bar over at once. */
    method OnLoad(isRecording: bool)
      modifies this
      ensures isRecording ==> hijacked && originalShown == (old(originalShown) && old(hijacked))
      ensures !isRecording ==> hijacked == old(hijacked) && originalShown == old(originalShown)
      ensures volumeEvents == old(volumeEvents) && clicks == old(clicks)
    {
      if isRecording {
        HijackVolumeControl();
      }
    }
  }

  /**
   * Preparing twice on a fresh page hijacks once: after either call the
   * replacement bar is present and the original hidden, and only the full-volume
   * event is repeated.
   */
  method PrepareTwice(oldVolume: real) returns (once: (bool, bool), twice: (bool, bool), events: seq<real>)
    ensures once == (true, false) && twice == once
    ensures events == [1.0, 1.0]
  {
    var dom := new PlayerDom();
    var _ := dom.PrepareRecording(true, oldVolume);
    once := (dom.hijacked, dom.originalShown);
    var _ := dom.PrepareRecording(true, oldVolume);
    twice := (dom.hijacked, dom.originalShown);
    events := dom.volumeEvents;
  }
}
