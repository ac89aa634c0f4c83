/**
 * The track encoder worker (background-page/Mp3Worker.js): module-level state
 * holding the sample rate, the init options, the frame buffer and its counter,
 * driven by `init` / `start` / `record` / `finish` / `cancel` messages.
 *
 * The LAME encoder is modelled as the sequence of frames it has consumed and
 * the ID3 writer as the list of frame ids set on it; `Date.now()` is a clock
 * function giving the value of its n-th reading.
 */
module Mp3Worker {
  import opened Wrappers
  import opened Tracks

  /** The only channel count the worker accepts. */
  const NumChannels := 2

  /** One interleaved PCM buffer as handed over by the recorder. */
  type Frame = seq<real>

  /** The opaque `options` object passed with `init`. */
  type Options = map<string, Value>

  /** An encoder instance: its configuration and the frames fed to it so far. */
  datatype Encoder = Encoder(sampleRate: int, kbps: int, consumed: seq<Frame>)

  /** The `audio/mpeg` blob `encoder.finish` returns: the encoding of the frames it consumed. */
  datatype Blob = Blob(sampleRate: int, kbps: int, frames: seq<Frame>)

  /** The ID3 frames the worker may set, in the order the source sets them. */
  datatype FrameId = TPE1 | TIT2 | TLEN | APIC | TALB | TPE2 | TDAT | TYER | TPOS | TRCK | TXXX

  /** The tagged file: the audio blob and the ID3 frames written into it, in order. */
  datatype Artifact = Artifact(audio: Blob, tags: seq<FrameId>)

  /** What the worker posts back to the page that owns it. */
  datatype Message = Error(message: string) | Progress(progress: real) | Complete(track: Track, artifact: Artifact)

  /** The outcome of `fetch(track.cover)` followed by `arrayBuffer()`. */
  datatype CoverFetch = FetchFailed | Fetched(byteLength: nat, mimeType: Option<string>)

  /** The commands of the worker's `onmessage` switch. */
  datatype Command =
    | Init(numChannels: int, sampleRate: int, options: Options)
    | Start
    | Record(buffer: Frame)
    | Finish(track: Track)
    | Cancel
    | Unknown(name: string)

  // ---------------------------------------------------------------------------
  // Progress values

  /** The fraction `(count - remaining) / count` that the drain loop reports. */
  function Fraction(count: nat, remaining: nat): (r: real)
    requires remaining <= count && count > 0
    ensures 0.0 <= r <= 1.0
    ensures remaining == 0 ==> r == 1.0
  {
    FractionBounds(count - remaining, count);
    (count - remaining) as real / count as real
  }

  lemma FractionBounds(a: nat, d: nat)
    requires a <= d && d > 0
    ensures 0.0 <= a as real / d as real <= 1.0
  {
    assert (a as real / d as real) * (d as real) == a as real;
  }

  lemma DivideMonotone(x: real, y: real, d: real)
    requires x <= y && d > 0.0
    ensures x / d <= y / d
  {
    var q1, q2 := x / d, y / d;
    assert q1 * d == x && q2 * d == y;
    assert (q2 - q1) * d == y - x;
  }

  /** Fewer frames left means a larger fraction: the reports never go backwards. */
  lemma FractionMonotone(count: nat, r1: nat, r2: nat)
    requires r2 <= r1 <= count && count > 0
    ensures Fraction(count, r1) <= Fraction(count, r2)
  {
    DivideMonotone((count - r1) as real, (count - r2) as real, count as real);
  }

  /** Progress messages, starting with 0, each within [0, hi], never decreasing. */
  predicate Rising(p: seq<Message>, hi: real) {
    && |p| >= 1
    && (forall i :: 0 <= i < |p| ==> p[i].Progress? && 0.0 <= p[i].progress <= hi)
    && p[0] == Progress(0.0)
    && (forall i, j :: 0 <= i < j < |p| ==> p[i].progress <= p[j].progress)
  }

  /** A rising run stays rising under a larger bound. */
  lemma RisingRaise(p: seq<Message>, hi: real, hi2: real)
    requires Rising(p, hi) && hi <= hi2
    ensures Rising(p, hi2)
  {
  }

  /** Posting a value no smaller than the bound keeps the run rising, bounded by that value. */
  lemma RisingExtend(p: seq<Message>, hi: real, x: real)
    requires Rising(p, hi) && hi <= x
    ensures Rising(p + [Progress(x)], x)
  {
    var q := p + [Progress(x)];
    assert forall i :: 0 <= i < |p| ==> q[i] == p[i];
  }

  /** The messages of one `finish`: a rising run of progress values that ends with 1. */
  predicate ProgressRun(p: seq<Message>) {
    |p| >= 2 && Rising(p, 1.0) && p[|p| - 1] == Progress(1.0)
  }

  // ---------------------------------------------------------------------------
  // ID3 tags

  /** The fixed order in which the frames are set. */
  const TagOrder: seq<FrameId> := [TPE1, TIT2, TLEN, APIC, TALB, TPE2, TDAT, TYER, TPOS, TRCK, TXXX]

  /** The position of a frame id in `TagOrder`. */
  function Rank(id: FrameId): (r: nat)
    ensures r < |TagOrder| && TagOrder[r] == id
  {
    match id
    case TPE1 => 0 case TIT2 => 1 case TLEN => 2 case APIC => 3 case TALB => 4 case TPE2 => 5
    case TDAT => 6 case TYER => 7 case TPOS => 8 case TRCK => 9 case TXXX => 10
  }

  /**
   * Whether a frame is written: artist, title and length always, the picture
   * when the cover has bytes, every other frame when its track field is truthy.
   */
  predicate Included(track: Track, coverLength: nat, id: FrameId) {
    match id
    case TPE1 => true
    case TIT2 => true
    case TLEN => true
    case APIC => coverLength > 0
    case TALB => Truthy(track.album)
    case TPE2 => Truthy(track.albumArtist)
    case TDAT => Truthy(track.albumReleaseDate)
    case TYER => Truthy(track.albumReleaseYear)
    case TPOS => Truthy(track.discNumber)
    case TRCK => Truthy(track.trackNumber)
    case TXXX => Truthy(track.spotifyId)
  }

  /** `[id]` when `b` holds, nothing otherwise. */
  function Opt(b: bool, id: FrameId): seq<FrameId> {
    if b then [id] else []
  }

  /** The ids of `ids` that are included, in their original order. */
  function Select(ids: seq<FrameId>, track: Track, coverLength: nat): (r: seq<FrameId>)
    ensures |r| <= |ids|
    ensures forall k :: 0 <= k < |r| ==> Included(track, coverLength, r[k])
  {
    if ids == [] then []
    else Opt(Included(track, coverLength, ids[0]), ids[0]) + Select(ids[1..], track, coverLength)
  }

  /** The frames a track is tagged with: the fixed order, filtered by `Included`. */
  function TagPlan(track: Track, coverLength: nat): (r: seq<FrameId>)
    ensures |r| <= |TagOrder|
    ensures forall k :: 0 <= k < |r| ==> Included(track, coverLength, r[k])
  {
    Select(TagOrder, track, coverLength)
  }

  /** Frame ids strictly in `TagOrder` order: so none repeats. */
  predicate InTagOrder(s: seq<FrameId>) {
    forall i, j :: 0 <= i < j < |s| ==> Rank(s[i]) < Rank(s[j])
  }

  /** Each position of the fixed order holds the id of that rank. */
  lemma OrderRanks()
    ensures forall i :: 0 <= i < |TagOrder| ==> Rank(TagOrder[i]) == i
    ensures InTagOrder(TagOrder)
  {
    assert forall i :: 0 <= i < |TagOrder| ==> Rank(TagOrder[i]) == i;
  }

  lemma RankInjective(x: FrameId, y: FrameId)
    requires Rank(x) == Rank(y)
    ensures x == y
  {
    assert TagOrder[Rank(x)] == x && TagOrder[Rank(y)] == y;
  }

  lemma {:induction false} SelectMembers(ids: seq<FrameId>, track: Track, coverLength: nat, id: FrameId)
    ensures id in Select(ids, track, coverLength) <==> id in ids && Included(track, coverLength, id)
  {
    if ids != [] {
      SelectMembers(ids[1..], track, coverLength, id);
      assert ids == [ids[0]] + ids[1..];
    }
  }

  lemma {:induction false} SelectKeepsOrder(ids: seq<FrameId>, track: Track, coverLength: nat)
    requires InTagOrder(ids)
    ensures InTagOrder(Select(ids, track, coverLength))
  {
    if ids != [] {
      var rest := Select(ids[1..], track, coverLength);
      SelectKeepsOrder(ids[1..], track, coverLength);
      forall id | id in rest ensures Rank(ids[0]) < Rank(id) {
        SelectMembers(ids[1..], track, coverLength, id);
        var k :| 0 <= k < |ids[1..]| && ids[1..][k] == id;
        assert ids[k + 1] == id;
      }
      if Included(track, coverLength, ids[0]) {
        OrderedCons(ids[0], rest);
      }
    }
  }

  /** An id ranked below everything in an ordered sequence can go in front of it. */
  lemma OrderedCons(x: FrameId, rest: seq<FrameId>)
    requires InTagOrder(rest)
    requires forall id :: id in rest ==> Rank(x) < Rank(id)
    ensures InTagOrder([x] + rest)
  {
    var s := [x] + rest;
    forall i, j | 0 <= i < j < |s| ensures Rank(s[i]) < Rank(s[j]) {
      assert s[j] == rest[j - 1] && s[j] in rest;
      if 0 < i {
        assert s[i] == rest[i - 1];
      }
    }
  }

  /** In an ordered sequence the first element has the least rank. */
  lemma HeadIsLeast(s: seq<FrameId>, x: FrameId)
    requires InTagOrder(s) && x in s
    ensures Rank(s[0]) <= Rank(x)
  {
    var i :| 0 <= i < |s| && s[i] == x;
    if i > 0 {
      assert Rank(s[0]) < Rank(s[i]);
    }
  }

  /** The tail of an ordered sequence is ordered and has every member but the head. */
  lemma TailOfOrdered(s: seq<FrameId>)
    requires InTagOrder(s) && s != []
    ensures InTagOrder(s[1..])
    ensures forall id :: id in s[1..] <==> id in s && id != s[0]
  {
    assert s == [s[0]] + s[1..];
    forall id | id in s[1..] ensures id != s[0] {
      var k :| 0 <= k < |s[1..]| && s[1..][k] == id;
      assert Rank(s[0]) < Rank(s[k + 1]);
    }
  }

  /** Two sequences in the fixed order with the same members are equal. */
  lemma {:induction false} SameMembersInOrder(a: seq<FrameId>, b: seq<FrameId>)
    requires InTagOrder(a) && InTagOrder(b)
    requires forall id :: id in a <==> id in b
    ensures a == b
    decreases |a|
  {
    assert a != [] ==> a[0] in b;
    assert b != [] ==> b[0] in a;
    if a != [] {
      HeadIsLeast(a, b[0]);
      HeadIsLeast(b, a[0]);
      RankInjective(a[0], b[0]);
      TailOfOrdered(a);
      TailOfOrdered(b);
      SameMembersInOrder(a[1..], b[1..]);
      assert a == [a[0]] + a[1..] && b == [b[0]] + b[1..];
    }
  }

  /**
   * The tag plan: a frame is present exactly when it is included, and the
   * frames follow the fixed order without repeats.
   */
  lemma TagPlanShape(track: Track, coverLength: nat)
    ensures forall id :: id in TagPlan(track, coverLength) <==> Included(track, coverLength, id)
    ensures InTagOrder(TagPlan(track, coverLength))
  {
    forall id ensures id in TagPlan(track, coverLength) <==> Included(track, coverLength, id) {
      SelectMembers(TagOrder, track, coverLength, id);
      assert TagOrder[Rank(id)] == id;
    }
    OrderRanks();
    SelectKeepsOrder(TagOrder, track, coverLength);
  }

  /** `frames` holds exactly the included ids of rank below `k`, in the fixed order. */
  ghost predicate Decided(frames: seq<FrameId>, track: Track, coverLength: nat, k: nat) {
    && InTagOrder(frames)
    && (forall i :: 0 <= i < |frames| ==> Rank(frames[i]) < k)
    && (forall id :: Rank(id) < k ==> (id in frames <==> Included(track, coverLength, id)))
  }

  /** Deciding the frame `id` of the next rank keeps the written frames settled. */
  lemma DecideNext(done: seq<FrameId>, frames: seq<FrameId>, id: FrameId, track: Track, coverLength: nat)
    requires Decided(done, track, coverLength, Rank(id))
    requires frames == done + Opt(Included(track, coverLength, id), id)
    ensures Decided(frames, track, coverLength, Rank(id) + 1)
  {
    forall x | Rank(x) == Rank(id) ensures x == id {
      RankInjective(x, id);
    }
    forall x | x in done ensures Rank(x) < Rank(id) {
      var i :| 0 <= i < |done| && done[i] == x;
    }
  }

  /** Artist, title and length settle the ranks below three. */
  lemma FixedFramesDecided(track: Track, coverLength: nat)
    ensures Decided([TPE1, TIT2, TLEN], track, coverLength, 3)
  {
    var p0: seq<FrameId> := [];
    DecideNext(p0, [TPE1], TPE1, track, coverLength);
    DecideNext([TPE1], [TPE1, TIT2], TIT2, track, coverLength);
    DecideNext([TPE1, TIT2], [TPE1, TIT2, TLEN], TLEN, track, coverLength);
  }

  /** Artist, title and length come first. */
  predicate StartsFixed(s: seq<FrameId>) {
    |s| >= 3 && s[0] == TPE1 && s[1] == TIT2 && s[2] == TLEN
  }

  /** Deciding the optional frames of the next two ranks, included as `b1` and `b2` say. */
  lemma DecideTwo(done: seq<FrameId>, first: FrameId, b1: bool, second: FrameId, b2: bool, track: Track, coverLength: nat)
    requires Decided(done, track, coverLength, Rank(first)) && StartsFixed(done)
    requires Rank(second) == Rank(first) + 1
    requires b1 == Included(track, coverLength, first) && b2 == Included(track, coverLength, second)
    ensures Decided(done + Opt(b1, first) + Opt(b2, second), track, coverLength, Rank(second) + 1)
    ensures StartsFixed(done + Opt(b1, first) + Opt(b2, second))
  {
    var mid := done + Opt(b1, first);
    DecideNext(done, mid, first, track, coverLength);
    DecideNext(mid, mid + Opt(b2, second), second, track, coverLength);
  }

  /** Cover, album, album artist and release date settle the ranks three to six. */
  lemma AlbumFramesDecided(track: Track, coverLength: nat)
    ensures var p7 := [] + [TPE1] + [TIT2] + [TLEN] + Opt(coverLength > 0, APIC) + Opt(Truthy(track.album), TALB)
                      + Opt(Truthy(track.albumArtist), TPE2) + Opt(Truthy(track.albumReleaseDate), TDAT);
            Decided(p7, track, coverLength, Rank(TYER)) && StartsFixed(p7)
  {
    var c := coverLength;
    var p3 := [] + [TPE1] + [TIT2] + [TLEN];
    assert p3 == [TPE1, TIT2, TLEN];
    FixedFramesDecided(track, c);
    DecideTwo(p3, APIC, c > 0, TALB, Truthy(track.album), track, c);
    DecideTwo(p3 + Opt(c > 0, APIC) + Opt(Truthy(track.album), TALB),
              TPE2, Truthy(track.albumArtist), TDAT, Truthy(track.albumReleaseDate), track, c);
  }

  /** The handler's chain of optional frames settles every rank in turn. */
  lemma HandlerChainDecided(track: Track, coverLength: nat, frames: seq<FrameId>)
    requires frames ==
      [] + [TPE1] + [TIT2] + [TLEN] + Opt(coverLength > 0, APIC) + Opt(Truthy(track.album), TALB)
      + Opt(Truthy(track.albumArtist), TPE2) + Opt(Truthy(track.albumReleaseDate), TDAT)
      + Opt(Truthy(track.albumReleaseYear), TYER) + Opt(Truthy(track.discNumber), TPOS)
      + Opt(Truthy(track.trackNumber), TRCK) + Opt(Truthy(track.spotifyId), TXXX)
    ensures Decided(frames, track, coverLength, |TagOrder|)
    ensures StartsFixed(frames)
  {
    var c := coverLength;
    var p7 := [] + [TPE1] + [TIT2] + [TLEN] + Opt(c > 0, APIC) + Opt(Truthy(track.album), TALB)
      + Opt(Truthy(track.albumArtist), TPE2) + Opt(Truthy(track.albumReleaseDate), TDAT);
    AlbumFramesDecided(track, c);
    DecideTwo(p7, TYER, Truthy(track.albumReleaseYear), TPOS, Truthy(track.discNumber), track, c);
    DecideTwo(p7 + Opt(Truthy(track.albumReleaseYear), TYER) + Opt(Truthy(track.discNumber), TPOS),
              TRCK, Truthy(track.trackNumber), TXXX, Truthy(track.spotifyId), track, c);
  }

  /** A sequence that starts with the fixed frames has them as its first three. */
  lemma FixedPrefix(s: seq<FrameId>)
    requires StartsFixed(s)
    ensures s[..3] == [TPE1, TIT2, TLEN]
  {
  }

  /**
   * The frames that the completion handler's chain of `setFrame` calls leaves
   * on the writer are the tag plan: artist, title and length first, every
   * other frame exactly when it is included, in the fixed order.
   */
  lemma HandlerChainIsPlan(track: Track, coverLength: nat, frames: seq<FrameId>)
    requires frames ==
      [] + [TPE1] + [TIT2] + [TLEN] + Opt(coverLength > 0, APIC) + Opt(Truthy(track.album), TALB)
      + Opt(Truthy(track.albumArtist), TPE2) + Opt(Truthy(track.albumReleaseDate), TDAT)
      + Opt(Truthy(track.albumReleaseYear), TYER) + Opt(Truthy(track.discNumber), TPOS)
      + Opt(Truthy(track.trackNumber), TRCK) + Opt(Truthy(track.spotifyId), TXXX)
    ensures |frames| >= 3 && frames[..3] == [TPE1, TIT2, TLEN]
    ensures forall id :: id in frames <==> Included(track, coverLength, id)
    ensures InTagOrder(frames)
    ensures frames == TagPlan(track, coverLength)
  {
    HandlerChainDecided(track, coverLength, frames);
    FixedPrefix(frames);
    TagPlanShape(track, coverLength);
    SameMembersInOrder(frames, TagPlan(track, coverLength));
  }

  /** The ID3 writer, reduced to the list of frame ids set on it. */
  class Id3Writer {
    const file: Blob
    var frames: seq<FrameId>

    constructor (file: Blob)
      ensures this.file == file && frames == []
    {
      this.file := file;
      frames := [];
    }

    method SetFrame(id: FrameId)
      modifies this
      ensures frames == old(frames) + [id]
    {
      frames := frames + [id];
    }

    /** `if (present) writer.setFrame(id, ...)`: an optional frame. */
    method SetFrameIf(present: bool, id: FrameId)
      modifies this
      ensures frames == old(frames) + Opt(present, id)
    {
      if present {
        SetFrame(id);
      }
    }
  }

  /**
   * The tagging done by the completion handler; returns the frames set on the
   * writer, which are the tag plan of the track and the cover length.
   */
  method WriteTags(file: Blob, track: Track, coverLength: nat) returns (tags: seq<FrameId>)
    ensures |tags| >= 3 && tags[..3] == [TPE1, TIT2, TLEN]
    ensures forall id :: id in tags <==> Included(track, coverLength, id)
    ensures InTagOrder(tags)
    ensures tags == TagPlan(track, coverLength)
  {
    var writer := new Id3Writer(file);
    writer.SetFrame(TPE1);
    writer.SetFrame(TIT2);
    writer.SetFrame(TLEN);
    writer.SetFrameIf(coverLength > 0, APIC);
    writer.SetFrameIf(Truthy(track.album), TALB);
    writer.SetFrameIf(Truthy(track.albumArtist), TPE2);
    writer.SetFrameIf(Truthy(track.albumReleaseDate), TDAT);
    writer.SetFrameIf(Truthy(track.albumReleaseYear), TYER);
    writer.SetFrameIf(Truthy(track.discNumber), TPOS);
    writer.SetFrameIf(Truthy(track.trackNumber), TRCK);
    writer.SetFrameIf(Truthy(track.spotifyId), TXXX);
    tags := writer.frames;
    HandlerChainIsPlan(track, coverLength, tags);
  }

  // ---------------------------------------------------------------------------
  // The worker

  /** The error text `init` posts for a wrong channel count. */
  const ChannelError := "Mp3Worker: numChannels must be 2"

  class Worker {
    var sampleRate: int
    var options: Option<Options>
    var encoder: Option<Encoder>
    var recBuffers: Option<seq<Frame>>
    var bufferCount: nat
    /** Every message posted so far, oldest first. */
    var posted: seq<Message>

    /**
     * Between two messages no encoder is alive, and the buffer never holds more
     * frames than were counted since the last cleanup.
     */
    ghost predicate Valid()
      reads this
    {
      && encoder.None?
      && (recBuffers.Some? ==> |recBuffers.value| <= bufferCount)
      && (recBuffers.None? ==> bufferCount == 0)
    }

    constructor ()
      ensures Valid()
      ensures sampleRate == 44100 && options == None && recBuffers == None && bufferCount == 0 && posted == []
    {
      sampleRate, options, encoder, recBuffers, bufferCount := 44100, None, None, None, 0;
      posted := [];
    }

    /** `init`: records the configuration only for two channels, otherwise posts an error. */
    method Init(numChannels: int, rate: int, opts: Options)
      requires Valid()
      modifies this
      ensures Valid()
      ensures numChannels == NumChannels ==>
        sampleRate == rate && options == Some(opts) && posted == old(posted)
      ensures numChannels != NumChannels ==>
        sampleRate == old(sampleRate) && options == old(options) && posted == old(posted) + [Error(ChannelError)]
      ensures encoder == old(encoder) && recBuffers == old(recBuffers) && bufferCount == old(bufferCount)
    {
      if numChannels == NumChannels {
        sampleRate := rate;
        options := Some(opts);
      } else {
        posted := posted + [Error(ChannelError)];
      }
    }

    /** `start`: a fresh, empty buffer; the counter is left as it is. */
    method Start()
      requires Valid()
      modifies this
      ensures Valid()
      ensures recBuffers == Some([]) && bufferCount == old(bufferCount)
      ensures sampleRate == old(sampleRate) && options == old(options) && encoder == old(encoder) && posted == old(posted)
    {
      recBuffers := Some([]);
    }

    /** `record`: one more frame at the end of the buffer, one more on the counter. */
    method Record(buffer: Frame)
      requires Valid() && recBuffers.Some?
      modifies this
      ensures Valid()
      ensures recBuffers == Some(old(recBuffers.value) + [buffer]) && bufferCount == old(bufferCount) + 1
      ensures sampleRate == old(sampleRate) && options == old(options) && encoder == old(encoder) && posted == old(posted)
    {
      bufferCount := bufferCount + 1;
      recBuffers := Some(recBuffers.value + [buffer]);
    }

    /** `cleanup`, which is also the whole of `cancel`. */
    method Cleanup()
      modifies this
      ensures Valid()
      ensures encoder == None && recBuffers == None && bufferCount == 0
      ensures sampleRate == old(sampleRate) && options == old(options) && posted == old(posted)
    {
      encoder, recBuffers := None, None;
      bufferCount := 0;
    }

    /** The progress bound reached so far: the fraction of the counted frames already encoded. */
    ghost function Reached(): real
      reads this
      requires recBuffers.Some? && |recBuffers.value| <= bufferCount
    {
      if bufferCount == 0 then 0.0 else Fraction(bufferCount, |recBuffers.value|)
    }

    /**
     * The loop of `finish`: feed the buffer front first to the encoder, posting
     * the fraction done whenever a second has passed since the last report.
     * `clock(n)` is the n-th reading of `Date.now()`; `run` is the progress run
     * posted since `before`.
     */
    method Drain(clock: nat -> int, timeout0: int, ghost before: seq<Message>, ghost run0: seq<Message>)
      returns (ghost run: seq<Message>)
      requires recBuffers.Some? && encoder.Some? && |recBuffers.value| <= bufferCount
      requires posted == before + run0 && Rising(run0, Reached())
      modifies this
      ensures recBuffers == Some([]) && encoder.Some?
      ensures encoder.value == old(encoder.value).(consumed := old(encoder.value.consumed + recBuffers.value))
      ensures bufferCount == old(bufferCount) && sampleRate == old(sampleRate) && options == old(options)
      ensures posted == before + run && Rising(run, Reached())
    {
      ghost var frames := encoder.value.consumed + recBuffers.value;
      ghost var start := encoder.value;
      run := run0;
      var readings: nat := 1;
      var timeout := timeout0;
      while |recBuffers.value| > 0
        invariant recBuffers.Some? && encoder.Some? && |recBuffers.value| <= bufferCount
        invariant encoder.value == start.(consumed := encoder.value.consumed)
        invariant encoder.value.consumed + recBuffers.value == frames
        invariant bufferCount == old(bufferCount) && sampleRate == old(sampleRate) && options == old(options)
        invariant posted == before + run && Rising(run, Reached())
        decreases |recBuffers.value|
      {
        ghost var held := recBuffers.value;
        ghost var lo := Reached();
        var frame := recBuffers.value[0];
        recBuffers := Some(recBuffers.value[1..]);
        encoder := Some(encoder.value.(consumed := encoder.value.consumed + [frame]));
        assert encoder.value.consumed + recBuffers.value == frames by {
          assert [frame] + recBuffers.value == held;
        }
        FractionMonotone(bufferCount, |held|, |recBuffers.value|);
        var now := clock(readings);
        readings := readings + 1;
        if now > timeout {
          RisingExtend(run, lo, Reached());
          run := run + [Progress(Fraction(bufferCount, |recBuffers.value|))];
          posted := posted + [Progress(Fraction(bufferCount, |recBuffers.value|))];
          timeout := now + 1000;
        } else {
          RisingRaise(run, lo, Reached());
        }
      }
    }

    /**
     * The synchronous part of `finish`: drain the buffer front first into a new
     * encoder, posting 0, the throttled fractions and 1, then finish the
     * encoder and clean up. `clock(n)` is the n-th reading of `Date.now()`.
     */
    method FinishTrack(track: Track, clock: nat -> int) returns (blob: Blob)
      requires Valid() && recBuffers.Some?
      modifies this
      ensures Valid()
      ensures blob == Blob(old(sampleRate), track.kbps, old(recBuffers.value))
      ensures encoder == None && recBuffers == None && bufferCount == 0
      ensures sampleRate == old(sampleRate) && options == old(options)
      ensures |posted| >= |old(posted)| && posted[..|old(posted)|] == old(posted)
      ensures ProgressRun(posted[|old(posted)|..])
    {
      ghost var before := posted;
      posted := posted + [Progress(0.0)];
      encoder := Some(Encoder(sampleRate, track.kbps, []));
      var timeout := clock(0) + 1000;
      ghost var run := Drain(clock, timeout, before, [Progress(0.0)]);
      RisingExtend(run, Reached(), 1.0);
      run := run + [Progress(1.0)];
      posted := posted + [Progress(1.0)];
      assert posted[|before|..] == run;
      blob := Blob(encoder.value.sampleRate, encoder.value.kbps, encoder.value.consumed);
      Cleanup();
    }

    /**
     * The completion handler that runs once both the file and the cover have
     * been read: tag the file and post `complete` with the track's url set.
     * A failed cover fetch rejects `Promise.all`, so nothing is posted.
     */
    method Deliver(blob: Blob, track: Track, cover: CoverFetch, url: string)
      modifies this
      ensures cover.FetchFailed? ==> posted == old(posted)
      ensures cover.Fetched? ==>
        posted == old(posted) + [Complete(track.(url := Some(url)), Artifact(blob, TagPlan(track, cover.byteLength)))]
      ensures sampleRate == old(sampleRate) && options == old(options) && encoder == old(encoder)
      ensures recBuffers == old(recBuffers) && bufferCount == old(bufferCount)
    {
      if cover.Fetched? {
        var tags := WriteTags(blob, track, cover.byteLength);
        posted := posted + [Complete(track.(url := Some(url)), Artifact(blob, tags))];
      }
    }

    /**
     * `onmessage`: route one command. `finish` hands back the encoded blob for
     * the later completion step; an unknown command only posts an error.
     */
    method Dispatch(cmd: Command, clock: nat -> int) returns (pending: Option<Blob>)
      requires Valid()
      requires (cmd.Record? || cmd.Finish?) ==> recBuffers.Some?
      modifies this
      ensures Valid()
      ensures pending.Some? <==> cmd.Finish?
      ensures cmd.Init? && cmd.numChannels == NumChannels ==>
        sampleRate == cmd.sampleRate && options == Some(cmd.options) && posted == old(posted)
        && recBuffers == old(recBuffers) && bufferCount == old(bufferCount)
      ensures cmd.Init? && cmd.numChannels != NumChannels ==>
        sampleRate == old(sampleRate) && options == old(options) && posted == old(posted) + [Error(ChannelError)]
        && recBuffers == old(recBuffers) && bufferCount == old(bufferCount)
      ensures cmd.Start? ==>
        recBuffers == Some([]) && bufferCount == old(bufferCount)
        && sampleRate == old(sampleRate) && options == old(options) && posted == old(posted)
      ensures cmd.Record? ==>
        recBuffers == Some(old(recBuffers.value) + [cmd.buffer]) && bufferCount == old(bufferCount) + 1
        && sampleRate == old(sampleRate) && options == old(options) && posted == old(posted)
      ensures cmd.Finish? ==>
        pending.value == Blob(old(sampleRate), cmd.track.kbps, old(recBuffers.value))
        && recBuffers == None && bufferCount == 0 && sampleRate == old(sampleRate) && options == old(options)
        && |posted| >= |old(posted)| && posted[..|old(posted)|] == old(posted)
        && ProgressRun(posted[|old(posted)|..])
      ensures cmd.Cancel? ==>
        recBuffers == None && bufferCount == 0
        && sampleRate == old(sampleRate) && options == old(options) && posted == old(posted)
      ensures cmd.Unknown? ==>
        posted == old(posted) + [Error("Mp3Worker: Unknown command: " + cmd.name)]
        && sampleRate == old(sampleRate) && options == old(options)
        && recBuffers == old(recBuffers) && bufferCount == old(bufferCount)
    {
      pending := None;
      match cmd
      case Init(n, rate, opts) => Init(n, rate, opts);
      case Start => Start();
      case Record(buffer) => Record(buffer);
      case Finish(track) =>
        var blob := FinishTrack(track, clock);
        pending := Some(blob);
      case Cancel => Cleanup();
      case Unknown(name) =>
        posted := posted + [Error("Mp3Worker: Unknown command: " + name)];
    }
  }

  /**
   * One track end to end through a fresh worker, as the messages `init` with
   * two channels, `start`, one `record` per frame and `finish`. The encoder
   * receives exactly the submitted frames in submission order, at the
   * configured rate, and the worker reports a rising progress run ending with 1.
   */
  method EncodeTrack(rate: int, opts: Options, frames: seq<Frame>, track: Track, clock: nat -> int)
    returns (blob: Blob, progress: seq<Message>)
    ensures blob == Blob(rate, track.kbps, frames)
    ensures ProgressRun(progress)
  {
    var worker := new Worker();
    var _ := worker.Dispatch(Init(NumChannels, rate, opts), clock);
    var _ := worker.Dispatch(Start, clock);
    var i := 0;
    while i < |frames|
      invariant 0 <= i <= |frames|
      invariant worker.Valid() && worker.recBuffers == Some(frames[..i])
      invariant worker.sampleRate == rate && worker.posted == []
    {
      var _ := worker.Dispatch(Record(frames[i]), clock);
      assert frames[..i] + [frames[i]] == frames[..i + 1];
      i := i + 1;
    }
    assert frames[..i] == frames;
    var pending := worker.Dispatch(Finish(track), clock);
    blob := pending.value;
    progress := worker.posted;
  }
}
