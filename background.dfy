/**
 * The background page (background-page/index.js): the persisted session record,
 * the handlers that reset it, the download file naming, and the closure that one
 * successful `startCapture` builds around a tab (its `mediaListener`,
 * `updateListener` and `stopRecording`).
 *
 * Chrome's storage is a plain record read and written synchronously; every other
 * Chrome call (icons, tab messages, notifications, downloads, broadcasts) and
 * every call into the Recorder Bridge is an entry appended to an effect log.
 */
module Background {
  import opened Wrappers
  import opened Tracks
  import opened JsStrings

  // ---------------------------------------------------------------------------
  // Download naming

  /** A masked string is all alphanumerics and spaces, so `trim` only drops spaces. */
  lemma TrimOfMasked(m: string)
    requires AllAlnumOrSpace(m)
    ensures AllAlnumOrSpace(Trim(m))
    ensures Trim(m) == [] || (IsAlnum(Trim(m)[0]) && IsAlnum(Trim(m)[|Trim(m)| - 1]))
  {
    var r := Trim(m);
    var i, j :| TrimmedAt(m, r, i, j);
    forall k | 0 <= k < |r| ensures IsAlnum(r[k]) || r[k] == ' ' {
      assert r[k] == m[i + k];
    }
  }

  /**
   * `s.replace(/[^a-zA-Z0-9]/g, ' ').trim()`: only alphanumerics and spaces
   * remain, and the result neither starts nor ends with a space.
   */
  function Sanitise(s: string): (r: string)
    ensures AllAlnumOrSpace(r)
    ensures r == [] || (IsAlnum(r[0]) && IsAlnum(r[|r| - 1]))
  {
    TrimOfMasked(MaskNonAlnum(s));
    Trim(MaskNonAlnum(s))
  }

  lemma AlnumIsNotWhitespace(c: char)
    requires IsAlnum(c)
    ensures !IsJsWhitespace(c)
  {
  }

  /** The index of the first alphanumeric character of `s`, or `|s|` when there is none. */
  function FirstAlnum(s: string): (i: nat)
    ensures i <= |s|
    ensures forall k :: 0 <= k < i ==> !IsAlnum(s[k])
    ensures i < |s| ==> IsAlnum(s[i])
  {
    if s == [] || IsAlnum(s[0]) then 0
    else
      var i := 1 + FirstAlnum(s[1..]);
      assert forall k :: 1 <= k < i ==> s[k] == s[1..][k - 1];
      i
  }

  /** The index just past the last alphanumeric character of `s`, or 0 when there is none. */
  function LastAlnumEnd(s: string): (j: nat)
    ensures j <= |s|
    ensures forall k :: j <= k < |s| ==> !IsAlnum(s[k])
    ensures j > 0 ==> IsAlnum(s[j - 1])
  {
    if s == [] || IsAlnum(s[|s| - 1]) then |s|
    else
      var j := LastAlnumEnd(s[..|s| - 1]);
      assert forall k :: 0 <= k < |s| - 1 ==> s[k] == s[..|s| - 1][k];
      j
  }

  /** The leading half of `trim` on a mask drops exactly the masked non-alphanumerics in front. */
  lemma {:induction false} TrimStartOfMask(s: string)
    ensures TrimStart(MaskNonAlnum(s)) == MaskNonAlnum(s[FirstAlnum(s)..])
  {
    if s != [] {
      if IsAlnum(s[0]) {
        AlnumIsNotWhitespace(s[0]);
        assert MaskNonAlnum(s)[0] == s[0];
        assert s[0..] == s;
      } else {
        TrimStartSpaces(MaskChar(s[0]), MaskNonAlnum(s[1..]));
        TrimStartOfMask(s[1..]);
        assert s[1..][FirstAlnum(s[1..])..] == s[FirstAlnum(s)..];
      }
    }
  }

  /** The trailing half of `trim` on a mask drops exactly the masked non-alphanumerics behind. */
  lemma {:induction false} TrimEndOfMask(s: string)
    ensures TrimEnd(MaskNonAlnum(s)) == MaskNonAlnum(s[..LastAlnumEnd(s)])
  {
    if s != [] {
      var init, c := s[..|s| - 1], s[|s| - 1];
      assert s == init + [c];
      MaskAppend(init, [c]);
      assert [c][1..] == [];
      assert MaskNonAlnum([c]) == MaskChar(c);
      if IsAlnum(c) {
        AlnumIsNotWhitespace(c);
        assert s[..|s|] == s;
      } else {
        TrimEndSpaces(MaskNonAlnum(init), MaskChar(c));
        TrimEndOfMask(init);
        assert init[..LastAlnumEnd(init)] == s[..LastAlnumEnd(s)];
      }
    }
  }

  /**
   * `s[i..j]` runs from the first to the last alphanumeric character of `s`:
   * only non-alphanumerics lie outside it.
   */
  predicate AlnumSpan(s: string, i: int, j: int) {
    && 0 <= i <= j <= |s|
    && (forall k :: 0 <= k < i ==> !IsAlnum(s[k]))
    && (forall k :: j <= k < |s| ==> !IsAlnum(s[k]))
    && (i < j ==> IsAlnum(s[i]) && IsAlnum(s[j - 1]))
  }

  /** `r` is the mask of the slice `s[i..j]` that spans the alphanumerics of `s`. */
  predicate KeptSlice(s: string, r: string, i: int, j: int) {
    AlnumSpan(s, i, j) && r == MaskNonAlnum(s[i..j])
  }

  /**
   * What sanitising keeps: the mask of the slice of `s` from its first to its
   * last alphanumeric character, so only non-alphanumerics are dropped.
   */
  lemma SanitiseKeepsSlice(s: string)
    ensures exists i, j :: KeptSlice(s, Sanitise(s), i, j)
  {
    var i := FirstAlnum(s);
    var t := s[i..];
    var n := LastAlnumEnd(t);
    SanitiseOfSpan(s, i, t, n);
    SpanInSuffix(s, i, t, n);
    assert KeptSlice(s, Sanitise(s), i, i + n);
  }

  /** Both halves of `trim` on the mask, put together. */
  lemma SanitiseOfSpan(s: string, i: nat, t: string, n: nat)
    requires i == FirstAlnum(s) && t == s[i..] && n == LastAlnumEnd(t)
    ensures Sanitise(s) == MaskNonAlnum(t[..n])
  {
    TrimStartOfMask(s);
    TrimEndOfMask(t);
  }

  /** The span from the first alphanumeric and the span inside the suffix from it, put together. */
  lemma SpanInSuffix(s: string, i: nat, t: string, n: nat)
    requires i <= |s| && t == s[i..]
    requires forall k :: 0 <= k < i ==> !IsAlnum(s[k])
    requires i < |s| ==> IsAlnum(s[i])
    requires n <= |t| && forall k :: n <= k < |t| ==> !IsAlnum(t[k])
    requires n > 0 ==> IsAlnum(t[n - 1])
    ensures AlnumSpan(s, i, i + n)
    ensures t[..n] == s[i..i + n]
  {
    forall k | i + n <= k < |s| ensures !IsAlnum(s[k]) {
      assert s[k] == t[k - i];
    }
    if 0 < n {
      assert s[i + n - 1] == t[n - 1];
    }
  }

  /** A sanitised string is left as it is by a second sanitising. */
  lemma SanitiseIdempotent(s: string)
    ensures Sanitise(Sanitise(s)) == Sanitise(s)
  {
    var r := Sanitise(s);
    MaskOfAlnumOrSpace(r);
    if r != [] {
      assert !IsJsWhitespace(r[0]) && !IsJsWhitespace(r[|r| - 1]);
      assert TrimStart(r) == r;
      assert TrimEnd(r) == r;
    }
  }

  /** One name component: the sanitised field, or `''` when it is missing or empty. */
  function Component(v: Option<string>): (r: string)
    ensures AllAlnumOrSpace(r)
    ensures r == [] || (IsAlnum(r[0]) && IsAlnum(r[|r| - 1]))
    ensures !TruthyText(v) ==> r == ""
  {
    if TruthyText(v) then Sanitise(v.value) else ""
  }

  /** The sanitised download folder, present only when `track.directory` is truthy. */
  function DirectoryPart(track: Track): (r: Option<string>)
    ensures r.Some? <==> TruthyText(track.directory)
    ensures r.Some? ==> AllAlnumOrSpace(r.value)
  {
    if TruthyText(track.directory) then Some(Sanitise(track.directory.value)) else None
  }

  /** `clipinc`, then `/dir` when there is a folder, then `/artist - title.mp3`. */
  function Assemble(directory: Option<string>, artist: string, title: string): string {
    var prefix := if directory.Some? then "clipinc" + "/" + directory.value else "clipinc";
    prefix + "/" + artist + " - " + title + ".mp3"
  }

  /** The filename `download` derives for a track. */
  function Filename(track: Track): (r: string)
    ensures |r| >= 11 && r[..7] == "clipinc" && r[|r| - 4..] == ".mp3"
  {
    AssembleMiddle(DirectoryPart(track), Component(track.artist), Component(track.title));
    Assemble(DirectoryPart(track), Component(track.artist), Component(track.title))
  }

  /** The parts a download filename is made of. */
  datatype FileParts = FileParts(directory: Option<string>, artist: string, title: string)

  /**
   * Reads a filename of the shape `Assemble` produces back into its parts:
   * `clipinc`, an optional `/dir`, then `/artist - title.mp3`.
   */
  function ParseFilename(f: string): (r: Option<FileParts>)
    ensures r.Some? ==> |f| >= 11 && f[..7] == "clipinc" && f[|f| - 4..] == ".mp3"
  {
    if |f| < 11 || f[..7] != "clipinc" || f[|f| - 4..] != ".mp3" then None
    else ParseFolders(f[7..|f| - 4])
  }

  /** `/dir/artist - title` or `/artist - title`. */
  function ParseFolders(mid: string): Option<FileParts> {
    if mid == [] || mid[0] != '/' then None
    else
      var fields := Split(mid[1..], '/');
      if |fields| > 2 then None
      else
        var dir := if |fields| == 2 then Some(fields[0]) else None;
        match ParseName(fields[|fields| - 1])
        case None => None
        case Some(p) => Some(FileParts(dir, p.0, p.1))
  }

  /** `artist - title`, split at its only `-`. */
  function ParseName(name: string): Option<(string, string)> {
    var parts := Split(name, '-');
    if |parts| != 2 || parts[0] == [] || parts[0][|parts[0]| - 1] != ' '
       || parts[1] == [] || parts[1][0] != ' ' then None
    else Some((parts[0][..|parts[0]| - 1], parts[1][1..]))
  }

  /** No separator of the filename occurs in a sanitised component. */
  lemma NoSeparator(x: string, c: char)
    requires AllAlnumOrSpace(x) && !IsAlnum(c) && c != ' '
    ensures c !in x
  {
  }

  /** `artist - title` is read back when neither part holds a `-`. */
  lemma ParseNameOf(a: string, t: string)
    requires AllAlnumOrSpace(a) && AllAlnumOrSpace(t)
    ensures '/' !in a + " - " + t
    ensures ParseName(a + " - " + t) == Some((a, t))
  {
    NoSeparator(a, '/');
    NoSeparator(t, '/');
    NoSeparator(a, '-');
    NoSeparator(t, '-');
    assert a + " - " + t == (a + " ") + ['-'] + (" " + t);
    SplitAt(a + " ", '-', " " + t);
    assert (a + " ")[..|a + " "| - 1] == a;
    assert (" " + t)[1..] == t;
  }

  /** The folder and the name are read back when neither holds a `/`. */
  lemma ParseFoldersOf(directory: Option<string>, name: string)
    requires directory.Some? ==> AllAlnumOrSpace(directory.value)
    requires '/' !in name
    ensures var mid := (if directory.Some? then "/" + directory.value else "") + "/" + name;
      ParseFolders(mid) == match ParseName(name)
        case None => None
        case Some(p) => Some(FileParts(directory, p.0, p.1))
  {
    var mid := (if directory.Some? then "/" + directory.value else "") + "/" + name;
    if directory.Some? {
      var d := directory.value;
      assert mid[1..] == d + ['/'] + name;
      NoSeparator(d, '/');
      SplitAt(d, '/', name);
    } else {
      assert mid[1..] == name;
    }
  }

  /** The three pieces of `x + y + z` are recovered by slicing. */
  lemma Pieces(x: string, y: string, z: string)
    ensures (x + y + z)[..|x|] == x
    ensures (x + y + z)[|x|..|x + y + z| - |z|] == y
    ensures (x + y + z)[|x + y + z| - |z|..] == z
  {
  }

  /** The part of an assembled name between `clipinc` and `.mp3`. */
  lemma AssembleMiddle(directory: Option<string>, artist: string, title: string)
    ensures var f := Assemble(directory, artist, title);
      && |f| >= 11 && f[..7] == "clipinc" && f[|f| - 4..] == ".mp3"
      && f[7..|f| - 4] == (if directory.Some? then "/" + directory.value else "") + "/" + (artist + " - " + title)
  {
    var mid := (if directory.Some? then "/" + directory.value else "") + "/" + (artist + " - " + title);
    assert Assemble(directory, artist, title) == "clipinc" + mid + ".mp3";
    Pieces("clipinc", mid, ".mp3");
  }

  /**
   * An assembled name is read back into the parts it was assembled from, when
   * the parts are sanitised (so hold none of `/`, `-`, `.`).
   */
  lemma ParseAssembled(directory: Option<string>, artist: string, title: string)
    requires directory.Some? ==> AllAlnumOrSpace(directory.value)
    requires AllAlnumOrSpace(artist) && AllAlnumOrSpace(title)
    ensures ParseFilename(Assemble(directory, artist, title)) == Some(FileParts(directory, artist, title))
  {
    AssembleMiddle(directory, artist, title);
    ParseNameOf(artist, title);
    ParseFoldersOf(directory, artist + " - " + title);
  }

  /**
   * The filename determines its parts: parsing it gives back the folder (when
   * one was set), the artist and the title components exactly.
   */
  lemma FilenameRoundTrip(track: Track)
    ensures ParseFilename(Filename(track)) ==
      Some(FileParts(DirectoryPart(track), Component(track.artist), Component(track.title)))
  {
    ParseAssembled(DirectoryPart(track), Component(track.artist), Component(track.title));
  }

  // ---------------------------------------------------------------------------
  // The persisted session record

  /** The record kept in `chrome.storage.local`. */
  datatype Storage = Storage(isRecording: bool, tabId: int, track: Option<Track>, songCount: int)

  /** `resetStorage`: the fixed values written on install, on startup and by `reset`. */
  const ResetStorage := Storage(false, 0, None, 0)

  /** `if (tabId && id === tabId)`: closing tab `id` ends the recorded session. */
  predicate ClosesSession(s: Storage, id: int) {
    s.tabId != 0 && id == s.tabId
  }

  /** The record after `handleTabRemove(id)`. */
  function AfterTabRemoved(s: Storage, id: int): (r: Storage)
    ensures r == ResetStorage || r == s
    ensures r != s ==> s.tabId != 0 && s.tabId == id
  {
    if ClosesSession(s, id) then ResetStorage else s
  }

  /**
   * Handling a tab removal resets the record exactly when the removed tab is the
   * recorded non-zero one, and handling it again changes nothing more.
   */
  lemma TabRemovedResetsOnce(s: Storage, id: int)
    ensures AfterTabRemoved(s, id) == ResetStorage || AfterTabRemoved(s, id) == s
    ensures AfterTabRemoved(s, id) != s ==> s.tabId != 0 && s.tabId == id
    ensures AfterTabRemoved(AfterTabRemoved(s, id), id) == AfterTabRemoved(s, id)
    ensures forall other :: AfterTabRemoved(ResetStorage, other) == ResetStorage
  {
  }

  /** The record after a successful start on tab `tab`. */
  function Started(s: Storage, tab: int): (r: Storage)
    ensures r.isRecording && r.tabId == tab && r.songCount == 0
    ensures r.track == s.track
  {
    s.(isRecording := true, tabId := tab, songCount := 0)
  }

  /** The record after one `download`: the `songCount++` written back. */
  function Downloaded(s: Storage): (r: Storage)
    ensures r.songCount == s.songCount + 1
    ensures r.(songCount := s.songCount) == s
  {
    s.(songCount := s.songCount + 1)
  }

  /** The record after `n` downloads. */
  function DownloadsFrom(s: Storage, n: nat): Storage {
    if n == 0 then s else Downloaded(DownloadsFrom(s, n - 1))
  }

  /** Each download adds exactly one to the count and touches nothing else. */
  lemma {:induction false} DownloadsCounted(s: Storage, n: nat)
    ensures DownloadsFrom(s, n) == s.(songCount := s.songCount + n)
  {
    if n > 0 {
      DownloadsCounted(s, n - 1);
    }
  }

  /** After a start on `tab` and `n` downloads the count is `n` and the session is on `tab`. */
  lemma SongCountAfterStart(s: Storage, tab: int, n: nat)
    ensures DownloadsFrom(Started(s, tab), n).songCount == n
    ensures DownloadsFrom(Started(s, tab), n).isRecording && DownloadsFrom(Started(s, tab), n).tabId == tab
  {
    DownloadsCounted(Started(s, tab), n);
  }

  // ---------------------------------------------------------------------------
  // Routing the playback commands

  /** The commands the capture's `mediaListener` receives. */
  datatype MediaCommand =
    | SetVolume(volume: real)
    | SpotifyPlay(track: Track)
    | SpotifyUpdateTrack(track: Track)
    | SpotifyEnded
    | SpotifyAbort
    | SpotifyPause
    | StopCapture
    | Unregistered(name: string)

  /** What the listener does for one command. */
  datatype Action =
    | ChangeVolume(volume: real)
    | StoreAndStart(track: Track)
    | Store(track: Track)
    | CancelTrack
    | FinishTrack(track: Track)
    | Stop
    | Ignore

  /**
   * The `mediaListener` switch, with the track stored at the time of the
   * command. `spotifyEnded` with no stored track fails on `track.type` and does
   * nothing.
   */
  function Route(cmd: MediaCommand, stored: Option<Track>): Action {
    match cmd
    case SetVolume(v) => ChangeVolume(v)
    case SpotifyPlay(t) => StoreAndStart(t)
    case SpotifyUpdateTrack(t) => Store(t)
    case SpotifyEnded =>
      if stored.None? then Ignore
      else if IsAd(stored.value) then CancelTrack
      else FinishTrack(stored.value)
    case SpotifyAbort => CancelTrack
    case SpotifyPause => Stop
    case StopCapture => Stop
    case Unregistered(_) => Ignore
  }

  /**
   * A track is finished only on `spotifyEnded`, only as the stored track, and
   * never when it is an ad; an ad that ends is cancelled.
   */
  lemma AdsNeverFinish(cmd: MediaCommand, stored: Option<Track>)
    ensures Route(cmd, stored).FinishTrack? <==> cmd.SpotifyEnded? && stored.Some? && !IsAd(stored.value)
    ensures Route(cmd, stored).FinishTrack? ==> Route(cmd, stored).track == stored.value
    ensures cmd.SpotifyEnded? && stored.Some? && IsAd(stored.value) ==> Route(cmd, stored) == CancelTrack
  {
  }

  /** Exactly `spotifyPause` and `stopCapture` stop; exactly `spotifyEnded` on an ad and `spotifyAbort` cancel. */
  lemma RouteStopsAndCancels(cmd: MediaCommand, stored: Option<Track>)
    ensures Route(cmd, stored) == Stop <==> cmd == SpotifyPause || cmd == StopCapture
    ensures Route(cmd, stored) == CancelTrack <==>
      cmd == SpotifyAbort || (cmd == SpotifyEnded && stored.Some? && IsAd(stored.value))
  {
  }

  // ---------------------------------------------------------------------------
  // Effects and the page's handlers

  datatype Icon = DefaultIcon | RecordingIcon

  /** The messages the background page sends to the player tab. */
  datatype TabMessage = TabPrepareRecording | TabStartRecording | TabStopRecording(volume: real)

  /** Calls into the Recorder Bridge. */
  datatype BridgeCall = BridgeStart | BridgeCancel | BridgeFinish(track: Track)

  /** The calls the page makes that leave the page. */
  datatype Effect =
    | SetIcon(icon: Icon)
    | ToTab(tabId: int, message: TabMessage)
    | Bridge(call: BridgeCall)
    | Notify(id: string)
    | StartDownload(url: Option<string>, filename: string)
    | Broadcast(songCount: int)

  /**
   * What `stopRecording` does outside the page, in order: cancel the track in
   * progress, `reset` (its icon change), ask the tab to stop with `volume`, notify.
   */
  function StopEffects(tab: int, volume: real): seq<Effect> {
    [Bridge(BridgeCancel), SetIcon(DefaultIcon), ToTab(tab, TabStopRecording(volume)), Notify("clipincStop")]
  }

  /** The background page: the stored record and every effect so far, oldest first. */
  class BackgroundPage {
    var storage: Storage
    var effects: seq<Effect>

    /** Installation: the record is reset. */
    constructor ()
      ensures storage == ResetStorage && effects == []
    {
      storage := ResetStorage;
      effects := [];
    }

    /** `onStartup`: `resetStorage`, without touching the icon. */
    method OnStartup()
      modifies this
      ensures storage == ResetStorage && effects == old(effects)
    {
      storage := ResetStorage;
    }

    /** `reset`: the fixed record and the default icon. */
    method Reset()
      modifies this
      ensures storage == ResetStorage && effects == old(effects) + [SetIcon(DefaultIcon)]
    {
      storage := ResetStorage;
      effects := effects + [SetIcon(DefaultIcon)];
    }

    /** `handleTabRemove(id)`: reset only when the recorded tab was closed. */
    method HandleTabRemove(id: int)
      modifies this
      ensures storage == AfterTabRemoved(old(storage), id)
      ensures effects == old(effects) + (if ClosesSession(old(storage), id) then [SetIcon(DefaultIcon)] else [])
    {
      if storage.tabId != 0 && id == storage.tabId {
        Reset();
      }
    }

    /**
     * `handleWindowRemove`: reset when the recorded tab can no longer be found.
     * `tabFound` is the outcome of `chrome.tabs.get`; the source's `tab !== 0`
     * test holds for every result it can get.
     */
    method HandleWindowRemove(tabFound: bool)
      modifies this
      ensures storage == (if tabFound then old(storage) else ResetStorage)
      ensures effects == old(effects) + (if tabFound then [] else [SetIcon(DefaultIcon)])
    {
      if !tabFound {
        Reset();
      }
    }

    /**
     * `download`: start the download under the derived filename, notify, and
     * write back and broadcast the incremented song count.
     */
    method Download(track: Track)
      modifies this
      ensures storage == Downloaded(old(storage))
      ensures effects == old(effects) +
        [StartDownload(track.url, Filename(track)), Notify("clipincDownloaded"), Broadcast(old(storage).songCount + 1)]
    {
      // The download and the notification are issued first; the count is then
      // read back, incremented, written and broadcast by the storage callback.
      var songCount := storage.songCount + 1;
      effects := effects + [StartDownload(track.url, Filename(track)), Notify("clipincDownloaded"), Broadcast(songCount)];
      storage := storage.(songCount := songCount);
    }

    /**
     * `startCapture` on the active tab. `activeTab` is the tab query's first
     * result, `answer` the tab's response to `prepareRecording` and `streamOk`
     * whether `tabCapture.capture` produced a stream. Returns the promise's
     * outcome (`None` when it never settles) and the capture it set up.
     */
    method StartCapture(activeTab: Option<int>, answer: Option<PrepareAnswer>, streamOk: bool)
      returns (outcome: Option<bool>, capture: Option<Capture>)
      modifies this
      ensures activeTab.None? ==> outcome.None? && capture.None? && storage == old(storage) && effects == old(effects)
      ensures activeTab.Some? && answer.Some? && answer.value.error.Some? ==>
        outcome == Some(false) && capture.None? && storage == old(storage)
        && effects == old(effects) + [ToTab(activeTab.value, TabPrepareRecording), Notify("clipincError")]
      ensures activeTab.Some? && (answer.None? || answer.value.error.None?) && !streamOk ==>
        outcome == Some(false) && capture.None? && storage == old(storage)
        && effects == old(effects) + [ToTab(activeTab.value, TabPrepareRecording)]
      ensures activeTab.Some? && answer.None? && streamOk ==>
        outcome.None? && capture.None? && storage == old(storage)
        && effects == old(effects) + [ToTab(activeTab.value, TabPrepareRecording)]
      ensures activeTab.Some? && answer.Some? && answer.value.error.None? && streamOk ==>
        && outcome == Some(true) && capture.Some? && fresh(capture.value)
        && capture.value.page == this && capture.value.tab == activeTab.value
        && capture.value.volume == answer.value.volume
        && capture.value.listening && capture.value.completeEnabled
        && storage == Started(old(storage), activeTab.value)
        && effects == old(effects) +
             [ToTab(activeTab.value, TabPrepareRecording), ToTab(activeTab.value, TabStartRecording), SetIcon(RecordingIcon)]
    {
      outcome, capture := None, None;
      if activeTab.None? {
        return;
      }
      var tab := activeTab.value;
      effects := effects + [ToTab(tab, TabPrepareRecording)];
      if answer.Some? && answer.value.error.Some? {
        effects := effects + [Notify("clipincError")];
        outcome := Some(false);
        return;
      }
      if !streamOk {
        outcome := Some(false);
        return;
      }
      if answer.None? {
        // `response.volume` on a missing response throws inside the callback.
        return;
      }
      var c := new Capture(this, tab, answer.value.volume);
      effects := effects + [ToTab(tab, TabStartRecording)];
      storage := storage.(isRecording := true, tabId := tab, songCount := 0);
      effects := effects + [SetIcon(RecordingIcon)];
      outcome, capture := Some(true), Some(c);
    }
  }

  /**
   * The state one successful `startCapture` closes over: the tab, the playback
   * volume of the restored audio, whether its listeners are still registered
   * and whether the recorder's `onComplete` still downloads.
   */
  class Capture {
    const page: BackgroundPage
    const tab: int
    var volume: real
    var listening: bool
    var completeEnabled: bool

    constructor (page: BackgroundPage, tab: int, volume: real)
      ensures this.page == page && this.tab == tab && this.volume == volume
      ensures listening && completeEnabled
    {
      this.page, this.tab, this.volume := page, tab, volume;
      listening, completeEnabled := true, true;
    }

    /**
     * `stopRecording`: unregister the listeners, cancel the track in progress,
     * silence `onComplete`, `reset`, then tell the tab to stop with the current
     * volume and notify.
     */
    method StopRecording()
      modifies this, page
      ensures !listening && !completeEnabled && volume == old(volume)
      ensures page.storage == ResetStorage
      ensures page.effects == old(page.effects) +
        StopEffects(tab, old(volume))
    {
      listening := false;
      page.effects := page.effects + [Bridge(BridgeCancel)];
      completeEnabled := false;
      page.Reset();
      page.effects := page.effects + [ToTab(tab, TabStopRecording(volume)), Notify("clipincStop")];
    }

    /** `mediaListener`: act on one command as `Route` decides, while registered. */
    method MediaListener(cmd: MediaCommand)
      modifies this, page
      ensures var a := Route(cmd, old(page.storage.track));
        && (!old(listening) || a == Ignore ==>
              volume == old(volume) && listening == old(listening) && completeEnabled == old(completeEnabled)
              && page.storage == old(page.storage) && page.effects == old(page.effects))
        && (old(listening) && a.ChangeVolume? ==>
              volume == a.volume && listening && completeEnabled == old(completeEnabled)
              && page.storage == old(page.storage) && page.effects == old(page.effects))
        && (old(listening) && a.StoreAndStart? ==>
              volume == old(volume) && listening && completeEnabled == old(completeEnabled)
              && page.storage == old(page.storage).(track := Some(a.track))
              && page.effects == old(page.effects) + [Bridge(BridgeStart)])
        && (old(listening) && a.Store? ==>
              volume == old(volume) && listening && completeEnabled == old(completeEnabled)
              && page.storage == old(page.storage).(track := Some(a.track))
              && page.effects == old(page.effects))
        && (old(listening) && a.CancelTrack? ==>
              volume == old(volume) && listening && completeEnabled == old(completeEnabled)
              && page.storage == old(page.storage) && page.effects == old(page.effects) + [Bridge(BridgeCancel)])
        && (old(listening) && a.FinishTrack? ==>
              volume == old(volume) && listening && completeEnabled == old(completeEnabled)
              && page.storage == old(page.storage) && page.effects == old(page.effects) + [Bridge(BridgeFinish(a.track))])
        && (old(listening) && a.Stop? ==>
              !listening && !completeEnabled && volume == old(volume) && page.storage == ResetStorage
              && page.effects == old(page.effects) +
                   StopEffects(tab, old(volume)))
    {
      if !listening {
        return;
      }
      match Route(cmd, page.storage.track)
      case ChangeVolume(v) => volume := v;
      case StoreAndStart(t) =>
        page.storage := page.storage.(track := Some(t));
        page.effects := page.effects + [Bridge(BridgeStart)];
      case Store(t) => page.storage := page.storage.(track := Some(t));
      case CancelTrack => page.effects := page.effects + [Bridge(BridgeCancel)];
      case FinishTrack(t) => page.effects := page.effects + [Bridge(BridgeFinish(t))];
      case Stop => StopRecording();
      case Ignore =>
    }

    /** `updateListener`: the recorded tab starting to load again stops the capture. */
    method OnTabUpdated(id: int, loading: bool)
      modifies this, page
      ensures var stops := old(listening) && old(page.storage.tabId) == id && loading;
        && (stops ==>
              && !listening && !completeEnabled && page.storage == ResetStorage
              && page.effects == old(page.effects) +
                   StopEffects(tab, old(volume)))
        && (!stops ==>
              && listening == old(listening) && completeEnabled == old(completeEnabled)
              && page.storage == old(page.storage) && page.effects == old(page.effects))
      ensures volume == old(volume)
    {
      if listening && page.storage.tabId == id && loading {
        StopRecording();
      }
    }

    /** The recorder's `onComplete`: `download` until `stopRecording` replaced it. */
    method OnComplete(track: Track)
      modifies page
      ensures completeEnabled ==>
        && page.storage == Downloaded(old(page.storage))
        && page.effects == old(page.effects) +
             [StartDownload(track.url, Filename(track)), Notify("clipincDownloaded"), Broadcast(old(page.storage).songCount + 1)]
      ensures !completeEnabled ==> page.storage == old(page.storage) && page.effects == old(page.effects)
    {
      if completeEnabled {
        page.Download(track);
      }
    }
  }
}
