# clipinc: the per-track control path, modelled in Dafny

clipinc is a Chrome extension that records the audio of a Spotify web-player
tab, cuts it into tracks at the player's playback events, encodes each track to
MP3 in a worker, tags it with ID3 frames and downloads it. This project models
the logic of its three core scripts and proves what they promise:

- **The encoder worker** (`background-page/Mp3Worker.js`), in `mp3_worker.dfy`.
  - The module-level state (`sampleRate`, `options`, `encoder`, `recBuffers`,
    `bufferCount`) is the class `Mp3Worker.Worker`.
  - Its invariant is that no encoder lives between messages and that
    `|recBuffers| <= bufferCount`. That inequality is what keeps each progress
    value `(bufferCount - remaining) / bufferCount` inside [0, 1].
  - `finish` is modelled as a loop in `Worker.Drain`. It feeds the buffer to
    the encoder front first and posts throttled progress fractions. The proofs
    show that the encoder receives exactly the submitted frames, in order, and
    that the progress run starts at 0, never decreases and ends at 1.
  - The ID3 writer is the class `Id3Writer`: the list of frame ids set on it.
    The completion handler's chain of `setFrame` calls is proved equal to the
    tag plan (`TagPlan`). The plan is TPE1, TIT2, TLEN, then APIC only for a
    non-empty cover, then TALB … TXXX, each only when its track field is truthy.
- **The background page** (`background-page/index.js`), in `background.dfy`.
  - The download filename: each of folder, artist and title is masked to
    `[A-Za-z0-9 ]` and trimmed, then assembled as
    `clipinc[/dir]/artist - title.mp3`. A parser for that shape gives back
    exactly the parts a filename was assembled from.
  - The persisted session record, with the start, reset, tab-removal and
    download updates.
  - The routing of the playback commands. An ad that ends is cancelled, never
    finished.
  - The class `BackgroundPage`: the record plus a log of the Chrome and
    Recorder Bridge calls made.
  - The class `Capture`: the state that one successful `startCapture` closes
    over (its `mediaListener`, `updateListener` and `stopRecording`).
- **The content script** (`src/content.js`), in `content.dfy`.
  - `durationToSeconds`, over a model of `split` and `parseInt`.
  - The track built by `getTrackInfo` from what it reads off the page.
  - The `prepareRecording` decision.
  - The volume-bar takeover: the class `PlayerDom`. It is idempotent while
    the replacement bar is present.

Shared pieces:

- `js_strings.dfy` writes out the JavaScript string built-ins the scripts rely
  on, with their ECMAScript meaning: the alphanumeric mask (on UTF-16 code
  units, as a regular expression without the `u` flag sees them), `trim`,
  `substring` with its clamping and swapping, `split` on one character, and
  `parseInt(_, 10)`.
- `tracks.dfy` holds the track record and JavaScript truthiness.
- `wrappers.dfy` holds `Option`.

Nothing is stated about time, I/O or the browser. The model represents them
as follows:

- A reading of `Date.now()` is the parameter `clock(n)`, the n-th reading.
- A Chrome or Recorder Bridge call is an `Effect` appended to
  `BackgroundPage.effects`.
- A worker message is appended to `Worker.posted`.
- What the content script reads from the DOM is a `PlayerPage` value.
- The IDs of the notifications are kept; their texts are not.

Notes on the code's behaviour that the model reproduces:

- **Cover fetch failure.** The cover fetch has no `.catch`. A failed fetch
  rejects `Promise.all`, so no `complete` message is posted for that track
  (`Worker.Deliver`). A zero-length cover only leaves APIC out.
- **No start guard.** `startCapture` has no guard on the session state. Each
  successful call builds a new, independent `Capture`.
- **Command names.** The content script sends `ended`, `play`, `pause` and
  `abort`, while the background listener switches on `spotifyEnded`,
  `spotifyPlay` and so on. The model takes the listener's names as the
  commands it routes. An unmatched name falls into the listener's default
  branch (`Unregistered`).
- **Hour-long tracks.** `durationToSeconds` reads only the first two fields.
  An `h:mm:ss` duration is read as `h * 60 + mm` (`DurationOfThreeFields`).
- **Zero frames.** `finish` on an empty buffer still posts 0 and 1, because
  `if (recBuffers)` is true for an empty array. The encoder then consumes no
  frames.

## Model

| member | source | states |
|---|---|---|
| JsStrings.MaskChar | background-page/index.js:249 | an alphanumeric stays as it is; any other character becomes one space per UTF-16 code unit, so two for a character above U+FFFF |
| JsStrings.MaskNonAlnum | background-page/index.js:249 | each UTF-16 code unit outside `[a-zA-Z0-9]` becomes a space and the alphanumerics stay; the result's length is the input's UTF-16 length and it holds only alphanumerics and spaces |
| JsStrings.MaskAppend | background-page/index.js:249 | the mask works character by character: masking a concatenation concatenates the masks |
| JsStrings.MaskOfAlnumOrSpace | background-page/index.js:249 | a string of alphanumerics and spaces is left unchanged by the mask |
| JsStrings.MaskOfSupplementary | background-page/index.js:249 | `a`, an emoji above U+FFFF, `b` masks to `a`, two spaces, `b` |
| JsStrings.TrimStartSpaces | background-page/index.js:256 | `trim` drops a run of spaces in front entirely |
| JsStrings.TrimEndSpaces | background-page/index.js:256 | `trim` drops a run of spaces behind entirely |
| JsStrings.TrimStart | background-page/index.js:260-261 | the result is a suffix of the input, only whitespace was dropped, and it does not start with whitespace |
| JsStrings.TrimEnd | background-page/index.js:260-261 | the result is a prefix of the input, only whitespace was dropped, and it does not end with whitespace |
| JsStrings.Trim | background-page/index.js:260-261 | the result is one slice of the input with only whitespace outside it, and neither end of it is whitespace |
| JsStrings.Substring | src/content.js:47 | within bounds `substring` is the slice; its result is never longer than the input |
| JsStrings.Split | src/content.js:134 | `split` yields at least one field, and a string without the separator is its own single field |
| JsStrings.SplitAt | src/content.js:134 | splitting `a + sep + b`, with no separator in `a`, yields `a` followed by the fields of `b` |
| JsStrings.DigitPrefix | src/content.js:135 | the prefix `parseInt` reads is the longest run of leading decimal digits |
| JsStrings.ParseInt | src/content.js:135 | `parseInt(_, 10)` is NaN exactly when no digit follows the leading whitespace and optional sign; otherwise its magnitude is the value of those digits, and it is negative only after a `-` |
| JsStrings.ParseIntOfDigits | src/content.js:135 | `parseInt(d, 10)` of a non-empty digit string is its decimal value |
| JsStrings.NatToDigitsValue | src/content.js:135 | writing a number in decimal and reading the digits back gives the number |
| Mp3Worker.Fraction | background-page/Mp3Worker.js:56 | the progress fraction `(count - remaining) / count` lies in [0, 1] and is 1 when nothing remains |
| Mp3Worker.FractionMonotone | background-page/Mp3Worker.js:52-57 | fewer frames remaining gives a fraction at least as large, so the reports never go backwards |
| Mp3Worker.RisingExtend | background-page/Mp3Worker.js:55-58 | posting a value no smaller than every earlier one keeps the progress run rising |
| Mp3Worker.Select | background-page/Mp3Worker.js:83-127 | selecting keeps at most the listed ids, and only included ones |
| Mp3Worker.TagPlan | background-page/Mp3Worker.js:83-127 | the tag plan is no longer than the fixed order and holds only included frames; `Included` is the handler's conditions, APIC for a cover of more than 0 bytes and each optional text frame for a truthy field |
| Mp3Worker.OrderedCons | background-page/Mp3Worker.js:83-127 | an id ranked below all of an ordered frame list can be set before it, keeping the order |
| Mp3Worker.SelectMembers | background-page/Mp3Worker.js:83-127 | a frame id is selected exactly when it is listed and included |
| Mp3Worker.SelectKeepsOrder | background-page/Mp3Worker.js:83-127 | selecting from ids in the fixed order keeps them in that order |
| Mp3Worker.TagPlanShape | background-page/Mp3Worker.js:83-127 | the tag plan has a frame exactly when that frame is included, in the fixed order without repeats |
| Mp3Worker.SameMembersInOrder | background-page/Mp3Worker.js:83-127 | two frame lists in the fixed order with the same members are equal, so the order determines the written tags |
| Mp3Worker.HandlerChainDecided | background-page/Mp3Worker.js:84-127 | the handler's chain of frames holds exactly the included ids of every rank, ordered, with TPE1, TIT2, TLEN first |
| Mp3Worker.HandlerChainIsPlan | background-page/Mp3Worker.js:83-127 | the frames set by the handler are TPE1, TIT2, TLEN first, then each frame exactly when included, in order: the tag plan |
| Mp3Worker.Id3Writer.SetFrame | background-page/Mp3Worker.js:84-87 | `setFrame` appends exactly the given frame id to the writer's frames |
| Mp3Worker.Id3Writer.SetFrameIf | background-page/Mp3Worker.js:89-127 | an optional frame is appended to the writer exactly when its condition holds |
| Mp3Worker.WriteTags | background-page/Mp3Worker.js:83-127 | tagging with the writer leaves TPE1, TIT2, TLEN first, APIC only for a cover longer than 0 bytes, the other frames only for truthy fields, all in the fixed order |
| Mp3Worker.Worker.constructor | background-page/Mp3Worker.js:7-12 | the worker starts at 44100 Hz with no options, no encoder, no buffer and a zero count |
| Mp3Worker.Worker.Init | background-page/Mp3Worker.js:19-27 | two channels set rate and options; any other count posts the channel error and changes neither |
| Mp3Worker.Worker.Start | background-page/Mp3Worker.js:29-32 | the buffer becomes empty and the counter is kept, so the buffer stays within the counter |
| Mp3Worker.Worker.Record | background-page/Mp3Worker.js:34-38 | exactly one frame is appended at the end and the counter goes up by one, earlier frames unchanged |
| Mp3Worker.Worker.Cleanup | background-page/Mp3Worker.js:140-144 | encoder and buffer are cleared and the counter is zero; rate, options and messages are kept |
| Mp3Worker.Worker.Drain | background-page/Mp3Worker.js:52-59 | the loop feeds the encoder exactly the buffered frames front first, empties the buffer and keeps the progress run rising within the reached fraction |
| Mp3Worker.Worker.FinishTrack | background-page/Mp3Worker.js:46-65 | the blob holds exactly the buffered frames at the worker's rate and the track's bitrate; the worker is cleaned up; the messages posted form a run from 0 to 1, never decreasing |
| Mp3Worker.Worker.Deliver | background-page/Mp3Worker.js:80-137 | once both reads resolve, `complete` is posted with the track's url set and the tag plan; a failed cover fetch posts nothing |
| Mp3Worker.Worker.Dispatch | background-page/Mp3Worker.js:146-166 | each command has exactly its handler's effect: `init` with two channels sets rate and options and with another count posts the error; `start` empties the buffer; `record` appends the frame and counts it; `finish` returns the blob of the buffered frames at the worker's rate and the track's bitrate, clears buffer and counter and posts a rising progress run; `cancel` clears; an unknown command posts an error; nothing else changes, and a blob comes back exactly for `finish` |
| Mp3Worker.EncodeTrack | background-page/Mp3Worker.js:146-166 | sending `init`, `start`, one `record` per frame and `finish` through the message switch: the blob holds exactly the submitted frames in submission order and the progress run goes from 0 to 1 |
| Background.TrimOfMasked | background-page/index.js:260-261 | trimming a masked string leaves only alphanumerics and spaces, with alphanumerics at both ends |
| Background.FirstAlnum | background-page/index.js:256 | the index of the first alphanumeric, with none before it, or the length when there is none |
| Background.LastAlnumEnd | background-page/index.js:256 | the index just past the last alphanumeric, with none after it, or 0 when there is none |
| Background.TrimStartOfMask | background-page/index.js:256 | the leading half of `trim` on the mask drops exactly the masked non-alphanumerics in front of the first alphanumeric |
| Background.TrimEndOfMask | background-page/index.js:256 | the trailing half of `trim` on the mask drops exactly the masked non-alphanumerics behind the last alphanumeric |
| Background.SanitiseOfSpan | background-page/index.js:256 | sanitising is the mask of the slice from the first to the last alphanumeric |
| Background.SpanInSuffix | background-page/index.js:256 | the slice found inside the suffix from the first alphanumeric is a slice of the whole string with only non-alphanumerics outside it |
| Background.Sanitise | background-page/index.js:260-261 | a sanitised name part holds only alphanumerics and spaces, and neither starts nor ends with a space |
| Background.SanitiseKeepsSlice | background-page/index.js:256 | sanitising gives the mask of the slice of the input from its first to its last alphanumeric character: only non-alphanumerics are dropped |
| Background.SanitiseIdempotent | background-page/index.js:260-261 | sanitising a sanitised string changes nothing |
| Background.Component | background-page/index.js:260-261 | a missing or empty artist or title contributes `''`, otherwise its sanitised text |
| Background.DirectoryPart | background-page/index.js:253-257 | the folder is present exactly for a truthy `directory`, and then holds only alphanumerics and spaces |
| Background.AssembleMiddle | background-page/index.js:250-263 | an assembled name starts with `clipinc` and ends with `.mp3`, with `/dir` (when there is a folder) and `/artist - title` between |
| Background.Filename | background-page/index.js:249-263 | the download filename starts with `clipinc` and ends with `.mp3` |
| Background.ParseFilename | background-page/index.js:250-263 | a name is read back only when it starts with `clipinc` and ends with `.mp3` |
| Background.ParseNameOf | background-page/index.js:263 | `artist - title` is read back into artist and title when both are sanitised |
| Background.ParseAssembled | background-page/index.js:250-263 | a name assembled from sanitised parts is read back into those parts, with the folder present exactly when one was set |
| Background.FilenameRoundTrip | background-page/index.js:249-263 | the download filename of a track determines its folder (present only for a truthy directory), artist and title components exactly |
| Background.AfterTabRemoved | background-page/index.js:216-222 | a tab removal either resets the record or leaves it, and changes it only for the recorded non-zero tab |
| Background.Started | background-page/index.js:199-203 | a start records the tab, sets recording and a zero count, and keeps the stored track |
| Background.Downloaded | background-page/index.js:273-275 | a download adds one to the count and changes nothing else |
| Background.TabRemovedResetsOnce | background-page/index.js:216-222 | closing a tab resets the record only when it is the recorded non-zero tab, and handling it again changes nothing |
| Background.DownloadsCounted | background-page/index.js:273-275 | each download adds exactly one to the song count and changes nothing else |
| Background.SongCountAfterStart | background-page/index.js:199-203 | after a start on a tab and n downloads the count is n and the session is recording on that tab |
| Background.AdsNeverFinish | background-page/index.js:144-158 | a track is finished exactly on `spotifyEnded` with a stored non-ad track, and it is that track; an ad that ends is cancelled |
| Background.RouteStopsAndCancels | background-page/index.js:128-176 | exactly `spotifyPause` and `stopCapture` stop; exactly `spotifyAbort` and an ending ad cancel |
| Background.BackgroundPage.constructor | background-page/index.js:3-4 | on installation the record holds the reset values |
| Background.BackgroundPage.OnStartup | background-page/index.js:6-7 | on browser start the record is reset and no call is made |
| Background.BackgroundPage.Reset | background-page/index.js:236-243 | `reset` writes the fixed record and sets the default icon |
| Background.BackgroundPage.HandleTabRemove | background-page/index.js:216-222 | the record is reset, with the icon, exactly when the removed tab is the recorded non-zero tab |
| Background.BackgroundPage.HandleWindowRemove | background-page/index.js:225-233 | the record is reset exactly when the recorded tab can no longer be found |
| Background.BackgroundPage.Download | background-page/index.js:246-280 | the download starts under the derived filename, the user is notified, and the count goes up by one and is broadcast |
| Background.BackgroundPage.StartCapture | background-page/index.js:36-206 | an error answer notifies and rejects; a missing stream rejects; a full start asks the tab to play, stores recording on the tab with count 0, sets the recording icon and builds a listening capture with the tab's old volume |
| Background.Capture.constructor | background-page/index.js:77-92 | a new capture is for its tab and page, keeps the volume the audio is restored with, and listens with `onComplete` set to `download` |
| Background.Capture.StopRecording | background-page/index.js:92-126 | the listeners go, the track in progress is cancelled before the reset, and the tab is asked to stop with the current volume |
| Background.Capture.MediaListener | background-page/index.js:128-176 | each command does what its route says: volume only, stored track only, bridge start, cancel, finish of the stored track, or a full stop |
| Background.Capture.OnTabUpdated | background-page/index.js:178-190 | the recorded tab starting to load stops the capture; any other update changes nothing |
| Background.Capture.OnComplete | background-page/index.js:82-101 | a finished track is downloaded until `stopRecording` replaced the handler, after which nothing happens |
| Content.DurationToSeconds | src/content.js:133-136 | a duration is a number only when there is a second `:`-separated field and both the first and the second field parse |
| Content.DurationOfFields | src/content.js:133-136 | the duration is the first field times 60 plus the second, once both parse |
| Content.DurationOfDigits | src/content.js:133-136 | for `m:ss` with digit fields the duration is `m * 60 + ss` seconds |
| Content.DurationOfThreeFields | src/content.js:133-136 | `h:mm:ss` is read from its first two fields only, as `h * 60 + mm` |
| Content.DurationWithoutColon | src/content.js:133-136 | a duration without `:` has no seconds field and reads as NaN |
| Content.FormatDurationRoundTrip | src/content.js:133-136 | every duration the player renders as `m:ss` is read back as its number of seconds |
| Content.TwoDigits | src/content.js:133-136 | the seconds field as two digits reads back as its value |
| Content.CoverUrl | src/content.js:47 | the unwrapped cover is never longer than the style string |
| Content.CoverOfWrapped | src/content.js:47 | unwrapping `url("u")` gives exactly `u` |
| Content.CoverOfNone | src/content.js:47 | `substring`'s clamping and swapping turn `none` into `ne` and `''` into `''` |
| Content.AsciiLower | src/content.js:39-40 | lower-casing maps each character on its own and keeps the length |
| Content.GetTrackInfo | src/content.js:27-52 | the built track has 256 or 128 kbps, is never an ad, and has no folder and no url yet |
| Content.TrackInfoFields | src/content.js:27-52 | 256 kbps exactly without ads and 128 with them; a playlist only for a playing playlist group, an album only for a playing album group, never both; cover unwrapped; never an ad |
| Content.TrackInfoDuration | src/content.js:46 | a page showing `m:ss` gives a track of `m * 60 + ss` seconds |
| Content.PrepareDecision | src/content.js:141-149 | the answer carries an error exactly on a remote device, and always the volume read before |
| Content.PlayerDom.SetVolume | src/content.js:66-71 | one `setvolume` event with the given volume is dispatched, nothing else changes |
| Content.PlayerDom.HijackVolumeControl | src/content.js:74-94 | afterwards the replacement bar is present; with it already present nothing changes, otherwise the original bar is hidden |
| Content.PlayerDom.ReleaseVolumeControl | src/content.js:97-105 | the replacement bar is gone and the original bar is shown |
| Content.PlayerDom.PrepareRecording | src/content.js:140-150 | the answer is the decision; the bar is taken over and the volume set to 1 exactly when there is no error |
| Content.PlayerDom.StartRecording | src/content.js:151-156 | play is pressed exactly when the play button is shown |
| Content.PlayerDom.StopRecording | src/content.js:157-164 | the original bar comes back, the given volume is restored, and pause is pressed exactly when shown |
| Content.PlayerDom.OnInitPlayer | src/content.js:119-127 | the volume is set to 1 exactly when a recording is running |
| Content.PlayerDom.OnLoad | src/content.js:172-176 | a running recording takes the volume bar over at load |
| Content.PrepareTwice | src/content.js:74-77 | preparing twice takes the bar over once; the second call only repeats the full-volume event |

## Left out

- Chrome extension APIs (`tabs`, `tabCapture`, `notifications`, `downloads`,
  `i18n`, `browserAction`, `storage` callbacks) and their asynchrony are not
  modelled. Storage is a record read and written at once. The other calls are
  entries in an effect log, and a callback runs at the point of its call,
  except the `storage.local.get` callback of `download`: it runs after the
  notification that follows it in the source, so its broadcast comes last.
- The Recorder Bridge (`./recorder`) is not part of this model. Its
  behaviour is only the calls made on it (`BridgeStart`, `BridgeCancel`,
  `BridgeFinish`).
- The internals of the LAME encoder and the ID3 writer are not modelled. The
  encoder is the sequence of frames it consumed and the writer the list of
  frame ids set. Frame payloads, MIME types and `addTag` / `getURL` are left
  out.
- `FileReader`, `fetch` and `Promise.all` are not modelled. Their outcomes
  are parameters of `Worker.Deliver`: the cover's byte length, or a failed
  fetch, and the url.
- `Date.now()` is the parameter `clock`. The properties hold for every clock.
- `Worker.Record`, `Worker.FinishTrack` and `Worker.Dispatch` require a prior
  `start`. On the source's path without one, `push` or `encoder.finish` throws a
  TypeError, and that throw is not modelled.
- The audio graph (`AudioContext`, `Audio`, the `MediaStream` track) is not
  modelled. The restored audio's volume is a field of `Capture`.
- `getVolume` (the cubic clamp of the stored player volume) is not modelled,
  because it is floating point. Its result is a parameter.
- The slider's initial value (`volume.toFixed(2)`) is not modelled, because
  it is floating-point formatting. The `input` listener it registers is
  outside the core.
- The DOM queries of `getTrackInfo` are not modelled: their results are the
  fields of `PlayerPage`, and `JSON.parse` of the playback history gives its
  `lastPlayed`.
- `Content.AsciiLower`: `toLocaleLowerCase` is modelled on ASCII letters
  only. The labels it compares are ASCII words.
- `Mp3Worker.Fraction`: progress values are exact reals, not doubles. The
  order facts proved carry over, because IEEE division rounds monotonically
  and `n / n` is exactly 1 in floating point.
- `JsStrings.ParseInt`: the fractional and exponent syntax of JavaScript
  numbers is not modelled. Integers have no fixed width, since the values
  involved are small track counts and durations.
- `hijackPlayer`, the page-event forwarders `handlePlay`, `handleEnded`,
  `handlePause`, `handleAbort` and `handleVolumeInput`, and the background
  page's top-level `startCapture` message relay are not modelled, because
  they only forward messages. The `initplayer` reaction is modelled
  (`PlayerDom.OnInitPlayer`).
- `cleanDownloadShelf` (download-shelf I/O), the popup page and the build
  configuration are not modelled.
- The notification and error texts are not kept. Only the notification IDs
  are kept, while the worker's error messages are kept in full.
- `Background.BackgroundPage.StartCapture`: the `try`/`catch` around the
  whole start is not modelled. A missing answer to `prepareRecording` with a
  stream ends in a throw inside the callback, and the model leaves that
  promise unsettled.
