# YouTube live chat replay downloader, modelled in Dafny

This project models `YoutubeLiveChatReplayFD.real_download`, youtube-dl's
downloader for the chat replay of a past live stream. It also models the
three helpers nested in that method:

- `get_obj_value` walks a path of keys through decoded JSON. It answers
  None instead of raising.
- `continuation_get_id` picks the next pagination token from a
  `continuations` list.
- `parse_yt_initial_data` finds the `ytInitialData` assignment in a page
  and decodes it.

The downloader goes through these steps:

1. It prepares the fragment sink and fetches the watch page.
2. It finds the live chat renderer and its first continuation token, then
   appends an empty fragment.
3. It follows tokens page by page. The first continuation page is HTML;
   every later page comes from the JSON endpoint, with a playback offset
   5000 ms before the last chat action seen.
4. It appends each page's actions to the output, one JSON line per action.
5. When the loop ends without failure, it finishes the download.

Modules, one per concern:

- `PyJson` (`py_json.dfy`) models decoded JSON values. It also models the
  Python operations the code applies to them, each either yielding a value
  or raising a Python exception: `v[k]`, `k in v`, `for x in v`,
  truthiness and `int(v)`.
- `ObjPath` (`obj_path.dfy`) models `get_obj_value`. The loop method
  `GetObjValue` is proved equal to the path lookup `Get`.
- `Continuation` (`continuation.dfy`) models `continuation_get_id`. The loop
  method `ContinuationGetId` is proved equal to `ContinuationId`, and lemmas
  show the scan returns the first entry that has either shape.
- `InitialData` (`initial_data.dfy`) models `parse_yt_initial_data`. The
  regular-expression searches and `json.loads` are given functions. The
  module proves the order in which the two patterns are tried.
- `Fragment` (`fragment.dfy`) models one pass over a `liveChatContinuation`
  object. The method `ProcessContinuation` builds the fragment action by
  action, tracks the offset and resolves the next token. It is proved equal
  to `Iteration`. Lemmas show the fragment splits back into one decodable
  line per action, and that the offset is the last replay action's.
- `LiveChat` (`live_chat.dfy`) holds the class `YoutubeLiveChatReplayFD`,
  whose fields are updated in place:
  - the transport's remaining scripted answers;
  - the log of requests sent;
  - the log of calls made on the fragment sink.

  Its `RealDownload` follows the Python statement by statement. It is proved
  to produce the outcome and final state of the functional `Run`:
  `Bootstrap`, then `Loop` over `Pass` and `Continue`. `Pass` fetches one
  continuation page and hands the response to `HandleResponse`, which
  yields the processed page or the outcome the run ends with. Lemmas about
  `Bootstrap`, `Pass`, `Run` and `Loop` state when the run stops, for which
  reason, and what the sink and request logs look like on every path.

Python semantics are explicit:

- A Python `None` that comes from a lookup and a JSON `null` are both
  `None` to `is None` (`IsNone`).
- An exception the code does not catch escapes `real_download`. It is the
  outcome `Raised`.
- `report_error` followed by `return False` is the outcome `Failed`, with
  the reason reported.

`parse_yt_initial_data` calls `json.loads` inside a `try` that catches only
`AttributeError`. So when a pattern matches but its capture fails to decode,
the decode error escapes. It does not fall through to the next pattern,
although "try the next pattern" is the natural reading of the helper's
purpose. The model follows the code (`InitialData.FirstDecoded`).

## Model

| member | source | states |
|---|---|---|
| PyJson.Find | youtube_dl/downloader/youtube_live_chat.py:45 | a dict lookup finds the first member with the key, and no earlier member has it |
| PyJson.Subscript | youtube_dl/downloader/youtube_live_chat.py:45 | `cur[key]` on a dict gives the value stored under the key and raises KeyError exactly when the key is missing; on a list or string it gives the element at the (possibly negative) index and raises IndexError exactly when the index is out of range; a dict indexed by a number raises KeyError, a list or string indexed by a name raises TypeError, and None, booleans and numbers raise TypeError; so only the three `get_obj_value` catches can escape it |
| PyJson.Contains | youtube_dl/downloader/youtube_live_chat.py:53-55 | `key in v` raises TypeError exactly on None, booleans and numbers; on a dict it is true exactly when the key is present |
| PyJson.Iterate | youtube_dl/downloader/youtube_live_chat.py:52 | iterating raises exactly on None, booleans and numbers; a list yields its elements; a dict yields one item per key |
| PyJson.ToInt | youtube_dl/downloader/youtube_live_chat.py:114 | `int(v)` keeps a number, turns a boolean into 0 or 1, and raises TypeError on None, a list or a dict; on a string it raises (ValueError) exactly when the string is not an optional sign followed by one or more ASCII digits, and otherwise gives the signed value of those digits |
| PyJson.ToIntFormatInt | youtube_dl/downloader/youtube_live_chat.py:114 | `int(str(n)) == n` for every integer, so an offset written in decimal is read back exactly |
| ObjPath.GetObjValue | youtube_dl/downloader/youtube_live_chat.py:41-48 | the loop that rebinds `cur` for each key returns exactly the path lookup `Get` |
| ObjPath.GetConcat | youtube_dl/downloader/youtube_live_chat.py:41-48 | looking up `p + q` is looking up `q` from where `p` leads, and absent if `p` is |
| ObjPath.GetAbsentIffStepFails | youtube_dl/downloader/youtube_live_chat.py:41-48 | the result is None exactly when some step along the path raises a caught exception |
| Continuation.Entries | youtube_dl/downloader/youtube_live_chat.py:51-52 | a missing or falsy `continuations` is scanned as the empty list; a list is scanned as its elements, and any other truthy value as iterating it yields; iterating can raise only TypeError |
| Continuation.ShapeOf | youtube_dl/downloader/youtube_live_chat.py:53-55 | the shape test raises (TypeError) exactly on None, boolean and number entries, while a string entry is tested by substring; an entry is a reload entry exactly when `reloadContinuationData in entry`, and a replay entry exactly when that is false and `liveChatReplayContinuationData in entry` holds; for a dict, exactly when those keys are present |
| Continuation.ScanStopsAtFirstShaped | youtube_dl/downloader/youtube_live_chat.py:52-56 | the scan returns the nested token of the first entry that has either shape (None if that token is missing) and ignores later entries |
| Continuation.ScanWithoutShapes | youtube_dl/downloader/youtube_live_chat.py:52-57 | with no shaped entry, the result is None |
| Continuation.ScanFoundIsFirstShaped | youtube_dl/downloader/youtube_live_chat.py:52-56 | any token found comes from the first shaped entry |
| Continuation.ContinuationGetId | youtube_dl/downloader/youtube_live_chat.py:50-57 | the loop with its early returns computes exactly `ContinuationId` |
| InitialData.FirstDecoded | youtube_dl/downloader/youtube_live_chat.py:33-39 | the only exception is a decode error; the result is None exactly when no pattern matches |
| InitialData.NotFoundIffNoMatch | youtube_dl/downloader/youtube_live_chat.py:30-39 | `parse_yt_initial_data` returns None exactly when neither the window pattern nor the declaration pattern matches |
| InitialData.WindowPatternDecides | youtube_dl/downloader/youtube_live_chat.py:33-36 | when the window pattern matches, its capture alone decides the result (decoded value or decode error), whatever the declaration pattern does |
| InitialData.DeclarationIsFallback | youtube_dl/downloader/youtube_live_chat.py:33-38 | the declaration pattern decides only when the window pattern does not match |
| Fragment.LinesSnoc | youtube_dl/downloader/youtube_live_chat.py:109-116 | extending the fragment in place with one action's line gives the fragment of the longer action list |
| Fragment.FragmentRoundTrip | youtube_dl/downloader/youtube_live_chat.py:115-116 | for actions as `json.loads` produces them (member names distinct in every object), if `dumps` writes no raw newline and `loads` inverts it on such values, the fragment splits into exactly one line per action, in order, and each line decodes to its action |
| Fragment.LastOffsetCases | youtube_dl/downloader/youtube_live_chat.py:108-114 | the offset scan raises exactly when some action raises; otherwise it gives the last replay action's offset, or the starting value when there is none |
| Fragment.LastOffsetSource | youtube_dl/downloader/youtube_live_chat.py:108-114 | an offset found is the last replay action's, or the starting value when no action is a replay action |
| Fragment.IterationMeaning | youtube_dl/downloader/youtube_live_chat.py:108-117 | a pass with `actions` gives exactly their lines, an offset that is None exactly when no action is a replay action (else the last one's), and the resolver's token; without `actions` it gives an empty fragment, no offset and no token |
| Fragment.ProcessContinuation | youtube_dl/downloader/youtube_live_chat.py:108-117 | the loop that extends the bytearray and overwrites `offset` computes exactly `Iteration`, including every exception it lets escape |
| LiveChat.HandleResponse | youtube_dl/downloader/youtube_live_chat.py:85-117 | a fetched continuation response yields a page exactly when the download succeeded, `data` was found, `liveChatContinuation` is present in it and processing it raises nothing, and the page is then exactly `Iteration` of that object; it ends with the download failure exactly when the download was unsuccessful, with the missing-`liveChatContinuation` failure exactly when the decoded `data` lacks that object, and with an escaping exception exactly when decoding raises or processing the object raises; it never ends in success |
| LiveChat.Pass | youtube_dl/downloader/youtube_live_chat.py:80-122 | a pass that keeps the loop going has used up a transport answer, found an offset and is not in test mode |
| LiveChat.PassCases | youtube_dl/downloader/youtube_live_chat.py:104-122 | a pass goes on exactly when its response yields a page with an offset outside test mode, with that page and its fragment appended; a page without an offset, or in test mode, is appended and then the download finishes with success; otherwise the run ends with the response's outcome and no sink call |
| LiveChat.PassShape | youtube_dl/downloader/youtube_live_chat.py:81-122 | one pass sends exactly one request, for its token and offset. Going on, it appends one fragment. On success it appends one fragment, then finishes. On failure it makes no sink call, and the failure is a download failure or a missing `liveChatContinuation` |
| LiveChat.LoopCalls | youtube_dl/downloader/youtube_live_chat.py:78-124 | the loop only appends to the sink log; finish is called once, last, exactly when the loop ends in success; its only failures are a continuation download failure or a missing `liveChatContinuation` |
| LiveChat.LoopRequests | youtube_dl/downloader/youtube_live_chat.py:80-99 | one request per pass; on success one more sink call than requests, otherwise one more request than sink calls; the first request is for the current token and offset, and every later one goes to the JSON endpoint |
| LiveChat.BootstrapCases | youtube_dl/downloader/youtube_live_chat.py:59-76 | the run stops before the loop with "video page download" exactly when the watch-page fetch fails, with "unable to parse" exactly when no initial data is found, with "no liveChatRenderer" exactly when the renderer path is absent, and lets an extractor or resolver exception escape; every stop leaves only the preparation and the watch-page request logged and is the run's result; otherwise the empty fragment is appended and the loop starts from the resolver's token |
| LiveChat.RunShape | youtube_dl/downloader/youtube_live_chat.py:59-126 | the sink is prepared first and the watch page fetched first; then one HTML continuation page, then only JSON-endpoint requests; on success the empty fragment, one fragment per continuation request, then exactly one finish, last; on failure or exception no finish and no fragment taken back |
| LiveChat.NoTokenRun | youtube_dl/downloader/youtube_live_chat.py:74-126 | with no token from the renderer, the run appends the empty fragment, finishes and succeeds after fetching only the watch page |
| LiveChat.TestModeLoop | youtube_dl/downloader/youtube_live_chat.py:121-122 | in test mode the loop sends at most one request |
| LiveChat.TestModeSinglePass | youtube_dl/downloader/youtube_live_chat.py:18-122 | in test mode a run sends at most the watch page request and one continuation request |
| LiveChat.FirstPageWithoutInitialData | youtube_dl/downloader/youtube_live_chat.py:82-107 | a first continuation page whose initial data cannot be found leaves `data` None, and the run fails with the missing-`liveChatContinuation` error |
| LiveChat.NextPassRequest | youtube_dl/downloader/youtube_live_chat.py:90-94 | when a pass outside test mode yields a page with an offset and a token, the next request goes to the JSON endpoint with that token and the page's offset minus 5000 ms, even when that is negative |
| LiveChat.YoutubeLiveChatReplayFD.DownloadFragment | youtube_dl/downloader/youtube_live_chat.py:26-28 | a fragment download logs its request and consumes the transport's next answer, or fails once the answers are used up |
| LiveChat.YoutubeLiveChatReplayFD.PrepareAndStartFragDownload | youtube_dl/downloader/youtube_live_chat.py:59 | logs the sink's preparation and changes nothing else |
| LiveChat.YoutubeLiveChatReplayFD.AppendFragment | youtube_dl/downloader/youtube_live_chat.py:119 | logs one appended fragment and changes nothing else |
| LiveChat.YoutubeLiveChatReplayFD.FinishFragDownload | youtube_dl/downloader/youtube_live_chat.py:124 | logs the finish and changes nothing else |
| LiveChat.YoutubeLiveChatReplayFD.RealDownload | youtube_dl/downloader/youtube_live_chat.py:14-126 | the in-place method returns the outcome, and leaves the transport, request log and sink log, that `Run` gives from its starting state; so every `Run` lemma holds of it |

## Left out

- HTTP and the fragment machinery are not modelled:
  - `_download_fragment` is a finite script of scripted answers. A fetch past the end of the script reports failure.
  - `_prepare_and_start_frag_download`, `_append_fragment` and `_finish_frag_download` are entries in a log.
  - Headers, the `ctx` dictionary (file name, `live`, `total_frags`), retries and file writing are not modelled, since they belong to the fragment base class. That class is not part of this model.
  - The finite script is what bounds the otherwise unbounded `while` loop.
- URLs are not rendered as text. A `Request` carries the video id, the token and the `playerOffsetMs` value. The constant `hidden=false&pbj=1` parameters are not represented.
- The two regular expressions and `json.loads` / `json.dumps` are given functions. They are not byte-level implementations, because the regex engine and the JSON codec are not part of this model. `FragmentRoundTrip` assumes the codec properties in `LineSafe`: on values whose objects have distinct member names (`DistinctNames`), `dumps` writes no raw newline and `loads` inverts `dumps`.
- JSON floats are not modelled. `int()` on a float, and `int()`'s acceptance of surrounding whitespace, underscores and non-ASCII digits, are not modelled either. Only an optional sign followed by ASCII digits is accepted.
- The `Json` datatype admits objects with a repeated member name, which `json.loads` never produces (a repeated key in the text keeps its last value). Lookups take the first member with a name. The round-trip lemma is stated only for values satisfying `DistinctNames`. How `json.loads` resolves a repeated key is not modelled.
- The `report_error` messages and `to_screen` output are reduced to the `Failure` reason. Whether the error is raised under `ignoreerrors` is decided by the caller, which is not part of this model.
- `info_dict` lookups other than `video_id`, and `self.params` other than `test`, are not modelled.
