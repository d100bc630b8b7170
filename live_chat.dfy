/** The fragment fetch loop of `YoutubeLiveChatReplayFD.real_download`: fetch
    the watch page, find the first continuation token, then follow tokens
    page by page, appending one fragment per page to the output and finishing
    the download only when the loop ends without failure. */
module LiveChat {
  import opened PyJson
  import opened ObjPath
  import opened Continuation
  import opened InitialData
  import opened Fragment

  /** The three request forms, by the parameters their URLs carry:
      `https://www.youtube.com/watch?v=<id>`,
      `https://www.youtube.com/live_chat_replay?continuation=<token>` and
      `https://www.youtube.com/live_chat_replay/get_live_chat_replay?continuation=<token>&playerOffsetMs=<ms>&hidden=false&pbj=1`. */
  datatype Request =
    | WatchPage(videoId: string)
    | ReplayPage(continuation: Json)
    | ReplayJson(continuation: Json, playerOffsetMs: int)

  /** What a fragment download reports: a success flag and the body. */
  datatype Response = Response(success: bool, body: Bytes)

  /** The calls the loop makes on the fragment sink. */
  datatype SinkCall = Prepare | Append(data: Bytes) | Finish

  /** The reasons `real_download` reports before returning False. */
  datatype Failure =
    | VideoPageDownload
    | UnparsableInitialData
    | NoLiveChatRenderer
    | ContinuationDownload
    | NoLiveChatContinuation

  /** Returned True, returned False for a reason, or let an exception escape. */
  datatype Outcome = Finished | Failed(reason: Failure) | Raised(exc: Exc)

  /** The inputs of one run: the video, the `test` option, and the regular
      expressions and JSON codec the code calls. */
  datatype Config = Config(videoId: string, test: bool, patterns: Patterns, json: JsonLib)

  /** The transport's remaining answers, the requests sent and the sink calls made. */
  datatype State = State(pending: seq<Response>, requests: seq<Request>, calls: seq<SinkCall>)

  datatype RunResult = RunResult(outcome: Outcome, state: State)

  const RendererPath := [Name("contents"), Name("twoColumnWatchNextResults"), Name("conversationBar"), Name("liveChatRenderer")]
  const ContinuationPath := [Name("continuationContents"), Name("liveChatContinuation")]
  const ResponseKey := "response"
  /** How far before the last seen action the next page is asked to start. */
  const RewindMs := 5000

  /** Send `req`: the transport answers with its next scripted response, or
      with a failure once the script is used up. */
  function Fetch(s: State, req: Request): (Response, State) {
    if s.pending == [] then (Response(false, []), s.(requests := s.requests + [req]))
    else (s.pending[0], State(s.pending[1..], s.requests + [req], s.calls))
  }

  function Call(s: State, c: SinkCall): State {
    s.(calls := s.calls + [c])
  }

  /** The request for the current token: the HTML page on the first pass,
      the JSON endpoint at the previous offset minus 5000 ms afterwards. */
  function NextRequest(first: bool, token: Json, offset: Option<int>): Request
    requires first || offset.Some?
  {
    if first then ReplayPage(token) else ReplayJson(token, offset.value - RewindMs)
  }

  /** `data` after a continuation download: the embedded initial data of the
      HTML page, or the `response` member of the decoded JSON. */
  function ContinuationData(cfg: Config, first: bool, body: Bytes): Py<Json> {
    if first then
      match ParseYtInitialData(cfg.patterns, cfg.json.loads, body)
      case Raise(e) => Raise(e)
      case Ok(d) => Ok(PyValue(d))
    else
      match cfg.json.loads(body)
      case None => Raise(JsonDecodeError)
      case Some(j) => Ok(PyValue(Get(j, [Name(ResponseKey)])))
  }

  /** Where the run stands after the watch page: stopped with a result, or
      ready to loop with the first token. */
  datatype Setup = Stopped(result: RunResult) | Ready(token: Option<Json>, state: State)

  /** The part of `real_download` before its `while` loop: prepare the sink,
      fetch and parse the watch page, find the
      live chat renderer and its token, and append the empty fragment. */
  function Bootstrap(cfg: Config, s0: State): Setup {
    var (resp, s) := Fetch(Call(s0, Prepare), WatchPage(cfg.videoId));
    if !resp.success then Stopped(RunResult(Failed(VideoPageDownload), s))
    else
      match ParseYtInitialData(cfg.patterns, cfg.json.loads, resp.body)
      case Raise(e) => Stopped(RunResult(Raised(e), s))
      case Ok(d) =>
        if IsNone(d) then Stopped(RunResult(Failed(UnparsableInitialData), s))
        else
          var renderer := Get(d.value, RendererPath);
          if IsNone(renderer) then Stopped(RunResult(Failed(NoLiveChatRenderer), s))
          else
            match ContinuationId(renderer.value)
            case Raise(e) => Stopped(RunResult(Raised(e), s))
            case Ok(token) => Ready(token, Call(s, Append([])))
  }

  /** The three ways the run stops before the loop, told apart by their
      reasons: a failed watch-page download, no initial data in the page, no
      live chat renderer in it. An exception from the extractor or the
      resolver escapes. Every stop leaves the sink prepared and the watch
      page requested, and nothing more; going on, the empty fragment has been
      appended and the loop starts from the resolver's token. */
  lemma BootstrapCases(cfg: Config, s0: State)
    ensures var (resp, s) := Fetch(Call(s0, Prepare), WatchPage(cfg.videoId));
      var d := ParseYtInitialData(cfg.patterns, cfg.json.loads, resp.body);
      var b := Bootstrap(cfg, s0);
      && s.calls == s0.calls + [Prepare]
      && s.requests == s0.requests + [WatchPage(cfg.videoId)]
      && (b.Stopped? ==> b.result.state == s && Run(cfg, s0) == b.result)
      && (b.Stopped? ==> !b.result.outcome.Finished?)
      && (b == Stopped(RunResult(Failed(VideoPageDownload), s)) <==> !resp.success)
      && (b == Stopped(RunResult(Failed(UnparsableInitialData), s)) <==> resp.success && d.Ok? && IsNone(d.value))
      && (b == Stopped(RunResult(Failed(NoLiveChatRenderer), s)) <==>
            resp.success && d.Ok? && !IsNone(d.value) && IsNone(Get(d.value.value, RendererPath)))
      && (b.Stopped? && b.result.outcome.Raised? ==>
            resp.success && (d.Raise? || (d.Ok? && !IsNone(d.value) && !IsNone(Get(d.value.value, RendererPath))
                                          && ContinuationId(Get(d.value.value, RendererPath).value).Raise?)))
      && (b.Ready? <==>
            resp.success && d.Ok? && !IsNone(d.value) && !IsNone(Get(d.value.value, RendererPath))
            && ContinuationId(Get(d.value.value, RendererPath).value).Ok?)
      && (b.Ready? ==>
            b.state == Call(s, Append([])) && Ok(b.token) == ContinuationId(Get(d.value.value, RendererPath).value))
  {
  }

  /** The end of one pass of the loop body: the run is over, or it goes on
      with the page just processed, after appending its fragment. */
  datatype Step = Done(result: RunResult) | Next(page: Page, state: State)

  /** What a fetched continuation response yields: the outcome the run ends
      with, or the page processed from its `liveChatContinuation`. */
  datatype Handled = Ended(outcome: Outcome) | Got(page: Page)

  /** The loop body of `real_download` after the fetch: check the download,
      find `data`, find `liveChatContinuation` in it and process that. */
  function HandleResponse(cfg: Config, first: bool, resp: Response): (r: Handled)
    ensures r == Ended(Failed(ContinuationDownload)) <==> !resp.success
    ensures r.Got? <==>
      && resp.success
      && ContinuationData(cfg, first, resp.body).Ok?
      && !IsNone(Get(ContinuationData(cfg, first, resp.body).value, ContinuationPath))
      && Iteration(cfg.json.dumps, Get(ContinuationData(cfg, first, resp.body).value, ContinuationPath).value).Ok?
    ensures r.Got? ==>
      r.page == Iteration(cfg.json.dumps, Get(ContinuationData(cfg, first, resp.body).value, ContinuationPath).value).value
    ensures r.Ended? ==> !r.outcome.Finished?
    ensures r.Ended? && r.outcome.Failed? ==>
      r.outcome.reason == ContinuationDownload || r.outcome.reason == NoLiveChatContinuation
    ensures r == Ended(Failed(NoLiveChatContinuation)) <==>
      && resp.success
      && ContinuationData(cfg, first, resp.body).Ok?
      && IsNone(Get(ContinuationData(cfg, first, resp.body).value, ContinuationPath))
    ensures r.Ended? && r.outcome.Raised? <==>
      && resp.success
      && (|| ContinuationData(cfg, first, resp.body).Raise?
          || (&& ContinuationData(cfg, first, resp.body).Ok?
              && !IsNone(Get(ContinuationData(cfg, first, resp.body).value, ContinuationPath))
              && Iteration(cfg.json.dumps, Get(ContinuationData(cfg, first, resp.body).value, ContinuationPath).value).Raise?))
  {
    if !resp.success then Ended(Failed(ContinuationDownload))
    else
      match ContinuationData(cfg, first, resp.body)
      case Raise(e) => Ended(Raised(e))
      case Ok(data) =>
        var lcc := Get(data, ContinuationPath);
        if IsNone(lcc) then Ended(Failed(NoLiveChatContinuation))
        else
          match Iteration(cfg.json.dumps, lcc.value)
          case Raise(e) => Ended(Raised(e))
          case Ok(page) => Got(page)
  }

  /** One pass of the body of `real_download`'s `while` loop, for a token that is not None:
      fetch, handle the response, append the page's fragment, and stop in
      test mode or when no offset was found. */
  function Pass(cfg: Config, first: bool, token: Json, offset: Option<int>, s: State): (r: Step)
    requires first || offset.Some?
    ensures Progress(s, r) && (r.Next? ==> !cfg.test)
  {
    var (resp, s1) := Fetch(s, NextRequest(first, token, offset));
    match HandleResponse(cfg, first, resp)
    case Ended(o) => Done(RunResult(o, s1))
    case Got(page) =>
      var s2 := Call(s1, Append(page.fragment));
      if cfg.test || page.offset.None? then Done(RunResult(Finished, Call(s2, Finish)))
      else Next(page, s2)
  }

  /** A pass goes on exactly when its response yields a page with an offset
      outside test mode, and then with that page, having appended its
      fragment. A page without an offset, or any page in test mode, is
      appended and then the download is finished. Otherwise the run ends with
      the response's outcome and no sink call. */
  lemma PassCases(cfg: Config, first: bool, token: Json, offset: Option<int>, s: State)
    requires first || offset.Some?
    ensures var (resp, s1) := Fetch(s, NextRequest(first, token, offset));
      var h := HandleResponse(cfg, first, resp);
      var r := Pass(cfg, first, token, offset, s);
      && (r.Next? <==> h.Got? && h.page.offset.Some? && !cfg.test)
      && (r.Next? ==> r.page == h.page && r.state == Call(s1, Append(h.page.fragment)))
      && (h.Got? && r.Done? ==> r.result == RunResult(Finished, Call(Call(s1, Append(h.page.fragment)), Finish)))
      && (h.Ended? ==> r == Done(RunResult(h.outcome, s1)))
  {
  }

  /** The `while` loop of `real_download` over `first`, `continuation_id`
      and `offset`, then the finish call. */
  function Loop(cfg: Config, first: bool, token: Option<Json>, offset: Option<int>, s: State): RunResult
    requires first || offset.Some?
    decreases |s.pending|, 1
  {
    if IsNone(token) then RunResult(Finished, Call(s, Finish))
    else Continue(cfg, Pass(cfg, first, token.value, offset, s), s)
  }

  /** A pass that leaves the loop running has used up a response and found
      an offset. */
  predicate Progress(s: State, step: Step) {
    step.Next? ==> |step.state.pending| < |s.pending| && step.page.offset.Some?
  }

  /** After a pass from `s`: stop with its result, or go round again with
      the token and offset of the page it processed. */
  function Continue(cfg: Config, step: Step, s: State): RunResult
    requires Progress(s, step)
    decreases |s.pending|, 0
  {
    match step
    case Done(r) => r
    case Next(page, s2) => Loop(cfg, false, page.next, page.offset, s2)
  }

  /** The whole of `real_download`, from the state before it starts. */
  function Run(cfg: Config, s0: State): RunResult {
    match Bootstrap(cfg, s0)
    case Stopped(r) => r
    case Ready(token, s) => Loop(cfg, true, token, None, s)
  }

  /** Every call in `cs` appends a fragment. */
  predicate AllAppends(cs: seq<SinkCall>) {
    forall k :: 0 <= k < |cs| ==> cs[k].Append?
  }

  /** The sink calls of a successful loop: appends, then one finish, last. */
  predicate AppendsThenFinish(cs: seq<SinkCall>) {
    |cs| > 0 && cs[|cs| - 1] == Finish && AllAppends(cs[..|cs| - 1])
  }

  /** What a loop leaves in the sink log: appends, then a finish exactly
      when it ends in success. */
  predicate CallsShape(o: Outcome, cs: seq<SinkCall>) {
    if o.Finished? then AppendsThenFinish(cs) else AllAppends(cs)
  }

  /** Every request in `rs` goes to the JSON endpoint. */
  predicate AllReplayJson(rs: seq<Request>) {
    forall k :: 0 <= k < |rs| ==> rs[k].ReplayJson?
  }

  /** `a` starts with `p`: what was logged before is still there. */
  predicate Extends<T(==)>(a: seq<T>, p: seq<T>) {
    |p| <= |a| && a[..|p|] == p
  }

  lemma ExtendsSplit<T>(a: seq<T>, p: seq<T>, xs: seq<T>)
    requires Extends(a, p + xs)
    ensures Extends(a, p) && a[|p|..] == xs + a[|p| + |xs|..]
  {
    assert a[..|p|] == (p + xs)[..|p|];
    assert a[|p|..|p| + |xs|] == (p + xs)[|p|..];
    assert a[|p|..] == a[|p|..|p| + |xs|] + a[|p| + |xs|..];
  }

  lemma ConsAppend(f: Bytes, o: Outcome, cs: seq<SinkCall>)
    requires CallsShape(o, cs)
    ensures CallsShape(o, [Append(f)] + cs)
  {
    if |cs| > 0 {
      assert ([Append(f)] + cs)[..|cs|] == [Append(f)] + cs[..|cs| - 1];
    }
  }

  /** What one pass from `s` logs, having sent `req`. Going on, it has
      appended the page's fragment; ending in success, it has appended one
      fragment and then called finish; ending otherwise, it has made no sink
      call, and a failure is a failed download or a missing
      `liveChatContinuation`. */
  predicate PassLogged(s: State, req: Request, r: Step) {
    var st := if r.Next? then r.state else r.result.state;
    && st.requests == s.requests + [req]
    && (r.Next? ==> st.calls == s.calls + [Append(r.page.fragment)])
    && (r.Done? && r.result.outcome.Finished? ==>
          |st.calls| == |s.calls| + 2 && st.calls == s.calls + [st.calls[|s.calls|], Finish]
          && st.calls[|s.calls|].Append?)
    && (r.Done? && !r.result.outcome.Finished? ==> st.calls == s.calls)
    && (r.Done? && r.result.outcome.Failed? ==>
          r.result.outcome.reason == ContinuationDownload || r.result.outcome.reason == NoLiveChatContinuation)
  }

  /** One pass sends exactly the request for its token and offset, and logs
      as PassLogged says. */
  lemma PassShape(cfg: Config, first: bool, token: Json, offset: Option<int>, s: State)
    requires first || offset.Some?
    ensures PassLogged(s, NextRequest(first, token, offset), Pass(cfg, first, token, offset, s))
  {
  }

  /** The loop only adds to the sink log: one append per pass that gets that
      far, and a finish, once and last, only when it ends in success. Its
      failures are failed continuation downloads or missing
      `liveChatContinuation` objects. */
  lemma {:induction false} LoopCalls(cfg: Config, first: bool, token: Option<Json>, offset: Option<int>, s: State)
    requires first || offset.Some?
    ensures var r := Loop(cfg, first, token, offset, s);
      && Extends(r.state.calls, s.calls)
      && CallsShape(r.outcome, r.state.calls[|s.calls|..])
      && (r.outcome.Failed? ==> r.outcome.reason == ContinuationDownload || r.outcome.reason == NoLiveChatContinuation)
    decreases |s.pending|, 1
  {
    if IsNone(token) {
      var a := Loop(cfg, first, token, offset, s).state.calls;
      assert a == s.calls + [Finish];
      assert a[|s.calls|..] == [Finish];
    } else {
      var req := NextRequest(first, token.value, offset);
      PassShape(cfg, first, token.value, offset, s);
      ContinueCalls(cfg, req, Pass(cfg, first, token.value, offset, s), s);
    }
  }

  lemma {:induction false} ContinueCalls(cfg: Config, req: Request, step: Step, s: State)
    requires Progress(s, step) && PassLogged(s, req, step)
    ensures var r := Continue(cfg, step, s);
      && Extends(r.state.calls, s.calls)
      && CallsShape(r.outcome, r.state.calls[|s.calls|..])
      && (r.outcome.Failed? ==> r.outcome.reason == ContinuationDownload || r.outcome.reason == NoLiveChatContinuation)
    decreases |s.pending|, 0
  {
    match step
    case Done(res) =>
      DoneCalls(s, req, res);
    case Next(page, s2) =>
      LoopCalls(cfg, false, page.next, page.offset, s2);
      var r := Loop(cfg, false, page.next, page.offset, s2);
      AppendThenCalls(r.state.calls, s.calls, page.fragment, r.outcome);
  }

  /** The sink log of a pass that ends the loop. */
  lemma DoneCalls(s: State, req: Request, res: RunResult)
    requires PassLogged(s, req, Done(res))
    ensures Extends(res.state.calls, s.calls)
    ensures CallsShape(res.outcome, res.state.calls[|s.calls|..])
  {
    var a := res.state.calls;
    if res.outcome.Finished? {
      assert a[|s.calls|..] == [a[|s.calls|], Finish];
    } else {
      assert a[|s.calls|..] == [];
    }
  }

  /** A log that extends `p` plus one append, shaped after it, is shaped after `p`. */
  lemma AppendThenCalls(a: seq<SinkCall>, p: seq<SinkCall>, f: Bytes, o: Outcome)
    requires Extends(a, p + [Append(f)]) && CallsShape(o, a[|p| + 1..])
    ensures Extends(a, p) && CallsShape(o, a[|p|..])
  {
    ExtendsSplit(a, p, [Append(f)]);
    ConsAppend(f, o, a[|p| + 1..]);
  }

  /** The loop sends one request per pass, and a pass that ends in failure
      gets as far as its request and no further: on success there is one
      sink call more than requests (the finish), otherwise one request more
      than sink calls. The first request is the one for the current token and
      offset; every later one goes to the JSON endpoint. */
  lemma {:induction false} LoopRequests(cfg: Config, first: bool, token: Option<Json>, offset: Option<int>, s: State)
    requires first || offset.Some?
    ensures var r := Loop(cfg, first, token, offset, s);
      && Extends(r.state.requests, s.requests)
      && |s.calls| <= |r.state.calls|
      && (r.outcome.Finished? ==> |r.state.calls| - |s.calls| == |r.state.requests| - |s.requests| + 1)
      && (!r.outcome.Finished? ==> |r.state.calls| - |s.calls| + 1 == |r.state.requests| - |s.requests|)
      && (!IsNone(token) <==> |r.state.requests| > |s.requests|)
      && (!IsNone(token) ==> r.state.requests[|s.requests|] == NextRequest(first, token.value, offset))
      && (!IsNone(token) ==> AllReplayJson(r.state.requests[|s.requests| + 1..]))
    decreases |s.pending|, 1
  {
    if !IsNone(token) {
      var req := NextRequest(first, token.value, offset);
      PassShape(cfg, first, token.value, offset, s);
      ContinueRequests(cfg, req, Pass(cfg, first, token.value, offset, s), s);
    }
  }

  lemma {:induction false} ContinueRequests(cfg: Config, req: Request, step: Step, s: State)
    requires Progress(s, step) && PassLogged(s, req, step)
    ensures var r := Continue(cfg, step, s);
      && Extends(r.state.requests, s.requests)
      && |s.calls| <= |r.state.calls|
      && (r.outcome.Finished? ==> |r.state.calls| - |s.calls| == |r.state.requests| - |s.requests| + 1)
      && (!r.outcome.Finished? ==> |r.state.calls| - |s.calls| + 1 == |r.state.requests| - |s.requests|)
      && |r.state.requests| > |s.requests|
      && r.state.requests[|s.requests|] == req
      && AllReplayJson(r.state.requests[|s.requests| + 1..])
    decreases |s.pending|, 0
  {
    match step
    case Done(res) =>
      assert res.state.requests[|s.requests| + 1..] == [];
    case Next(page, s2) =>
      LoopRequests(cfg, false, page.next, page.offset, s2);
      var r := Loop(cfg, false, page.next, page.offset, s2);
      RequestThenRequests(r.state.requests, s.requests, req, !IsNone(page.next));
  }

  /** A log that extends `p` plus `req`, with only JSON-endpoint requests
      after its next one (or none), has `req` at `|p|` and only JSON-endpoint
      requests after it. */
  lemma RequestThenRequests(a: seq<Request>, p: seq<Request>, req: Request, more: bool)
    requires Extends(a, p + [req])
    requires more <==> |a| > |p| + 1
    requires more ==> a[|p| + 1].ReplayJson? && AllReplayJson(a[|p| + 2..])
    ensures Extends(a, p) && a[|p|] == req && AllReplayJson(a[|p| + 1..])
  {
    ExtendsSplit(a, p, [req]);
    if more {
      assert a[|p| + 1..] == [a[|p| + 1]] + a[|p| + 2..];
    } else {
      assert a[|p| + 1..] == [];
    }
  }

  /** The logs of a whole run from `s0`. It keeps the sink calls and
      requests made before it and prepares the sink first. It fetches the
      watch page first, then the HTML continuation page, then only the JSON
      endpoint. On success it appends the empty fragment, then one fragment
      per continuation request, then calls finish exactly once, last. On
      every failure or escaping exception it never calls finish, and no
      fragment appended before is taken back. */
  predicate RunLogged(s0: State, videoId: string, r: RunResult) {
    && Extends(r.state.calls, s0.calls + [Prepare])
    && Extends(r.state.requests, s0.requests + [WatchPage(videoId)])
    && (|r.state.requests| > |s0.requests| + 1 ==> r.state.requests[|s0.requests| + 1].ReplayPage?)
    && (|r.state.requests| > |s0.requests| + 1 ==> AllReplayJson(r.state.requests[|s0.requests| + 2..]))
    && (r.outcome.Finished? ==>
          && |r.state.calls| - |s0.calls| == |r.state.requests| - |s0.requests| + 2
          && r.state.calls[|s0.calls| + 1] == Append([]))
    && CallsShape(r.outcome, r.state.calls[|s0.calls| + 1..])
  }

  lemma RunShape(cfg: Config, s0: State)
    ensures RunLogged(s0, cfg.videoId, Run(cfg, s0))
  {
    match Bootstrap(cfg, s0)
    case Stopped(res) =>
      var c := res.state.calls;
      assert c == s0.calls + [Prepare];
      assert c[|s0.calls| + 1..] == [];
    case Ready(token, s) =>
      LoopCalls(cfg, true, token, None, s);
      LoopRequests(cfg, true, token, None, s);
      ReadyLogged(s0, s, cfg.videoId, token, Loop(cfg, true, token, None, s));
  }

  /** What the loop's lemmas say about a loop started after the watch page
      makes the whole run logged as RunLogged says. */
  lemma ReadyLogged(s0: State, s: State, videoId: string, token: Option<Json>, r: RunResult)
    requires s.calls == s0.calls + [Prepare] + [Append([])]
    requires s.requests == s0.requests + [WatchPage(videoId)]
    requires Extends(r.state.calls, s.calls) && CallsShape(r.outcome, r.state.calls[|s.calls|..])
    requires Extends(r.state.requests, s.requests) && |s.calls| <= |r.state.calls|
    requires r.outcome.Finished? ==> |r.state.calls| - |s.calls| == |r.state.requests| - |s.requests| + 1
    requires !IsNone(token) <==> |r.state.requests| > |s.requests|
    requires !IsNone(token) ==> r.state.requests[|s.requests|] == NextRequest(true, token.value, None)
    requires !IsNone(token) ==> AllReplayJson(r.state.requests[|s.requests| + 1..])
    ensures RunLogged(s0, videoId, r)
  {
    var c := r.state.calls;
    ExtendsSplit(c, s0.calls + [Prepare], [Append([])]);
    ConsAppend([], r.outcome, c[|s.calls|..]);
  }

  /** When the renderer yields no token, the run is the empty append followed
      by finish, and only the watch page is requested. */
  lemma NoTokenRun(cfg: Config, s0: State)
    requires Bootstrap(cfg, s0).Ready? && IsNone(Bootstrap(cfg, s0).token)
    ensures Run(cfg, s0).outcome == Finished
    ensures Run(cfg, s0).state.calls == s0.calls + [Prepare, Append([]), Finish]
    ensures Run(cfg, s0).state.requests == s0.requests + [WatchPage(cfg.videoId)]
  {
  }

  /** In test mode the loop makes at most one pass. */
  lemma TestModeLoop(cfg: Config, first: bool, token: Option<Json>, offset: Option<int>, s: State)
    requires cfg.test && (first || offset.Some?)
    ensures |Loop(cfg, first, token, offset, s).state.requests| <= |s.requests| + 1
  {
    if !IsNone(token) {
      var step := Pass(cfg, first, token.value, offset, s);
      PassShape(cfg, first, token.value, offset, s);
      assert step.Done?;
    }
  }

  /** In test mode at most one continuation request is sent. */
  lemma TestModeSinglePass(cfg: Config, s0: State)
    requires cfg.test
    ensures |Run(cfg, s0).state.requests| <= |s0.requests| + 2
  {
    match Bootstrap(cfg, s0)
    case Stopped(_) =>
    case Ready(token, s) =>
      assert |s.requests| == |s0.requests| + 1;
      TestModeLoop(cfg, true, token, None, s);
  }

  /** A first continuation page without embedded initial data leaves `data`
      as None, so the run fails for want of `liveChatContinuation`. */
  lemma FirstPageWithoutInitialData(cfg: Config, token: Option<Json>, s: State)
    requires !IsNone(token) && s.pending != [] && s.pending[0].success
    requires ParseYtInitialData(cfg.patterns, cfg.json.loads, s.pending[0].body) == Ok(None)
    ensures Loop(cfg, true, token, None, s).outcome == Failed(NoLiveChatContinuation)
  {
  }

  /** A pass whose response yields a page with an offset and a token, outside
      test mode, hands them to the next pass, whose request goes to the JSON
      endpoint with that token and the offset minus 5000 ms, whatever the sign
      of the difference. */
  lemma NextPassRequest(cfg: Config, first: bool, token: Option<Json>, offset: Option<int>, s: State)
    requires first || offset.Some?
    requires !IsNone(token) && !cfg.test
    requires var h := HandleResponse(cfg, first, Fetch(s, NextRequest(first, token.value, offset)).0);
      h.Got? && h.page.offset.Some? && !IsNone(h.page.next)
    ensures var page := HandleResponse(cfg, first, Fetch(s, NextRequest(first, token.value, offset)).0).page;
      var r := Loop(cfg, first, token, offset, s);
      && |r.state.requests| > |s.requests| + 1
      && r.state.requests[|s.requests| + 1] == ReplayJson(page.next.value, page.offset.value - 5000)
  {
    var req := NextRequest(first, token.value, offset);
    PassCases(cfg, first, token.value, offset, s);
    PassShape(cfg, first, token.value, offset, s);
    ContinueNextRequest(cfg, req, Pass(cfg, first, token.value, offset, s), s);
  }

  lemma ContinueNextRequest(cfg: Config, req: Request, step: Step, s: State)
    requires Progress(s, step) && PassLogged(s, req, step)
    requires step.Next? && !IsNone(step.page.next)
    ensures var r := Continue(cfg, step, s);
      && |r.state.requests| > |s.requests| + 1
      && r.state.requests[|s.requests| + 1] == ReplayJson(step.page.next.value, step.page.offset.value - 5000)
  {
    LoopRequests(cfg, false, step.page.next, step.page.offset, step.state);
  }

  /** The downloader: the transport's script and the two logs are the state
      that `real_download` changes through `_download_fragment`,
      `_prepare_and_start_frag_download`, `_append_fragment` and
      `_finish_frag_download`. */
  class YoutubeLiveChatReplayFD {
    var pending: seq<Response>
    var requests: seq<Request>
    var calls: seq<SinkCall>

    function Snapshot(): State
      reads this
    {
      State(pending, requests, calls)
    }

    constructor (script: seq<Response>)
      ensures Snapshot() == State(script, [], [])
    {
      pending := script;
      requests := [];
      calls := [];
    }

    method DownloadFragment(req: Request) returns (success: bool, body: Bytes)
      modifies this
      ensures (Response(success, body), Snapshot()) == Fetch(old(Snapshot()), req)
    {
      requests := requests + [req];
      if pending == [] {
        success, body := false, [];
      } else {
        success, body := pending[0].success, pending[0].body;
        pending := pending[1..];
      }
    }

    method PrepareAndStartFragDownload()
      modifies this
      ensures Snapshot() == Call(old(Snapshot()), Prepare)
    {
      calls := calls + [Prepare];
    }

    method AppendFragment(data: Bytes)
      modifies this
      ensures Snapshot() == Call(old(Snapshot()), Append(data))
    {
      calls := calls + [Append(data)];
    }

    method FinishFragDownload()
      modifies this
      ensures Snapshot() == Call(old(Snapshot()), Finish)
    {
      calls := calls + [Finish];
    }

    /** `real_download`: Finished stands for returning True, Failed for
        returning False after reporting the reason. */
    method RealDownload(cfg: Config) returns (outcome: Outcome)
      modifies this
      ensures RunResult(outcome, Snapshot()) == Run(cfg, old(Snapshot()))
    {
      PrepareAndStartFragDownload();
      var success, raw := DownloadFragment(WatchPage(cfg.videoId));
      if !success {
        return Failed(VideoPageDownload);
      }
      var parsed := ParseYtInitialData(cfg.patterns, cfg.json.loads, raw);
      if parsed.Raise? {
        return Raised(parsed.exc);
      }
      if IsNone(parsed.value) {
        return Failed(UnparsableInitialData);
      }
      var renderer := GetObjValue(parsed.value.value, RendererPath);
      if IsNone(renderer) {
        return Failed(NoLiveChatRenderer);
      }
      var found := ContinuationGetId(renderer.value);
      if found.Raise? {
        return Raised(found.exc);
      }
      var continuationId := found.value;
      AppendFragment([]);
      assert Bootstrap(cfg, old(Snapshot())) == Ready(continuationId, Snapshot());

      var first := true;
      var offset: Option<int> := None;
      while !IsNone(continuationId)
        invariant first || offset.Some?
        invariant Run(cfg, old(Snapshot())) == Loop(cfg, first, continuationId, offset, Snapshot())
        decreases |pending|
      {
        ghost var before := Snapshot();
        var data: Json;
        if first {
          success, raw := DownloadFragment(ReplayPage(continuationId.value));
          if !success {
            return Failed(ContinuationDownload);
          }
          var page := ParseYtInitialData(cfg.patterns, cfg.json.loads, raw);
          if page.Raise? {
            return Raised(page.exc);
          }
          data := PyValue(page.value);
        } else {
          success, raw := DownloadFragment(ReplayJson(continuationId.value, offset.value - RewindMs));
          if !success {
            return Failed(ContinuationDownload);
          }
          var decoded := cfg.json.loads(raw);
          if decoded.None? {
            return Raised(JsonDecodeError);
          }
          var response := GetObjValue(decoded.value, [Name(ResponseKey)]);
          data := PyValue(response);
        }
        assert ContinuationData(cfg, first, raw) == Ok(data);
        first := false;
        continuationId := None;

        var lcc := GetObjValue(data, ContinuationPath);
        if IsNone(lcc) {
          return Failed(NoLiveChatContinuation);
        }
        offset := None;
        var result := ProcessContinuation(cfg.json.dumps, lcc.value);
        if result.Raise? {
          return Raised(result.exc);
        }
        offset, continuationId := result.value.offset, result.value.next;
        AppendFragment(result.value.fragment);

        if cfg.test || offset.None? {
          break;
        }
      }
      FinishFragDownload();
      return Finished;
    }
  }
}
