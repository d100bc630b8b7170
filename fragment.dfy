/** One pass over a `liveChatContinuation` object: serialise every action to
    one line of the fragment, remember the playback offset of the last
    `replayChatItemAction`, and resolve the next continuation token. */
module Fragment {
  import opened PyJson
  import opened Continuation

  const NL: byte := 10
  const ActionsKey := "actions"
  const ReplayItemKey := "replayChatItemAction"
  const OffsetKey := "videoOffsetTimeMsec"

  /** One serialised action followed by a newline. */
  function Line(dumps: Json -> Bytes, action: Json): Bytes {
    dumps(action) + [NL]
  }

  /** The lines of `actions`, in order, concatenated. */
  function Lines(dumps: Json -> Bytes, actions: seq<Json>): Bytes
    decreases |actions|
  {
    if actions == [] then [] else Line(dumps, actions[0]) + Lines(dumps, actions[1..])
  }

  /** Appending one action appends its line: the fragment can be built up in
      place, action by action. */
  lemma {:induction false} LinesSnoc(dumps: Json -> Bytes, actions: seq<Json>, a: Json)
    ensures Lines(dumps, actions + [a]) == Lines(dumps, actions) + Line(dumps, a)
    decreases |actions|
  {
    if actions == [] {
      assert actions + [a] == [a];
      assert [a][1..] == [];
    } else {
      assert (actions + [a])[0] == actions[0];
      assert (actions + [a])[1..] == actions[1..] + [a];
      LinesSnoc(dumps, actions[1..], a);
    }
  }

  /** Index of the first newline in `b`. */
  function FindNL(b: Bytes): (r: Option<nat>)
    ensures r.Some? ==> r.value < |b| && b[r.value] == NL
    ensures forall k :: 0 <= k < |b| && (r.None? || k < r.value) ==> b[k] != NL
    decreases |b|
  {
    if b == [] then None
    else if b[0] == NL then Some(0)
    else
      match FindNL(b[1..])
      case None => None
      case Some(i) => Some(i + 1)
  }

  /** The newline-terminated lines of `b`; a last line without a terminator
      is kept. */
  function SplitLines(b: Bytes): seq<Bytes>
    decreases |b|
  {
    if b == [] then []
    else
      match FindNL(b)
      case None => [b]
      case Some(i) => [b[..i]] + SplitLines(b[i + 1..])
  }

  lemma SplitFirstLine(x: Bytes, y: Bytes)
    requires NL !in x
    ensures SplitLines(x + [NL] + y) == [x] + SplitLines(y)
  {
    var b := x + [NL] + y;
    assert b[|x|] == NL;
    assert b[..|x|] == x && b[|x| + 1..] == y;
  }

  /** `json.dumps` never writes a raw newline (none is emitted between tokens
      without `indent`, a newline inside a string is escaped, and no byte of a
      multi-byte UTF-8 sequence equals 10), and `json.loads` reads back what
      it wrote. Both are asked only of values whose objects have distinct
      member names, the only values `json.loads` produces. */
  ghost predicate LineSafe(lib: JsonLib) {
    forall a :: DistinctNames(a) ==> NL !in lib.dumps(a) && lib.loads(lib.dumps(a)) == Some(a)
  }

  /** The fragment of decoded actions splits back into one line per action,
      in order, and each line decodes to its action. */
  lemma {:induction false} FragmentRoundTrip(lib: JsonLib, actions: seq<Json>)
    requires LineSafe(lib)
    requires forall k :: 0 <= k < |actions| ==> DistinctNames(actions[k])
    ensures |SplitLines(Lines(lib.dumps, actions))| == |actions|
    ensures forall k :: 0 <= k < |actions| ==>
              SplitLines(Lines(lib.dumps, actions))[k] == lib.dumps(actions[k])
              && lib.loads(SplitLines(Lines(lib.dumps, actions))[k]) == Some(actions[k])
    decreases |actions|
  {
    if actions != [] {
      var rest := actions[1..];
      FragmentRoundTrip(lib, rest);
      var x := lib.dumps(actions[0]);
      var tail := SplitLines(Lines(lib.dumps, rest));
      assert Lines(lib.dumps, actions) == x + [NL] + Lines(lib.dumps, rest);
      SplitFirstLine(x, Lines(lib.dumps, rest));
      var ls := SplitLines(Lines(lib.dumps, actions));
      assert ls == [x] + tail;
      forall k | 0 <= k < |actions|
        ensures ls[k] == lib.dumps(actions[k]) && lib.loads(ls[k]) == Some(actions[k])
      {
        if k > 0 {
          assert ls[k] == tail[k - 1] && actions[k] == rest[k - 1];
        }
      }
    }
  }

  /** What one action contributes to the offset: None when it is not a
      `replayChatItemAction`, else `int(action['replayChatItemAction']
      ['videoOffsetTimeMsec'])`, or the exception one of those steps raises. */
  function ActionOffset(action: Json): Py<Option<int>> {
    match Contains(action, ReplayItemKey)
    case Raise(e) => Raise(e)
    case Ok(isReplay) =>
      if !isReplay then Ok(None)
      else
        match Subscript(action, Name(ReplayItemKey))
        case Raise(e) => Raise(e)
        case Ok(item) =>
          match Subscript(item, Name(OffsetKey))
          case Raise(e) => Raise(e)
          case Ok(ms) =>
            match ToInt(ms)
            case Raise(e) => Raise(e)
            case Ok(n) => Ok(Some(n))
  }

  /** The offset left after visiting `actions` in order starting from `acc`:
      each replay action overwrites it; the first raising action aborts. */
  function LastOffset(actions: seq<Json>, acc: Option<int>): Py<Option<int>>
    decreases |actions|
  {
    if actions == [] then Ok(acc)
    else
      match ActionOffset(actions[0])
      case Raise(e) => Raise(e)
      case Ok(o) => LastOffset(actions[1..], if o.Some? then o else acc)
  }

  /** No action raises. */
  ghost predicate Clean(actions: seq<Json>) {
    forall j :: 0 <= j < |actions| ==> ActionOffset(actions[j]).Ok?
  }

  /** No action is a replay action (and none raises). */
  ghost predicate NoReplay(actions: seq<Json>) {
    forall j :: 0 <= j < |actions| ==> ActionOffset(actions[j]) == Ok(None)
  }

  /** Action `i` is the last replay action, with offset `o`. */
  ghost predicate LastReplayAt(actions: seq<Json>, i: int, o: int) {
    && 0 <= i < |actions|
    && ActionOffset(actions[i]) == Ok(Some(o))
    && forall j :: i < j < |actions| ==> ActionOffset(actions[j]) == Ok(None)
  }

  /** The scan raises exactly when some action raises; otherwise it yields
      the offset of the last replay action, or `acc` when there is none. */
  lemma {:induction false} LastOffsetCases(actions: seq<Json>, acc: Option<int>)
    ensures LastOffset(actions, acc).Ok? <==> Clean(actions)
    ensures NoReplay(actions) ==> LastOffset(actions, acc) == Ok(acc)
    ensures forall i, o :: Clean(actions) && LastReplayAt(actions, i, o) ==> LastOffset(actions, acc) == Ok(Some(o))
    ensures LastOffset(actions, acc) == Ok(None) ==> NoReplay(actions) && acc.None?
    decreases |actions|
  {
    if actions != [] {
      var rest := actions[1..];
      assert forall j :: 0 <= j < |rest| ==> rest[j] == actions[j + 1];
      var first := ActionOffset(actions[0]);
      if first.Ok? {
        var acc' := if first.value.Some? then first.value else acc;
        LastOffsetCases(rest, acc');
        assert Clean(actions) <==> Clean(rest) by {
          if Clean(rest) {
            forall j | 0 <= j < |actions| ensures ActionOffset(actions[j]).Ok? {
              if j > 0 { assert actions[j] == rest[j - 1]; }
            }
          }
        }
        if LastOffset(actions, acc) == Ok(None) {
          forall j | 0 <= j < |actions| ensures ActionOffset(actions[j]) == Ok(None) {
            if j > 0 { assert actions[j] == rest[j - 1]; }
          }
        }
        forall i, o | Clean(actions) && LastReplayAt(actions, i, o)
          ensures LastOffset(actions, acc) == Ok(Some(o))
        {
          if i == 0 {
            assert NoReplay(rest);
          } else {
            assert LastReplayAt(rest, i - 1, o);
          }
        }
      } else {
        assert !Clean(actions);
      }
    }
  }

  /** Conversely, an offset the scan yields is the last replay action's, or
      the starting `acc` when no action is a replay action. */
  lemma {:induction false} LastOffsetSource(actions: seq<Json>, acc: Option<int>, o: int)
    requires LastOffset(actions, acc) == Ok(Some(o))
    ensures (exists i :: LastReplayAt(actions, i, o)) || (NoReplay(actions) && acc == Some(o))
    decreases |actions|
  {
    if actions != [] {
      var rest := actions[1..];
      var first := ActionOffset(actions[0]).value;
      var acc' := if first.Some? then first else acc;
      LastOffsetSource(rest, acc', o);
      if exists i :: LastReplayAt(rest, i, o) {
        var i :| LastReplayAt(rest, i, o);
        assert LastReplayAt(actions, i + 1, o) by {
          forall j | i + 1 < j < |actions| ensures ActionOffset(actions[j]) == Ok(None) {
            assert actions[j] == rest[j - 1];
          }
        }
      } else if first.Some? {
        assert LastReplayAt(actions, 0, o) by {
          forall j | 0 < j < |actions| ensures ActionOffset(actions[j]) == Ok(None) {
            assert actions[j] == rest[j - 1];
          }
        }
      } else {
        assert NoReplay(actions) by {
          forall j | 0 <= j < |actions| ensures ActionOffset(actions[j]) == Ok(None) {
            if j > 0 { assert actions[j] == rest[j - 1]; }
          }
        }
      }
    }
  }

  /** What one iteration yields: the fragment to append, the offset for the
      next request and the next continuation token. */
  datatype Page = Page(fragment: Bytes, offset: Option<int>, next: Option<Json>)

  /** `live_chat_continuation['actions']`, as a `for` loop visits it. */
  function ActionList(lcc: Json): Py<seq<Json>> {
    match Subscript(lcc, Name(ActionsKey))
    case Raise(e) => Raise(e)
    case Ok(v) => Iterate(v)
  }

  /** The effect of one iteration on a `liveChatContinuation` value. Without
      `actions` the fragment is empty and neither offset nor token is set. */
  function Iteration(dumps: Json -> Bytes, lcc: Json): Py<Page> {
    match Contains(lcc, ActionsKey)
    case Raise(e) => Raise(e)
    case Ok(hasActions) =>
      if !hasActions then Ok(Page([], None, None))
      else
        match ActionList(lcc)
        case Raise(e) => Raise(e)
        case Ok(actions) =>
          match LastOffset(actions, None)
          case Raise(e) => Raise(e)
          case Ok(offset) =>
            match ContinuationId(lcc)
            case Raise(e) => Raise(e)
            case Ok(next) => Ok(Page(Lines(dumps, actions), offset, next))
  }

  /** An iteration that succeeds with actions present appends exactly their
      lines, takes the offset of the last replay action (none when there is
      no replay action) and the token the resolver finds; without `actions`
      it appends nothing and sets neither. */
  lemma IterationMeaning(dumps: Json -> Bytes, lcc: Json)
    requires Iteration(dumps, lcc).Ok?
    ensures var p := Iteration(dumps, lcc).value;
      if Contains(lcc, ActionsKey) == Ok(true) then
        && ActionList(lcc).Ok?
        && p.fragment == Lines(dumps, ActionList(lcc).value)
        && (p.offset.None? <==> NoReplay(ActionList(lcc).value))
        && (p.offset.Some? ==> exists i :: LastReplayAt(ActionList(lcc).value, i, p.offset.value))
        && ContinuationId(lcc) == Ok(p.next)
      else
        p == Page([], None, None)
  {
    if Contains(lcc, ActionsKey) == Ok(true) {
      var actions := ActionList(lcc).value;
      var p := Iteration(dumps, lcc).value;
      LastOffsetCases(actions, None);
      if p.offset.Some? {
        LastOffsetSource(actions, None, p.offset.value);
      }
    }
  }

  /** The `actions` loop in the body of `real_download`'s `while` loop: build
      the fragment in place action by action, updating the offset, then
      resolve the next token. */
  method ProcessContinuation(dumps: Json -> Bytes, lcc: Json) returns (r: Py<Page>)
    ensures r == Iteration(dumps, lcc)
  {
    var offset: Option<int> := None;
    var fragment: Bytes := [];
    var hasActions := Contains(lcc, ActionsKey);
    if hasActions.Raise? {
      return Raise(hasActions.exc);
    }
    if !hasActions.value {
      return Ok(Page(fragment, offset, None));
    }
    var actions: seq<Json>;
    match ActionList(lcc) {
      case Raise(e) =>
        return Raise(e);
      case Ok(xs) =>
        actions := xs;
    }
    for i := 0 to |actions|
      invariant fragment == Lines(dumps, actions[..i])
      invariant LastOffset(actions, None) == LastOffset(actions[i..], offset)
    {
      var action := actions[i];
      assert actions[i..][0] == action && actions[i..][1..] == actions[i + 1..];
      var isReplay := Contains(action, ReplayItemKey);
      if isReplay.Raise? {
        return Raise(isReplay.exc);
      }
      if isReplay.value {
        var item := Subscript(action, Name(ReplayItemKey));
        if item.Raise? {
          return Raise(item.exc);
        }
        var ms := Subscript(item.value, Name(OffsetKey));
        if ms.Raise? {
          return Raise(ms.exc);
        }
        var n := ToInt(ms.value);
        if n.Raise? {
          return Raise(n.exc);
        }
        offset := Some(n.value);
      }
      LinesSnoc(dumps, actions[..i], action);
      assert actions[..i + 1] == actions[..i] + [action];
      fragment := fragment + Line(dumps, action);
    }
    assert actions[..|actions|] == actions;
    var next := ContinuationGetId(lcc);
    if next.Raise? {
      return Raise(next.exc);
    }
    return Ok(Page(fragment, offset, next.value));
  }
}
