/** The continuation token resolver, `continuation_get_id`: pick the next
    pagination token from the `continuations` list of a renderer or of a
    `liveChatContinuation` object. */
module Continuation {
  import opened PyJson
  import opened ObjPath

  const ContinuationsKey := "continuations"
  const ReloadKey := "reloadContinuationData"
  const ReplayKey := "liveChatReplayContinuationData"
  const TokenKey := "continuation"

  /** Which of the two token shapes an entry carries; reload is tested first. */
  datatype Shape = Reload | Replay | Neither

  /** The list scanned: `get_obj_value(data, ['continuations']) or []`, as a
      `for` loop visits it. */
  function Entries(data: Json): (r: Py<seq<Json>>)
    ensures !Truthy(PyValue(Get(data, [Name(ContinuationsKey)]))) ==> r == Ok([])
    ensures r.Raise? ==> r.exc == TypeError
    ensures PyValue(Get(data, [Name(ContinuationsKey)])).Arr? ==>
      r == Ok(PyValue(Get(data, [Name(ContinuationsKey)])).items)
    ensures Truthy(PyValue(Get(data, [Name(ContinuationsKey)]))) ==>
      r == Iterate(PyValue(Get(data, [Name(ContinuationsKey)])))
  {
    var v := PyValue(Get(data, [Name(ContinuationsKey)]));
    Iterate(if Truthy(v) then v else Arr([]))
  }

  /** The shape of one entry: `'reloadContinuationData' in entry`, then
      `'liveChatReplayContinuationData' in entry`. */
  function ShapeOf(entry: Json): (r: Py<Shape>)
    ensures r.Raise? <==> entry.Null? || entry.Bool? || entry.Num?
    ensures r.Ok? ==> (r.value == Reload <==> Contains(entry, ReloadKey) == Ok(true))
    ensures r.Ok? ==> (r.value == Replay <==> Contains(entry, ReloadKey) == Ok(false) && Contains(entry, ReplayKey) == Ok(true))
    ensures entry.Obj? ==> (r == Ok(Reload) <==> Find(entry.members, ReloadKey).Some?)
    ensures entry.Obj? ==> (r == Ok(Replay) <==> Find(entry.members, ReloadKey).None? && Find(entry.members, ReplayKey).Some?)
    ensures entry.Obj? ==> (r == Ok(Neither) <==> Find(entry.members, ReloadKey).None? && Find(entry.members, ReplayKey).None?)
  {
    match Contains(entry, ReloadKey)
    case Raise(e) => Raise(e)
    case Ok(reload) =>
      if reload then Ok(Reload)
      else
        match Contains(entry, ReplayKey)
        case Raise(e) => Raise(e)
        case Ok(replay) => Ok(if replay then Replay else Neither)
  }

  function ShapeKey(s: Shape): string
    requires s != Neither
  {
    if s == Reload then ReloadKey else ReplayKey
  }

  /** The token an entry of shape `s` holds; absent when its nested
      `continuation` is missing. */
  function TokenOf(entry: Json, s: Shape): Option<Json>
    requires s != Neither
  {
    Get(entry, [Name(ShapeKey(s)), Name(TokenKey)])
  }

  /** Scan `entries` in order and stop at the first one that has either shape. */
  function Scan(entries: seq<Json>): Py<Option<Json>>
    decreases |entries|
  {
    if entries == [] then Ok(None)
    else
      match ShapeOf(entries[0])
      case Raise(e) => Raise(e)
      case Ok(s) => if s == Neither then Scan(entries[1..]) else Ok(TokenOf(entries[0], s))
  }

  /** The value `continuation_get_id(data)` returns, or the exception it raises. */
  function ContinuationId(data: Json): Py<Option<Json>> {
    match Entries(data)
    case Raise(e) => Raise(e)
    case Ok(entries) => Scan(entries)
  }

  /** Entry `i` is the first entry that carries a shape, and it carries `s`. */
  ghost predicate FirstShaped(entries: seq<Json>, i: int, s: Shape)
  {
    && 0 <= i < |entries|
    && s != Neither
    && ShapeOf(entries[i]) == Ok(s)
    && forall j :: 0 <= j < i ==> ShapeOf(entries[j]) == Ok(Neither)
  }

  /** The scan returns the token of the first shaped entry, even when that
      token is absent, and never looks at later entries. */
  lemma {:induction false} ScanStopsAtFirstShaped(entries: seq<Json>, i: int, s: Shape)
    requires FirstShaped(entries, i, s)
    ensures Scan(entries) == Ok(TokenOf(entries[i], s))
    decreases i
  {
    if i > 0 {
      var rest := entries[1..];
      assert FirstShaped(rest, i - 1, s) by {
        forall j | 0 <= j < i - 1 ensures ShapeOf(rest[j]) == Ok(Neither) {
          assert rest[j] == entries[j + 1];
        }
      }
      ScanStopsAtFirstShaped(rest, i - 1, s);
    }
  }

  /** With no shaped entry and no entry that raises, there is no token. */
  lemma {:induction false} ScanWithoutShapes(entries: seq<Json>)
    requires forall j :: 0 <= j < |entries| ==> ShapeOf(entries[j]) == Ok(Neither)
    ensures Scan(entries) == Ok(None)
    decreases |entries|
  {
    if entries != [] {
      var rest := entries[1..];
      assert forall j :: 0 <= j < |rest| ==> rest[j] == entries[j + 1];
      ScanWithoutShapes(rest);
    }
  }

  /** A token the scan finds comes from the first shaped entry. */
  lemma {:induction false} ScanFoundIsFirstShaped(entries: seq<Json>)
    requires Scan(entries).Ok? && Scan(entries).value.Some?
    ensures exists i, s :: FirstShaped(entries, i, s) && Scan(entries).value == TokenOf(entries[i], s)
    decreases |entries|
  {
    var s := ShapeOf(entries[0]).value;
    if s != Neither {
      assert FirstShaped(entries, 0, s);
    } else {
      var rest := entries[1..];
      ScanFoundIsFirstShaped(rest);
      var i, t :| FirstShaped(rest, i, t) && Scan(rest).value == TokenOf(rest[i], t);
      assert FirstShaped(entries, i + 1, t) by {
        forall j | 0 <= j < i + 1 ensures ShapeOf(entries[j]) == Ok(Neither) {
          if j > 0 { assert entries[j] == rest[j - 1]; }
        }
      }
    }
  }

  /** `continuation_get_id(data)`: iterate the entries, returning the first
      reload token, else the first replay token, with an early return. */
  method ContinuationGetId(data: Json) returns (r: Py<Option<Json>>)
    ensures r == ContinuationId(data)
  {
    var found := GetObjValue(data, [Name(ContinuationsKey)]);
    var continuations := PyValue(found);
    if !Truthy(continuations) {
      continuations := Arr([]);
    }
    var entries: seq<Json>;
    match Iterate(continuations) {
      case Raise(e) =>
        return Raise(e);
      case Ok(es) =>
        entries := es;
    }
    for i := 0 to |entries|
      invariant Scan(entries) == Scan(entries[i..])
    {
      assert entries[i..][0] == entries[i] && entries[i..][1..] == entries[i + 1..];
      var entry := entries[i];
      var reload := Contains(entry, ReloadKey);
      if reload.Raise? {
        return Raise(reload.exc);
      }
      if reload.value {
        var token := GetObjValue(entry, [Name(ReloadKey), Name(TokenKey)]);
        return Ok(token);
      }
      // the entry is a container here, so this test cannot raise
      if Contains(entry, ReplayKey) == Ok(true) {
        var token := GetObjValue(entry, [Name(ReplayKey), Name(TokenKey)]);
        return Ok(token);
      }
    }
    return Ok(None);
  }
}
