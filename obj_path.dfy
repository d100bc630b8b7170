/** The object path resolver, `get_obj_value`: a lookup along a path of dict
    keys and list indices that answers "absent" instead of raising. */
module ObjPath {
  import opened PyJson

  /** Apply each step of `path` in order; a step that raises KeyError,
      IndexError or TypeError makes the whole lookup absent. */
  function Get(j: Json, path: seq<Key>): Option<Json>
    decreases |path|
  {
    if path == [] then Some(j)
    else
      match Subscript(j, path[0])
      case Ok(child) => Get(child, path[1..])
      case Raise(_) => None
  }

  /** The lookup along `path` reaches step `i` and that step raises. */
  ghost predicate StepFails(j: Json, path: seq<Key>, i: int)
    requires 0 <= i < |path|
  {
    Get(j, path[..i]).Some? && Subscript(Get(j, path[..i]).value, path[i]).Raise?
  }

  /** A lookup along `p + q` is the lookup along `q` from where `p` leads. */
  lemma {:induction false} GetConcat(j: Json, p: seq<Key>, q: seq<Key>)
    ensures Get(j, p + q) == if Get(j, p).None? then None else Get(Get(j, p).value, q)
    decreases |p|
  {
    if p == [] {
      assert p + q == q;
    } else {
      assert (p + q)[0] == p[0];
      assert (p + q)[1..] == p[1..] + q;
      match Subscript(j, p[0])
      case Ok(child) => GetConcat(child, p[1..], q);
      case Raise(_) =>
    }
  }

  /** The lookup is absent exactly when some step along the path raises;
      otherwise it is the value reached by taking every step. */
  lemma {:induction false} GetAbsentIffStepFails(j: Json, path: seq<Key>)
    ensures Get(j, path).None? <==> exists i :: 0 <= i < |path| && StepFails(j, path, i)
    decreases |path|
  {
    if path != [] {
      assert path[..0] == [];
      match Subscript(j, path[0])
      case Raise(_) =>
        assert StepFails(j, path, 0);
      case Ok(child) =>
        var rest := path[1..];
        GetAbsentIffStepFails(child, rest);
        forall i | 0 <= i < |rest|
          ensures StepFails(j, path, i + 1) <==> StepFails(child, rest, i)
        {
          var pre := path[..i + 1];
          assert pre[0] == path[0] && pre[1..] == rest[..i];
          assert Get(j, pre) == Get(child, rest[..i]);
        }
        assert !StepFails(j, path, 0);
        if Get(j, path).None? {
          var i :| 0 <= i < |rest| && StepFails(child, rest, i);
          assert StepFails(j, path, i + 1);
        } else {
          forall i | 0 <= i < |path| ensures !StepFails(j, path, i) {
            if i > 0 {
              assert !StepFails(child, rest, i - 1);
            }
          }
        }
    }
  }

  /** `get_obj_value(obj, path)`: walk the path rebinding the current value,
      returning absent as soon as a step raises. */
  method GetObjValue(obj: Json, path: seq<Key>) returns (r: Option<Json>)
    ensures r == Get(obj, path)
  {
    var cur := obj;
    var i := 0;
    while i < |path|
      invariant 0 <= i <= |path|
      invariant Get(obj, path) == Get(cur, path[i..])
    {
      assert path[i..][0] == path[i] && path[i..][1..] == path[i + 1..];
      match Subscript(cur, path[i]) {
        case Raise(_) =>
          return None;
        case Ok(child) =>
          cur := child;
      }
      i := i + 1;
    }
    return Some(cur);
  }
}
