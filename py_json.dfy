/** Decoded JSON as the downloader's Python code sees it, and the handful of
    built-in operations it applies to such values: subscription `v[k]`, the
    membership test `k in v`, iteration, truthiness and `int(v)`. Each of
    these either yields a value or raises one of Python's exceptions. */
module PyJson {

  datatype Option<+T> = None | Some(value: T)

  newtype byte = b: int | 0 <= b < 256

  type Bytes = seq<byte>

  /** A value produced by `json.loads`. `Null` is Python's `None`. The members
      of an object stand for a Python dict in insertion order, whose names are
      distinct; a lookup takes the first member with the name. */
  datatype Json =
    | Null
    | Bool(b: bool)
    | Num(n: int)
    | Str(s: string)
    | Arr(items: seq<Json>)
    | Obj(members: seq<(string, Json)>)

  /** Member names are pairwise distinct in every object, at every depth:
      the values `json.loads` can produce, since a Python dict has distinct
      keys. */
  predicate DistinctNames(j: Json)
    decreases j
  {
    match j
    case Arr(xs) => forall i :: 0 <= i < |xs| ==> DistinctNames(xs[i])
    case Obj(ms) =>
      && (forall i, k :: 0 <= i < k < |ms| ==> ms[i].0 != ms[k].0)
      && (forall i :: 0 <= i < |ms| ==> DistinctNames(ms[i].1))
    case _ => true
  }

  /** One step of a lookup path: a dict key or a list/string index. */
  datatype Key = Name(name: string) | Index(i: int)

  /** The Python exceptions that the core either catches or lets escape. */
  datatype Exc = KeyError | IndexError | TypeError | ValueError | JsonDecodeError

  /** The outcome of evaluating a Python expression. */
  datatype Py<+T> = Ok(value: T) | Raise(exc: Exc)

  /** `json.loads` (None where it raises) and
      `json.dumps(v, ensure_ascii=False).encode('utf-8')`, taken as given. */
  datatype JsonLib = JsonLib(loads: Bytes -> Option<Json>, dumps: Json -> Bytes)

  /** Position of the first member called `name`, if any. */
  function Find(members: seq<(string, Json)>, name: string): (r: Option<nat>)
    ensures r.Some? ==> r.value < |members| && members[r.value].0 == name
    ensures forall j :: 0 <= j < |members| && (r.None? || j < r.value) ==> members[j].0 != name
  {
    if members == [] then None
    else if members[0].0 == name then Some(0)
    else
      match Find(members[1..], name)
      case None => None
      case Some(i) => Some(i + 1)
  }

  /** Python's reading of a possibly negative index into a sequence of length n. */
  function Wrap(i: int, n: nat): int {
    if i < 0 then i + n else i
  }

  /** `v[k]`. A dict indexed by an int raises KeyError, since decoded dict keys
      are all strings; a string indexed in range yields a one-character string. */
  function Subscript(v: Json, k: Key): (r: Py<Json>)
    ensures r.Raise? ==> r.exc == KeyError || r.exc == IndexError || r.exc == TypeError
    ensures r.Ok? ==> v.Obj? || v.Arr? || v.Str?
    ensures v.Obj? && k.Name? ==>
      && (r.Ok? <==> Find(v.members, k.name).Some?)
      && (r.Ok? ==> r.value == v.members[Find(v.members, k.name).value].1)
      && (r.Raise? ==> r.exc == KeyError)
    ensures v.Arr? && k.Index? ==>
      && (r.Ok? <==> -|v.items| <= k.i < |v.items|)
      && (r.Ok? ==> r.value == v.items[Wrap(k.i, |v.items|)])
      && (r.Raise? ==> r.exc == IndexError)
    ensures v.Str? && k.Index? ==>
      && (r.Ok? <==> -|v.s| <= k.i < |v.s|)
      && (r.Ok? ==> r.value == Str([v.s[Wrap(k.i, |v.s|)]]))
      && (r.Raise? ==> r.exc == IndexError)
    ensures v.Obj? && k.Index? ==> r == Raise(KeyError)
    ensures (v.Arr? || v.Str?) && k.Name? ==> r == Raise(TypeError)
    ensures v.Null? || v.Bool? || v.Num? ==> r == Raise(TypeError)
  {
    match v
    case Obj(ms) =>
      if k.Index? then Raise(KeyError)
      else (match Find(ms, k.name)
            case Some(i) => Ok(ms[i].1)
            case None => Raise(KeyError))
    case Arr(xs) =>
      if k.Name? then Raise(TypeError)
      else if -|xs| <= k.i < |xs| then Ok(xs[Wrap(k.i, |xs|)])
      else Raise(IndexError)
    case Str(s) =>
      if k.Name? then Raise(TypeError)
      else if -|s| <= k.i < |s| then Ok(Str([s[Wrap(k.i, |s|)]]))
      else Raise(IndexError)
    case _ => Raise(TypeError)
  }

  /** `p` occurs as a contiguous run of `s` (Python's `p in s` on strings). */
  predicate IsSubstring(p: string, s: string)
    decreases |s|
  {
    p <= s || (s != [] && IsSubstring(p, s[1..]))
  }

  /** `key in v`: a name of a dict, an element of a list, a substring of a
      string; None, booleans and numbers raise TypeError. */
  function Contains(v: Json, key: string): (r: Py<bool>)
    ensures r.Raise? <==> v.Null? || v.Bool? || v.Num?
    ensures r.Raise? ==> r.exc == TypeError
    ensures v.Obj? ==> r == Ok(Find(v.members, key).Some?)
  {
    match v
    case Obj(ms) => Ok(Find(ms, key).Some?)
    case Arr(xs) => Ok(Str(key) in xs)
    case Str(s) => Ok(IsSubstring(key, s))
    case _ => Raise(TypeError)
  }

  /** The items a `for` loop over `v` visits: a list's elements, a dict's
      names, a string's characters. */
  function Iterate(v: Json): (r: Py<seq<Json>>)
    ensures r.Raise? <==> v.Null? || v.Bool? || v.Num?
    ensures v.Arr? ==> r == Ok(v.items)
    ensures v.Obj? ==> r.Ok? && |r.value| == |v.members|
  {
    match v
    case Arr(xs) => Ok(xs)
    case Obj(ms) => Ok(seq(|ms|, i requires 0 <= i < |ms| => Str(ms[i].0)))
    case Str(s) => Ok(seq(|s|, i requires 0 <= i < |s| => Str([s[i]])))
    case _ => Raise(TypeError)
  }

  /** Python truthiness. */
  predicate Truthy(v: Json) {
    match v
    case Null => false
    case Bool(b) => b
    case Num(n) => n != 0
    case Str(s) => s != []
    case Arr(xs) => xs != []
    case Obj(ms) => ms != []
  }

  /** The Python value of a lookup result: absence is `None`. */
  function PyValue(o: Option<Json>): Json {
    if o.Some? then o.value else Null
  }

  /** `x is None` for a lookup result: absent, or present but JSON null. */
  predicate IsNone(o: Option<Json>) {
    PyValue(o) == Null
  }

  predicate IsDigit(c: char) {
    '0' <= c <= '9'
  }

  predicate AllDigits(s: string) {
    forall i :: 0 <= i < |s| ==> IsDigit(s[i])
  }

  /** The number that a string of decimal digits denotes. */
  function DigitsValue(s: string): nat
    requires AllDigits(s)
  {
    if s == [] then 0
    else DigitsValue(s[..|s| - 1]) * 10 + (s[|s| - 1] as int - '0' as int)
  }

  /** `int(s)` on a string: an optional sign followed by at least one digit. */
  function ParseInt(s: string): Option<int> {
    if |s| > 0 && (s[0] == '-' || s[0] == '+') then
      var t := s[1..];
      if t != [] && AllDigits(t) then Some(if s[0] == '-' then 0 - DigitsValue(t) as int else DigitsValue(t))
      else None
    else if s != [] && AllDigits(s) then Some(DigitsValue(s))
    else None
  }

  /** The part of a numeral after its optional sign. */
  function Unsigned(s: string): string {
    if |s| > 0 && (s[0] == '-' || s[0] == '+') then s[1..] else s
  }

  /** An integer numeral: an optional sign, then one or more ASCII digits. */
  predicate WellFormedInt(s: string) {
    Unsigned(s) != [] && AllDigits(Unsigned(s))
  }

  /** `int(v)`: numbers are kept, booleans are 0 or 1, strings are parsed
      (ValueError when malformed), anything else raises TypeError. */
  function ToInt(v: Json): (r: Py<int>)
    ensures v.Num? ==> r == Ok(v.n)
    ensures v.Bool? ==> r == Ok(if v.b then 1 else 0)
    ensures v.Str? ==> (r.Raise? <==> !WellFormedInt(v.s))
    ensures v.Str? && r.Raise? ==> r.exc == ValueError
    ensures v.Str? && r.Ok? ==>
      r.value == (if v.s[0] == '-' then -1 else 1) * DigitsValue(Unsigned(v.s))
    ensures v.Null? || v.Arr? || v.Obj? ==> r == Raise(TypeError)
  {
    match v
    case Num(n) => Ok(n)
    case Bool(b) => Ok(if b then 1 else 0)
    case Str(s) => (match ParseInt(s) case Some(n) => Ok(n) case None => Raise(ValueError))
    case _ => Raise(TypeError)
  }

  function DigitChar(d: nat): char
    requires d < 10
  {
    ('0' as int + d) as char
  }

  /** Decimal digits of a natural number, most significant first. */
  function Decimal(n: nat): string
    decreases n
  {
    if n < 10 then [DigitChar(n)] else Decimal(n / 10) + [DigitChar(n % 10)]
  }

  /** `str(n)` for an integer. */
  function FormatInt(n: int): string {
    if n < 0 then "-" + Decimal(-n) else Decimal(n)
  }

  lemma {:induction false} DecimalDenotes(n: nat)
    ensures Decimal(n) != [] && AllDigits(Decimal(n))
    ensures DigitsValue(Decimal(n)) == n
    decreases n
  {
    if n >= 10 {
      DecimalDenotes(n / 10);
      var d := Decimal(n);
      assert d[..|d| - 1] == Decimal(n / 10);
    }
  }

  /** `int(str(n)) == n`: the integer parser inverts decimal formatting. */
  lemma ToIntFormatInt(n: int)
    ensures ToInt(Str(FormatInt(n))) == Ok(n)
  {
    if n < 0 {
      DecimalDenotes(-n);
      assert FormatInt(n)[1..] == Decimal(-n);
    } else {
      DecimalDenotes(n);
    }
  }
}
