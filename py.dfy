/**
 * The slice of Python's value semantics the receipt pipeline relies on:
 * JSON-shaped values and insertion-ordered dicts, `d.get`, `k in d`,
 * item assignment, truthiness, `float(x)`, iteration, `str(x)` and the
 * ordering that `min`/`max` use.  Foreign routines (`json.loads`, the
 * float parser, `str` of a non-string) are oracles collected in `Runtime`.
 */
module Py {

  datatype Option<+T> = None | Some(value: T) {
    function GetOr(default: T): T {
      if Some? then value else default
    }
  }

  /** The Python exceptions the pipeline can raise, by kind. */
  datatype Error =
    | TypeError                        // TypeError or AttributeError: an operation on a value of the wrong type
    | ValueError                       // float() or strptime() given a string it cannot parse
    | ValidationError(field: string)   // the entity model (pydantic) refusing a field
    | ServiceError(detail: string)     // an exception raised by an external service

  /** A computation that returns a value or raises. */
  datatype Result<+T> = Ok(value: T) | Err(error: Error)

  /** A Python object of the kinds `json.loads` produces. */
  datatype Value =
    | Null
    | Bool(b: bool)
    | Num(n: real)
    | Str(s: string)
    | Arr(elems: seq<Value>)
    | Obj(fields: seq<(string, Value)>)

  /** A dict: its (key, value) pairs in insertion order. */
  type Dict = seq<(string, Value)>

  /** Oracles for the built-ins whose internals are not modelled. */
  datatype Runtime = Runtime(
    parseJson: string -> Option<Value>,   // json.loads; None when it raises
    parseFloat: string -> Option<real>,   // float(s) for a str s; None when it raises
    show: Value -> string,                // str(x) / f"{x}" for a non-string x
    describe: Error -> string)            // str(e)

  /** `d.get(k)`: the value stored under `k`, if any. */
  function Get(d: Dict, k: string): Option<Value> {
    if d == [] then None
    else if d[0].0 == k then Some(d[0].1)
    else Get(d[1..], k)
  }

  /** `d.get(k)` finds a value exactly when some pair carries `k`. */
  lemma {:induction false} GetFinds(d: Dict, k: string)
    ensures Get(d, k).Some? <==> exists i :: 0 <= i < |d| && d[i].0 == k
  {
    if d != [] && d[0].0 != k {
      GetFinds(d[1..], k);
      if exists i :: 0 <= i < |d| && d[i].0 == k {
        var i :| 0 <= i < |d| && d[i].0 == k;
        assert d[1..][i - 1].0 == k;
      }
    }
  }

  /** The value under `k` is the one in the first pair that carries `k`. */
  lemma {:induction false} GetAt(d: Dict, k: string, i: nat)
    requires i < |d| && d[i].0 == k
    requires forall j :: 0 <= j < i ==> d[j].0 != k
    ensures Get(d, k) == Some(d[i].1)
  {
    if i > 0 {
      GetAt(d[1..], k, i - 1);
    }
  }

  /** `k in d` */
  predicate Has(d: Dict, k: string) {
    Get(d, k).Some?
  }

  /** `d.get(k, default)` */
  function GetOr(d: Dict, k: string, default: Value): Value {
    Get(d, k).GetOr(default)
  }

  /** `d[k] = v`: an existing key keeps its position, a new key is appended. */
  function Set(d: Dict, k: string, v: Value): (r: Dict)
    ensures Get(r, k) == Some(v)
    ensures forall j :: j != k ==> Get(r, j) == Get(d, j)
    ensures Has(d, k) ==> |r| == |d|
    ensures !Has(d, k) ==> r == d + [(k, v)]
  {
    if d == [] then [(k, v)]
    else if d[0].0 == k then [(k, v)] + d[1..]
    else
      var rest := Set(d[1..], k, v);
      assert ([d[0]] + rest)[1..] == rest;
      [d[0]] + rest
  }

  /** `bool(v)` */
  predicate Truthy(v: Value) {
    match v
    case Null => false
    case Bool(b) => b
    case Num(n) => n != 0.0
    case Str(s) => s != ""
    case Arr(a) => a != []
    case Obj(fs) => fs != []
  }

  /** `k not in d or not d[k]`: the key is absent or holds a falsy value. */
  predicate Missing(d: Dict, k: string) {
    !Has(d, k) || !Truthy(Get(d, k).value)
  }

  /** The number an arithmetic operator sees: int, float, or bool (True is 1). */
  function Numeric(v: Value): Option<real> {
    match v
    case Num(n) => Some(n)
    case Bool(b) => Some(if b then 1.0 else 0.0)
    case _ => None
  }

  /**
   * `x * y` when the result is a number.  Every other operand pair either
   * raises at once or yields a str/list, which the enclosing `sum` then
   * refuses; both end in the same exception.
   */
  function Mul(x: Value, y: Value): (r: Option<real>)
    ensures r.Some? <==> Numeric(x).Some? && Numeric(y).Some?
  {
    if Numeric(x).Some? && Numeric(y).Some? then Some(Numeric(x).value * Numeric(y).value) else None
  }

  /** `float(v)` */
  function Float(v: Value, rt: Runtime): (r: Result<real>)
    ensures Numeric(v).Some? ==> r == Ok(Numeric(v).value)
    ensures r.Ok? ==> Numeric(v).Some? || v.Str?
  {
    match v
    case Num(n) => Ok(n)
    case Bool(b) => Ok(if b then 1.0 else 0.0)
    case Str(s) => if rt.parseFloat(s).Some? then Ok(rt.parseFloat(s).value) else Err(ValueError)
    case _ => Err(TypeError)
  }

  /** The one-character strings of `s`, as `for c in s` yields them. */
  function Chars(s: string): (r: seq<Value>)
    ensures |r| == |s|
    ensures forall i :: 0 <= i < |s| ==> r[i] == Str([s[i]])
  {
    seq(|s|, i requires 0 <= i < |s| => Str([s[i]]))
  }

  /** The keys of a dict in insertion order, as `for k in d` yields them. */
  function Keys(d: Dict): (r: seq<Value>)
    ensures |r| == |d|
    ensures forall i :: 0 <= i < |d| ==> r[i] == Str(d[i].0)
  {
    seq(|d|, i requires 0 <= i < |d| => Str(d[i].0))
  }

  /** `for x in v`: the elements of a list, the characters of a str, the keys of a dict; None when `v` is not iterable. */
  function Iterate(v: Value): (r: Option<seq<Value>>)
    ensures r.Some? <==> v.Arr? || v.Str? || v.Obj?
    ensures v.Arr? ==> r == Some(v.elems)
  {
    match v
    case Arr(a) => Some(a)
    case Str(s) => Some(Chars(s))
    case Obj(fs) => Some(Keys(fs))
    case _ => None
  }

  /** `str(v)`, as an f-string interpolates it. */
  function PyStr(v: Value, rt: Runtime): (r: string)
    ensures v.Str? ==> r == v.s
  {
    if v.Str? then v.s else rt.show(v)
  }

  /** Python's `<` on str: code point by code point, a proper prefix coming first. */
  predicate LexLess(a: string, b: string) {
    if a == [] then b != []
    else if b == [] then false
    else if a[0] != b[0] then a[0] < b[0]
    else LexLess(a[1..], b[1..])
  }

  lemma {:induction false} LexLessIrreflexive(a: string)
    ensures !LexLess(a, a)
  {
    if a != [] {
      LexLessIrreflexive(a[1..]);
    }
  }

  lemma {:induction false} LexLessTransitive(a: string, b: string, c: string)
    requires LexLess(a, b) && LexLess(b, c)
    ensures LexLess(a, c)
  {
    if a != [] && b != [] && c != [] && a[0] == b[0] && b[0] == c[0] {
      LexLessTransitive(a[1..], b[1..], c[1..]);
    }
  }

  lemma {:induction false} LexLessTotal(a: string, b: string)
    requires a != b
    ensures LexLess(a, b) || LexLess(b, a)
  {
    if a != [] && b != [] && a[0] == b[0] {
      assert a == [a[0]] + a[1..] && b == [b[0]] + b[1..];
      LexLessTotal(a[1..], b[1..]);
    }
  }

  lemma {:induction false} LexLessAsymmetric(a: string, b: string)
    requires LexLess(a, b)
    ensures !LexLess(b, a)
  {
    if a != [] && b != [] && a[0] == b[0] {
      LexLessAsymmetric(a[1..], b[1..]);
    }
  }

  /** A shared prefix does not decide the comparison. */
  lemma {:induction false} LexLessCommonPrefix(p: string, a: string, b: string)
    ensures LexLess(p + a, p + b) == LexLess(a, b)
  {
    if p == [] {
      assert p + a == a && p + b == b;
    } else {
      assert (p + a)[0] == (p + b)[0];
      assert (p + a)[1..] == p[1..] + a;
      assert (p + b)[1..] == p[1..] + b;
      LexLessCommonPrefix(p[1..], a, b);
    }
  }

  /** `a < b` for the values `min`/`max` compare; None when Python raises TypeError. */
  function Less(a: Value, b: Value): (r: Option<bool>)
    ensures a.Str? && b.Str? ==> r == Some(LexLess(a.s, b.s))
  {
    if a.Str? && b.Str? then Some(LexLess(a.s, b.s))
    else if Numeric(a).Some? && Numeric(b).Some? then Some(Numeric(a).value < Numeric(b).value)
    else None
  }
}
