/** The slice of JavaScript value semantics the server relies on: JSON-shaped
    values, truthiness and `||`, property reads with and without optional
    chaining, conversion to string in template literals, and the few string
    methods the server calls (`includes`, `endsWith`, `toLowerCase`). */
module Js {
  import opened Wrappers

  /** A value as the server sees it after `JSON.parse` or xml2js.  Numbers are
      integers here; an object is its own properties in insertion order. */
  datatype JsValue =
    | Undefined
    | Null
    | Bool(b: bool)
    | Num(n: int)
    | Str(s: string)
    | Arr(elems: seq<JsValue>)
    | Obj(props: seq<(string, JsValue)>)

  /** What a `throw` carries: an `Error` the server constructs with its
      message, or a `TypeError` raised by the runtime. */
  datatype Failure = Error(message: string) | TypeError(message: string)

  predicate Nullish(v: JsValue) {
    v.Undefined? || v.Null?
  }

  /** JavaScript truthiness: `undefined`, `null`, `false`, `0` and `''` are falsy. */
  predicate Truthy(v: JsValue) {
    match v
    case Undefined => false
    case Null => false
    case Bool(b) => b
    case Num(n) => n != 0
    case Str(s) => s != ""
    case Arr(_) => true
    case Obj(_) => true
  }

  /** `a || b` */
  function Or(a: JsValue, b: JsValue): JsValue {
    if Truthy(a) then a else b
  }

  /** The value of the first property named `key`; the objects the server
      reads never repeat a key. */
  function Lookup(props: seq<(string, JsValue)>, key: string): JsValue {
    if |props| == 0 then Undefined
    else if props[0].0 == key then props[0].1
    else Lookup(props[1..], key)
  }

  /** Reading the own property `key` of a value that is neither null nor
      undefined; arrays and strings only have `length` besides their indices. */
  function Prop(v: JsValue, key: string): JsValue {
    match v
    case Obj(ps) => Lookup(ps, key)
    case Arr(a) => if key == "length" then Num(|a|) else Undefined
    case Str(s) => if key == "length" then Num(|s|) else Undefined
    case _ => Undefined
  }

  /** `v.key`, which throws on null and undefined. */
  function Get(v: JsValue, key: string): Result<JsValue, Failure> {
    if Nullish(v) then
      Err(TypeError("Cannot read properties of " + ToJsString(v) + " (reading '" + key + "')"))
    else
      Ok(Prop(v, key))
  }

  /** `v?.key` */
  function OptGet(v: JsValue, key: string): JsValue {
    if Nullish(v) then Undefined else Prop(v, key)
  }

  function Elem(v: JsValue, i: nat): JsValue {
    match v
    case Arr(a) => if i < |a| then a[i] else Undefined
    case Str(s) => if i < |s| then Str([s[i]]) else Undefined
    case Obj(ps) => Lookup(ps, NatToString(i))
    case _ => Undefined
  }

  /** `v[i]`, which throws on null and undefined. */
  function At(v: JsValue, i: nat): Result<JsValue, Failure> {
    if Nullish(v) then
      Err(TypeError("Cannot read properties of " + ToJsString(v) + " (reading '" + NatToString(i) + "')"))
    else
      Ok(Elem(v, i))
  }

  /** `v?.[i]` */
  function OptAt(v: JsValue, i: nat): JsValue {
    if Nullish(v) then Undefined else Elem(v, i)
  }

  function DigitChar(d: nat): (c: char)
    requires d < 10
    ensures '0' <= c <= '9'
  {
    "0123456789"[d]
  }

  /** The decimal form of a natural number, as `String(n)` gives it. */
  function NatToString(n: nat): (r: string)
    decreases n
    ensures |r| > 0
    ensures forall i :: 0 <= i < |r| ==> '0' <= r[i] <= '9'
    ensures n < 10 <==> |r| == 1
  {
    if n < 10 then [DigitChar(n)] else NatToString(n / 10) + [DigitChar(n % 10)]
  }

  function IntToString(n: int): string {
    if n < 0 then "-" + NatToString(-n) else NatToString(n)
  }

  function Join(parts: seq<string>, sep: string): string {
    if |parts| == 0 then ""
    else if |parts| == 1 then parts[0]
    else parts[0] + sep + Join(parts[1..], sep)
  }

  /** `String(v)`, i.e. what `${v}` inserts into a template literal. */
  function ToJsString(v: JsValue): string
    decreases v
  {
    match v
    case Undefined => "undefined"
    case Null => "null"
    case Bool(b) => if b then "true" else "false"
    case Num(n) => IntToString(n)
    case Str(s) => s
    case Arr(a) =>
      Join(seq(|a|, i requires 0 <= i < |a| => if Nullish(a[i]) then "" else ToJsString(a[i])), ",")
    case Obj(_) => "[object Object]"
  }

  /** `xs.map((x, i) => f(x, i))` or `xs.forEach(...)` where the callback may
      throw: the results in order, or the error of the first call that throws. */
  function MapWithIndex<T>(xs: seq<JsValue>, f: (JsValue, nat) -> Result<T, Failure>): Result<seq<T>, Failure>
  {
    if |xs| == 0 then Ok([])
    else
      var n := |xs| - 1;
      var init := MapWithIndex(xs[..n], f);
      if init.Err? then
        Err(init.error)
      else
        var last := f(xs[n], n);
        if last.Err? then Err(last.error) else Ok(init.value + [last.value])
  }

  /** The map succeeds exactly when every call does, and then holds their
      results in order; otherwise it holds the error of the first call that
      throws. */
  lemma {:induction false} MapWithIndexSpec<T>(xs: seq<JsValue>, f: (JsValue, nat) -> Result<T, Failure>)
    ensures MapWithIndex(xs, f).Ok? <==> forall k :: 0 <= k < |xs| ==> f(xs[k], k).Ok?
    ensures MapWithIndex(xs, f).Ok? ==> |MapWithIndex(xs, f).value| == |xs|
    ensures MapWithIndex(xs, f).Ok? ==> forall k :: 0 <= k < |xs| ==> MapWithIndex(xs, f).value[k] == f(xs[k], k).value
    ensures MapWithIndex(xs, f).Err? ==>
      exists k :: 0 <= k < |xs| && f(xs[k], k) == Err(MapWithIndex(xs, f).error) && (forall j :: 0 <= j < k ==> f(xs[j], j).Ok?)
    decreases |xs|
  {
    if |xs| > 0 {
      var n := |xs| - 1;
      MapWithIndexSpec(xs[..n], f);
      assert forall k :: 0 <= k < n ==> xs[..n][k] == xs[k];
    }
  }

  /** Extending the prefix by one element: the map of the longer prefix is
      the map of the shorter one followed by the callback's result. */
  lemma MapWithIndexStep<T>(xs: seq<JsValue>, n: nat, f: (JsValue, nat) -> Result<T, Failure>)
    requires n < |xs|
    requires MapWithIndex(xs[..n], f).Ok?
    ensures f(xs[n], n).Err? ==> MapWithIndex(xs[..n + 1], f) == Err(f(xs[n], n).error)
    ensures f(xs[n], n).Ok? ==> MapWithIndex(xs[..n + 1], f) == Ok(MapWithIndex(xs[..n], f).value + [f(xs[n], n).value])
  {
    assert xs[..n + 1][..n] == xs[..n];
  }

  /** Once a prefix of the list throws, the whole map throws the same error. */
  lemma {:induction false} MapWithIndexPrefixFailure<T>(xs: seq<JsValue>, n: nat, f: (JsValue, nat) -> Result<T, Failure>)
    requires n <= |xs|
    requires MapWithIndex(xs[..n], f).Err?
    ensures MapWithIndex(xs, f) == MapWithIndex(xs[..n], f)
    decreases |xs| - n
  {
    if n < |xs| {
      assert xs[..n + 1][..n] == xs[..n];
      MapWithIndexPrefixFailure(xs, n + 1, f);
    } else {
      assert xs[..n] == xs;
    }
  }

  predicate StartsWith(s: string, prefix: string) {
    |prefix| <= |s| && s[..|prefix|] == prefix
  }

  /** `s.endsWith(suffix)` */
  predicate EndsWith(s: string, suffix: string) {
    |suffix| <= |s| && s[|s| - |suffix|..] == suffix
  }

  lemma PrefixOfAppend(x: string, y: string)
    ensures StartsWith(x + y, x)
  {
    assert (x + y)[..|x|] == x;
  }

  lemma PrefixExtend(x: string, y: string, p: string)
    requires StartsWith(x, p)
    ensures StartsWith(x + y, p)
  {
    assert (x + y)[..|p|] == x[..|p|];
  }

  lemma PrefixTransitive(x: string, y: string, p: string)
    requires StartsWith(x, y) && StartsWith(y, p)
    ensures StartsWith(x, p)
  {
    assert x[..|y|][..|p|] == x[..|p|];
  }

  lemma SuffixOfAppend(x: string, y: string)
    ensures EndsWith(x + y, y)
  {
    assert (x + y)[|x + y| - |y|..] == y;
  }

  /** `s.includes(t)`, scanning from the left. */
  predicate Includes(s: string, t: string)
    decreases |s|
  {
    StartsWith(s, t) || (|s| > 0 && Includes(s[1..], t))
  }

  /** `t` occurs in `s` starting at position `i`. */
  predicate OccursAt(s: string, t: string, i: int) {
    0 <= i <= |s| - |t| && s[i..i + |t|] == t
  }

  /** Where `includes` succeeds, `t` occurs at some position of `s`. */
  lemma {:induction false} IncludesPosition(s: string, t: string) returns (i: int)
    requires Includes(s, t)
    ensures OccursAt(s, t, i)
    decreases |s|
  {
    if StartsWith(s, t) {
      assert s[0..0 + |t|] == s[..|t|];
      i := 0;
    } else {
      var j := IncludesPosition(s[1..], t);
      assert s[1..][j..j + |t|] == s[j + 1..j + 1 + |t|];
      i := j + 1;
    }
  }

  /** Wherever `t` occurs in `s`, `includes` finds it. */
  lemma {:induction false} OccursIncludes(s: string, t: string, i: int)
    requires OccursAt(s, t, i)
    ensures Includes(s, t)
    decreases i
  {
    if i == 0 {
      assert s[..|t|] == s[0..0 + |t|];
    } else {
      assert s[1..][i - 1..i - 1 + |t|] == s[i..i + |t|];
      OccursIncludes(s[1..], t, i - 1);
    }
  }

  /** `includes` holds exactly when `t` occurs at some position of `s`. */
  lemma IncludesIffOccurs(s: string, t: string)
    ensures Includes(s, t) <==> exists i :: OccursAt(s, t, i)
  {
    if Includes(s, t) {
      var i := IncludesPosition(s, t);
    }
    forall i | OccursAt(s, t, i) ensures Includes(s, t) {
      OccursIncludes(s, t, i);
    }
  }

  /** Every string includes the empty string. */
  lemma IncludesEmpty(s: string)
    ensures Includes(s, "")
  {
    assert StartsWith(s, "");
  }

  /** `toLowerCase` on the ASCII letters; other characters are kept. */
  function LowerChar(c: char): char {
    if 'A' <= c <= 'Z' then (c as int + 32) as char else c
  }

  function ToLowerCase(s: string): string {
    seq(|s|, i requires 0 <= i < |s| => LowerChar(s[i]))
  }
}
