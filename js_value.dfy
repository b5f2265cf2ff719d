/**
 * JavaScript values as `JSON.parse` produces them, and the handful of
 * JavaScript operations the pin extractor applies to them: truthiness,
 * `a || b`, property access (plain and optional chaining), `x?.[0]`,
 * `Object.keys(x)[0]` and `for ... of`.
 */
module JsValue {
  import opened Wrappers

  /** A parsed JSON value. An object keeps its key/value pairs in source
      order, duplicates included, so that key order and "last duplicate
      wins" can both be stated. */
  datatype Json =
    | Null
    | Bool(b: bool)
    | Num(n: real)
    | Str(s: string)
    | Arr(items: seq<Json>)
    | Obj(fields: seq<(string, Json)>)

  /** A JavaScript value that may be `undefined`, written None. */
  type Val = Option<Json>

  /** `undefined`, `null`, `false`, `0` and `""` are falsy; every other value,
      every array and every object (even empty ones) is truthy. */
  predicate Truthy(v: Val) {
    match v
    case None => false
    case Some(Null) => false
    case Some(Bool(b)) => b
    case Some(Num(n)) => n != 0.0
    case Some(Str(s)) => s != ""
    case Some(Arr(_)) => true
    case Some(Obj(_)) => true
  }

  /** `a || b`: the left operand when it is truthy, otherwise the right one. */
  function Or(a: Val, b: Val): Val {
    if Truthy(a) then a else b
  }

  /** `xs[0] || xs[1] || ... || xs[n-1]`, associated to the left as
      JavaScript parses it. */
  function OrAll(xs: seq<Val>): Val
    requires |xs| > 0
  {
    if |xs| == 1 then xs[0] else Or(OrAll(xs[..|xs| - 1]), xs[|xs| - 1])
  }

  /** `i` is the position of the first truthy operand of a chain. */
  predicate IsFirstTruthy(xs: seq<Val>, i: int) {
    0 <= i < |xs| && Truthy(xs[i]) && forall j :: 0 <= j < i ==> !Truthy(xs[j])
  }

  /** An `||` chain yields its first truthy operand, or its last operand when
      none is truthy. */
  lemma {:induction false} OrAllPicksFirstTruthy(xs: seq<Val>)
    requires |xs| > 0
    ensures Truthy(OrAll(xs)) <==> exists i :: 0 <= i < |xs| && Truthy(xs[i])
    ensures forall i :: IsFirstTruthy(xs, i) ==> OrAll(xs) == xs[i]
    ensures !Truthy(OrAll(xs)) ==> OrAll(xs) == xs[|xs| - 1]
  {
    var n := |xs|;
    if n > 1 {
      var init := xs[..n - 1];
      OrAllPicksFirstTruthy(init);
      forall i | IsFirstTruthy(xs, i) ensures OrAll(xs) == xs[i] {
        if i < n - 1 {
          assert IsFirstTruthy(init, i);
        } else {
          assert forall j :: 0 <= j < n - 1 ==> !Truthy(init[j]);
        }
      }
      if Truthy(OrAll(init)) {
        var i :| 0 <= i < n - 1 && Truthy(init[i]);
        assert Truthy(xs[i]);
      }
      if exists i :: 0 <= i < n && Truthy(xs[i]) {
        var i :| 0 <= i < n && Truthy(xs[i]);
        if i < n - 1 {
          assert Truthy(init[i]);
        }
      }
    }
  }

  /** The value of `key` among an object's pairs: JSON.parse lets the last
      duplicate overwrite the earlier ones. */
  function Lookup(fields: seq<(string, Json)>, key: string): (r: Val)
    ensures r.None? <==> forall i :: 0 <= i < |fields| ==> fields[i].0 != key
    ensures r.Some? ==> exists i :: 0 <= i < |fields| && fields[i] == (key, r.value)
                                    && forall j :: i < j < |fields| ==> fields[j].0 != key
  {
    if |fields| == 0 then None
    else if fields[|fields| - 1].0 == key then Some(fields[|fields| - 1].1)
    else Lookup(fields[..|fields| - 1], key)
  }

  /** `v?.key`, which for the property names the extractor reads is also
      `v.key` on any value that is neither null nor undefined: only objects
      carry those names, so strings, numbers, booleans and arrays give
      `undefined`. */
  function Get(v: Val, key: string): (r: Val)
    ensures r.Some? ==> v.Some? && v.value.Obj?
  {
    match v
    case Some(Obj(fields)) => Lookup(fields, key)
    case _ => None
  }

  /** `v?.k1?.k2?....?.kn`. */
  function GetPath(v: Val, path: seq<string>): Val
    decreases path
  {
    if path == [] then v else GetPath(Get(v, path[0]), path[1..])
  }

  /** `v?.[0]`: an array's first element, an object's key "0", a string's
      first character. */
  function Elem0(v: Val): Val
  {
    match v
    case Some(Arr(items)) => if |items| > 0 then Some(items[0]) else None
    case Some(Obj(fields)) => Lookup(fields, "0")
    case Some(Str(s)) => if |s| > 0 then Some(Str([s[0]])) else None
    case _ => None
  }

  predicate IsDigit(c: char) {
    '0' <= c <= '9'
  }

  predicate AllDigits(k: string) {
    forall i :: 0 <= i < |k| ==> IsDigit(k[i])
  }

  function DecimalValue(k: string): nat
    requires AllDigits(k)
  {
    if k == [] then 0 else DecimalValue(k[..|k| - 1]) * 10 + (k[|k| - 1] as int - '0' as int)
  }

  /** An array-index key: the canonical decimal form of an integer below
      2^32 - 1. Object.keys lists these first, in ascending numeric order,
      and every other key after them in insertion order. */
  predicate IsIndexKey(k: string) {
    && |k| > 0
    && AllDigits(k)
    && (k[0] != '0' || |k| == 1)
    && DecimalValue(k) < 0xFFFF_FFFF
  }

  /** The array-index key of smallest numeric value, if any. */
  function SmallestIndexKey(fields: seq<(string, Json)>): (r: Option<string>)
    ensures r.None? <==> forall i :: 0 <= i < |fields| ==> !IsIndexKey(fields[i].0)
    ensures r.Some? ==> IsIndexKey(r.value)
                        && (exists i :: 0 <= i < |fields| && fields[i].0 == r.value)
                        && forall i :: 0 <= i < |fields| && IsIndexKey(fields[i].0) ==>
                             DecimalValue(r.value) <= DecimalValue(fields[i].0)
  {
    if |fields| == 0 then None
    else
      var rest := SmallestIndexKey(fields[1..]);
      var k := fields[0].0;
      if !IsIndexKey(k) then rest
      else if rest.None? || DecimalValue(k) <= DecimalValue(rest.value) then Some(k)
      else rest
  }

  /** `Object.keys(o)[0]` for an object with the given pairs. */
  function FirstOwnKey(fields: seq<(string, Json)>): (r: Option<string>)
    ensures r.Some? <==> |fields| > 0
    ensures r.Some? ==> exists i :: 0 <= i < |fields| && fields[i].0 == r.value
    ensures r.Some? && IsIndexKey(r.value) ==>
              forall i :: 0 <= i < |fields| && IsIndexKey(fields[i].0) ==>
                DecimalValue(r.value) <= DecimalValue(fields[i].0)
    ensures r.Some? && !IsIndexKey(r.value) ==>
              r.value == fields[0].0 && forall i :: 0 <= i < |fields| ==> !IsIndexKey(fields[i].0)
  {
    var smallest := SmallestIndexKey(fields);
    if smallest.Some? then smallest
    else if |fields| > 0 then Some(fields[0].0)
    else None
  }

  /** `Object.keys(v).length > 0 ? v[Object.keys(v)[0]] : <nothing>`, for a
      truthy `v`: an object's first own key, an array's element 0, a string's
      character 0; numbers and `true` have no own keys. */
  function FirstOwnValue(v: Json): (r: Val)
    ensures v.Obj? ==> (r.Some? <==> |v.fields| > 0)
    ensures v.Obj? && |v.fields| > 0 ==> r == Lookup(v.fields, FirstOwnKey(v.fields).value)
    ensures v.Arr? ==> r == (if |v.items| > 0 then Some(v.items[0]) else None)
    ensures v.Str? ==> r == (if |v.s| > 0 then Some(Str([v.s[0]])) else None)
    ensures v.Null? || v.Bool? || v.Num? ==> r.None?
  {
    match v
    case Obj(fields) =>
      var key := FirstOwnKey(fields);
      if key.Some? then Lookup(fields, key.value) else None
    case Arr(items) => if |items| > 0 then Some(items[0]) else None
    case Str(s) => if |s| > 0 then Some(Str([s[0]])) else None
    case _ => None
  }

  /** The TypeErrors the extractor can run into, with V8's wording. */
  datatype Fault =
    | NullProperty(key: string)   // `x.key` with `x` null
    | NotIterable(expr: string)   // `for (... of expr)` with `expr` not iterable
    | NotAFunction(expr: string)  // `expr(...)` with `expr` not a function

  function FaultMessage(f: Fault): string {
    match f
    case NullProperty(key) => "Cannot read properties of null (reading '" + key + "')"
    case NotIterable(expr) => expr + " is not iterable"
    case NotAFunction(expr) => expr + " is not a function"
  }

  /** The values `for (const x of v)` visits, or the TypeError it throws:
      an array's elements, a string's characters (each a one-character
      string); objects, numbers and booleans are not iterable. */
  function Iterate(v: Json, expr: string): (r: Result<seq<Json>, Fault>)
    ensures r.Failure? <==> !(v.Arr? || v.Str?)
    ensures r.Failure? ==> r.error == NotIterable(expr)
    ensures v.Arr? ==> r == Success(v.items)
    ensures v.Str? ==> r.Success? && |r.value| == |v.s|
                       && forall i :: 0 <= i < |v.s| ==> r.value[i] == Str([v.s[i]])
  {
    match v
    case Arr(items) => Success(items)
    case Str(s) => Success(seq(|s|, i requires 0 <= i < |s| => Str([s[i]])))
    case _ => Failure(NotIterable(expr))
  }
}
