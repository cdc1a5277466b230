/**
 * The loosely shaped JSON value an analysis endpoint returns, and the
 * JavaScript operations the result card applies to it: truthiness, optional
 * property access (`data?.a?.b`), the `a || b || c` fallback chain,
 * `Object.entries` and the `String(...)` conversion that `parseFloat` starts
 * with.
 *
 * `JNull` stands for both `null` and `undefined`: a missing property reads as
 * `JNull`, and every operation below treats the two alike. Object entries are
 * kept as an ordered sequence because `Object.entries` order is visible in
 * the rendered output.
 */
module JsValue {
  import opened Options
  import opened JsText

  datatype Json =
    | JNull
    | JBool(b: bool)
    | JNum(n: int)
    | JStr(s: string)
    | JArr(elems: seq<Json>)
    | JObj(entries: seq<(string, Json)>)

  /** JavaScript truthiness: `null`, `undefined`, `false`, `0` and `""` are
      falsy; every array and object, even an empty one, is truthy. */
  predicate Truthy(v: Json) {
    match v
    case JNull => false
    case JBool(b) => b
    case JNum(n) => n != 0
    case JStr(s) => s != []
    case JArr(_) => true
    case JObj(_) => true
  }

  /** `i` is the position of the first entry of `es` whose key is `key`. */
  predicate FirstKeyAt(es: seq<(string, Json)>, key: string, i: int) {
    0 <= i < |es| && es[i].0 == key && forall j :: 0 <= j < i ==> es[j].0 != key
  }

  /** The value stored under `key` in an entry list, `JNull` when absent. */
  function Lookup(es: seq<(string, Json)>, key: string): (r: Json)
    ensures forall i :: FirstKeyAt(es, key, i) ==> r == es[i].1
    ensures (forall i :: 0 <= i < |es| ==> es[i].0 != key) ==> r == JNull
  {
    if es == [] then JNull
    else if es[0].0 == key then es[0].1
    else
      var r := Lookup(es[1..], key);
      assert forall i :: FirstKeyAt(es, key, i) ==> FirstKeyAt(es[1..], key, i - 1);
      r
  }

  /** `v?.[key]` for a named property: only objects carry named properties,
      anything else (and a missing key) reads as undefined. */
  function Field(v: Json, key: string): Json {
    if v.JObj? then Lookup(v.entries, key) else JNull
  }

  /** `v?.k1?.k2...`: optional chaining along a path of property names. */
  function Path(v: Json, keys: seq<string>): (r: Json)
    ensures keys == [] ==> r == v
    ensures |keys| == 1 ==> r == Field(v, keys[0])
    ensures |keys| == 2 ==> r == Field(Field(v, keys[0]), keys[1])
    ensures keys != [] && !v.JObj? ==> r == JNull
    decreases keys
  {
    if keys == [] then v
    else
      assert |keys| == 2 ==> keys[1..] == [keys[1]];
      Path(Field(v, keys[0]), keys[1..])
  }

  /** `i` is the position of the first truthy candidate. */
  predicate FirstTruthyAt(candidates: seq<Json>, i: int) {
    0 <= i < |candidates| && Truthy(candidates[i]) &&
    forall j :: 0 <= j < i ==> !Truthy(candidates[j])
  }

  /** `c0 || c1 || ... || default`: the first truthy candidate, or the
      default when every candidate is falsy. */
  function FirstTruthy(candidates: seq<Json>, default: Json): (r: Json)
    ensures forall i :: FirstTruthyAt(candidates, i) ==> r == candidates[i]
    ensures (forall j :: 0 <= j < |candidates| ==> !Truthy(candidates[j])) ==> r == default
  {
    if candidates == [] then default
    else if Truthy(candidates[0]) then candidates[0]
    else
      var r := FirstTruthy(candidates[1..], default);
      assert forall i :: FirstTruthyAt(candidates, i) ==> FirstTruthyAt(candidates[1..], i - 1);
      r
  }

  /** The result of a fallback chain is one of its candidates or its default,
      and it is truthy unless every candidate is falsy. */
  lemma {:induction false} FirstTruthyIsCandidateOrDefault(candidates: seq<Json>, default: Json)
    ensures var r := FirstTruthy(candidates, default);
      (r in candidates && Truthy(r)) || r == default
    ensures (exists i :: 0 <= i < |candidates| && Truthy(candidates[i])) ==>
      Truthy(FirstTruthy(candidates, default))
  {
    if candidates != [] && !Truthy(candidates[0]) {
      FirstTruthyIsCandidateOrDefault(candidates[1..], default);
      if exists i :: 0 <= i < |candidates| && Truthy(candidates[i]) {
        var i :| 0 <= i < |candidates| && Truthy(candidates[i]);
        assert candidates[1..][i - 1] == candidates[i];
      }
    }
  }

  /** `Object.entries(v)` for a value that is not null: the entries of an
      object in order, the index/element pairs of an array, the
      index/character pairs of a string, nothing for a number or boolean. */
  function Entries(v: Json): (es: seq<(string, Json)>)
    ensures v.JObj? ==> es == v.entries
    ensures v.JArr? ==> |es| == |v.elems|
    ensures v.JArr? ==> forall i :: 0 <= i < |es| ==> es[i] == (NatToString(i), v.elems[i])
    ensures v.JStr? ==> |es| == |v.s|
    ensures v.JStr? ==> forall i :: 0 <= i < |es| ==> es[i] == (NatToString(i), JStr([v.s[i]]))
    ensures v.JNull? || v.JBool? || v.JNum? ==> es == []
  {
    match v
    case JObj(es) => es
    case JArr(xs) => seq(|xs|, i requires 0 <= i < |xs| => (NatToString(i), xs[i]))
    case JStr(s) => seq(|s|, i requires 0 <= i < |s| => (NatToString(i), JStr([s[i]])))
    case _ => []
  }

  /** `String(v)`: how `parseFloat` and the relational operators see a value
      that is not already a number or a string. */
  function JsString(v: Json): (r: string)
    ensures v.JStr? ==> r == v.s
    ensures v.JNull? || v.JBool? || v.JObj? ==>
      r != [] && !IsSpace(r[0]) && !IsDigit(r[0]) && r[0] != '-' && r[0] != '+'
    decreases v, 1
  {
    match v
    case JNull => "null"
    case JBool(b) => if b then "true" else "false"
    case JNum(n) => IntToString(n)
    case JStr(s) => s
    case JArr(xs) => Join(v, xs)
    case JObj(_) => "[object Object]"
  }

  /** `Array.prototype.join(",")` over the elements `xs` of the array `whole`:
      null and undefined elements contribute the empty string. */
  function Join(ghost whole: Json, xs: seq<Json>): string
    requires forall x :: x in xs ==> x < whole
    decreases whole, 0, |xs|
  {
    if xs == [] then ""
    else
      assert xs[0] in xs;
      assert forall x :: x in xs[1..] ==> x in xs;
      var first := if xs[0].JNull? then "" else JsString(xs[0]);
      if |xs| == 1 then first else first + "," + Join(whole, xs[1..])
  }

  /** `v > 0` with JavaScript's coercions: a boolean is 0 or 1, null is 0, a
      string is read by `Number`, an array through its `String(...)` text,
      and a plain object is NaN, which is never greater than 0. */
  predicate GreaterThanZero(v: Json)
    ensures GreaterThanZero(v) ==> Truthy(v)
  {
    match v
    case JNull => false
    case JBool(b) => b
    case JNum(n) => n > 0
    case JStr(s) => var x := StringToNumber(s); x.Some? && x.value > 0
    case JArr(_) => var x := StringToNumber(JsString(v)); x.Some? && x.value > 0
    case JObj(_) => false
  }
}
