/**
 * Parsed JSON documents as Newtonsoft's JToken trees hold them: JSON null,
 * the scalar values, arrays, and objects whose properties keep their
 * insertion order (JObject iterates its properties in that order).
 */
module JsonTree {
  import opened Wrappers

  datatype Json =
    | JNull
    | JBool(b: bool)
    | JNum(n: int)
    | JStr(s: string)
    | JArr(elems: seq<Json>)
    | JObj(props: seq<Prop>)

  datatype Prop = Prop(name: string, value: Json)

  /** The payload of a JValue, as JValue.Value hands it out. */
  datatype Scalar = SBool(b: bool) | SNum(n: int) | SStr(s: string)

  /** Node count, the termination measure of the diff. Containers weigh 2 so
      that an empty container outweighs JSON null. */
  function Size(j: Json): (n: nat)
    ensures n >= 1
  {
    match j
    case JArr(s) => 2 + ElemsSize(s)
    case JObj(p) => 2 + PropsSize(p)
    case _ => 1
  }

  function ElemsSize(s: seq<Json>): nat
  {
    if s == [] then 0 else Size(s[0]) + ElemsSize(s[1..])
  }

  function PropsSize(p: seq<Prop>): nat
  {
    if p == [] then 0 else Size(p[0].value) + PropsSize(p[1..])
  }

  lemma {:induction false} ElemSizeBound(s: seq<Json>, i: nat)
    requires i < |s|
    ensures Size(s[i]) <= ElemsSize(s)
  {
    if i > 0 {
      ElemSizeBound(s[1..], i - 1);
    }
  }

  lemma {:induction false} PropSizeBound(p: seq<Prop>, i: nat)
    requires i < |p|
    ensures Size(p[i].value) <= PropsSize(p)
  {
    if i > 0 {
      PropSizeBound(p[1..], i - 1);
    }
  }

  /** `obj[name]`: the value of the first property with that name. */
  function Lookup(p: seq<Prop>, name: string): (r: Option<Json>)
    ensures r.Some? <==> exists i :: 0 <= i < |p| && p[i].name == name
  {
    if p == [] then None
    else if p[0].name == name then Some(p[0].value)
    else
      var r := Lookup(p[1..], name);
      assert forall i :: 1 <= i < |p| ==> p[i] == p[1..][i - 1];
      r
  }

  lemma {:induction false} LookupSizeBound(p: seq<Prop>, name: string)
    requires Lookup(p, name).Some?
    ensures Size(Lookup(p, name).value) <= PropsSize(p)
  {
    if p[0].name != name {
      LookupSizeBound(p[1..], name);
    }
  }

  predicate UniqueNames(p: seq<Prop>)
  {
    forall i, j :: 0 <= i < j < |p| ==> p[i].name != p[j].name
  }

  /** A JObject cannot hold two properties with the same name; parsing
      keeps the last of duplicated keys. */
  predicate WellFormed(j: Json)
  {
    match j
    case JArr(s) => forall i :: 0 <= i < |s| ==> WellFormed(s[i])
    case JObj(p) => UniqueNames(p) && forall i :: 0 <= i < |p| ==> WellFormed(p[i].value)
    case _ => true
  }

  /** JToken.DeepEquals: same kind and value; arrays pairwise in order;
      objects with the same number of properties, each found by name in the
      other with a deep-equal value (property order does not matter). */
  function DeepEquals(a: Json, b: Json): bool
    decreases a
  {
    match a
    case JNull => b.JNull?
    case JBool(x) => b.JBool? && b.b == x
    case JNum(x) => b.JNum? && b.n == x
    case JStr(x) => b.JStr? && b.s == x
    case JArr(s) =>
      b.JArr? && |s| == |b.elems| &&
      forall i :: 0 <= i < |s| ==> DeepEquals(s[i], b.elems[i])
    case JObj(p) =>
      b.JObj? && |p| == |b.props| &&
      forall i :: 0 <= i < |p| ==>
        Lookup(b.props, p[i].name).Some? && DeepEquals(p[i].value, Lookup(b.props, p[i].name).value)
  }

  lemma {:induction false} LookupUnique(p: seq<Prop>, i: nat)
    requires UniqueNames(p) && i < |p|
    ensures Lookup(p, p[i].name) == Some(p[i].value)
  {
    if i > 0 {
      assert p[0].name != p[i].name;
      LookupUnique(p[1..], i - 1);
    }
  }

  /** Every well-formed document is deep-equal to itself. */
  lemma {:induction false} DeepEqualsReflexive(j: Json)
    requires WellFormed(j)
    ensures DeepEquals(j, j)
  {
    match j
    case JArr(s) =>
      forall i | 0 <= i < |s| ensures DeepEquals(s[i], s[i]) {
        DeepEqualsReflexive(s[i]);
      }
    case JObj(p) =>
      forall i | 0 <= i < |p|
        ensures Lookup(p, p[i].name).Some? && DeepEquals(p[i].value, Lookup(p, p[i].name).value)
      {
        LookupUnique(p, i);
        DeepEqualsReflexive(p[i].value);
      }
    case _ =>
  }
}
