/**
 * What JsonHelper.FindDiff does, as a function: the sequence of
 * `dict.Add(path, value)` calls it makes, in order, for an old and a current
 * token under a path prefix. Each helper below is one of FindDiff's loops,
 * cut after its first k iterations.
 */
module JsonDiff {
  import opened Wrappers
  import opened JsonTree
  import opened Paths
  import opened Patch

  /** The `new JObject()` that stands in for a missing old array slot. */
  const EmptyObject: Json := JObj([])

  function Min(a: nat, b: nat): nat { if a <= b then a else b }

  function Diff(prev: Json, cur: Json, prefix: string): seq<Entry>
    decreases Size(prev) + Size(cur), 0
  {
    if DeepEquals(prev, cur) then []
    else match cur
      case JObj(cp) =>
        if prev.JObj? then
          AddedKeyEntries(prev.props, cp, prefix, |cp|)
          + RemovedKeyEntries(prev.props, cp, prefix, |prev.props|)
          + ChangedKeyEntries(prev.props, cp, prefix, |cp|)
        else
          // not an object before: clear what was there, then every key is new
          (if prev.JArr? then SlotClears(prefix, |prev.elems|) else [Entry(prefix, None)])
          + AddedKeyEntries([], cp, prefix, |cp|)
      case JArr(ce) =>
        if prev.JArr? then
          ElementEntries(prev.elems, ce, prefix, |ce|)
          + DroppedElementEntries(prev.elems, prefix, Min(|ce|, |prev.elems|), |prev.elems|)
        else
          (if prev.JObj? then Diff(prev, JNull, prefix) else [])
          + NewElementEntries(ce, prefix, |ce|)
      case JNull =>
        if prev.JObj? then RemovedKeyEntries(prev.props, [], prefix, |prev.props|)
        else if prev.JArr? then SlotClears(prefix, |prev.elems|)
        else [Entry(prefix, None)]
      case JBool(b) => [Entry(prefix, Some(SBool(b)))]
      case JNum(n) => [Entry(prefix, Some(SNum(n)))]
      case JStr(s) => [Entry(prefix, Some(SStr(s)))]
  }

  /** `prefix[i] -> null` for i < n, without descending into the elements. */
  function SlotClears(prefix: string, n: nat): seq<Entry>
  {
    if n == 0 then [] else SlotClears(prefix, n - 1) + [Entry(Index(prefix, n - 1), None)]
  }

  /** The clearing loop writes `prefix[i] -> null` for each index, in index order. */
  lemma {:induction false} SlotClearsIndexed(prefix: string, n: nat)
    ensures |SlotClears(prefix, n)| == n
    ensures forall i :: 0 <= i < n ==> SlotClears(prefix, n)[i] == Entry(Index(prefix, i), None)
  {
    if n > 0 {
      SlotClearsIndexed(prefix, n - 1);
    }
  }

  /** Current keys absent from the old object, diffed against JSON null. */
  function AddedKeyEntries(op: seq<Prop>, cp: seq<Prop>, prefix: string, k: nat): seq<Entry>
    requires k <= |cp|
    decreases PropsSize(cp) + 2, k
  {
    if k == 0 then [] else AddedKeyEntries(op, cp, prefix, k - 1) + AddedKeyStep(op, cp, prefix, k - 1)
  }

  function AddedKeyStep(op: seq<Prop>, cp: seq<Prop>, prefix: string, i: nat): seq<Entry>
    requires i < |cp|
    decreases PropsSize(cp) + 2, 0
  {
    var p := cp[i];
    if Lookup(op, p.name).None? then
      PropSizeBound(cp, i);
      Diff(JNull, p.value, Join(prefix, p.name))
    else []
  }

  /** Old keys absent from the current object, diffed with a JSON-null current. */
  function RemovedKeyEntries(op: seq<Prop>, cp: seq<Prop>, prefix: string, k: nat): seq<Entry>
    requires k <= |op|
    decreases PropsSize(op) + 2, k
  {
    if k == 0 then [] else RemovedKeyEntries(op, cp, prefix, k - 1) + RemovedKeyStep(op, cp, prefix, k - 1)
  }

  function RemovedKeyStep(op: seq<Prop>, cp: seq<Prop>, prefix: string, i: nat): seq<Entry>
    requires i < |op|
    decreases PropsSize(op) + 2, 0
  {
    var p := op[i];
    if Lookup(cp, p.name).None? then
      PropSizeBound(op, i);
      Diff(p.value, JNull, Join(prefix, p.name))
    else []
  }

  /** Keys in both objects whose values are not deep-equal, diffed pairwise. */
  function ChangedKeyEntries(op: seq<Prop>, cp: seq<Prop>, prefix: string, k: nat): seq<Entry>
    requires k <= |cp|
    decreases PropsSize(op) + PropsSize(cp) + 2, k
  {
    if k == 0 then [] else ChangedKeyEntries(op, cp, prefix, k - 1) + ChangedKeyStep(op, cp, prefix, k - 1)
  }

  function ChangedKeyStep(op: seq<Prop>, cp: seq<Prop>, prefix: string, i: nat): seq<Entry>
    requires i < |cp|
    decreases PropsSize(op) + PropsSize(cp) + 2, 0
  {
    var p := cp[i];
    match Lookup(op, p.name)
    case None => []
    case Some(w) =>
      if DeepEquals(p.value, w) then []
      else
        PropSizeBound(cp, i);
        LookupSizeBound(op, p.name);
        Diff(w, p.value, Join(prefix, p.name))
  }

  /** Array against array: slot i against prev[i], or against an empty object
      once the old array is exhausted. */
  function ElementEntries(oe: seq<Json>, ce: seq<Json>, prefix: string, k: nat): seq<Entry>
    requires k <= |ce|
    decreases ElemsSize(oe) + ElemsSize(ce) + 3, k
  {
    if k == 0 then [] else ElementEntries(oe, ce, prefix, k - 1) + ElementStep(oe, ce, prefix, k - 1)
  }

  function ElementStep(oe: seq<Json>, ce: seq<Json>, prefix: string, i: nat): seq<Entry>
    requires i < |ce|
    decreases ElemsSize(oe) + ElemsSize(ce) + 3, 0
  {
    ElemSizeBound(ce, i);
    if i < |oe| then
      ElemSizeBound(oe, i);
      Diff(oe[i], ce[i], Index(prefix, i))
    else Diff(EmptyObject, ce[i], Index(prefix, i))
  }

  /** Old slots lo..k-1 beyond the current array's end, diffed with a JSON-null current. */
  function DroppedElementEntries(oe: seq<Json>, prefix: string, lo: nat, k: nat): seq<Entry>
    requires lo <= k <= |oe|
    decreases ElemsSize(oe) + 2, k
  {
    if k == lo then []
    else
      ElemSizeBound(oe, k - 1);
      DroppedElementEntries(oe, prefix, lo, k - 1) + Diff(oe[k - 1], JNull, Index(prefix, k - 1))
  }

  /** Each element of an array that replaced a non-array, diffed against JSON null. */
  function NewElementEntries(ce: seq<Json>, prefix: string, k: nat): seq<Entry>
    requires k <= |ce|
    decreases ElemsSize(ce) + 2, k
  {
    if k == 0 then []
    else
      ElemSizeBound(ce, k - 1);
      NewElementEntries(ce, prefix, k - 1) + Diff(JNull, ce[k - 1], Index(prefix, k - 1))
  }

  /** FindChangedFields on two parsed documents: the filled dictionary, or the
      path whose second Add threw. */
  function ChangedFields(prev: Json, cur: Json): Result<Dict, string>
  {
    AddAll(map[], Diff(prev, cur, ""))
  }
  // Once an Add in the first j steps of a loop has thrown, the outcome of the
  // whole loop is that same exception and the dictionary that Add left.

  lemma {:induction false} SlotClearsFailed(d0: Dict, prefix: string, j: nat, k: nat, p: string, d: Dict)
    requires j <= k
    requires Recorded(d0, SlotClears(prefix, j), Some(p), d)
    ensures Recorded(d0, SlotClears(prefix, k), Some(p), d)
    decreases k
  {
    if j < k {
      SlotClearsFailed(d0, prefix, j, k - 1, p, d);
      assert SlotClears(prefix, k) == SlotClears(prefix, k - 1) + [Entry(Index(prefix, k - 1), None)];
      FailureSticks(d0, SlotClears(prefix, k - 1), [Entry(Index(prefix, k - 1), None)], p, d);
    }
  }

  lemma {:induction false} AddedKeyEntriesFailed(d0: Dict, op: seq<Prop>, cp: seq<Prop>, prefix: string, j: nat, k: nat, p: string, d: Dict)
    requires j <= k <= |cp|
    requires Recorded(d0, AddedKeyEntries(op, cp, prefix, j), Some(p), d)
    ensures Recorded(d0, AddedKeyEntries(op, cp, prefix, k), Some(p), d)
    decreases k
  {
    if j < k {
      AddedKeyEntriesFailed(d0, op, cp, prefix, j, k - 1, p, d);
      assert AddedKeyEntries(op, cp, prefix, k) == AddedKeyEntries(op, cp, prefix, k - 1) + AddedKeyStep(op, cp, prefix, k - 1);
      FailureSticks(d0, AddedKeyEntries(op, cp, prefix, k - 1), AddedKeyStep(op, cp, prefix, k - 1), p, d);
    }
  }

  lemma {:induction false} RemovedKeyEntriesFailed(d0: Dict, op: seq<Prop>, cp: seq<Prop>, prefix: string, j: nat, k: nat, p: string, d: Dict)
    requires j <= k <= |op|
    requires Recorded(d0, RemovedKeyEntries(op, cp, prefix, j), Some(p), d)
    ensures Recorded(d0, RemovedKeyEntries(op, cp, prefix, k), Some(p), d)
    decreases k
  {
    if j < k {
      RemovedKeyEntriesFailed(d0, op, cp, prefix, j, k - 1, p, d);
      assert RemovedKeyEntries(op, cp, prefix, k) == RemovedKeyEntries(op, cp, prefix, k - 1) + RemovedKeyStep(op, cp, prefix, k - 1);
      FailureSticks(d0, RemovedKeyEntries(op, cp, prefix, k - 1), RemovedKeyStep(op, cp, prefix, k - 1), p, d);
    }
  }

  lemma {:induction false} ChangedKeyEntriesFailed(d0: Dict, op: seq<Prop>, cp: seq<Prop>, prefix: string, j: nat, k: nat, p: string, d: Dict)
    requires j <= k <= |cp|
    requires Recorded(d0, ChangedKeyEntries(op, cp, prefix, j), Some(p), d)
    ensures Recorded(d0, ChangedKeyEntries(op, cp, prefix, k), Some(p), d)
    decreases k
  {
    if j < k {
      ChangedKeyEntriesFailed(d0, op, cp, prefix, j, k - 1, p, d);
      assert ChangedKeyEntries(op, cp, prefix, k) == ChangedKeyEntries(op, cp, prefix, k - 1) + ChangedKeyStep(op, cp, prefix, k - 1);
      FailureSticks(d0, ChangedKeyEntries(op, cp, prefix, k - 1), ChangedKeyStep(op, cp, prefix, k - 1), p, d);
    }
  }

  lemma {:induction false} ElementEntriesFailed(d0: Dict, oe: seq<Json>, ce: seq<Json>, prefix: string, j: nat, k: nat, p: string, d: Dict)
    requires j <= k <= |ce|
    requires Recorded(d0, ElementEntries(oe, ce, prefix, j), Some(p), d)
    ensures Recorded(d0, ElementEntries(oe, ce, prefix, k), Some(p), d)
    decreases k
  {
    if j < k {
      ElementEntriesFailed(d0, oe, ce, prefix, j, k - 1, p, d);
      assert ElementEntries(oe, ce, prefix, k) == ElementEntries(oe, ce, prefix, k - 1) + ElementStep(oe, ce, prefix, k - 1);
      FailureSticks(d0, ElementEntries(oe, ce, prefix, k - 1), ElementStep(oe, ce, prefix, k - 1), p, d);
    }
  }

  lemma {:induction false} DroppedElementEntriesFailed(d0: Dict, oe: seq<Json>, prefix: string, lo: nat, j: nat, k: nat, p: string, d: Dict)
    requires lo <= j <= k <= |oe|
    requires Recorded(d0, DroppedElementEntries(oe, prefix, lo, j), Some(p), d)
    ensures Recorded(d0, DroppedElementEntries(oe, prefix, lo, k), Some(p), d)
    decreases k
  {
    if j < k {
      DroppedElementEntriesFailed(d0, oe, prefix, lo, j, k - 1, p, d);
      ElemSizeBound(oe, k - 1);
      assert DroppedElementEntries(oe, prefix, lo, k) == DroppedElementEntries(oe, prefix, lo, k - 1) + Diff(oe[k - 1], JNull, Index(prefix, k - 1));
      FailureSticks(d0, DroppedElementEntries(oe, prefix, lo, k - 1), Diff(oe[k - 1], JNull, Index(prefix, k - 1)), p, d);
    }
  }

  lemma {:induction false} NewElementEntriesFailed(d0: Dict, ce: seq<Json>, prefix: string, j: nat, k: nat, p: string, d: Dict)
    requires j <= k <= |ce|
    requires Recorded(d0, NewElementEntries(ce, prefix, j), Some(p), d)
    ensures Recorded(d0, NewElementEntries(ce, prefix, k), Some(p), d)
    decreases k
  {
    if j < k {
      NewElementEntriesFailed(d0, ce, prefix, j, k - 1, p, d);
      ElemSizeBound(ce, k - 1);
      assert NewElementEntries(ce, prefix, k) == NewElementEntries(ce, prefix, k - 1) + Diff(JNull, ce[k - 1], Index(prefix, k - 1));
      FailureSticks(d0, NewElementEntries(ce, prefix, k - 1), Diff(JNull, ce[k - 1], Index(prefix, k - 1)), p, d);
    }
  }
}
