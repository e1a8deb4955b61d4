/**
 * What the changed-fields dictionary promises: no entries for unchanged
 * documents, every path lies under the prefix it was produced for, every set
 * value is a scalar of the current document, and clearing a subtree only
 * ever writes null.
 */
module JsonDiffProperties {
  import opened Wrappers
  import opened JsonTree
  import opened Paths
  import opened Patch
  import opened JsonDiff

  /** Documents that are deep-equal to themselves produce no entries. */
  lemma SameDocumentNoEntries(doc: Json, prefix: string)
    requires WellFormed(doc)
    ensures Diff(doc, doc, prefix) == []
  {
    DeepEqualsReflexive(doc);
  }

  /** FindChangedFields of a parsed document against itself is the empty dictionary. */
  lemma SameDocumentNoChangedFields(doc: Json)
    requires WellFormed(doc)
    ensures ChangedFields(doc, doc) == Success(map[])
  {
    SameDocumentNoEntries(doc, "");
  }

  /** The scalar `s` is a value somewhere in `j`. */
  predicate Occurs(s: Scalar, j: Json)
    decreases j
  {
    match j
    case JNull => false
    case JBool(b) => s == SBool(b)
    case JNum(n) => s == SNum(n)
    case JStr(t) => s == SStr(t)
    case JArr(es) => exists i :: 0 <= i < |es| && Occurs(s, es[i])
    case JObj(p) => exists i :: 0 <= i < |p| && Occurs(s, p[i].value)
  }

  /** Every entry's path extends `prefix`, and every value it sets occurs in `cur`. */
  ghost predicate Within(es: seq<Entry>, prefix: string, cur: Json)
  {
    forall i :: 0 <= i < |es| ==>
      prefix <= es[i].path && (es[i].value.Some? ==> Occurs(es[i].value.value, cur))
  }

  lemma PrefixTransitive(a: string, b: string, c: string)
    requires a <= b && b <= c
    ensures a <= c
  {
    assert c[..|a|] == c[..|b|][..|a|];
  }

  /** Entries that set nothing are within any current document. */
  lemma WithinNull(es: seq<Entry>, prefix: string, cur: Json)
    requires Within(es, prefix, JNull)
    ensures Within(es, prefix, cur)
  {
  }

  /** Entries produced under a child path are within the parent's prefix. */
  lemma WithinChild(es: seq<Entry>, prefix: string, child: string, v: Json, cur: Json)
    requires Within(es, child, v) && prefix <= child
    requires forall s :: Occurs(s, v) ==> Occurs(s, cur)
    ensures Within(es, prefix, cur)
  {
    forall i | 0 <= i < |es| ensures prefix <= es[i].path {
      PrefixTransitive(prefix, child, es[i].path);
    }
  }

  lemma {:induction false} SlotClearsWithin(prefix: string, n: nat)
    ensures Within(SlotClears(prefix, n), prefix, JNull)
  {
    if n > 0 {
      SlotClearsWithin(prefix, n - 1);
    }
  }

  lemma {:induction false} DiffWithin(prev: Json, cur: Json, prefix: string)
    ensures Within(Diff(prev, cur, prefix), prefix, cur)
    decreases Size(prev) + Size(cur), 0
  {
    if DeepEquals(prev, cur) {
      return;
    }
    match cur
    case JObj(cp) =>
      if prev.JObj? {
        AddedKeyEntriesWithin(prev.props, cp, prefix, |cp|);
        RemovedKeyEntriesWithin(prev.props, cp, prefix, |prev.props|);
        WithinNull(RemovedKeyEntries(prev.props, cp, prefix, |prev.props|), prefix, cur);
        ChangedKeyEntriesWithin(prev.props, cp, prefix, |cp|);
      } else {
        if prev.JArr? {
          SlotClearsWithin(prefix, |prev.elems|);
          WithinNull(SlotClears(prefix, |prev.elems|), prefix, cur);
        }
        AddedKeyEntriesWithin([], cp, prefix, |cp|);
      }
    case JArr(ce) =>
      if prev.JArr? {
        ElementEntriesWithin(prev.elems, ce, prefix, |ce|);
        var lo := Min(|ce|, |prev.elems|);
        DroppedElementEntriesWithin(prev.elems, prefix, lo, |prev.elems|);
        WithinNull(DroppedElementEntries(prev.elems, prefix, lo, |prev.elems|), prefix, cur);
      } else {
        if prev.JObj? {
          DiffWithin(prev, JNull, prefix);
          WithinNull(Diff(prev, JNull, prefix), prefix, cur);
        }
        NewElementEntriesWithin(ce, prefix, |ce|);
      }
    case JNull =>
      if prev.JObj? {
        RemovedKeyEntriesWithin(prev.props, [], prefix, |prev.props|);
      } else if prev.JArr? {
        SlotClearsWithin(prefix, |prev.elems|);
      }
    case _ =>
  }

  lemma WithinConcat(a: seq<Entry>, b: seq<Entry>, prefix: string, cur: Json)
    requires Within(a, prefix, cur) && Within(b, prefix, cur)
    ensures Within(a + b, prefix, cur)
  {
  }

  /** A scalar of a property's value is a scalar of the object. */
  lemma PropOccurs(cp: seq<Prop>, i: nat)
    requires i < |cp|
    ensures forall s :: Occurs(s, cp[i].value) ==> Occurs(s, JObj(cp))
  {
  }

  lemma {:induction false} AddedKeyEntriesWithin(op: seq<Prop>, cp: seq<Prop>, prefix: string, k: nat)
    requires k <= |cp|
    ensures Within(AddedKeyEntries(op, cp, prefix, k), prefix, JObj(cp))
    decreases PropsSize(cp) + 2, k
  {
    if k > 0 {
      AddedKeyEntriesWithin(op, cp, prefix, k - 1);
      AddedKeyStepWithin(op, cp, prefix, k - 1);
      WithinConcat(AddedKeyEntries(op, cp, prefix, k - 1), AddedKeyStep(op, cp, prefix, k - 1), prefix, JObj(cp));
    }
  }

  lemma {:induction false} AddedKeyStepWithin(op: seq<Prop>, cp: seq<Prop>, prefix: string, i: nat)
    requires i < |cp|
    ensures Within(AddedKeyStep(op, cp, prefix, i), prefix, JObj(cp))
    decreases PropsSize(cp) + 2, 0
  {
    var p := cp[i];
    if Lookup(op, p.name).None? {
      PropSizeBound(cp, i);
      DiffWithin(JNull, p.value, Join(prefix, p.name));
      PropOccurs(cp, i);
      WithinChild(Diff(JNull, p.value, Join(prefix, p.name)), prefix, Join(prefix, p.name), p.value, JObj(cp));
    }
  }

  lemma {:induction false} RemovedKeyEntriesWithin(op: seq<Prop>, cp: seq<Prop>, prefix: string, k: nat)
    requires k <= |op|
    ensures Within(RemovedKeyEntries(op, cp, prefix, k), prefix, JNull)
    decreases PropsSize(op) + 2, k
  {
    if k > 0 {
      RemovedKeyEntriesWithin(op, cp, prefix, k - 1);
      RemovedKeyStepWithin(op, cp, prefix, k - 1);
      WithinConcat(RemovedKeyEntries(op, cp, prefix, k - 1), RemovedKeyStep(op, cp, prefix, k - 1), prefix, JNull);
    }
  }

  lemma {:induction false} RemovedKeyStepWithin(op: seq<Prop>, cp: seq<Prop>, prefix: string, i: nat)
    requires i < |op|
    ensures Within(RemovedKeyStep(op, cp, prefix, i), prefix, JNull)
    decreases PropsSize(op) + 2, 0
  {
    var p := op[i];
    if Lookup(cp, p.name).None? {
      PropSizeBound(op, i);
      DiffWithin(p.value, JNull, Join(prefix, p.name));
      WithinChild(Diff(p.value, JNull, Join(prefix, p.name)), prefix, Join(prefix, p.name), JNull, JNull);
    }
  }

  lemma {:induction false} ChangedKeyEntriesWithin(op: seq<Prop>, cp: seq<Prop>, prefix: string, k: nat)
    requires k <= |cp|
    ensures Within(ChangedKeyEntries(op, cp, prefix, k), prefix, JObj(cp))
    decreases PropsSize(op) + PropsSize(cp) + 2, k
  {
    if k > 0 {
      ChangedKeyEntriesWithin(op, cp, prefix, k - 1);
      ChangedKeyStepWithin(op, cp, prefix, k - 1);
      WithinConcat(ChangedKeyEntries(op, cp, prefix, k - 1), ChangedKeyStep(op, cp, prefix, k - 1), prefix, JObj(cp));
    }
  }

  lemma {:induction false} ChangedKeyStepWithin(op: seq<Prop>, cp: seq<Prop>, prefix: string, i: nat)
    requires i < |cp|
    ensures Within(ChangedKeyStep(op, cp, prefix, i), prefix, JObj(cp))
    decreases PropsSize(op) + PropsSize(cp) + 2, 0
  {
    var p := cp[i];
    match Lookup(op, p.name)
    case None =>
    case Some(w) =>
      if !DeepEquals(p.value, w) {
        PropSizeBound(cp, i);
        LookupSizeBound(op, p.name);
        DiffWithin(w, p.value, Join(prefix, p.name));
        PropOccurs(cp, i);
        WithinChild(Diff(w, p.value, Join(prefix, p.name)), prefix, Join(prefix, p.name), p.value, JObj(cp));
      }
  }

  lemma {:induction false} ElementEntriesWithin(oe: seq<Json>, ce: seq<Json>, prefix: string, k: nat)
    requires k <= |ce|
    ensures Within(ElementEntries(oe, ce, prefix, k), prefix, JArr(ce))
    decreases ElemsSize(oe) + ElemsSize(ce) + 3, k
  {
    if k > 0 {
      var i := k - 1;
      ElementEntriesWithin(oe, ce, prefix, i);
      ElemSizeBound(ce, i);
      var o := if i < |oe| then oe[i] else EmptyObject;
      if i < |oe| {
        ElemSizeBound(oe, i);
      }
      DiffWithin(o, ce[i], Index(prefix, i));
      WithinChild(Diff(o, ce[i], Index(prefix, i)), prefix, Index(prefix, i), ce[i], JArr(ce));
    }
  }

  lemma {:induction false} DroppedElementEntriesWithin(oe: seq<Json>, prefix: string, lo: nat, k: nat)
    requires lo <= k <= |oe|
    ensures Within(DroppedElementEntries(oe, prefix, lo, k), prefix, JNull)
    decreases ElemsSize(oe) + 2, k
  {
    if k > lo {
      DroppedElementEntriesWithin(oe, prefix, lo, k - 1);
      ElemSizeBound(oe, k - 1);
      DiffWithin(oe[k - 1], JNull, Index(prefix, k - 1));
      WithinChild(Diff(oe[k - 1], JNull, Index(prefix, k - 1)), prefix, Index(prefix, k - 1), JNull, JNull);
    }
  }

  lemma {:induction false} NewElementEntriesWithin(ce: seq<Json>, prefix: string, k: nat)
    requires k <= |ce|
    ensures Within(NewElementEntries(ce, prefix, k), prefix, JArr(ce))
    decreases ElemsSize(ce) + 2, k
  {
    if k > 0 {
      NewElementEntriesWithin(ce, prefix, k - 1);
      ElemSizeBound(ce, k - 1);
      DiffWithin(JNull, ce[k - 1], Index(prefix, k - 1));
      WithinChild(Diff(JNull, ce[k - 1], Index(prefix, k - 1)), prefix, Index(prefix, k - 1), ce[k - 1], JArr(ce));
    }
  }

  /** A null current only clears: every entry it produces has a null value. */
  lemma ClearingOnlyWritesNull(prev: Json, prefix: string)
    ensures forall e :: e in Diff(prev, JNull, prefix) ==> e.value == None
  {
    DiffWithin(prev, JNull, prefix);
  }
}
