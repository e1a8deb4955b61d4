/**
 * Worked cases of FindChangedFields, including the behaviours an idealised
 * diff would not have: an object replacing null still clears its own path, a
 * scalar replaced by an array is not cleared, new array slots are compared
 * against an empty object rather than against null, and two branches of the
 * walk can produce the same path, which makes Dictionary.Add throw.
 */
module JsonDiffExamples {
  import opened Wrappers
  import opened JsonTree
  import opened Paths
  import opened Patch
  import opened JsonDiff

  // One lemma per branch of Diff, with the documents left symbolic.

  lemma UnfoldObjects(op: seq<Prop>, cp: seq<Prop>, prefix: string)
    requires !DeepEquals(JObj(op), JObj(cp))
    ensures Diff(JObj(op), JObj(cp), prefix)
         == AddedKeyEntries(op, cp, prefix, |cp|) + RemovedKeyEntries(op, cp, prefix, |op|)
            + ChangedKeyEntries(op, cp, prefix, |cp|)
  {
  }

  lemma UnfoldIntoObject(prev: Json, cp: seq<Prop>, prefix: string)
    requires !prev.JObj?
    ensures Diff(prev, JObj(cp), prefix)
         == (if prev.JArr? then SlotClears(prefix, |prev.elems|) else [Entry(prefix, None)])
            + AddedKeyEntries([], cp, prefix, |cp|)
  {
  }

  lemma UnfoldArrays(oe: seq<Json>, ce: seq<Json>, prefix: string)
    requires !DeepEquals(JArr(oe), JArr(ce))
    ensures Diff(JArr(oe), JArr(ce), prefix)
         == ElementEntries(oe, ce, prefix, |ce|) + DroppedElementEntries(oe, prefix, Min(|ce|, |oe|), |oe|)
  {
  }

  lemma UnfoldIntoArray(prev: Json, ce: seq<Json>, prefix: string)
    requires !prev.JArr?
    ensures Diff(prev, JArr(ce), prefix)
         == (if prev.JObj? then Diff(prev, JNull, prefix) else []) + NewElementEntries(ce, prefix, |ce|)
  {
  }

  lemma UnfoldIntoNull(prev: Json, prefix: string)
    requires !prev.JNull?
    ensures Diff(prev, JNull, prefix)
         == if prev.JObj? then RemovedKeyEntries(prev.props, [], prefix, |prev.props|)
            else if prev.JArr? then SlotClears(prefix, |prev.elems|)
            else [Entry(prefix, None)]
  {
  }

  lemma SlotPaths()
    ensures Index("", 0) == "[0]" && Index("", 1) == "[1]" && Index("", 2) == "[2]"
  {
    assert NatToString(0) == "0" && NatToString(1) == "1" && NatToString(2) == "2";
  }

  lemma AddOne(d: Dict, e: Entry)
    requires e.path !in d
    ensures AddAll(d, [e]) == Success(d[e.path := e.value])
  {
    assert [e][..0] == [];
  }

  lemma AddTwo(d: Dict, e1: Entry, e2: Entry)
    requires e1.path !in d && e2.path !in d && e1.path != e2.path
    ensures AddAll(d, [e1, e2]) == Success(d[e1.path := e1.value][e2.path := e2.value])
  {
    assert [e1, e2][..1] == [e1];
    AddOne(d, e1);
  }

  lemma AddThree(d: Dict, e1: Entry, e2: Entry, e3: Entry)
    requires e1.path !in d && e2.path !in d && e3.path !in d
    requires e1.path != e2.path && e1.path != e3.path && e2.path != e3.path
    ensures AddAll(d, [e1, e2, e3]) == Success(d[e1.path := e1.value][e2.path := e2.value][e3.path := e3.value])
  {
    assert [e1, e2, e3][..2] == [e1, e2];
    AddTwo(d, e1, e2);
  }

  lemma SecondAddThrows(d: Dict, e1: Entry, e2: Entry)
    requires e1.path !in d && e2.path == e1.path
    ensures AddAll(d, [e1, e2]) == Failure(e1.path)
  {
    assert [e1, e2][..1] == [e1];
    AddOne(d, e1);
  }

  /** Joins the walk of one case with the dictionary it fills. */
  lemma Conclude(prev: Json, cur: Json, es: seq<Entry>, r: Result<Dict, string>)
    requires Diff(prev, cur, "") == es
    requires AddAll(map[], es) == r
    ensures ChangedFields(prev, cur) == r
  {
  }

  // {a:1, b:2} -> {b:2, c:3}

  lemma OldKeys(op: seq<Prop>)
    requires op == [Prop("a", JNum(1)), Prop("b", JNum(2))]
    ensures Lookup(op, "b") == Some(JNum(2)) && Lookup(op, "c").None?
  {
    assert op[1..] == [Prop("b", JNum(2))] && op[1..][1..] == [];
  }

  lemma NewKeys(cp: seq<Prop>)
    requires cp == [Prop("b", JNum(2)), Prop("c", JNum(3))]
    ensures Lookup(cp, "b") == Some(JNum(2)) && Lookup(cp, "a").None?
  {
    assert cp[1..] == [Prop("c", JNum(3))] && cp[1..][1..] == [];
  }

  lemma AddedPartition(op: seq<Prop>, cp: seq<Prop>)
    requires op == [Prop("a", JNum(1)), Prop("b", JNum(2))]
    requires cp == [Prop("b", JNum(2)), Prop("c", JNum(3))]
    ensures AddedKeyEntries(op, cp, "", 2) == [Entry("c", Some(SNum(3)))]
  {
    OldKeys(op);
    assert Join("", "c") == "c";
    assert Diff(JNull, JNum(3), "c") == [Entry("c", Some(SNum(3)))];
    assert AddedKeyStep(op, cp, "", 0) == [];
    assert AddedKeyEntries(op, cp, "", 1) == [];
    assert AddedKeyStep(op, cp, "", 1) == [Entry("c", Some(SNum(3)))];
  }

  lemma RemovedPartition(op: seq<Prop>, cp: seq<Prop>)
    requires op == [Prop("a", JNum(1)), Prop("b", JNum(2))]
    requires cp == [Prop("b", JNum(2)), Prop("c", JNum(3))]
    ensures RemovedKeyEntries(op, cp, "", 2) == [Entry("a", None)]
  {
    NewKeys(cp);
    assert Join("", "a") == "a";
    assert Diff(JNum(1), JNull, "a") == [Entry("a", None)];
    assert RemovedKeyStep(op, cp, "", 0) == [Entry("a", None)];
    assert RemovedKeyEntries(op, cp, "", 1) == [Entry("a", None)];
    assert RemovedKeyStep(op, cp, "", 1) == [];
  }

  lemma ChangedPartition(op: seq<Prop>, cp: seq<Prop>)
    requires op == [Prop("a", JNum(1)), Prop("b", JNum(2))]
    requires cp == [Prop("b", JNum(2)), Prop("c", JNum(3))]
    ensures ChangedKeyEntries(op, cp, "", 2) == []
  {
    OldKeys(op);
    assert ChangedKeyStep(op, cp, "", 0) == [];
    assert ChangedKeyEntries(op, cp, "", 1) == [];
    assert ChangedKeyStep(op, cp, "", 1) == [];
  }

  lemma KeysDiffer(op: seq<Prop>, cp: seq<Prop>)
    requires op == [Prop("a", JNum(1)), Prop("b", JNum(2))]
    requires cp == [Prop("b", JNum(2)), Prop("c", JNum(3))]
    ensures !DeepEquals(JObj(op), JObj(cp))
  {
    NewKeys(cp);
    assert !Lookup(cp, op[0].name).Some?;
  }

  lemma PartitionDiff(op: seq<Prop>, cp: seq<Prop>)
    requires op == [Prop("a", JNum(1)), Prop("b", JNum(2))]
    requires cp == [Prop("b", JNum(2)), Prop("c", JNum(3))]
    ensures Diff(JObj(op), JObj(cp), "") == [Entry("c", Some(SNum(3))), Entry("a", None)]
  {
    AddedPartition(op, cp);
    RemovedPartition(op, cp);
    ChangedPartition(op, cp);
    assert [Entry("c", Some(SNum(3)))] + [Entry("a", None)] + [] == [Entry("c", Some(SNum(3))), Entry("a", None)];
    KeysDiffer(op, cp);
    UnfoldObjects(op, cp, "");
  }

  lemma ClearedAndSet()
    ensures map[]["c" := Some(SNum(3))]["a" := None] == map["a" := None, "c" := Some(SNum(3))]
  {
    var m: Dict := map[];
    assert m["c" := Some(SNum(3))]["a" := None] == map["a" := None, "c" := Some(SNum(3))];
  }

  /** Added keys are set, removed keys cleared, unchanged keys left out. */
  lemma AddedAndRemovedKeys(prev: Json, cur: Json)
    requires prev == JObj([Prop("a", JNum(1)), Prop("b", JNum(2))])
    requires cur == JObj([Prop("b", JNum(2)), Prop("c", JNum(3))])
    ensures ChangedFields(prev, cur) == Success(map["a" := None, "c" := Some(SNum(3))])
  {
    var es := [Entry("c", Some(SNum(3))), Entry("a", None)];
    PartitionDiff(prev.props, cur.props);
    AddTwo(map[], es[0], es[1]);
    ClearedAndSet();
    Conclude(prev, cur, es, Success(map["a" := None, "c" := Some(SNum(3))]));
  }

  // {} -> {a: null} and back

  /** A key added with a null value is diffed null against null, which is
      deep-equal: the documents differ but no field changes. */
  lemma NullKeyAdded(prev: Json, cur: Json)
    requires prev == JObj([])
    requires cur == JObj([Prop("a", JNull)])
    ensures ChangedFields(prev, cur) == Success(map[])
  {
    var cp := cur.props;
    assert !DeepEquals(prev, cur) by {
      assert !Lookup(prev.props, cp[0].name).Some?;
    }
    assert AddedKeyStep([], cp, "", 0) == [] && AddedKeyEntries([], cp, "", 1) == [];
    assert ChangedKeyStep([], cp, "", 0) == [] && ChangedKeyEntries([], cp, "", 1) == [];
    UnfoldObjects([], cp, "");
    Conclude(prev, cur, [], Success(map[]));
  }

  /** Likewise a removed key whose value was null clears nothing. */
  lemma NullKeyRemoved(prev: Json, cur: Json)
    requires prev == JObj([Prop("a", JNull)])
    requires cur == JObj([])
    ensures ChangedFields(prev, cur) == Success(map[])
  {
    var op := prev.props;
    assert !DeepEquals(prev, cur);
    assert RemovedKeyStep(op, [], "", 0) == [] && RemovedKeyEntries(op, [], "", 1) == [];
    UnfoldObjects(op, [], "");
    Conclude(prev, cur, [], Success(map[]));
  }

  // [1,2,3] -> [1,2]

  /** Old slots past the new end are cleared. */
  lemma ArrayTruncation(prev: Json, cur: Json)
    requires prev == JArr([JNum(1), JNum(2), JNum(3)])
    requires cur == JArr([JNum(1), JNum(2)])
    ensures ChangedFields(prev, cur) == Success(map["[2]" := None])
  {
    var oe, ce := prev.elems, cur.elems;
    SlotPaths();
    assert ElementStep(oe, ce, "", 0) == [] && ElementStep(oe, ce, "", 1) == [];
    assert ElementEntries(oe, ce, "", 1) == [];
    assert ElementEntries(oe, ce, "", 2) == [];
    assert Diff(JNum(3), JNull, "[2]") == [Entry("[2]", None)];
    assert DroppedElementEntries(oe, "", 2, 3) == [Entry("[2]", None)];
    UnfoldArrays(oe, ce, "");
    AddOne(map[], Entry("[2]", None));
    Conclude(prev, cur, [Entry("[2]", None)], Success(map["[2]" := None]));
  }

  // [1] -> [1,2,3]

  lemma ExtensionSteps(oe: seq<Json>, ce: seq<Json>)
    requires oe == [JNum(1)] && ce == [JNum(1), JNum(2), JNum(3)]
    ensures ElementEntries(oe, ce, "", 3) == [Entry("[1]", Some(SNum(2))), Entry("[2]", Some(SNum(3)))]
  {
    SlotPaths();
    assert ElementStep(oe, ce, "", 0) == [];
    assert ElementEntries(oe, ce, "", 1) == [];
    assert Diff(EmptyObject, JNum(2), "[1]") == [Entry("[1]", Some(SNum(2)))];
    assert ElementStep(oe, ce, "", 1) == [Entry("[1]", Some(SNum(2)))];
    assert ElementEntries(oe, ce, "", 2) == [Entry("[1]", Some(SNum(2)))];
    assert Diff(EmptyObject, JNum(3), "[2]") == [Entry("[2]", Some(SNum(3)))];
    assert ElementStep(oe, ce, "", 2) == [Entry("[2]", Some(SNum(3)))];
  }

  /** New slots are set; slots that kept their value are left out. */
  lemma ArrayExtension(prev: Json, cur: Json)
    requires prev == JArr([JNum(1)])
    requires cur == JArr([JNum(1), JNum(2), JNum(3)])
    ensures ChangedFields(prev, cur) == Success(map["[1]" := Some(SNum(2)), "[2]" := Some(SNum(3))])
  {
    var oe, ce := prev.elems, cur.elems;
    SlotPaths();
    ExtensionSteps(oe, ce);
    assert DroppedElementEntries(oe, "", 1, 1) == [];
    UnfoldArrays(oe, ce, "");
    var es := [Entry("[1]", Some(SNum(2))), Entry("[2]", Some(SNum(3)))];
    AddTwo(map[], es[0], es[1]);
    Conclude(prev, cur, es, Success(map["[1]" := Some(SNum(2)), "[2]" := Some(SNum(3))]));
  }

  // {"a":1} -> [9,8]

  lemma ObjectToArraySteps(op: seq<Prop>, ce: seq<Json>)
    requires op == [Prop("a", JNum(1))] && ce == [JNum(9), JNum(8)]
    ensures Diff(JObj(op), JNull, "") == [Entry("a", None)]
    ensures NewElementEntries(ce, "", 2) == [Entry("[0]", Some(SNum(9))), Entry("[1]", Some(SNum(8)))]
  {
    SlotPaths();
    assert Join("", "a") == "a";
    assert Diff(JNum(1), JNull, "a") == [Entry("a", None)];
    assert RemovedKeyStep(op, [], "", 0) == [Entry("a", None)];
    assert RemovedKeyEntries(op, [], "", 1) == [Entry("a", None)];
    UnfoldIntoNull(JObj(op), "");
    assert NewElementEntries(ce, "", 1) == [Entry("[0]", Some(SNum(9)))];
  }

  lemma ObjectToArrayDiff(prev: Json, cur: Json)
    requires prev == JObj([Prop("a", JNum(1))])
    requires cur == JArr([JNum(9), JNum(8)])
    ensures Diff(prev, cur, "") == [Entry("a", None), Entry("[0]", Some(SNum(9))), Entry("[1]", Some(SNum(8)))]
  {
    ObjectToArraySteps(prev.props, cur.elems);
    UnfoldIntoArray(prev, cur.elems, "");
  }

  lemma ClearedThenSlots()
    ensures map[]["a" := None]["[0]" := Some(SNum(9))]["[1]" := Some(SNum(8))]
         == map["a" := None, "[0]" := Some(SNum(9)), "[1]" := Some(SNum(8))]
  {
    var m: Dict := map[];
    assert m["a" := None]["[0]" := Some(SNum(9))]["[1]" := Some(SNum(8))]
        == map["a" := None, "[0]" := Some(SNum(9)), "[1]" := Some(SNum(8))];
  }

  /** An object replaced by an array is first cleared key by key at the same prefix. */
  lemma ObjectToArray(prev: Json, cur: Json)
    requires prev == JObj([Prop("a", JNum(1))])
    requires cur == JArr([JNum(9), JNum(8)])
    ensures ChangedFields(prev, cur)
         == Success(map["a" := None, "[0]" := Some(SNum(9)), "[1]" := Some(SNum(8))])
  {
    ObjectToArrayDiff(prev, cur);
    var es := [Entry("a", None), Entry("[0]", Some(SNum(9))), Entry("[1]", Some(SNum(8)))];
    AddThree(map[], es[0], es[1], es[2]);
    ClearedThenSlots();
    Conclude(prev, cur, es, Success(map["a" := None, "[0]" := Some(SNum(9)), "[1]" := Some(SNum(8))]));
  }

  /** A scalar replaced by an array gets no clearing entry of its own. */
  lemma ScalarToArray(prev: Json, cur: Json)
    requires prev == JNum(1)
    requires cur == JArr([JNum(5)])
    ensures ChangedFields(prev, cur) == Success(map["[0]" := Some(SNum(5))])
  {
    SlotPaths();
    assert NewElementEntries(cur.elems, "", 1) == [Entry("[0]", Some(SNum(5)))];
    UnfoldIntoArray(prev, cur.elems, "");
    AddOne(map[], Entry("[0]", Some(SNum(5))));
    Conclude(prev, cur, [Entry("[0]", Some(SNum(5)))], Success(map["[0]" := Some(SNum(5))]));
  }

  // {"a":1} -> {"a":{"b":2}}

  lemma ScalarToObjectSteps(op: seq<Prop>, cp: seq<Prop>, inner: seq<Prop>)
    requires op == [Prop("a", JNum(1))] && inner == [Prop("b", JNum(2))] && cp == [Prop("a", JObj(inner))]
    ensures Diff(JObj(op), JObj(cp), "") == [Entry("a", None), Entry("a.b", Some(SNum(2)))]
  {
    assert Join("", "a") == "a" && Join("a", "b") == "a.b";
    assert Diff(JNull, JNum(2), "a.b") == [Entry("a.b", Some(SNum(2)))];
    assert AddedKeyStep([], inner, "a", 0) == [Entry("a.b", Some(SNum(2)))];
    assert AddedKeyEntries([], inner, "a", 1) == [Entry("a.b", Some(SNum(2)))];
    UnfoldIntoObject(JNum(1), inner, "a");
    assert Lookup(op, "a") == Some(JNum(1)) && Lookup(cp, "a") == Some(JObj(inner));
    assert AddedKeyStep(op, cp, "", 0) == [] && AddedKeyEntries(op, cp, "", 1) == [];
    assert RemovedKeyStep(op, cp, "", 0) == [] && RemovedKeyEntries(op, cp, "", 1) == [];
    assert ChangedKeyStep(op, cp, "", 0) == [Entry("a", None), Entry("a.b", Some(SNum(2)))];
    assert ChangedKeyEntries(op, cp, "", 1) == [Entry("a", None), Entry("a.b", Some(SNum(2)))];
    assert !DeepEquals(JObj(op), JObj(cp)) by {
      assert !DeepEquals(op[0].value, Lookup(cp, op[0].name).value);
    }
    UnfoldObjects(op, cp, "");
  }

  /** A scalar replaced by an object is cleared at its own path before the new keys are set. */
  lemma ScalarToObject(prev: Json, cur: Json)
    requires prev == JObj([Prop("a", JNum(1))])
    requires cur == JObj([Prop("a", JObj([Prop("b", JNum(2))]))])
    ensures ChangedFields(prev, cur) == Success(map["a" := None, "a.b" := Some(SNum(2))])
  {
    ScalarToObjectSteps(prev.props, cur.props, cur.props[0].value.props);
    var es := [Entry("a", None), Entry("a.b", Some(SNum(2)))];
    AddTwo(map[], es[0], es[1]);
    Conclude(prev, cur, es, Success(map["a" := None, "a.b" := Some(SNum(2))]));
  }

  // {"a":{"b":1}} -> {"a":{"b":2}}

  lemma NestedSteps(op: seq<Prop>, cp: seq<Prop>, oi: seq<Prop>, ci: seq<Prop>)
    requires oi == [Prop("b", JNum(1))] && ci == [Prop("b", JNum(2))]
    requires op == [Prop("a", JObj(oi))] && cp == [Prop("a", JObj(ci))]
    ensures Diff(JObj(op), JObj(cp), "") == [Entry("a.b", Some(SNum(2)))]
  {
    assert Join("", "a") == "a" && Join("a", "b") == "a.b";
    assert Lookup(oi, "b") == Some(JNum(1)) && Lookup(ci, "b") == Some(JNum(2));
    assert AddedKeyStep(oi, ci, "a", 0) == [] && AddedKeyEntries(oi, ci, "a", 1) == [];
    assert RemovedKeyStep(oi, ci, "a", 0) == [] && RemovedKeyEntries(oi, ci, "a", 1) == [];
    assert ChangedKeyStep(oi, ci, "a", 0) == [Entry("a.b", Some(SNum(2)))];
    assert ChangedKeyEntries(oi, ci, "a", 1) == [Entry("a.b", Some(SNum(2)))];
    assert !DeepEquals(JObj(oi), JObj(ci)) by {
      assert !DeepEquals(oi[0].value, Lookup(ci, oi[0].name).value);
    }
    UnfoldObjects(oi, ci, "a");
    assert Lookup(op, "a") == Some(JObj(oi)) && Lookup(cp, "a") == Some(JObj(ci));
    assert AddedKeyStep(op, cp, "", 0) == [] && AddedKeyEntries(op, cp, "", 1) == [];
    assert RemovedKeyStep(op, cp, "", 0) == [] && RemovedKeyEntries(op, cp, "", 1) == [];
    assert ChangedKeyStep(op, cp, "", 0) == [Entry("a.b", Some(SNum(2)))];
    assert ChangedKeyEntries(op, cp, "", 1) == [Entry("a.b", Some(SNum(2)))];
    assert !DeepEquals(JObj(op), JObj(cp)) by {
      assert !DeepEquals(op[0].value, Lookup(cp, op[0].name).value);
    }
    UnfoldObjects(op, cp, "");
  }

  /** Nested keys are addressed with dotted paths. */
  lemma NestedPath(prev: Json, cur: Json)
    requires prev == JObj([Prop("a", JObj([Prop("b", JNum(1))]))])
    requires cur == JObj([Prop("a", JObj([Prop("b", JNum(2))]))])
    ensures ChangedFields(prev, cur) == Success(map["a.b" := Some(SNum(2))])
  {
    NestedSteps(prev.props, cur.props, prev.props[0].value.props, cur.props[0].value.props);
    AddOne(map[], Entry("a.b", Some(SNum(2))));
    Conclude(prev, cur, [Entry("a.b", Some(SNum(2)))], Success(map["a.b" := Some(SNum(2))]));
  }

  /** An object replacing JSON null still clears its own path (here the empty root path). */
  lemma NullToObject(prev: Json, cur: Json)
    requires prev == JNull
    requires cur == JObj([Prop("a", JNum(1))])
    ensures ChangedFields(prev, cur) == Success(map["" := None, "a" := Some(SNum(1))])
  {
    assert Join("", "a") == "a";
    assert Diff(JNull, JNum(1), "a") == [Entry("a", Some(SNum(1)))];
    assert AddedKeyStep([], cur.props, "", 0) == [Entry("a", Some(SNum(1)))];
    assert AddedKeyEntries([], cur.props, "", 1) == [Entry("a", Some(SNum(1)))];
    UnfoldIntoObject(prev, cur.props, "");
    var es := [Entry("", None), Entry("a", Some(SNum(1)))];
    AddTwo(map[], es[0], es[1]);
    Conclude(prev, cur, es, Success(map["" := None, "a" := Some(SNum(1))]));
  }

  /** A null appended to an array is compared with the empty-object sentinel,
      which clears nothing: the documents differ but no field changes. */
  lemma NullAppendedToArray(prev: Json, cur: Json)
    requires prev == JArr([JNum(1)])
    requires cur == JArr([JNum(1), JNull])
    ensures ChangedFields(prev, cur) == Success(map[])
  {
    var oe, ce := prev.elems, cur.elems;
    assert ElementStep(oe, ce, "", 0) == [] && ElementEntries(oe, ce, "", 1) == [];
    assert Diff(EmptyObject, JNull, Index("", 1)) == [];
    assert ElementStep(oe, ce, "", 1) == [];
    assert DroppedElementEntries(oe, "", 1, 1) == [];
    UnfoldArrays(oe, ce, "");
    Conclude(prev, cur, [], Success(map[]));
  }

  /** An object appended to an array gets its keys set but no `[i] -> null` entry,
      unlike an object replacing null. */
  lemma ObjectAppendedToArray(prev: Json, cur: Json)
    requires prev == JArr([JNum(1)])
    requires cur == JArr([JNum(1), JObj([Prop("x", JNum(1))])])
    ensures ChangedFields(prev, cur) == Success(map["[1].x" := Some(SNum(1))])
  {
    var oe, ce, cp := prev.elems, cur.elems, cur.elems[1].props;
    SlotPaths();
    assert Join("[1]", "x") == "[1].x";
    assert Diff(JNull, JNum(1), "[1].x") == [Entry("[1].x", Some(SNum(1)))];
    assert AddedKeyStep([], cp, "[1]", 0) == [Entry("[1].x", Some(SNum(1)))];
    assert AddedKeyEntries([], cp, "[1]", 1) == [Entry("[1].x", Some(SNum(1)))];
    assert RemovedKeyEntries([], cp, "[1]", 0) == [];
    assert ChangedKeyStep([], cp, "[1]", 0) == [] && ChangedKeyEntries([], cp, "[1]", 1) == [];
    UnfoldObjects([], cp, "[1]");
    assert ElementStep(oe, ce, "", 0) == [] && ElementEntries(oe, ce, "", 1) == [];
    assert ElementStep(oe, ce, "", 1) == [Entry("[1].x", Some(SNum(1)))];
    assert DroppedElementEntries(oe, "", 1, 1) == [];
    UnfoldArrays(oe, ce, "");
    AddOne(map[], Entry("[1].x", Some(SNum(1))));
    Conclude(prev, cur, [Entry("[1].x", Some(SNum(1)))], Success(map["[1].x" := Some(SNum(1))]));
  }

  /** Dictionary.Add throws: the cleared old slot `[0]` and the new key named `[0]`
      share a path. */
  lemma SlotAndKeyCollide(prev: Json, cur: Json)
    requires prev == JArr([JNum(1)])
    requires cur == JObj([Prop("[0]", JNum(2))])
    ensures ChangedFields(prev, cur) == Failure("[0]")
  {
    SlotPaths();
    assert Join("", "[0]") == "[0]";
    assert SlotClears("", 1) == [Entry("[0]", None)];
    assert Diff(JNull, JNum(2), "[0]") == [Entry("[0]", Some(SNum(2)))];
    assert AddedKeyStep([], cur.props, "", 0) == [Entry("[0]", Some(SNum(2)))];
    assert AddedKeyEntries([], cur.props, "", 1) == [Entry("[0]", Some(SNum(2)))];
    UnfoldIntoObject(prev, cur.props, "");
    var es := [Entry("[0]", None), Entry("[0]", Some(SNum(2)))];
    SecondAddThrows(map[], es[0], es[1]);
    Conclude(prev, cur, es, Failure("[0]"));
  }

  lemma RemovedNestedObject(inner: seq<Prop>)
    requires inner == [Prop("b", JNum(1))]
    ensures Diff(JObj(inner), JNull, "a") == [Entry("a.b", None)]
  {
    assert Join("a", "b") == "a.b";
    assert Diff(JNum(1), JNull, "a.b") == [Entry("a.b", None)];
    assert RemovedKeyStep(inner, [], "a", 0) == [Entry("a.b", None)];
    assert RemovedKeyEntries(inner, [], "a", 1) == [Entry("a.b", None)];
    UnfoldIntoNull(JObj(inner), "a");
  }

  lemma DottedKeySteps(op: seq<Prop>, cp: seq<Prop>, inner: seq<Prop>)
    requires inner == [Prop("b", JNum(1))] && op == [Prop("a", JObj(inner))] && cp == [Prop("a.b", JNum(2))]
    ensures AddedKeyEntries(op, cp, "", 1) == [Entry("a.b", Some(SNum(2)))]
    ensures RemovedKeyEntries(op, cp, "", 1) == [Entry("a.b", None)]
    ensures ChangedKeyEntries(op, cp, "", 1) == []
  {
    assert Join("", "a") == "a" && Join("", "a.b") == "a.b";
    assert Lookup(op, "a.b").None? && Lookup(cp, "a").None?;
    assert Diff(JNull, JNum(2), "a.b") == [Entry("a.b", Some(SNum(2)))];
    assert AddedKeyStep(op, cp, "", 0) == [Entry("a.b", Some(SNum(2)))];
    RemovedNestedObject(inner);
    assert RemovedKeyStep(op, cp, "", 0) == [Entry("a.b", None)];
    assert ChangedKeyStep(op, cp, "", 0) == [];
  }

  lemma DottedKeyDiff(op: seq<Prop>, cp: seq<Prop>, inner: seq<Prop>)
    requires inner == [Prop("b", JNum(1))] && op == [Prop("a", JObj(inner))] && cp == [Prop("a.b", JNum(2))]
    ensures Diff(JObj(op), JObj(cp), "") == [Entry("a.b", Some(SNum(2))), Entry("a.b", None)]
  {
    assert !DeepEquals(JObj(op), JObj(cp)) by {
      assert Lookup(cp, "a").None?;
      assert !Lookup(cp, op[0].name).Some?;
    }
    DottedKeySteps(op, cp, inner);
    UnfoldObjects(op, cp, "");
  }

  /** Dictionary.Add throws: a new key containing a dot names the same path as a
      nested key of a removed object. */
  lemma DottedKeyCollides(prev: Json, cur: Json)
    requires prev == JObj([Prop("a", JObj([Prop("b", JNum(1))]))])
    requires cur == JObj([Prop("a.b", JNum(2))])
    ensures ChangedFields(prev, cur) == Failure("a.b")
  {
    DottedKeyDiff(prev.props, cur.props, prev.props[0].value.props);
    var es := [Entry("a.b", Some(SNum(2))), Entry("a.b", None)];
    SecondAddThrows(map[], es[0], es[1]);
    Conclude(prev, cur, es, Failure("a.b"));
  }
}
