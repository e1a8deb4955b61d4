/**
 * JsonHelper.FindChangedFields and FindDiff: the recursive walk that fills one
 * shared dictionary with `dict.Add`. Each loop of FindDiff is a method of its
 * own here; every method is proved to perform exactly the Adds that the
 * JsonDiff specification lists, stopping at the first one that throws.
 */
module JsonHelper {
  import opened Wrappers
  import opened JsonTree
  import opened Paths
  import opened Patch
  import opened JsonDiff

  /** FindChangedFields after parsing: a fresh dictionary filled by FindDiff
      from the empty prefix; a Failure is the ArgumentException of a repeated path. */
  method FindChangedFields(prev: Json, cur: Json) returns (r: Result<Dict, string>)
    ensures r == ChangedFields(prev, cur)
  {
    var dict := new PathDictionary();
    var thrown := FindDiff(dict, prev, cur, "");
    match thrown {
      case None => r := Success(dict.entries);
      case Some(p) => r := Failure(p);
    }
  }

  method FindDiff(dict: PathDictionary, prev: Json, cur: Json, prefix: string) returns (thrown: Option<string>)
    modifies dict
    ensures Recorded(old(dict.entries), Diff(prev, cur, prefix), thrown, dict.entries)
    decreases Size(prev) + Size(cur), 0
  {
    if DeepEquals(prev, cur) {
      return None;
    }
    ghost var d0 := dict.entries;
    match cur {
      case JObj(cp) =>
        if prev.JObj? {
          var op := prev.props;
          ghost var added := AddedKeyEntries(op, cp, prefix, |cp|);
          ghost var removed := RemovedKeyEntries(op, cp, prefix, |op|);
          ghost var changed := ChangedKeyEntries(op, cp, prefix, |cp|);
          thrown := DiffAddedKeys(dict, op, cp, prefix);
          if thrown.Some? {
            RecordedFailedPrefix(d0, added, added + removed + changed, thrown, dict.entries);
            return;
          }
          ghost var d1 := dict.entries;
          thrown := DiffRemovedKeys(dict, op, cp, prefix);
          RecordedConcat(d0, added, None, d1, removed, thrown, dict.entries);
          if thrown.Some? {
            RecordedFailedPrefix(d0, added + removed, added + removed + changed, thrown, dict.entries);
            return;
          }
          ghost var d2 := dict.entries;
          thrown := DiffChangedKeys(dict, op, cp, prefix);
          RecordedConcat(d0, added + removed, None, d2, changed, thrown, dict.entries);
        } else {
          // a scalar, null or array gives way to the object: clear it first
          ghost var cleared := if prev.JArr? then SlotClears(prefix, |prev.elems|) else [Entry(prefix, None)];
          if prev.JArr? {
            thrown := ClearSlots(dict, prefix, |prev.elems|);
          } else {
            thrown := dict.Add(prefix, None);
          }
          ghost var d1 := dict.entries;
          var rest: Option<string> := None;
          if thrown.None? {
            rest := DiffAddedKeys(dict, [], cp, prefix);
          }
          RecordedConcat(d0, cleared, thrown, d1, AddedKeyEntries([], cp, prefix, |cp|), rest, dict.entries);
          if thrown.None? {
            thrown := rest;
          }
        }
      case JArr(ce) =>
        if prev.JArr? {
          thrown := DiffArrays(dict, prev.elems, ce, prefix);
        } else {
          ghost var cleared := if prev.JObj? then Diff(prev, JNull, prefix) else [];
          if prev.JObj? {
            thrown := FindDiff(dict, prev, JNull, prefix);
          } else {
            thrown := None;
          }
          ghost var d1 := dict.entries;
          var rest: Option<string> := None;
          if thrown.None? {
            rest := DiffNewElements(dict, ce, prefix);
          }
          RecordedConcat(d0, cleared, thrown, d1, NewElementEntries(ce, prefix, |ce|), rest, dict.entries);
          if thrown.None? {
            thrown := rest;
          }
        }
      case JNull =>
        if prev.JObj? {
          thrown := DiffRemovedKeys(dict, prev.props, [], prefix);
        } else if prev.JArr? {
          thrown := ClearSlots(dict, prefix, |prev.elems|);
        } else {
          thrown := dict.Add(prefix, None);
        }
      case JBool(b) =>
        thrown := dict.Add(prefix, Some(SBool(b)));
      case JNum(n) =>
        thrown := dict.Add(prefix, Some(SNum(n)));
      case JStr(s) =>
        thrown := dict.Add(prefix, Some(SStr(s)));
    }
  }

  /** `dict.Add($"{prefix}[{index}]", null)` for every index below n. */
  method ClearSlots(dict: PathDictionary, prefix: string, n: nat) returns (thrown: Option<string>)
    modifies dict
    ensures Recorded(old(dict.entries), SlotClears(prefix, n), thrown, dict.entries)
  {
    ghost var d0 := dict.entries;
    var index := 0;
    while index < n
      invariant 0 <= index <= n
      invariant Recorded(d0, SlotClears(prefix, index), None, dict.entries)
    {
      ghost var d1 := dict.entries;
      thrown := dict.Add(Index(prefix, index), None);
      RecordedConcat(d0, SlotClears(prefix, index), None, d1, [Entry(Index(prefix, index), None)], thrown, dict.entries);
      if thrown.Some? {
        SlotClearsFailed(d0, prefix, index + 1, n, thrown.value, dict.entries);
        return;
      }
      index := index + 1;
    }
    thrown := None;
  }

  /** The loop over addedKeys; with `op` empty, the loop over every key of an
      object that replaced a non-object. */
  method DiffAddedKeys(dict: PathDictionary, op: seq<Prop>, cp: seq<Prop>, prefix: string)
    returns (thrown: Option<string>)
    modifies dict
    ensures Recorded(old(dict.entries), AddedKeyEntries(op, cp, prefix, |cp|), thrown, dict.entries)
    decreases PropsSize(cp) + 2, 1
  {
    ghost var d0 := dict.entries;
    var index := 0;
    while index < |cp|
      invariant 0 <= index <= |cp|
      invariant Recorded(d0, AddedKeyEntries(op, cp, prefix, index), None, dict.entries)
    {
      ghost var d1 := dict.entries;
      var t := DiffAddedKey(dict, op, cp, prefix, index);
      RecordedConcat(d0, AddedKeyEntries(op, cp, prefix, index), None, d1,
                     AddedKeyStep(op, cp, prefix, index), t, dict.entries);
      if t.Some? {
        AddedKeyEntriesFailed(d0, op, cp, prefix, index + 1, |cp|, t.value, dict.entries);
        return t;
      }
      index := index + 1;
    }
    thrown := None;
  }

  /** One pass of that loop: a key missing from the old object is diffed against null. */
  method DiffAddedKey(dict: PathDictionary, op: seq<Prop>, cp: seq<Prop>, prefix: string, i: nat)
    returns (thrown: Option<string>)
    requires i < |cp|
    modifies dict
    ensures Recorded(old(dict.entries), AddedKeyStep(op, cp, prefix, i), thrown, dict.entries)
    decreases PropsSize(cp) + 2, 0
  {
    var p := cp[i];
    if Lookup(op, p.name).None? {
      PropSizeBound(cp, i);
      thrown := FindDiff(dict, JNull, p.value, Join(prefix, p.name));
    } else {
      thrown := None;
    }
  }

  /** The loop over removedKeys; with `cp` empty, the loop that clears every
      key of an old object under a null current. */
  method DiffRemovedKeys(dict: PathDictionary, op: seq<Prop>, cp: seq<Prop>, prefix: string)
    returns (thrown: Option<string>)
    modifies dict
    ensures Recorded(old(dict.entries), RemovedKeyEntries(op, cp, prefix, |op|), thrown, dict.entries)
    decreases PropsSize(op) + 2, 1
  {
    ghost var d0 := dict.entries;
    var index := 0;
    while index < |op|
      invariant 0 <= index <= |op|
      invariant Recorded(d0, RemovedKeyEntries(op, cp, prefix, index), None, dict.entries)
    {
      ghost var d1 := dict.entries;
      var t := DiffRemovedKey(dict, op, cp, prefix, index);
      RecordedConcat(d0, RemovedKeyEntries(op, cp, prefix, index), None, d1,
                     RemovedKeyStep(op, cp, prefix, index), t, dict.entries);
      if t.Some? {
        RemovedKeyEntriesFailed(d0, op, cp, prefix, index + 1, |op|, t.value, dict.entries);
        return t;
      }
      index := index + 1;
    }
    thrown := None;
  }

  /** One pass of that loop: a key missing from the current object is diffed with a null current. */
  method DiffRemovedKey(dict: PathDictionary, op: seq<Prop>, cp: seq<Prop>, prefix: string, i: nat)
    returns (thrown: Option<string>)
    requires i < |op|
    modifies dict
    ensures Recorded(old(dict.entries), RemovedKeyStep(op, cp, prefix, i), thrown, dict.entries)
    decreases PropsSize(op) + 2, 0
  {
    var p := op[i];
    if Lookup(cp, p.name).None? {
      PropSizeBound(op, i);
      thrown := FindDiff(dict, p.value, JNull, Join(prefix, p.name));
    } else {
      thrown := None;
    }
  }

  /** The loop over potentiallyModifiedKeys: keys of both objects whose values
      are not deep-equal. */
  method DiffChangedKeys(dict: PathDictionary, op: seq<Prop>, cp: seq<Prop>, prefix: string)
    returns (thrown: Option<string>)
    modifies dict
    ensures Recorded(old(dict.entries), ChangedKeyEntries(op, cp, prefix, |cp|), thrown, dict.entries)
    decreases PropsSize(op) + PropsSize(cp) + 2, 1
  {
    ghost var d0 := dict.entries;
    var index := 0;
    while index < |cp|
      invariant 0 <= index <= |cp|
      invariant Recorded(d0, ChangedKeyEntries(op, cp, prefix, index), None, dict.entries)
    {
      ghost var d1 := dict.entries;
      var t := DiffChangedKey(dict, op, cp, prefix, index);
      RecordedConcat(d0, ChangedKeyEntries(op, cp, prefix, index), None, d1,
                     ChangedKeyStep(op, cp, prefix, index), t, dict.entries);
      if t.Some? {
        ChangedKeyEntriesFailed(d0, op, cp, prefix, index + 1, |cp|, t.value, dict.entries);
        return t;
      }
      index := index + 1;
    }
    thrown := None;
  }

  /** One pass of that loop: a shared key whose values differ is diffed pairwise. */
  method DiffChangedKey(dict: PathDictionary, op: seq<Prop>, cp: seq<Prop>, prefix: string, i: nat)
    returns (thrown: Option<string>)
    requires i < |cp|
    modifies dict
    ensures Recorded(old(dict.entries), ChangedKeyStep(op, cp, prefix, i), thrown, dict.entries)
    decreases PropsSize(op) + PropsSize(cp) + 2, 0
  {
    var p := cp[i];
    thrown := None;
    match Lookup(op, p.name) {
      case None =>
      case Some(w) =>
        if !DeepEquals(p.value, w) {
          PropSizeBound(cp, i);
          LookupSizeBound(op, p.name);
          thrown := FindDiff(dict, w, p.value, Join(prefix, p.name));
        }
    }
  }

  /** Array against array: each current slot against the old slot (or the
      empty-object sentinel), then the old slots past the current end against null. */
  method DiffArrays(dict: PathDictionary, oe: seq<Json>, ce: seq<Json>, prefix: string)
    returns (thrown: Option<string>)
    modifies dict
    ensures Recorded(old(dict.entries),
                     ElementEntries(oe, ce, prefix, |ce|)
                     + DroppedElementEntries(oe, prefix, Min(|ce|, |oe|), |oe|),
                     thrown, dict.entries)
    decreases ElemsSize(oe) + ElemsSize(ce) + 3, 2
  {
    ghost var d0 := dict.entries;
    ghost var elements := ElementEntries(oe, ce, prefix, |ce|);
    ghost var dropped := DroppedElementEntries(oe, prefix, Min(|ce|, |oe|), |oe|);
    thrown := DiffElements(dict, oe, ce, prefix);
    ghost var d1 := dict.entries;
    var rest: Option<string> := None;
    if thrown.None? {
      rest := DiffDroppedSlots(dict, oe, prefix, |ce|);
    }
    RecordedConcat(d0, elements, thrown, d1, dropped, rest, dict.entries);
    if thrown.None? {
      thrown := rest;
    }
  }

  /** The foreach over the current array's children. */
  method DiffElements(dict: PathDictionary, oe: seq<Json>, ce: seq<Json>, prefix: string)
    returns (thrown: Option<string>)
    modifies dict
    ensures Recorded(old(dict.entries), ElementEntries(oe, ce, prefix, |ce|), thrown, dict.entries)
    decreases ElemsSize(oe) + ElemsSize(ce) + 3, 1
  {
    ghost var d0 := dict.entries;
    var index := 0;
    while index < |ce|
      invariant 0 <= index <= |ce|
      invariant Recorded(d0, ElementEntries(oe, ce, prefix, index), None, dict.entries)
    {
      ghost var d1 := dict.entries;
      var t := DiffElement(dict, oe, ce, prefix, index);
      RecordedConcat(d0, ElementEntries(oe, ce, prefix, index), None, d1,
                     ElementStep(oe, ce, prefix, index), t, dict.entries);
      if t.Some? {
        ElementEntriesFailed(d0, oe, ce, prefix, index + 1, |ce|, t.value, dict.entries);
        return t;
      }
      index := index + 1;
    }
    thrown := None;
  }

  /** One pass of that loop: slot i against the old slot, or against `new JObject()`. */
  method DiffElement(dict: PathDictionary, oe: seq<Json>, ce: seq<Json>, prefix: string, i: nat)
    returns (thrown: Option<string>)
    requires i < |ce|
    modifies dict
    ensures Recorded(old(dict.entries), ElementStep(oe, ce, prefix, i), thrown, dict.entries)
    decreases ElemsSize(oe) + ElemsSize(ce) + 3, 0
  {
    ElemSizeBound(ce, i);
    var o := if i < |oe| then oe[i] else EmptyObject;
    if i < |oe| {
      ElemSizeBound(oe, i);
    }
    thrown := FindDiff(dict, o, ce[i], Index(prefix, i));
  }

  /** The while loop over the old slots from `index` on, each diffed with a null current. */
  method DiffDroppedSlots(dict: PathDictionary, oe: seq<Json>, prefix: string, start: nat)
    returns (thrown: Option<string>)
    modifies dict
    ensures Recorded(old(dict.entries), DroppedElementEntries(oe, prefix, Min(start, |oe|), |oe|),
                     thrown, dict.entries)
    decreases ElemsSize(oe) + 2, 1
  {
    ghost var d0 := dict.entries;
    ghost var lo := Min(start, |oe|);
    var index := start;
    while index < |oe|
      invariant lo <= index
      invariant Recorded(d0, DroppedElementEntries(oe, prefix, lo, Min(index, |oe|)), None, dict.entries)
    {
      ghost var d1 := dict.entries;
      ElemSizeBound(oe, index);
      var t := FindDiff(dict, oe[index], JNull, Index(prefix, index));
      RecordedConcat(d0, DroppedElementEntries(oe, prefix, lo, index), None, d1,
                     Diff(oe[index], JNull, Index(prefix, index)), t, dict.entries);
      if t.Some? {
        DroppedElementEntriesFailed(d0, oe, prefix, lo, index + 1, |oe|, t.value, dict.entries);
        return t;
      }
      index := index + 1;
    }
    thrown := None;
  }

  /** Every element of an array that replaced a non-array, against JSON null. */
  method DiffNewElements(dict: PathDictionary, ce: seq<Json>, prefix: string) returns (thrown: Option<string>)
    modifies dict
    ensures Recorded(old(dict.entries), NewElementEntries(ce, prefix, |ce|), thrown, dict.entries)
    decreases ElemsSize(ce) + 2, 1
  {
    ghost var d0 := dict.entries;
    var index := 0;
    while index < |ce|
      invariant 0 <= index <= |ce|
      invariant Recorded(d0, NewElementEntries(ce, prefix, index), None, dict.entries)
    {
      ghost var d1 := dict.entries;
      ElemSizeBound(ce, index);
      var t := FindDiff(dict, JNull, ce[index], Index(prefix, index));
      RecordedConcat(d0, NewElementEntries(ce, prefix, index), None, d1,
                     Diff(JNull, ce[index], Index(prefix, index)), t, dict.entries);
      if t.Some? {
        NewElementEntriesFailed(d0, ce, prefix, index + 1, |ce|, t.value, dict.entries);
        return t;
      }
      index := index + 1;
    }
    thrown := None;
  }
}
