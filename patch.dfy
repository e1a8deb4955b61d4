/**
 * The changed-fields dictionary `Dictionary<string, object?>`: a path maps to
 * the new scalar value, or to null meaning "clear this field". Entries are only
 * ever inserted with Dictionary.Add, which throws on a key already present.
 */
module Patch {
  import opened Wrappers
  import opened JsonTree

  type Dict = map<string, Option<Scalar>>

  /** One `dict.Add(path, value)` call; a value of None is C# null. */
  datatype Entry = Entry(path: string, value: Option<Scalar>)

  /** The outcome of performing the Adds of `es` in order on `d`: the filled
      dictionary, or the first path that was already present (the exception). */
  function AddAll(d: Dict, es: seq<Entry>): Result<Dict, string>
    decreases |es|
  {
    if es == [] then Success(d)
    else
      var e := es[|es| - 1];
      match AddAll(d, es[..|es| - 1])
      case Failure(p) => Failure(p)
      case Success(m) => if e.path in m then Failure(e.path) else Success(m[e.path := e.value])
  }

  /** Continue a run of Adds that may already have thrown. */
  function Then(r: Result<Dict, string>, es: seq<Entry>): Result<Dict, string>
  {
    match r
    case Failure(p) => Failure(p)
    case Success(m) => AddAll(m, es)
  }

  lemma {:induction false} AddAllAppend(d: Dict, a: seq<Entry>, b: seq<Entry>)
    ensures AddAll(d, a + b) == Then(AddAll(d, a), b)
    decreases |b|
  {
    if b == [] {
      assert a + b == a;
    } else {
      var b' := b[..|b| - 1];
      assert (a + b)[..|a + b| - 1] == a + b';
      AddAllAppend(d, a, b');
    }
  }

  /** No path repeats and none is already in the dictionary. */
  predicate FreshPaths(d: Dict, es: seq<Entry>)
  {
    (forall i :: 0 <= i < |es| ==> es[i].path !in d) &&
    (forall i, j :: 0 <= i < j < |es| ==> es[i].path != es[j].path)
  }

  function PathSet(es: seq<Entry>): set<string>
  {
    set i | 0 <= i < |es| :: es[i].path
  }

  lemma FreshPathsPrefix(d: Dict, es: seq<Entry>)
    requires es != []
    ensures FreshPaths(d, es) <==>
      FreshPaths(d, es[..|es| - 1]) && es[|es| - 1].path !in d &&
      es[|es| - 1].path !in PathSet(es[..|es| - 1])
  {
    var es' := es[..|es| - 1];
    assert forall i :: 0 <= i < |es'| ==> es'[i] == es[i];
  }

  lemma PathSetSnoc(es: seq<Entry>)
    requires es != []
    ensures PathSet(es) == PathSet(es[..|es| - 1]) + {es[|es| - 1].path}
  {
    var es' := es[..|es| - 1];
    forall p | p in PathSet(es) ensures p in PathSet(es') + {es[|es| - 1].path} {
      var i :| 0 <= i < |es| && es[i].path == p;
      if i < |es| - 1 { assert es'[i] == es[i]; }
    }
    forall p | p in PathSet(es') ensures p in PathSet(es) {
      var i :| 0 <= i < |es'| && es'[i].path == p;
      assert es[i] == es'[i];
    }
  }

  /** Dictionary.Add semantics: a run of Adds succeeds exactly when its paths
      are fresh, and then the dictionary holds the old keys and the added paths. */
  lemma {:induction false} AddAllSucceedsIffFresh(d: Dict, es: seq<Entry>)
    ensures AddAll(d, es).Success? <==> FreshPaths(d, es)
    ensures AddAll(d, es).Success? ==> AddAll(d, es).value.Keys == d.Keys + PathSet(es)
    decreases |es|
  {
    if es != [] {
      var es' := es[..|es| - 1];
      AddAllSucceedsIffFresh(d, es');
      FreshPathsPrefix(d, es);
      PathSetSnoc(es);
    }
  }

  /** After a successful run of Adds, old entries are kept and each added path holds its value. */
  lemma {:induction false} AddAllValues(d: Dict, es: seq<Entry>)
    requires AddAll(d, es).Success?
    ensures forall k :: k in d ==> k in AddAll(d, es).value && AddAll(d, es).value[k] == d[k]
    ensures forall i :: 0 <= i < |es| ==>
      es[i].path in AddAll(d, es).value && AddAll(d, es).value[es[i].path] == es[i].value
    decreases |es|
  {
    if es != [] {
      var es' := es[..|es| - 1];
      AddAllValues(d, es');
      AddAllSucceedsIffFresh(d, es);
      var m := AddAll(d, es).value;
      forall i | 0 <= i < |es| ensures es[i].path in m && m[es[i].path] == es[i].value {
        if i < |es| - 1 {
          assert es'[i] == es[i];
        }
      }
    }
  }

  /** The dictionary a run of Adds leaves behind: every Add up to the one that
      throws has been made, and nothing after it. */
  function Filled(d: Dict, es: seq<Entry>): Dict
    decreases |es|
  {
    if es == [] then d
    else
      var e := es[|es| - 1];
      match AddAll(d, es[..|es| - 1])
      case Failure(_) => Filled(d, es[..|es| - 1])
      case Success(m) => if e.path in m then m else m[e.path := e.value]
  }

  lemma FilledSuccess(d: Dict, es: seq<Entry>, m: Dict)
    requires AddAll(d, es) == Success(m)
    ensures Filled(d, es) == m
  {
  }

  /** After an Add throws, the dictionary holds exactly what the Adds before it
      made, and the path that threw is one of its keys. */
  lemma {:induction false} FailureLeavesPrefix(d: Dict, es: seq<Entry>, p: string)
    requires AddAll(d, es) == Failure(p)
    ensures exists k :: 0 <= k < |es| && AddAll(d, es[..k]) == Success(Filled(d, es))
                        && es[k].path == p && p in Filled(d, es)
    decreases |es|
  {
    var n := |es|;
    var init := es[..n - 1];
    match AddAll(d, init)
    case Failure(q) =>
      FailureLeavesPrefix(d, init, p);
      var k :| 0 <= k < |init| && AddAll(d, init[..k]) == Success(Filled(d, init))
               && init[k].path == p && p in Filled(d, init);
      assert init[..k] == es[..k] && init[k] == es[k];
    case Success(m) =>
      assert es[..n - 1] == init;
  }

  lemma {:induction false} FilledAppend(d: Dict, a: seq<Entry>, b: seq<Entry>)
    ensures Filled(d, a + b) == match AddAll(d, a)
                                case Failure(_) => Filled(d, a)
                                case Success(m) => Filled(m, b)
    decreases |b|
  {
    if b == [] {
      assert a + b == a;
      if AddAll(d, a).Success? {
        FilledSuccess(d, a, AddAll(d, a).value);
      }
    } else {
      var b' := b[..|b| - 1];
      assert (a + b)[..|a + b| - 1] == a + b';
      FilledAppend(d, a, b');
      AddAllAppend(d, a, b');
    }
  }

  /** The dictionary went from `d0` to `d1` by the Adds of `es`; or, when
      `thrown` holds a path, the Add of that path threw and `d1` is what the
      Adds before it left. */
  ghost predicate Recorded(d0: Dict, es: seq<Entry>, thrown: Option<string>, d1: Dict)
  {
    match thrown
    case None => AddAll(d0, es) == Success(d1)
    case Some(p) => AddAll(d0, es) == Failure(p) && d1 == Filled(d0, es)
  }

  /** Two runs in a row; after an exception in the first the second is not made. */
  lemma RecordedConcat(d0: Dict, a: seq<Entry>, t1: Option<string>, d1: Dict,
                       b: seq<Entry>, t2: Option<string>, d2: Dict)
    requires Recorded(d0, a, t1, d1)
    requires t1.None? ==> Recorded(d1, b, t2, d2)
    requires t1.Some? ==> d2 == d1
    ensures Recorded(d0, a + b, if t1.Some? then t1 else t2, d2)
  {
    AddAllAppend(d0, a, b);
    FilledAppend(d0, a, b);
    if t1.None? && t2.None? {
      FilledSuccess(d1, b, d2);
    }
  }

  /** Adds after the one that threw are never made. */
  lemma FailureSticks(d0: Dict, a: seq<Entry>, b: seq<Entry>, p: string, d: Dict)
    requires Recorded(d0, a, Some(p), d)
    ensures Recorded(d0, a + b, Some(p), d)
  {
    AddAllAppend(d0, a, b);
    FilledAppend(d0, a, b);
  }

  /** The same, for a run `b` that starts with the failed run `a`. */
  lemma RecordedFailedPrefix(d0: Dict, a: seq<Entry>, b: seq<Entry>, thrown: Option<string>, d: Dict)
    requires thrown.Some? && Recorded(d0, a, thrown, d) && a <= b
    ensures Recorded(d0, b, thrown, d)
  {
    assert b == a + b[|a|..];
    FailureSticks(d0, a, b[|a|..], thrown.value, d);
  }

  /** The mutable Dictionary<string, object?> threaded through the diff. */
  class PathDictionary {
    var entries: Dict

    constructor ()
      ensures entries == map[]
    {
      entries := map[];
    }

    /** Dictionary.Add; `thrown` is the path where C# throws ArgumentException. */
    method Add(path: string, value: Option<Scalar>) returns (thrown: Option<string>)
      modifies this
      ensures thrown.None? <==> path !in old(entries)
      ensures thrown.None? ==> entries == old(entries)[path := value]
      ensures thrown.Some? ==> thrown.value == path && entries == old(entries)
      ensures Recorded(old(entries), [Entry(path, value)], thrown, entries)
    {
      if path in entries {
        thrown := Some(path);
      } else {
        thrown := None;
        entries := entries[path := value];
      }
      assert [Entry(path, value)][..0] == [];
    }
  }
}
