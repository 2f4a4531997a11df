/** Routing of references to items of other modules: what is waiting is drained into batches by kind and declaring
    module, each key once. */
module ForeignRouting {
  import opened Collections
  import X = Fixpoint

  datatype Sort = Function | FunctionInstance | GlobalInstance

  /** A reference that one module forwards and another declares. */
  type Ref = X.Item

  function SortOf(r: Ref): Sort {
    match r
    case Function(_) => Function
    case Instance(_) => FunctionInstance
    case Global(_) => GlobalInstance
  }

  /** References waiting, by kind, and every reference ever taken up. */
  datatype Pending = Pending(functions: seq<Ref>, instances: seq<Ref>, globals: seq<Ref>, queued: set<Ref>)

  /** References of one kind handed to the module at index `owner`. */
  datatype Batch = Batch(sort: Sort, owner: nat, refs: seq<Ref>)

  /** Positions of modules in the plan. */
  type Indices = map<nat, nat>

  function Waiting(p: Pending): nat {
    |p.functions| + |p.instances| + |p.globals|
  }

  function AllWaiting(p: Pending): seq<Ref> {
    p.functions + p.instances + p.globals
  }

  /** Adds references to the queue of their kind. */
  method Extend(p: Pending, refs: seq<Ref>) returns (q: Pending)
    ensures q.queued == p.queued
    ensures forall r :: r in AllWaiting(q) <==> r in AllWaiting(p) || r in refs
    ensures refs == [] ==> q == p
    ensures WellSorted(p) ==> WellSorted(q)
  {
    q := p;
    for i := 0 to |refs|
      invariant q.queued == p.queued && (i == 0 ==> q == p)
      invariant WellSorted(p) ==> WellSorted(q)
      invariant forall r :: r in AllWaiting(q) <==> r in AllWaiting(p) || r in refs[..i]
    {
      assert refs[..i + 1] == refs[..i] + [refs[i]];
      match SortOf(refs[i])
      case Function => q := q.(functions := q.functions + [refs[i]]);
      case FunctionInstance => q := q.(instances := q.instances + [refs[i]]);
      case GlobalInstance => q := q.(globals := q.globals + [refs[i]]);
    }
    assert refs[..|refs|] == refs;
  }

  // ---------------------------------------------------------------------------------------------------------------
  // Draining.

  /** `lists[o]` are new references of the module at `o`, each once; `unknown` are new references of no module. */
  ghost predicate Sorted(indices: Indices, known: set<Ref>, refs: seq<Ref>, lists: seq<seq<Ref>>, unknown: seq<Ref>) {
    && (forall o | 0 <= o < |lists| :: Distinct(lists[o]))
    && (forall o, r | 0 <= o < |lists| && r in lists[o] ::
          r in refs && r !in known && X.UnitOf(r) in indices && indices[X.UnitOf(r)] == o)
    && Distinct(unknown) && (forall r | r in unknown :: r in refs && r !in known && X.UnitOf(r) !in indices)
    && (forall r | r in refs && r !in known ::
          if X.UnitOf(r) !in indices then r in unknown
          else indices[X.UnitOf(r)] < |lists| && r in lists[indices[X.UnitOf(r)]])
  }

  lemma {:induction false} SortedAgain(
    indices: Indices, known: set<Ref>, refs: seq<Ref>, lists: seq<seq<Ref>>, unknown: seq<Ref>, r: Ref)
    requires Sorted(indices, known, refs, lists, unknown) && r in known + SetOf(refs)
    ensures Sorted(indices, known, refs + [r], lists, unknown)
  {
  }

  lemma {:induction false} SortedOwned(
    indices: Indices, known: set<Ref>, refs: seq<Ref>, lists: seq<seq<Ref>>, unknown: seq<Ref>, r: Ref)
    requires Sorted(indices, known, refs, lists, unknown) && r !in known + SetOf(refs)
    requires X.UnitOf(r) in indices && indices[X.UnitOf(r)] < |lists|
    ensures var o := indices[X.UnitOf(r)]; Sorted(indices, known, refs + [r], lists[o := lists[o] + [r]], unknown)
  {
  }

  lemma {:induction false} SortedUnknown(
    indices: Indices, known: set<Ref>, refs: seq<Ref>, lists: seq<seq<Ref>>, unknown: seq<Ref>, r: Ref)
    requires Sorted(indices, known, refs, lists, unknown) && r !in known + SetOf(refs) && X.UnitOf(r) !in indices
    ensures Sorted(indices, known, refs + [r], lists, unknown + [r])
  {
  }

  method DrainSort(indices: Indices, count: nat, known: set<Ref>, refs: seq<Ref>)
    returns (lists: seq<seq<Ref>>, unknown: seq<Ref>, known': set<Ref>)
    requires forall u | u in indices :: indices[u] < count
    ensures |lists| == count && Sorted(indices, known, refs, lists, unknown) && known' == known + SetOf(refs)
  {
    lists := seq(count, _ => []);
    unknown := [];
    known' := known;
    for i := 0 to |refs|
      invariant |lists| == count && Sorted(indices, known, refs[..i], lists, unknown)
      invariant known' == known + SetOf(refs[..i])
    {
      var r := refs[i];
      assert refs[..i + 1] == refs[..i] + [r];
      if r in known' {
        SortedAgain(indices, known, refs[..i], lists, unknown, r);
      } else {
        known' := known' + {r};
        if X.UnitOf(r) in indices {
          var o := indices[X.UnitOf(r)];
          SortedOwned(indices, known, refs[..i], lists, unknown, r);
          lists := lists[o := lists[o] + [r]];
        } else {
          SortedUnknown(indices, known, refs[..i], lists, unknown, r);
          unknown := unknown + [r];
        }
      }
    }
    assert refs[..|refs|] == refs;
  }

  /** The nonempty lists of one kind, by owner. */
  method Batches(sort: Sort, lists: seq<seq<Ref>>) returns (batches: seq<Batch>)
    ensures forall i | 0 <= i < |batches| ::
      batches[i].sort == sort && batches[i].owner < |lists| && batches[i].refs == lists[batches[i].owner] &&
        batches[i].refs != []
    ensures forall i, j | 0 <= i < j < |batches| :: batches[i].owner < batches[j].owner
    ensures forall o | 0 <= o < |lists| && lists[o] != [] :: Batch(sort, o, lists[o]) in batches
  {
    batches := [];
    for o := 0 to |lists|
      invariant forall i | 0 <= i < |batches| ::
        batches[i].sort == sort && batches[i].owner < o && batches[i].refs == lists[batches[i].owner] &&
          batches[i].refs != []
      invariant forall i, j | 0 <= i < j < |batches| :: batches[i].owner < batches[j].owner
      invariant forall k | 0 <= k < o && lists[k] != [] :: Batch(sort, k, lists[k]) in batches
    {
      if lists[o] != [] {
        batches := batches + [Batch(sort, o, lists[o])];
      }
    }
  }

  ghost predicate RefsOfSort(refs: seq<Ref>, sort: Sort) {
    forall r | r in refs :: SortOf(r) == sort
  }

  ghost predicate WellSorted(p: Pending) {
    RefsOfSort(p.functions, Function) && RefsOfSort(p.instances, FunctionInstance) &&
      RefsOfSort(p.globals, GlobalInstance)
  }

  /** The batch has new references of its kind and owner, each once. */
  ghost predicate Proper(indices: Indices, known: set<Ref>, b: Batch) {
    && Distinct(b.refs) && b.refs != []
    && forall r | r in b.refs ::
         r !in known && SortOf(r) == b.sort && X.UnitOf(r) in indices && indices[X.UnitOf(r)] == b.owner
  }

  /** A drained plan: proper batches for different kinds or owners, and unknown references, together all new ones. */
  ghost predicate Planned(
    indices: Indices, known: set<Ref>, waiting: seq<Ref>, batches: seq<Batch>, unknown: seq<Ref>) {
    && (forall i | 0 <= i < |batches| :: Proper(indices, known, batches[i]))
    && (forall i, j | 0 <= i < j < |batches| ::
         batches[i].sort != batches[j].sort || batches[i].owner != batches[j].owner)
    && Distinct(unknown) && (forall r | r in unknown :: r in waiting && r !in known && X.UnitOf(r) !in indices)
    && (forall r | r in waiting && r !in known ::
          if X.UnitOf(r) in indices then InBatches(batches, r) else r in unknown)
    && (forall i, r | 0 <= i < |batches| && r in batches[i].refs :: r in waiting)
  }

  ghost predicate InBatches(batches: seq<Batch>, r: Ref) {
    exists i | 0 <= i < |batches| :: r in batches[i].refs
  }

  method PlanSort(indices: Indices, count: nat, known: set<Ref>, refs: seq<Ref>, sort: Sort)
    returns (batches: seq<Batch>, unknown: seq<Ref>, known': set<Ref>)
    requires RefsOfSort(refs, sort) && forall u | u in indices :: indices[u] < count
    ensures Planned(indices, known, refs, batches, unknown) && known' == known + SetOf(refs)
    ensures forall i | 0 <= i < |batches| :: batches[i].sort == sort
  {
    var lists;
    lists, unknown, known' := DrainSort(indices, count, known, refs);
    batches := Batches(sort, lists);
    ListsArePlanned(indices, known, refs, lists, unknown, sort, batches);
  }

  lemma {:induction false} ListsArePlanned(
    indices: Indices, known: set<Ref>, refs: seq<Ref>, lists: seq<seq<Ref>>, unknown: seq<Ref>, sort: Sort,
    batches: seq<Batch>)
    requires RefsOfSort(refs, sort) && Sorted(indices, known, refs, lists, unknown)
    requires forall i | 0 <= i < |batches| ::
      batches[i].sort == sort && batches[i].owner < |lists| && batches[i].refs == lists[batches[i].owner] &&
        batches[i].refs != []
    requires forall i, j | 0 <= i < j < |batches| :: batches[i].owner < batches[j].owner
    requires forall o | 0 <= o < |lists| && lists[o] != [] :: Batch(sort, o, lists[o]) in batches
    ensures Planned(indices, known, refs, batches, unknown)
  {
    forall i | 0 <= i < |batches| ensures Proper(indices, known, batches[i]) {
      assert Distinct(lists[batches[i].owner]);
    }
    forall r | r in refs && r !in known && X.UnitOf(r) in indices ensures InBatches(batches, r) {
      var o := indices[X.UnitOf(r)];
      assert r in lists[o] && lists[o] != [];
      var i :| 0 <= i < |batches| && batches[i] == Batch(sort, o, lists[o]);
      assert r in batches[i].refs;
    }
  }

  /** Plans of different kinds side by side. */
  lemma {:induction false} SideBySide(
    indices: Indices, known: set<Ref>, refs: seq<Ref>, more: seq<Ref>,
    batches: seq<Batch>, batches': seq<Batch>, unknown: seq<Ref>, unknown': seq<Ref>)
    requires Planned(indices, known, refs, batches, unknown)
    requires Planned(indices, known + SetOf(refs), more, batches', unknown')
    requires forall r, q | r in refs && q in more :: SortOf(r) != SortOf(q)
    requires forall i, j | 0 <= i < |batches| && 0 <= j < |batches'| :: batches[i].sort != batches'[j].sort
    ensures Planned(indices, known, refs + more, batches + batches', unknown + unknown')
  {
    var all := batches + batches';
    forall i | 0 <= i < |all| ensures Proper(indices, known, all[i]) {
      if i < |batches| {
        assert Proper(indices, known, batches[i]);
      } else {
        assert Proper(indices, known + SetOf(refs), batches'[i - |batches|]);
      }
    }
    NewInOne(indices, known, refs, more, batches, batches', unknown, unknown');
    DistinctBoth(unknown, unknown');
    forall i, r | 0 <= i < |all| && r in all[i].refs ensures r in refs + more {
      if i < |batches| {
        assert r in batches[i].refs;
      } else {
        assert r in batches'[i - |batches|].refs;
      }
    }
  }

  lemma {:induction false} NewInOne(
    indices: Indices, known: set<Ref>, refs: seq<Ref>, more: seq<Ref>,
    batches: seq<Batch>, batches': seq<Batch>, unknown: seq<Ref>, unknown': seq<Ref>)
    requires Planned(indices, known, refs, batches, unknown)
    requires Planned(indices, known + SetOf(refs), more, batches', unknown')
    requires forall r, q | r in refs && q in more :: SortOf(r) != SortOf(q)
    ensures forall r | r in refs + more && r !in known ::
      if X.UnitOf(r) in indices then InBatches(batches + batches', r) else r in unknown + unknown'
  {
    var all := batches + batches';
    forall r | r in refs + more && r !in known
      ensures if X.UnitOf(r) in indices then InBatches(all, r) else r in unknown + unknown'
    {
      if r in refs {
        if X.UnitOf(r) in indices {
          var i :| 0 <= i < |batches| && r in batches[i].refs;
          assert r in all[i].refs;
        }
      } else {
        assert r !in known + SetOf(refs);
        if X.UnitOf(r) in indices {
          var i :| 0 <= i < |batches'| && r in batches'[i].refs;
          assert r in all[|batches| + i].refs;
        }
      }
    }
  }

  method DrainPlan(indices: Indices, count: nat, p: Pending)
    returns (batches: seq<Batch>, unknown: seq<Ref>, q: Pending)
    requires WellSorted(p) && forall u | u in indices :: indices[u] < count
    ensures Planned(indices, p.queued, AllWaiting(p), batches, unknown)
    ensures q == Pending([], [], [], p.queued + SetOf(AllWaiting(p)))
  {
    var b1, u1, k1 := PlanSort(indices, count, p.queued, p.functions, Function);
    var b2, u2, k2 := PlanSort(indices, count, k1, p.instances, FunctionInstance);
    SideBySide(indices, p.queued, p.functions, p.instances, b1, b2, u1, u2);
    assert k2 == p.queued + SetOf(p.functions + p.instances);
    var b3, u3, k3 := PlanSort(indices, count, k2, p.globals, GlobalInstance);
    SideBySide(indices, p.queued, p.functions + p.instances, p.globals, b1 + b2, b3, u1 + u2, u3);
    batches, unknown := b1 + b2 + b3, u1 + u2 + u3;
    q := Pending([], [], [], k3);
    assert q.queued == p.queued + SetOf(AllWaiting(p));
  }

  // ---------------------------------------------------------------------------------------------------------------
  // Records of what was handed over.

  /** What was handed to whom. */
  datatype Dispatch = Dispatch(owner: nat, ref: Ref)

  ghost predicate Dispatched(dispatches: seq<Dispatch>, r: Ref) {
    exists i | 0 <= i < |dispatches| :: dispatches[i].ref == r
  }

  /** No reference twice, each to its declaring module; unknown modules reported once each reference. */
  ghost predicate Sound(indices: Indices, done: set<Ref>, dispatches: seq<Dispatch>, unknown: seq<Ref>) {
    && (forall i, j | 0 <= i < j < |dispatches| :: dispatches[i].ref != dispatches[j].ref)
    && (forall i | 0 <= i < |dispatches| ::
          && dispatches[i].ref in done && X.UnitOf(dispatches[i].ref) in indices
          && indices[X.UnitOf(dispatches[i].ref)] == dispatches[i].owner)
    && Distinct(unknown) && (forall r | r in unknown :: r in done && X.UnitOf(r) !in indices)
  }

  ghost predicate Handled(dispatches: seq<Dispatch>, unknown: seq<Ref>, r: Ref) {
    Dispatched(dispatches, r) || r in unknown
  }

  function DispatchesOf(b: Batch): seq<Dispatch> {
    seq(|b.refs|, i requires 0 <= i < |b.refs| => Dispatch(b.owner, b.refs[i]))
  }

  /** Hands over one batch. */
  lemma {:induction false} BatchIsSound(
    indices: Indices, done: set<Ref>, dispatches: seq<Dispatch>, unknown: seq<Ref>, b: Batch)
    requires Sound(indices, done, dispatches, unknown) && Proper(indices, done, b)
    ensures Sound(indices, done + SetOf(b.refs), dispatches + DispatchesOf(b), unknown)
    ensures forall r | r in b.refs :: Dispatched(dispatches + DispatchesOf(b), r)
    ensures forall r | Dispatched(dispatches, r) :: Dispatched(dispatches + DispatchesOf(b), r)
  {
    var all := dispatches + DispatchesOf(b);
    assert forall i | 0 <= i < |b.refs| :: b.refs[i] in b.refs;
    forall r | r in b.refs ensures Dispatched(all, r) {
      var i :| 0 <= i < |b.refs| && b.refs[i] == r;
      assert all[|dispatches| + i].ref == r;
    }
    forall r | Dispatched(dispatches, r) ensures Dispatched(all, r) {
      var i :| 0 <= i < |dispatches| && dispatches[i].ref == r;
      assert all[i].ref == r;
    }
  }

  ghost function RefsOf(batches: seq<Batch>): set<Ref> {
    if batches == [] then {} else RefsOf(batches[..|batches| - 1]) + SetOf(batches[|batches| - 1].refs)
  }

  lemma {:induction false} InRefsOf(batches: seq<Batch>, r: Ref)
    ensures r in RefsOf(batches) <==> InBatches(batches, r)
  {
    if batches != [] {
      var init := batches[..|batches| - 1];
      InRefsOf(init, r);
      if InBatches(batches, r) {
        var i :| 0 <= i < |batches| && r in batches[i].refs;
        assert i < |init| ==> init[i] == batches[i];
      }
      if InBatches(init, r) {
        var i :| 0 <= i < |init| && r in init[i].refs;
        assert r in batches[i].refs;
      }
    }
  }

  lemma {:induction false} ProperLater(
    indices: Indices, known: set<Ref>, waiting: seq<Ref>, batches: seq<Batch>, unknown: seq<Ref>, i: nat)
    requires Planned(indices, known, waiting, batches, unknown) && i < |batches|
    ensures Proper(indices, known + RefsOf(batches[..i]), batches[i])
  {
    forall r | r in batches[i].refs ensures r !in RefsOf(batches[..i]) {
      InRefsOf(batches[..i], r);
      assert Proper(indices, known, batches[i]);
      forall j | 0 <= j < i ensures r !in batches[j].refs {
        assert Proper(indices, known, batches[j]);
      }
    }
  }

  /** The batches were handed over after `start`, soundly. */
  ghost predicate Handing(
    indices: Indices, known: set<Ref>, batches: seq<Batch>, start: seq<Dispatch>, dispatches: seq<Dispatch>,
    unknown: seq<Ref>) {
    && Sound(indices, known + RefsOf(batches), dispatches, unknown)
    && forall r | InBatches(batches, r) || Dispatched(start, r) :: Dispatched(dispatches, r)
  }

  lemma {:induction false} OneMoreBatch(known: set<Ref>, batches: seq<Batch>, i: nat)
    requires i < |batches|
    ensures known + RefsOf(batches[..i + 1]) == known + RefsOf(batches[..i]) + SetOf(batches[i].refs)
    ensures forall r | InBatches(batches[..i + 1], r) :: InBatches(batches[..i], r) || r in batches[i].refs
  {
    assert batches[..i + 1][..i] == batches[..i];
    forall r | InBatches(batches[..i + 1], r) ensures InBatches(batches[..i], r) || r in batches[i].refs {
      var j :| 0 <= j < i + 1 && r in batches[..i + 1][j].refs;
      assert j < i ==> r in batches[..i][j].refs;
    }
  }

  lemma {:induction false} NextBatch(
    indices: Indices, known: set<Ref>, waiting: seq<Ref>, batches: seq<Batch>, news: seq<Ref>, i: nat,
    start: seq<Dispatch>, dispatches: seq<Dispatch>, unknown: seq<Ref>)
    requires Planned(indices, known, waiting, batches, news) && i < |batches|
    requires Handing(indices, known, batches[..i], start, dispatches, unknown)
    ensures Handing(indices, known, batches[..i + 1], start, dispatches + DispatchesOf(batches[i]), unknown)
  {
    ProperLater(indices, known, waiting, batches, news, i);
    BatchIsSound(indices, known + RefsOf(batches[..i]), dispatches, unknown, batches[i]);
    OneMoreBatch(known, batches, i);
  }

  /** Sound records of known references, all of them handled. */
  ghost predicate Settled(indices: Indices, queued: set<Ref>, dispatches: seq<Dispatch>, unknown: seq<Ref>) {
    && Sound(indices, queued, dispatches, unknown)
    && forall r | r in queued :: Handled(dispatches, unknown, r)
  }

  /** After a drained plan was handed over, everything taken up is handled. */
  lemma {:induction false} RoundSettles(
    indices: Indices, known: set<Ref>, waiting: seq<Ref>, batches: seq<Batch>, news: seq<Ref>,
    dispatches: seq<Dispatch>, dispatches': seq<Dispatch>, unknown: seq<Ref>)
    requires Settled(indices, known, dispatches, unknown) && Planned(indices, known, waiting, batches, news)
    requires Handing(indices, known, batches, dispatches, dispatches', unknown)
    ensures Settled(indices, known + SetOf(waiting), dispatches', unknown + news)
  {
    forall r | r in RefsOf(batches) ensures r in waiting {
      InRefsOf(batches, r);
    }
    DistinctBoth(unknown, news);
    forall r | r in known + SetOf(waiting) ensures Handled(dispatches', unknown + news, r) {
      if r in known {
        assert Handled(dispatches, unknown, r);
      }
    }
  }

  lemma {:induction false} HandledIsQueued(
    indices: Indices, queued: set<Ref>, dispatches: seq<Dispatch>, unknown: seq<Ref>)
    requires Settled(indices, queued, dispatches, unknown)
    ensures forall r :: Handled(dispatches, unknown, r) <==> r in queued
  {
  }
}
