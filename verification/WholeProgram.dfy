/** The fixed point over all modules: references that modules forward are routed to the modules that declare them and
    lowered there, until no module forwards anything new. */
module WholeProgram {
  import opened Collections
  import opened Options
  import opened ForeignRouting
  import X = Fixpoint

  /** One world and one state for each module. */
  type Worlds = seq<X.World>
  type States = seq<X.State>

  /** Every module has its own position. */
  ghost predicate Indexed(ws: Worlds, indices: Indices) {
    && (forall u | u in indices :: indices[u] < |ws| && ws[indices[u]].inst.unit == u)
    && (forall i | 0 <= i < |ws| :: ws[i].inst.unit in indices && indices[ws[i].inst.unit] == i)
  }

  ghost predicate SameUnit(ws: Worlds) {
    exists i, j | 0 <= i < j < |ws| :: ws[i].inst.unit == ws[j].inst.unit
  }

  /** The positions of modules, unless two of them are the same module. */
  method ModuleIndices(ws: Worlds) returns (indices: Option<Indices>)
    ensures indices.None? <==> SameUnit(ws)
    ensures indices.Some? ==> Indexed(ws, indices.value)
  {
    var found: Indices := map[];
    for i := 0 to |ws|
      invariant Indexed(ws[..i], found)
    {
      var unit := ws[i].inst.unit;
      if unit in found {
        assert ws[found[unit]].inst.unit == unit;
        return None;
      }
      found := found[unit := i];
      assert forall j | 0 <= j < i :: ws[..i + 1][j] == ws[..i][j];
    }
    assert ws[..|ws|] == ws;
    return Some(found);
  }

  ghost predicate AllClosed(ws: Worlds, states: States) {
    |states| == |ws| && forall i | 0 <= i < |ws| :: X.Closed(ws[i], states[i])
  }

  ghost predicate AllGained(before: States, after: States) {
    |before| == |after| && forall i | 0 <= i < |before| :: X.Gained(before[i], after[i])
  }

  /** Some module forwards the reference. */
  ghost predicate Sent(states: States, r: Ref) {
    exists i | 0 <= i < |states| :: r in states[i].foreign
  }

  /** The module that declares the reference accounts for it. */
  ghost predicate Arrived(ws: Worlds, indices: Indices, states: States, r: Ref)
    requires Indexed(ws, indices) && |states| == |ws|
  {
    X.UnitOf(r) in indices ==> var o := indices[X.UnitOf(r)]; X.Accounted(ws[o], states[o], r)
  }

  /** Room left in all modules together. */
  ghost function TotalRoom(ws: Worlds, states: States): nat
    requires |ws| == |states|
  {
    if ws == [] then 0
    else TotalRoom(ws[..|ws| - 1], states[..|ws| - 1]) + X.Room(ws[|ws| - 1], states[|ws| - 1])
  }

  lemma {:induction false} RoomOfOne(ws: Worlds, states: States, o: nat, t: X.State)
    requires o < |ws| == |states|
    ensures TotalRoom(ws, states[o := t]) + X.Room(ws[o], states[o]) == TotalRoom(ws, states) + X.Room(ws[o], t)
  {
    var n := |ws| - 1;
    if o < n {
      RoomOfOne(ws[..n], states[..n], o, t);
      assert states[o := t][..n] == states[..n][o := t];
    } else {
      assert states[o := t][..n] == states[..n];
    }
  }

  // ---------------------------------------------------------------------------------------------------------------
  // Provenance across modules.

  ghost predicate Link(ws: Worlds, states: States, x: Ref, y: Ref) {
    exists o | 0 <= o < |ws| && o < |states| :: X.Link(ws[o], states[o], x, y)
  }

  ghost predicate Path(ws: Worlds, states: States, roots: iset<Ref>, p: seq<Ref>) {
    p != [] && p[0] in roots && forall i | 0 < i < |p| :: Link(ws, states, p[i - 1], p[i])
  }

  /** A chain of references through materialized items of any modules leads from the roots to `x`. */
  ghost predicate Reachable(ws: Worlds, states: States, roots: iset<Ref>, x: Ref) {
    exists p :: Path(ws, states, roots, p) && p[|p| - 1] == x
  }

  ghost predicate Wanted(ws: Worlds, states: States, roots: iset<Ref>, w: X.World, x: Ref) {
    exists r :: Reachable(ws, states, roots, r) && X.Target(w, r) == x
  }

  /** Everything the modules have now and did not have at first was asked for. */
  ghost predicate Sourced(ws: Worlds, roots: iset<Ref>, initial: States, states: States)
    requires |initial| == |states| == |ws|
  {
    forall o | 0 <= o < |ws| :: ModuleSourced(ws, roots, states, ws[o], initial[o], states[o])
  }

  ghost predicate ModuleSourced(
    ws: Worlds, roots: iset<Ref>, states: States, w: X.World, before: X.State, after: X.State) {
    && (forall x | X.Materialized(after, x) && !X.Materialized(before, x) :: Wanted(ws, states, roots, w, x))
    && (forall x | x in after.foreign :: x in before.foreign || Reachable(ws, states, roots, x))
    && (forall i | |before.vtables| <= i < |after.vtables| :: X.InUse(w, after, after.vtables[i]))
  }

  /** What the modules forward at first. */
  ghost function Roots(states: States): iset<Ref> {
    iset r | Sent(states, r)
  }

  lemma {:induction false} RootIsReachable(ws: Worlds, states: States, roots: iset<Ref>, x: Ref)
    requires x in roots
    ensures Reachable(ws, states, roots, x)
  {
    assert Path(ws, states, roots, [x]);
  }

  /** A path inside one module goes on from a reachable reference. */
  lemma {:induction false} GoesOn(
    ws: Worlds, states: States, roots: iset<Ref>, o: nat, sent: iset<Ref>, p: seq<Ref>)
    requires o < |ws| == |states| && X.Path(ws[o], states[o], sent, p) && Reachable(ws, states, roots, p[0])
    ensures Reachable(ws, states, roots, p[|p| - 1])
    decreases |p|
  {
    if |p| > 1 {
      var init := p[..|p| - 1];
      assert X.Path(ws[o], states[o], sent, init);
      GoesOn(ws, states, roots, o, sent, init);
      var q :| Path(ws, states, roots, q) && q[|q| - 1] == init[|init| - 1];
      assert X.Link(ws[o], states[o], p[|p| - 2], p[|p| - 1]);
      assert Path(ws, states, roots, q + [p[|p| - 1]]);
    }
  }

  lemma {:induction false} LocalIsReachable(
    ws: Worlds, states: States, roots: iset<Ref>, o: nat, sent: iset<Ref>, x: Ref)
    requires o < |ws| == |states| && X.Reachable(ws[o], states[o], sent, x)
    requires forall r | r in sent :: Reachable(ws, states, roots, r)
    ensures Reachable(ws, states, roots, x)
  {
    var p :| X.Path(ws[o], states[o], sent, p) && p[|p| - 1] == x;
    GoesOn(ws, states, roots, o, sent, p);
  }

  lemma {:induction false} StaysReachable(
    ws: Worlds, states: States, roots: iset<Ref>, o: nat, t: X.State, x: Ref)
    requires o < |ws| == |states| && X.Gained(states[o], t) && Reachable(ws, states, roots, x)
    ensures Reachable(ws, states[o := t], roots, x)
  {
    var p :| Path(ws, states, roots, p) && p[|p| - 1] == x;
    forall i | 0 < i < |p| ensures Link(ws, states[o := t], p[i - 1], p[i]) {
      assert Link(ws, states, p[i - 1], p[i]);
      var k :| 0 <= k < |ws| && X.Link(ws[k], states[k], p[i - 1], p[i]);
      assert X.Link(ws[k], states[o := t][k], p[i - 1], p[i]);
    }
  }

  lemma {:induction false} StaysWanted(
    ws: Worlds, states: States, roots: iset<Ref>, o: nat, t: X.State, w: X.World, x: Ref)
    requires o < |ws| == |states| && X.Gained(states[o], t) && Wanted(ws, states, roots, w, x)
    ensures Wanted(ws, states[o := t], roots, w, x)
  {
    var r :| Reachable(ws, states, roots, r) && X.Target(w, r) == x;
    StaysReachable(ws, states, roots, o, t, r);
  }

  lemma {:induction false} OthersStaySourced(
    ws: Worlds, states: States, roots: iset<Ref>, o: nat, t: X.State, w: X.World, before: X.State, after: X.State)
    requires o < |ws| == |states| && X.Gained(states[o], t)
    requires ModuleSourced(ws, roots, states, w, before, after)
    ensures ModuleSourced(ws, roots, states[o := t], w, before, after)
  {
    forall x | X.Materialized(after, x) && !X.Materialized(before, x)
      ensures Wanted(ws, states[o := t], roots, w, x)
    {
      StaysWanted(ws, states, roots, o, t, w, x);
    }
    forall x | x in after.foreign ensures x in before.foreign || Reachable(ws, states[o := t], roots, x) {
      if x !in before.foreign {
        StaysReachable(ws, states, roots, o, t, x);
      }
    }
  }

  /** A module resumed with reachable references stays sourced. */
  lemma {:induction false} ResumedIsSourced(
    ws: Worlds, states: States, roots: iset<Ref>, o: nat, before: X.State, t: X.State, sent: iset<Ref>)
    requires o < |ws| == |states| && X.Gained(states[o], t) && X.Sourced(ws[o], sent, states[o], t)
    requires before.vtables <= states[o].vtables
    requires ModuleSourced(ws, roots, states, ws[o], before, states[o])
    requires forall r | r in sent :: Reachable(ws, states, roots, r)
    ensures ModuleSourced(ws, roots, states[o := t], ws[o], before, t)
  {
    var after := states[o := t];
    OthersStaySourced(ws, states, roots, o, t, ws[o], before, states[o]);
    forall r | r in sent ensures Reachable(ws, after, roots, r) {
      StaysReachable(ws, states, roots, o, t, r);
    }
    forall x | X.Materialized(t, x) && !X.Materialized(before, x) ensures Wanted(ws, after, roots, ws[o], x) {
      if !X.Materialized(states[o], x) {
        NewIsWanted(ws, after, roots, o, sent, x);
      }
    }
    forall x | x in t.foreign ensures x in before.foreign || Reachable(ws, after, roots, x) {
      if x !in states[o].foreign {
        var i := NewComesLater(states[o].foreign, t.foreign, x);
        LocalIsReachable(ws, after, roots, o, sent, x);
      }
    }
    VtablesStayInUse(ws[o], before, states[o], t);
  }

  lemma {:induction false} NewIsWanted(
    ws: Worlds, states: States, roots: iset<Ref>, o: nat, sent: iset<Ref>, x: Ref)
    requires o < |ws| == |states| && X.Wanted(ws[o], states[o], sent, x)
    requires forall r | r in sent :: Reachable(ws, states, roots, r)
    ensures Wanted(ws, states, roots, ws[o], x)
  {
    var r :| X.Reachable(ws[o], states[o], sent, r) && X.Target(ws[o], r) == x;
    LocalIsReachable(ws, states, roots, o, sent, r);
  }

  lemma {:induction false} VtablesStayInUse(w: X.World, before: X.State, s: X.State, t: X.State)
    requires before.vtables <= s.vtables && X.Gained(s, t)
    requires forall i | |before.vtables| <= i < |s.vtables| :: X.InUse(w, s, s.vtables[i])
    requires forall i | |s.vtables| <= i < |t.vtables| :: X.InUse(w, t, t.vtables[i])
    ensures forall i | |before.vtables| <= i < |t.vtables| :: X.InUse(w, t, t.vtables[i])
  {
    forall i | |before.vtables| <= i < |t.vtables| ensures X.InUse(w, t, t.vtables[i]) {
      if i < |s.vtables| {
        assert X.InUse(w, s, s.vtables[i]);
        var x :| X.Materialized(s, x) && X.UsesVtable(w, x, s.vtables[i]);
        assert X.Materialized(t, x);
      }
    }
  }

  // ---------------------------------------------------------------------------------------------------------------
  // One batch.

  /** References of one kind to items of one module. */
  ghost predicate Addressed(w: X.World, b: Batch) {
    forall r | r in b.refs :: SortOf(r) == b.sort && X.UnitOf(r) == w.inst.unit
  }

  /** The module accounts for the batch; it used room, or it forwarded nothing but functions and function instances
      that global instances refer to. */
  ghost predicate Lowered(w: X.World, s: X.State, b: Batch, t: X.State) {
    && X.Closed(w, t) && X.AllAccounted(w, t, SetOf(b.refs)) && X.Gained(s, t)
    && X.Sourced(w, X.Sent(b.refs), s, t)
    && X.Room(w, t) <= X.Room(w, s)
    && (X.Room(w, t) == X.Room(w, s) ==>
          forall x | x in X.Forwarded(s, t) :: b.sort == GlobalInstance && SortOf(x) != GlobalInstance)
  }

  function Defs(refs: seq<Ref>): seq<X.I.Def>
    requires forall r | r in refs :: r.Function?
  {
    seq(|refs|, i requires 0 <= i < |refs| => refs[i].def)
  }

  function Keys(refs: seq<Ref>): seq<X.I.Key>
    requires forall r | r in refs :: !r.Function?
  {
    seq(|refs|, i requires 0 <= i < |refs| => refs[i].key)
  }

  /** References of the batch belong to the module, so it forwards none of them. */
  lemma {:induction false} ModestIsLowered(w: X.World, s: X.State, b: Batch, t: X.State, loose: iset<Ref>)
    requires Addressed(w, b) && X.Closed(w, t) && X.AllAccounted(w, t, SetOf(b.refs)) && X.Gained(s, t)
    requires X.Sourced(w, X.Sent(b.refs), s, t) && X.Modest(w, s, t, loose)
    requires loose == X.Sent(b.refs) || (b.sort == GlobalInstance && loose == X.SentOrOther(b.refs))
    ensures Lowered(w, s, b, t)
  {
  }

  method LowerBatch(w: X.World, s: X.State, b: Batch) returns (t: X.State)
    requires X.Closed(w, s) && Addressed(w, b)
    ensures Lowered(w, s, b, t)
  {
    match b.sort
    case Function => t := LowerFunctions(w, s, b);
    case FunctionInstance => t := LowerInstances(w, s, b);
    case GlobalInstance => t := LowerGlobals(w, s, b);
  }

  /** The references of a batch of functions, of function instances or of global instances. */
  lemma {:induction false} RefsOfSortAre(w: X.World, b: Batch)
    requires Addressed(w, b)
    ensures b.sort == Function ==> (forall r | r in b.refs :: r.Function?) && X.AsFunctions(Defs(b.refs)) == b.refs
    ensures b.sort != Function ==> forall r | r in b.refs :: !r.Function?
    ensures b.sort == FunctionInstance ==> X.AsInstances(Keys(b.refs)) == b.refs
    ensures b.sort == GlobalInstance ==> X.AsGlobals(Keys(b.refs)) == b.refs
  {
    assert forall i | 0 <= i < |b.refs| :: b.refs[i] in b.refs && SortOf(b.refs[i]) == b.sort;
  }

  method LowerFunctions(w: X.World, s: X.State, b: Batch) returns (t: X.State)
    requires X.Closed(w, s) && Addressed(w, b) && b.sort == Function
    ensures Lowered(w, s, b, t)
  {
    RefsOfSortAre(w, b);
    t := X.LowerAdditionalFunctions(w, s, Defs(b.refs));
    ModestIsLowered(w, s, b, t, X.Sent(b.refs));
  }

  method LowerInstances(w: X.World, s: X.State, b: Batch) returns (t: X.State)
    requires X.Closed(w, s) && Addressed(w, b) && b.sort == FunctionInstance
    ensures Lowered(w, s, b, t)
  {
    RefsOfSortAre(w, b);
    t := X.LowerAdditionalInstances(w, s, Keys(b.refs));
    ModestIsLowered(w, s, b, t, X.Sent(b.refs));
  }

  method LowerGlobals(w: X.World, s: X.State, b: Batch) returns (t: X.State)
    requires X.Closed(w, s) && Addressed(w, b) && b.sort == GlobalInstance
    ensures Lowered(w, s, b, t)
  {
    RefsOfSortAre(w, b);
    t := X.LowerAdditionalGlobals(w, s, Keys(b.refs));
    ModestIsLowered(w, s, b, t, X.SentOrOther(b.refs));
  }

  lemma {:induction false} SentByOneMore(states: States, o: nat, t: X.State, r: Ref)
    requires o < |states| && X.Gained(states[o], t)
    ensures Sent(states[o := t], r) <==> Sent(states, r) || r in X.Forwarded(states[o], t)
  {
    var after := states[o := t];
    assert t.foreign == states[o].foreign + X.Forwarded(states[o], t);
    if Sent(states, r) {
      var i :| 0 <= i < |states| && r in states[i].foreign;
      assert r in after[i].foreign;
    }
    if r in X.Forwarded(states[o], t) {
      assert r in after[o].foreign;
    }
    if Sent(after, r) && !Sent(states, r) {
      var i :| 0 <= i < |after| && r in after[i].foreign;
      assert i != o ==> r in states[i].foreign;
    }
  }

  lemma {:induction false} StaysArrived(ws: Worlds, indices: Indices, states: States, o: nat, t: X.State, r: Ref)
    requires Indexed(ws, indices) && o < |ws| == |states| && X.Gained(states[o], t)
    requires Arrived(ws, indices, states, r)
    ensures Arrived(ws, indices, states[o := t], r)
  {
    X.StillAccounted(ws[o], states[o], t);
  }

  // ---------------------------------------------------------------------------------------------------------------
  // One round.

  /** What holds between two batches: modules are closed and grew, what they forward is known or waiting, nothing else
      is, and everything was asked for. */
  ghost predicate Valid(ws: Worlds, initial: States, states: States, p: Pending) {
    && AllClosed(ws, states) && AllGained(initial, states)
    && WellSorted(p)
    && (forall r :: r in p.queued || r in AllWaiting(p) <==> Sent(states, r))
    && Sourced(ws, Roots(initial), initial, states)
  }

  /** Room was used, or what is waiting was revealed by global instances. */
  ghost predicate Quiet(ws: Worlds, start: States, states: States, p: Pending, batches: seq<Batch>)
    requires |start| == |states| == |ws|
  {
    && TotalRoom(ws, states) <= TotalRoom(ws, start)
    && (TotalRoom(ws, states) == TotalRoom(ws, start) ==>
          forall r | r in AllWaiting(p) :: SortOf(r) != GlobalInstance && HasGlobals(batches))
  }

  ghost predicate HasGlobals(batches: seq<Batch>) {
    exists i | 0 <= i < |batches| :: batches[i].sort == GlobalInstance
  }

  ghost predicate AllArrived(ws: Worlds, indices: Indices, states: States, known: set<Ref>, batches: seq<Batch>)
    requires Indexed(ws, indices) && |states| == |ws|
  {
    forall r | r in known || InBatches(batches, r) :: Arrived(ws, indices, states, r)
  }

  lemma {:induction false} SentIsReachable(ws: Worlds, initial: States, states: States, r: Ref)
    requires |initial| == |states| == |ws| && Sourced(ws, Roots(initial), initial, states) && Sent(states, r)
    ensures Reachable(ws, states, Roots(initial), r)
  {
    var i :| 0 <= i < |states| && r in states[i].foreign;
    assert ModuleSourced(ws, Roots(initial), states, ws[i], initial[i], states[i]);
    if r in initial[i].foreign {
      RootIsReachable(ws, states, Roots(initial), r);
    }
  }

  lemma {:induction false} StaysSourced(
    ws: Worlds, initial: States, states: States, o: nat, b: Batch, t: X.State)
    requires |initial| == |states| == |ws| && o < |ws| && Lowered(ws[o], states[o], b, t)
    requires AllGained(initial, states) && Sourced(ws, Roots(initial), initial, states)
    requires forall r | r in b.refs :: Sent(states, r)
    ensures Sourced(ws, Roots(initial), initial, states[o := t])
  {
    var roots, after := Roots(initial), states[o := t];
    forall r | r in X.Sent(b.refs) ensures Reachable(ws, states, roots, r) {
      SentIsReachable(ws, initial, states, r);
    }
    forall i | 0 <= i < |ws| ensures ModuleSourced(ws, roots, after, ws[i], initial[i], after[i]) {
      assert ModuleSourced(ws, roots, states, ws[i], initial[i], states[i]);
      if i == o {
        ResumedIsSourced(ws, states, roots, o, initial[o], t, X.Sent(b.refs));
      } else {
        OthersStaySourced(ws, states, roots, o, t, ws[i], initial[i], states[i]);
      }
    }
  }

  /** A batch was lowered and what it revealed is waiting. */
  lemma {:induction false} StaysValid(
    ws: Worlds, initial: States, states: States, p: Pending, o: nat, b: Batch, t: X.State, q: Pending)
    requires Valid(ws, initial, states, p) && o < |ws| && Lowered(ws[o], states[o], b, t)
    requires forall r | r in b.refs :: Sent(states, r)
    requires q.queued == p.queued && WellSorted(q)
    requires forall r :: r in AllWaiting(q) <==> r in AllWaiting(p) || r in X.Forwarded(states[o], t)
    ensures Valid(ws, initial, states[o := t], q)
  {
    StaysSourced(ws, initial, states, o, b, t);
    forall r ensures r in q.queued || r in AllWaiting(q) <==> Sent(states[o := t], r) {
      SentByOneMore(states, o, t, r);
    }
    assert X.Gained(initial[o], t);
  }

  lemma {:induction false} StaysQuiet(
    ws: Worlds, start: States, states: States, p: Pending, batches: seq<Batch>, i: nat, t: X.State, q: Pending)
    requires |start| == |states| == |ws| && i < |batches| && batches[i].owner < |ws|
    requires Quiet(ws, start, states, p, batches[..i])
    requires var o := batches[i].owner;
      && Lowered(ws[o], states[o], batches[i], t)
      && forall r :: r in AllWaiting(q) <==> r in AllWaiting(p) || r in X.Forwarded(states[o], t)
    ensures Quiet(ws, start, states[batches[i].owner := t], q, batches[..i + 1])
  {
    RoomOfOne(ws, states, batches[i].owner, t);
    if HasGlobals(batches[..i]) {
      var j :| 0 <= j < i && batches[..i][j].sort == GlobalInstance;
      assert batches[..i + 1][j].sort == GlobalInstance;
    }
    if batches[i].sort == GlobalInstance {
      assert batches[..i + 1][i].sort == GlobalInstance;
    }
  }

  lemma {:induction false} MoreArrived(
    ws: Worlds, indices: Indices, states: States, known: set<Ref>, batches: seq<Batch>, i: nat, t: X.State)
    requires Indexed(ws, indices) && |states| == |ws| && i < |batches| && batches[i].owner < |ws|
    requires AllArrived(ws, indices, states, known, batches[..i])
    requires Lowered(ws[batches[i].owner], states[batches[i].owner], batches[i], t)
    requires forall r | r in batches[i].refs :: X.UnitOf(r) in indices && indices[X.UnitOf(r)] == batches[i].owner
    ensures AllArrived(ws, indices, states[batches[i].owner := t], known, batches[..i + 1])
  {
    OneMoreBatch(known, batches, i);
    forall r | r in known || InBatches(batches[..i + 1], r)
      ensures Arrived(ws, indices, states[batches[i].owner := t], r)
    {
      if r in batches[i].refs {
        ArrivesNow(ws, indices, states, batches[i], t, r);
      } else {
        StaysArrived(ws, indices, states, batches[i].owner, t, r);
      }
    }
  }

  lemma {:induction false} ArrivesNow(
    ws: Worlds, indices: Indices, states: States, b: Batch, t: X.State, r: Ref)
    requires Indexed(ws, indices) && |states| == |ws| && b.owner < |ws| && Lowered(ws[b.owner], states[b.owner], b, t)
    requires r in b.refs && X.UnitOf(r) in indices && indices[X.UnitOf(r)] == b.owner
    ensures Arrived(ws, indices, states[b.owner := t], r)
  {
    assert r in SetOf(b.refs);
  }

  /** Lowers one batch at its owner and queues what that reveals. */
  method HandOne(ws: Worlds, indices: Indices, states: States, b: Batch, p: Pending, ghost initial: States)
    returns (states': States, q: Pending, ghost t: X.State)
    requires Indexed(ws, indices) && Valid(ws, initial, states, p)
    requires Proper(indices, {}, b) && forall r | r in b.refs :: Sent(states, r)
    ensures b.owner < |ws| && Lowered(ws[b.owner], states[b.owner], b, t) && states' == states[b.owner := t]
    ensures q.queued == p.queued && Valid(ws, initial, states', q)
    ensures forall r :: r in AllWaiting(q) <==> r in AllWaiting(p) || r in X.Forwarded(states[b.owner], t)
  {
    assert b.refs[0] in b.refs;
    var o := b.owner;
    var lowered := LowerBatch(ws[o], states[o], b);
    t := lowered;
    states' := states[o := lowered];
    q := Extend(p, X.Forwarded(states[o], lowered));
    StaysValid(ws, initial, states, p, o, b, lowered, q);
  }

  /** What holds after the batches of a round were handed over. */
  ghost predicate Handed(
    ws: Worlds, indices: Indices, initial: States, start: States, states: States, known: set<Ref>, p: Pending,
    q: Pending, batches: seq<Batch>)
    requires Indexed(ws, indices) && |start| == |ws|
  {
    && q.queued == p.queued && Valid(ws, initial, states, q)
    && Quiet(ws, start, states, q, batches)
    && AllArrived(ws, indices, states, known, batches)
    && (forall r | Sent(start, r) :: Sent(states, r))
  }

  /** Hands over batch `i`. */
  method HandNext(
    ws: Worlds, indices: Indices, batches: seq<Batch>, i: nat, states: States, q: Pending, ghost initial: States,
    ghost start: States, ghost p: Pending, ghost known: set<Ref>, ghost waiting: seq<Ref>, ghost news: seq<Ref>)
    returns (states': States, q': Pending)
    requires Indexed(ws, indices) && |start| == |ws| && i < |batches|
    requires Planned(indices, known, waiting, batches, news) && forall r | r in waiting :: Sent(start, r)
    requires Handed(ws, indices, initial, start, states, known, p, q, batches[..i])
    ensures Handed(ws, indices, initial, start, states', known, p, q', batches[..i + 1])
  {
    var b := batches[i];
    assert Proper(indices, known, b);
    ghost var t;
    states', q', t := HandOne(ws, indices, states, b, q, initial);
    StaysQuiet(ws, start, states, q, batches, i, t, q');
    MoreArrived(ws, indices, states, known, batches, i, t);
    forall r | Sent(start, r) ensures Sent(states', r) {
      SentByOneMore(states, b.owner, t, r);
    }
  }

  /** Hands over every batch in turn. */
  method HandOver(
    ws: Worlds, indices: Indices, batches: seq<Batch>, start: States, p: Pending, dispatches: seq<Dispatch>,
    ghost initial: States, ghost known: set<Ref>, ghost waiting: seq<Ref>, ghost unknown: seq<Ref>,
    ghost news: seq<Ref>)
    returns (states: States, q: Pending, dispatches': seq<Dispatch>)
    requires Indexed(ws, indices) && |start| == |ws| && Valid(ws, initial, start, p) && AllWaiting(p) == []
    requires Planned(indices, known, waiting, batches, news) && Sound(indices, known, dispatches, unknown)
    requires forall r | r in waiting :: Sent(start, r)
    requires forall r | r in known :: Arrived(ws, indices, start, r)
    ensures Handed(ws, indices, initial, start, states, known, p, q, batches)
    ensures Handing(indices, known, batches, dispatches, dispatches', unknown)
  {
    states, q, dispatches' := start, p, dispatches;
    for i := 0 to |batches|
      invariant Handed(ws, indices, initial, start, states, known, p, q, batches[..i])
      invariant Handing(indices, known, batches[..i], dispatches, dispatches', unknown)
    {
      NextBatch(indices, known, waiting, batches, news, i, dispatches, dispatches', unknown);
      states, q := HandNext(ws, indices, batches, i, states, q, initial, start, p, known, waiting, news);
      dispatches' := dispatches' + DispatchesOf(batches[i]);
    }
    assert batches[..|batches|] == batches;
  }

  // ---------------------------------------------------------------------------------------------------------------
  // The run.

  /** A reference is accounted for by the module that declares it, or reported if there is none. */
  ghost predicate Resolved(ws: Worlds, indices: Indices, states: States, unknown: seq<Ref>, r: Ref)
    requires Indexed(ws, indices) && |states| == |ws|
  {
    if X.UnitOf(r) in indices then Arrived(ws, indices, states, r) else r in unknown
  }

  /** Whatever the module refers to is planned elsewhere already or resolved. */
  ghost predicate ModuleResolved(
    ws: Worlds, indices: Indices, states: States, unknown: seq<Ref>, w: X.World, s: X.State)
    requires Indexed(ws, indices) && |states| == |ws|
  {
    && (forall x, r | X.Materialized(s, x) && X.Uses(w, x, r) ::
          Preplanned(w, r) || Resolved(ws, indices, states, unknown, r))
    && (forall x, v | X.Materialized(s, x) && X.UsesVtable(w, x, v) :: X.HasVtable(s, v.key))
    && (forall i, r | 0 <= i < |s.vtables| && r in s.vtables[i].entries ::
          Preplanned(w, r) || Resolved(ws, indices, states, unknown, r))
  }

  ghost predicate Preplanned(w: X.World, r: Ref) {
    r.Function? && r.def.unit != w.inst.unit && w.preplanned(r.def)
  }

  lemma {:induction false} AccountedIsResolved(
    ws: Worlds, indices: Indices, states: States, unknown: seq<Ref>, i: nat, r: Ref)
    requires Indexed(ws, indices) && AllClosed(ws, states) && i < |ws| && X.Accounted(ws[i], states[i], r)
    requires forall q | Sent(states, q) :: Resolved(ws, indices, states, unknown, q)
    ensures Preplanned(ws[i], r) || Resolved(ws, indices, states, unknown, r)
  {
    if r in states[i].foreign {
      assert Sent(states, r);
    } else if r.Function? && r.def in states[i].functions {
      assert X.Materialized(states[i], r);
    }
  }

  lemma {:induction false} ClosedIsResolved(
    ws: Worlds, indices: Indices, states: States, unknown: seq<Ref>, i: nat)
    requires Indexed(ws, indices) && AllClosed(ws, states) && i < |ws|
    requires forall q | Sent(states, q) :: Resolved(ws, indices, states, unknown, q)
    ensures ModuleResolved(ws, indices, states, unknown, ws[i], states[i])
  {
    var w, s := ws[i], states[i];
    forall x, r | X.Materialized(s, x) && X.Uses(w, x, r)
      ensures Preplanned(w, r) || Resolved(ws, indices, states, unknown, r)
    {
      assert X.BodyCovered(w, s, x);
      AccountedIsResolved(ws, indices, states, unknown, i, r);
    }
    forall x, v | X.Materialized(s, x) && X.UsesVtable(w, x, v) ensures X.HasVtable(s, v.key) {
      assert X.BodyCovered(w, s, x);
    }
    forall k, r | 0 <= k < |s.vtables| && r in s.vtables[k].entries
      ensures Preplanned(w, r) || Resolved(ws, indices, states, unknown, r)
    {
      AccountedIsResolved(ws, indices, states, unknown, i, r);
    }
  }

  /** Adds what every module forwards. */
  method Gather(states: States) returns (p: Pending)
    ensures p.queued == {} && WellSorted(p) && forall r :: r in AllWaiting(p) <==> Sent(states, r)
  {
    p := Pending([], [], [], {});
    for i := 0 to |states|
      invariant p.queued == {} && WellSorted(p) && forall r :: r in AllWaiting(p) <==> Sent(states[..i], r)
    {
      p := Extend(p, states[i].foreign);
      forall r ensures Sent(states[..i + 1], r) <==> Sent(states[..i], r) || r in states[i].foreign {
        SentInPrefix(states, i, r);
      }
    }
    assert states[..|states|] == states;
  }

  lemma {:induction false} SentInPrefix(states: States, i: nat, r: Ref)
    requires i < |states|
    ensures Sent(states[..i + 1], r) <==> Sent(states[..i], r) || r in states[i].foreign
  {
    if Sent(states[..i], r) {
      var j :| 0 <= j < i && r in states[..i][j].foreign;
      assert r in states[..i + 1][j].foreign;
    }
    if r in states[i].foreign {
      assert r in states[..i + 1][i].foreign;
    }
    if Sent(states[..i + 1], r) {
      var j :| 0 <= j < i + 1 && r in states[..i + 1][j].foreign;
      assert j < i ==> r in states[..i][j].foreign;
    }
  }

  lemma {:induction false} StartIsValid(ws: Worlds, initial: States, p: Pending)
    requires AllClosed(ws, initial) && p.queued == {} && WellSorted(p)
    requires forall r :: r in AllWaiting(p) <==> Sent(initial, r)
    ensures Valid(ws, initial, initial, p)
  {
  }

  lemma {:induction false} NothingWaiting(ws: Worlds, initial: States, states: States, p: Pending, drained: Pending)
    requires Valid(ws, initial, states, p) && drained == Pending([], [], [], p.queued + SetOf(AllWaiting(p)))
    ensures Valid(ws, initial, states, drained) && AllWaiting(drained) == []
    ensures forall r | r in AllWaiting(p) :: Sent(states, r)
  {
    assert AllWaiting(drained) == [];
  }

  /** After a round, what it took up has arrived. */
  lemma {:induction false} RoundArrives(
    ws: Worlds, indices: Indices, states: States, known: set<Ref>, waiting: seq<Ref>, batches: seq<Batch>,
    news: seq<Ref>)
    requires Indexed(ws, indices) && |states| == |ws| && Planned(indices, known, waiting, batches, news)
    requires AllArrived(ws, indices, states, known, batches)
    ensures forall r | r in known + SetOf(waiting) :: Arrived(ws, indices, states, r)
  {
    forall r | r in known + SetOf(waiting) ensures Arrived(ws, indices, states, r) {
      if r !in known && X.UnitOf(r) in indices {
        assert InBatches(batches, r);
      }
    }
  }

  lemma {:induction false} NoGlobalBatch(
    indices: Indices, known: set<Ref>, before: Pending, batches: seq<Batch>, news: seq<Ref>)
    requires WellSorted(before) && before.globals == []
    requires Planned(indices, known, AllWaiting(before), batches, news)
    ensures !HasGlobals(batches)
  {
    forall i | 0 <= i < |batches| ensures batches[i].sort != GlobalInstance {
      assert Proper(indices, known, batches[i]);
      var r := batches[i].refs[0];
      assert r in batches[i].refs;
      assert r in AllWaiting(before);
      assert r in before.functions || r in before.instances;
    }
  }

  /** A round that used no room leaves no global instance waiting, and nothing if none was waiting before. */
  lemma {:induction false} RoundShrinks(
    ws: Worlds, indices: Indices, start: States, states: States, before: Pending, batches: seq<Batch>, news: seq<Ref>,
    p: Pending)
    requires |start| == |states| == |ws| && WellSorted(before) && WellSorted(p)
    requires Planned(indices, before.queued, AllWaiting(before), batches, news)
    requires Quiet(ws, start, states, p, batches)
    ensures TotalRoom(ws, states) <= TotalRoom(ws, start)
    ensures TotalRoom(ws, states) == TotalRoom(ws, start) ==>
      p.globals == [] && (before.globals == [] ==> Waiting(p) == 0)
  {
    assert p.globals != [] ==> p.globals[0] in p.globals && p.globals[0] in AllWaiting(p);
    assert Waiting(p) != 0 ==> AllWaiting(p)[0] in AllWaiting(p);
    if before.globals == [] {
      NoGlobalBatch(indices, before.queued, before, batches, news);
    }
  }

  lemma {:induction false} SentIsResolved(
    ws: Worlds, indices: Indices, states: States, queued: set<Ref>, dispatches: seq<Dispatch>, unknown: seq<Ref>,
    r: Ref)
    requires Indexed(ws, indices) && |states| == |ws| && Settled(indices, queued, dispatches, unknown) && r in queued
    requires Arrived(ws, indices, states, r)
    ensures Resolved(ws, indices, states, unknown, r)
  {
    if Dispatched(dispatches, r) {
      var i :| 0 <= i < |dispatches| && dispatches[i].ref == r;
    }
  }

  /** Routes references until no module forwards anything new. Every key is handed over once, to the module that
      declares it; a key of a module outside the plan is reported once; these are exactly the keys that some module
      forwards. In the end every reference of every module is accounted for where it is declared, and nothing was
      materialized without a chain of references. Ends for every program. */
  method Route(ws: Worlds, indices: Indices, initial: States)
    returns (states: States, dispatches: seq<Dispatch>, unknown: seq<Ref>)
    requires Indexed(ws, indices) && AllClosed(ws, initial)
    ensures AllClosed(ws, states) && AllGained(initial, states)
    ensures forall i, j | 0 <= i < j < |dispatches| :: dispatches[i].ref != dispatches[j].ref
    ensures forall i | 0 <= i < |dispatches| ::
      X.UnitOf(dispatches[i].ref) in indices && indices[X.UnitOf(dispatches[i].ref)] == dispatches[i].owner
    ensures Distinct(unknown) && forall r | r in unknown :: X.UnitOf(r) !in indices
    ensures forall r :: Handled(dispatches, unknown, r) <==> Sent(states, r)
    ensures forall r | Sent(states, r) :: Resolved(ws, indices, states, unknown, r)
    ensures forall i | 0 <= i < |ws| :: ModuleResolved(ws, indices, states, unknown, ws[i], states[i])
    ensures Sourced(ws, Roots(initial), initial, states)
  {
    states, dispatches, unknown := initial, [], [];
    var p := Gather(initial);
    StartIsValid(ws, initial, p);
    while Waiting(p) != 0
      invariant Valid(ws, initial, states, p) && Settled(indices, p.queued, dispatches, unknown)
      invariant forall r | r in p.queued :: Arrived(ws, indices, states, r)
      decreases TotalRoom(ws, states), p.globals != [], Waiting(p) != 0
    {
      ghost var known, waiting, earlier, start, before := p.queued, AllWaiting(p), dispatches, states, p;
      var batches, news, drained := DrainPlan(indices, |ws|, p);
      NothingWaiting(ws, initial, states, p, drained);
      states, p, dispatches :=
        HandOver(ws, indices, batches, states, drained, dispatches, initial, known, waiting, unknown, news);
      RoundSettles(indices, known, waiting, batches, news, earlier, dispatches, unknown);
      RoundArrives(ws, indices, states, known, waiting, batches, news);
      RoundShrinks(ws, indices, start, states, before, batches, news, p);
      unknown := unknown + news;
    }
    assert AllWaiting(p) == [];
    HandledIsQueued(indices, p.queued, dispatches, unknown);
    forall r | Sent(states, r) ensures Resolved(ws, indices, states, unknown, r) {
      SentIsResolved(ws, indices, states, p.queued, dispatches, unknown, r);
    }
    forall i | 0 <= i < |ws| ensures ModuleResolved(ws, indices, states, unknown, ws[i], states[i]) {
      ClosedIsResolved(ws, indices, states, unknown, i);
    }
  }

  // ---------------------------------------------------------------------------------------------------------------
  // The whole program from its roots.

  /** Nothing is materialized or forwarded yet, and what is queued is pending. */
  ghost predicate Fresh(s: X.State) {
    && s.functions == [] && s.instances == [] && s.globals == [] && s.vtables == []
    && forall x | x in s.queued :: X.Pending(s, x)
  }

  /** Closes every module on its own. */
  method LowerInitial(ws: Worlds, starts: States) returns (states: States)
    requires |ws| == |starts| && forall i | 0 <= i < |ws| :: Fresh(starts[i])
    ensures AllClosed(ws, states)
    ensures forall i | 0 <= i < |ws| :: X.AllAccounted(ws[i], states[i], starts[i].queued)
  {
    states := [];
    for i := 0 to |ws|
      invariant |states| == i
      invariant forall j | 0 <= j < i :: X.Closed(ws[j], states[j])
      invariant forall j | 0 <= j < i :: X.AllAccounted(ws[j], states[j], starts[j].queued)
    {
      X.StartIsValid(ws[i], starts[i]);
      var t := X.LowerReachable(ws[i], starts[i], X.Waiting(starts[i]), starts[i]);
      assert X.AllAccounted(ws[i], t, starts[i].queued);
      states := states + [t];
    }
  }

  /** From the roots of every module: unless two modules are the same, every root and every reference of everything
      materialized is accounted for by the module that declares it, or reported. */
  method PlanProgram(ws: Worlds, starts: States) returns (indices: Option<Indices>, states: States, unknown: seq<Ref>)
    requires |ws| == |starts| && forall i | 0 <= i < |ws| :: Fresh(starts[i])
    ensures indices.None? <==> SameUnit(ws)
    ensures indices.Some? ==> Indexed(ws, indices.value) && AllClosed(ws, states)
    ensures indices.Some? ==> forall i | 0 <= i < |ws| ::
      ModuleResolved(ws, indices.value, states, unknown, ws[i], states[i])
    ensures indices.Some? ==> forall i, r | 0 <= i < |ws| && r in starts[i].queued ::
      Preplanned(ws[i], r) || Resolved(ws, indices.value, states, unknown, r)
  {
    states := LowerInitial(ws, starts);
    unknown := [];
    ghost var initial := states;
    indices := ModuleIndices(ws);
    if indices.None? {
      return;
    }
    var dispatches;
    states, dispatches, unknown := Route(ws, indices.value, states);
    forall i, r | 0 <= i < |ws| && r in starts[i].queued
      ensures Preplanned(ws[i], r) || Resolved(ws, indices.value, states, unknown, r)
    {
      X.StillAccounted(ws[i], initial[i], states[i]);
      AccountedIsResolved(ws, indices.value, states, unknown, i, r);
    }
  }
}
