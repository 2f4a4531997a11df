/** The finalization collector: module results pushed in completion order, joined in source order, each checked against
    the owner directory fixed during planning. */
module Collector {
  import opened Collections
  import opened Options

  datatype Sort = Item | StructInstance | UnionInstance | GlobalInstance | FunctionInstance | Vtable

  /** The identity of a definition. */
  datatype DefKey = DefKey(sort: Sort, id: nat)

  datatype Module = Module(id: nat, defs: seq<DefKey>)

  type Directory = map<DefKey, nat>

  /** The result of finalizing one module. */
  datatype Finalization = Finalization(position: nat, unit: Module, changes: seq<nat>, diagnostics: seq<nat>)

  datatype Entry = Entry(unit: Module, changes: seq<nat>, diagnostics: seq<nat>)

  /** Results by source position. */
  type Slots = seq<Option<Entry>>

  datatype Lowering = Lowering(units: seq<Module>, changes: seq<nat>, diagnostics: seq<nat>)

  // ---------------------------------------------------------------------------------------------------------------
  // The owner directory.

  function AllDefs(units: seq<Module>): seq<DefKey> {
    if units == [] then [] else AllDefs(units[..|units| - 1]) + units[|units| - 1].defs
  }

  /** The directory maps every definition to the module that has it, and nothing else. */
  ghost predicate Describes(directory: Directory, units: seq<Module>) {
    && (forall u, d | u in units && d in u.defs :: d in directory && directory[d] == u.id)
    && (forall d | d in directory :: exists u :: u in units && d in u.defs)
  }

  /** Rejects a definition with two owners. */
  method FromModules(units: seq<Module>) returns (r: Option<Directory>)
    ensures r.Some? <==> Distinct(AllDefs(units))
    ensures r.Some? ==> Describes(r.value, units)
  {
    var directory: Directory := map[];
    for m := 0 to |units|
      invariant Distinct(AllDefs(units[..m]))
      invariant directory.Keys == set d | d in AllDefs(units[..m])
      invariant Describes(directory, units[..m])
    {
      var next, ok := AddModule(directory, AllDefs(units[..m]), units[m]);
      assert units[..m + 1][..m] == units[..m];
      assert units[..m + 1] == units[..m] + [units[m]];
      if !ok {
        NotDistinctGrows(units, m + 1);
        return None;
      }
      Extended(directory, next, units[..m], units[m]);
      directory := next;
    }
    assert units[..|units|] == units;
    r := Some(directory);
  }

  lemma {:induction false} Extended(before: Directory, after: Directory, units: seq<Module>, u: Module)
    requires Describes(before, units)
    requires forall d | d in before :: d in after && after[d] == before[d]
    requires forall d | d in u.defs :: d in after && after[d] == u.id
    requires forall d | d in after :: d in before || d in u.defs
    ensures Describes(after, units + [u])
  {
    forall d | d in after ensures exists v :: v in units + [u] && d in v.defs {
      if d in before {
        var v :| v in units && d in v.defs;
        assert v in units + [u];
      } else {
        assert u in units + [u];
      }
    }
  }

  method AddModule(directory: Directory, ghost seen: seq<DefKey>, u: Module) returns (out: Directory, ok: bool)
    requires Distinct(seen) && directory.Keys == set d | d in seen
    ensures ok <==> Distinct(seen + u.defs)
    ensures ok ==> out.Keys == set d | d in seen + u.defs
    ensures ok ==> forall d | d in directory :: d in out && out[d] == directory[d]
    ensures ok ==> forall d | d in u.defs :: d in out && out[d] == u.id
  {
    out := directory;
    for i := 0 to |u.defs|
      invariant Distinct(seen + u.defs[..i])
      invariant out.Keys == set d | d in seen + u.defs[..i]
      invariant forall d | d in directory :: d in out && out[d] == directory[d]
      invariant forall d | d in u.defs[..i] :: d in out && out[d] == u.id
    {
      var d := u.defs[i];
      assert u.defs[..i + 1] == u.defs[..i] + [d];
      if d in out {
        Clash(seen, u.defs, i);
        return out, false;
      }
      Fresh(seen + u.defs[..i], d);
      assert seen + u.defs[..i + 1] == seen + u.defs[..i] + [d];
      out := out[d := u.id];
    }
    assert u.defs[..|u.defs|] == u.defs;
    ok := true;
  }

  lemma {:induction false} Clash(seen: seq<DefKey>, defs: seq<DefKey>, i: nat)
    requires i < |defs| && defs[i] in seen + defs[..i]
    ensures !Distinct(seen + defs)
  {
    var all := seen + defs;
    var j :| 0 <= j < |seen + defs[..i]| && (seen + defs[..i])[j] == defs[i];
    assert all[j] == defs[i] && all[|seen| + i] == defs[i];
  }

  lemma {:induction false} Fresh(seen: seq<DefKey>, d: DefKey)
    requires Distinct(seen) && d !in seen
    ensures Distinct(seen + [d])
  {
  }

  lemma {:induction false} NotDistinctGrows(units: seq<Module>, m: nat)
    requires m <= |units| && !Distinct(AllDefs(units[..m]))
    ensures !Distinct(AllDefs(units))
    decreases |units| - m
  {
    if m == |units| {
      assert units[..m] == units;
    } else {
      var a, b := AllDefs(units[..m]), AllDefs(units[..m + 1]);
      assert units[..m + 1][..m] == units[..m];
      var i, j :| 0 <= i < j < |a| && a[i] == a[j];
      assert b[i] == b[j];
      NotDistinctGrows(units, m + 1);
    }
  }

  /** Every definition of the module is its own and has the planned owner. */
  ghost predicate Validated(directory: Directory, u: Module) {
    Distinct(u.defs) && forall d | d in u.defs :: d in directory && directory[d] == u.id
  }

  method ValidateFinalizedModule(directory: Directory, u: Module) returns (ok: bool)
    ensures ok <==> Validated(directory, u)
  {
    var own := FromModules([u]);
    OneModule(u);
    if own.None? {
      return false;
    }
    OwnDirectory(own.value, u);
    ok := forall d | d in own.value :: d in directory && directory[d] == own.value[d];
  }

  lemma {:induction false} OneModule(u: Module)
    ensures AllDefs([u]) == u.defs
  {
    assert [u][..0] == [];
    assert AllDefs([]) == [];
  }

  lemma {:induction false} OwnDirectory(own: Directory, u: Module)
    requires Describes(own, [u])
    ensures forall d :: d in own <==> d in u.defs
    ensures forall d | d in own :: own[d] == u.id
  {
    assert u in [u];
  }

  // ---------------------------------------------------------------------------------------------------------------
  // Pushes.

  /** The push is for this position, by the module expected there, with the planned owners. */
  ghost predicate Fits(order: seq<nat>, directory: Directory, position: nat, f: Finalization) {
    && f.position == position && position < |order| && f.unit.id == order[position]
    && Validated(directory, f.unit)
  }

  function EntryOf(f: Finalization): Entry {
    Entry(f.unit, f.changes, f.diagnostics)
  }

  /** A push that fits an empty position fills it; every other push is rejected and changes nothing. */
  ghost function Pushed(order: seq<nat>, directory: Directory, slots: Slots, position: nat, f: Finalization): Slots
    requires |slots| == |order|
  {
    if Fits(order, directory, position, f) && slots[position].None? then slots[position := Some(EntryOf(f))] else slots
  }

  /** What planning already reported, before any module, and whether some modules have a code-generation plan. */
  datatype Plan = Plan(changes: seq<nat>, diagnostics: seq<nat>, partitioned: seq<Module> -> bool)

  /** The plan's own reports followed by those of the first `n` positions; nothing when one is missing. */
  ghost function Joined(plan: Plan, slots: Slots, n: nat): Option<Lowering>
    requires n <= |slots|
  {
    if n == 0 then Some(Lowering([], plan.changes, plan.diagnostics))
    else if Joined(plan, slots, n - 1).None? || slots[n - 1].None? then None
    else
      var before, e := Joined(plan, slots, n - 1).value, slots[n - 1].value;
      Some(Lowering(before.units + [e.unit], before.changes + e.changes, before.diagnostics + e.diagnostics))
  }

  /** The joined reports of all positions, if the joined modules have a code-generation plan. */
  ghost function Finished(plan: Plan, slots: Slots): Option<Lowering> {
    var joined := Joined(plan, slots, |slots|);
    if joined.Some? && plan.partitioned(joined.value.units) then joined else None
  }

  class FinalizationCollector {
    const order: seq<nat>
    const directory: Directory
    const plan: Plan
    var units: seq<Option<Module>>
    var changes: seq<Option<seq<nat>>>
    var diagnostics: seq<Option<seq<nat>>>

    ghost predicate Valid()
      reads this
    {
      && |units| == |changes| == |diagnostics| == |order|
      && Distinct(order)
      && forall i | 0 <= i < |order| ::
           (units[i].Some? <==> changes[i].Some?) && (units[i].Some? <==> diagnostics[i].Some?)
    }

    ghost function Contents(): Slots
      requires Valid()
      reads this
    {
      seq(|order|, i requires 0 <= i < |order| && Valid() reads this =>
        if units[i].None? then None else Some(Entry(units[i].value, changes[i].value, diagnostics[i].value)))
    }

    constructor (order: seq<nat>, directory: Directory, plan: Plan)
      requires Distinct(order)
      ensures Valid() && this.order == order && this.directory == directory && this.plan == plan
      ensures Contents() == seq(|order|, _ => None)
    {
      this.order := order;
      this.directory := directory;
      this.plan := plan;
      units := seq(|order|, _ => None);
      changes := seq(|order|, _ => None);
      diagnostics := seq(|order|, _ => None);
    }

    method Push(position: nat, f: Finalization) returns (ok: bool)
      requires Valid()
      modifies this
      ensures Valid()
      ensures Contents() == Pushed(order, directory, old(Contents()), position, f)
      ensures ok <==> Fits(order, directory, position, f) && old(Contents())[position].None?
    {
      ghost var before := Contents();
      if f.position != position || position >= |order| || f.unit.id != order[position] {
        return false;
      }
      var valid := ValidateFinalizedModule(directory, f.unit);
      if !valid {
        return false;
      }
      assert before[position].None? <==> units[position].None?;
      if units[position].Some? {
        return false;
      }
      units := units[position := Some(f.unit)];
      changes := changes[position := Some(f.changes)];
      diagnostics := diagnostics[position := Some(f.diagnostics)];
      ok := true;
      assert Contents() == before[position := Some(EntryOf(f))];
    }

    method Finish() returns (r: Option<Lowering>)
      requires Valid()
      ensures r == Finished(plan, Contents())
    {
      var joined := Lowering([], plan.changes, plan.diagnostics);
      for i := 0 to |order|
        invariant Joined(plan, Contents(), i) == Some(joined)
      {
        assert Contents()[i].None? <==> units[i].None?;
        if changes[i].None? || diagnostics[i].None? {
          MissingStays(plan, Contents(), i, |order|);
          return None;
        }
        joined := Lowering(joined.units + [units[i].value], joined.changes + changes[i].value,
                           joined.diagnostics + diagnostics[i].value);
      }
      r := if plan.partitioned(joined.units) then Some(joined) else None;
    }
  }

  lemma {:induction false} MissingStays(plan: Plan, slots: Slots, i: nat, n: nat)
    requires i < n <= |slots| && slots[i].None?
    ensures Joined(plan, slots, n).None?
  {
    if i < n - 1 {
      MissingStays(plan, slots, i, n - 1);
    }
  }

  // ---------------------------------------------------------------------------------------------------------------
  // Whole runs of pushes.

  ghost function Empty(n: nat): Slots {
    seq(n, _ => None)
  }

  /** The contents after pushing each result at its own position. */
  ghost function AllPushed(order: seq<nat>, directory: Directory, fs: seq<Finalization>): (slots: Slots)
    ensures |slots| == |order|
  {
    if fs == [] then Empty(|order|) else
    var last := fs[|fs| - 1];
    Pushed(order, directory, AllPushed(order, directory, fs[..|fs| - 1]), last.position, last)
  }

  /** Whatever was pushed, and in whatever order: a filled position holds the module expected there, with the owners
      fixed at planning. */
  lemma {:induction false} OwnersAreKept(order: seq<nat>, directory: Directory, fs: seq<Finalization>, i: nat)
    requires i < |order| && AllPushed(order, directory, fs)[i].Some?
    ensures var u := AllPushed(order, directory, fs)[i].value.unit; u.id == order[i] && Validated(directory, u)
  {
    if fs != [] {
      var init := fs[..|fs| - 1];
      if AllPushed(order, directory, init)[i].Some? {
        OwnersAreKept(order, directory, init, i);
      }
    }
  }

  ghost predicate DistinctPositions(fs: seq<Finalization>) {
    forall i, j | 0 <= i < j < |fs| :: fs[i].position != fs[j].position
  }

  ghost predicate AllFit(order: seq<nat>, directory: Directory, fs: seq<Finalization>) {
    forall f | f in fs :: Fits(order, directory, f.position, f)
  }

  lemma {:induction false} AllPushedAt(order: seq<nat>, directory: Directory, fs: seq<Finalization>, i: nat)
    requires AllFit(order, directory, fs) && DistinctPositions(fs) && i < |order|
    ensures forall f | f in fs && f.position == i :: AllPushed(order, directory, fs)[i] == Some(EntryOf(f))
    ensures (forall f | f in fs :: f.position != i) ==> AllPushed(order, directory, fs)[i] == None
  {
    if fs != [] {
      var init, last := fs[..|fs| - 1], fs[|fs| - 1];
      assert fs == init + [last];
      assert last in fs && forall f | f in init :: f in fs;
      forall f | f in init ensures f.position != last.position {
        var j :| 0 <= j < |init| && init[j] == f;
        assert fs[j] == f;
      }
      AllPushedAt(order, directory, init, i);
      AllPushedAt(order, directory, init, last.position);
    }
  }

  /** Completion order does not matter: the same results in any order leave the same contents, and so the same
      modules, changes and diagnostics in source order. */
  lemma {:induction false} CompletionOrderDoesNotMatter(
    order: seq<nat>, directory: Directory, plan: Plan, fs: seq<Finalization>, gs: seq<Finalization>)
    requires AllFit(order, directory, fs) && DistinctPositions(fs) && DistinctPositions(gs)
    requires forall f :: f in fs <==> f in gs
    ensures AllPushed(order, directory, fs) == AllPushed(order, directory, gs)
    ensures Finished(plan, AllPushed(order, directory, fs)) == Finished(plan, AllPushed(order, directory, gs))
  {
    var a, b := AllPushed(order, directory, fs), AllPushed(order, directory, gs);
    forall i | 0 <= i < |order| ensures a[i] == b[i] {
      AllPushedAt(order, directory, fs, i);
      AllPushedAt(order, directory, gs, i);
      if f :| f in fs && f.position == i {
        assert f in gs;
      }
    }
    assert a == b;
  }

  /** Joining succeeds if and only if no position is missing, and keeps source order. */
  lemma {:induction false} JoinNeedsEveryPosition(plan: Plan, slots: Slots, n: nat)
    requires n <= |slots|
    ensures Joined(plan, slots, n).Some? <==> forall i | 0 <= i < n :: slots[i].Some?
    ensures Joined(plan, slots, n).Some? ==>
      var units := Joined(plan, slots, n).value.units;
      |units| == n && forall i | 0 <= i < n :: units[i] == slots[i].value.unit
  {
    if n > 0 {
      JoinNeedsEveryPosition(plan, slots, n - 1);
    }
  }

  /** A finished lowering has every planned module in source order, and each of its definitions the planned owner. */
  lemma {:induction false} FinishedProgramIsPlanned(
    order: seq<nat>, directory: Directory, plan: Plan, fs: seq<Finalization>)
    requires Finished(plan, AllPushed(order, directory, fs)).Some?
    ensures var units := Finished(plan, AllPushed(order, directory, fs)).value.units;
      && |units| == |order|
      && forall i | 0 <= i < |order| :: units[i].id == order[i] && Validated(directory, units[i])
  {
    var slots := AllPushed(order, directory, fs);
    JoinNeedsEveryPosition(plan, slots, |order|);
    var units := Joined(plan, slots, |order|).value.units;
    forall i | 0 <= i < |order| ensures units[i].id == order[i] && Validated(directory, units[i]) {
      OwnersAreKept(order, directory, fs, i);
    }
  }

  // ---------------------------------------------------------------------------------------------------------------
  // What a finished lowering reports.

  function Concat(parts: seq<seq<nat>>): seq<nat> {
    if parts == [] then [] else parts[0] + Concat(parts[1..])
  }

  lemma {:induction false} ConcatOneMore(parts: seq<seq<nat>>, last: seq<nat>)
    ensures Concat(parts + [last]) == Concat(parts) + last
  {
    if parts == [] {
      assert parts + [last] == [last] && [last][1..] == [];
    } else {
      assert (parts + [last])[1..] == parts[1..] + [last];
      ConcatOneMore(parts[1..], last);
    }
  }

  function Units(fs: seq<Finalization>): seq<Module> {
    seq(|fs|, i requires 0 <= i < |fs| => fs[i].unit)
  }

  function Changes(fs: seq<Finalization>): seq<seq<nat>> {
    seq(|fs|, i requires 0 <= i < |fs| => fs[i].changes)
  }

  function Diagnostics(fs: seq<Finalization>): seq<seq<nat>> {
    seq(|fs|, i requires 0 <= i < |fs| => fs[i].diagnostics)
  }

  /** The plan's reports followed by those of all results, in this order. */
  function InOrder(plan: Plan, fs: seq<Finalization>): Lowering {
    Lowering(Units(fs), plan.changes + Concat(Changes(fs)), plan.diagnostics + Concat(Diagnostics(fs)))
  }

  lemma {:induction false} JoinedInOrder(plan: Plan, slots: Slots, fs: seq<Finalization>)
    requires |fs| <= |slots|
    requires forall i | 0 <= i < |fs| :: slots[i] == Some(Entry(fs[i].unit, fs[i].changes, fs[i].diagnostics))
    ensures Joined(plan, slots, |fs|) == Some(InOrder(plan, fs))
  {
    if fs == [] {
      assert InOrder(plan, fs) == Lowering([], plan.changes, plan.diagnostics);
    } else {
      var init, last := fs[..|fs| - 1], fs[|fs| - 1];
      JoinedInOrder(plan, slots, init);
      assert Units(fs) == Units(init) + [last.unit];
      assert Changes(fs) == Changes(init) + [last.changes];
      assert Diagnostics(fs) == Diagnostics(init) + [last.diagnostics];
      ConcatOneMore(Changes(init), last.changes);
      ConcatOneMore(Diagnostics(init), last.diagnostics);
      assert plan.changes + Concat(Changes(init)) + last.changes == plan.changes + Concat(Changes(fs));
      assert plan.diagnostics + Concat(Diagnostics(init)) + last.diagnostics ==
        plan.diagnostics + Concat(Diagnostics(fs));
    }
  }

  /** One fitting result for every position, pushed in any order: if their modules have a code-generation plan, the
      finished lowering has the modules, changes and diagnostics of all of them in source order after what planning
      reported; otherwise there is none. */
  lemma {:induction false} FinishedInSourceOrder(
    order: seq<nat>, directory: Directory, plan: Plan, fs: seq<Finalization>, sorted: seq<Finalization>)
    requires AllFit(order, directory, fs) && DistinctPositions(fs) && forall f :: f in fs <==> f in sorted
    requires |sorted| == |order| && forall i | 0 <= i < |sorted| :: sorted[i].position == i
    ensures Finished(plan, AllPushed(order, directory, fs)) ==
      if plan.partitioned(Units(sorted)) then Some(InOrder(plan, sorted)) else None
  {
    var slots := AllPushed(order, directory, fs);
    forall i | 0 <= i < |sorted|
      ensures slots[i] == Some(Entry(sorted[i].unit, sorted[i].changes, sorted[i].diagnostics))
    {
      assert sorted[i] in fs;
      AllPushedAt(order, directory, fs, i);
    }
    JoinedInOrder(plan, slots, sorted);
  }
}
