/** The module store shared by concurrent publishers and its one readiness consumer, as interleaved atomic steps. */
module Readiness {
  import opened Collections
  import opened Options

  type ModuleId = nat

  datatype Completion = Completion(position: nat, moduleId: ModuleId)

  /** Where a call of `publish` with a module stands. The mutex is held from `Pushing` to `Unlocking`. */
  datatype Call =
    | Entered(moduleId: ModuleId)
    | Setting(moduleId: ModuleId, position: nat)
    | Locking(moduleId: ModuleId, position: nat)
    | Pushing(moduleId: ModuleId, position: nat)
    | Notifying(moduleId: ModuleId, position: nat)
    | Unlocking(moduleId: ModuleId, position: nat)
    | Published(moduleId: ModuleId, position: nat)
    | Rejected(moduleId: ModuleId)

  /** Where the consumer stands. The mutex is held while `Checking`; `Waking` has been notified and wants the mutex. */
  datatype Consumer = Unclaimed | Idle | Entering | Checking | Asleep | Waking

  datatype Holder = Nobody | Publisher(call: nat) | TheConsumer

  /** A slot holds the module of the call that set it. `delivered` and `ended` record what `wait_next` has answered so
      far. */
  datatype State = State(
    slots: seq<Option<nat>>, log: seq<Completion>, holder: Holder, calls: map<nat, Call>,
    consumer: Consumer, next: nat, delivered: seq<Completion>, ended: bool, claims: nat)

  /** The store accepts a list of owners exactly when it has no duplicate, and then knows the position of each. */
  method NewStore(owners: seq<ModuleId>) returns (r: Option<State>, positions: map<ModuleId, nat>)
    ensures r.Some? <==> Distinct(owners)
    ensures r.Some? ==> Init(owners, r.value)
    ensures r.Some? ==> forall id :: PositionOf(owners, id) == if id in positions then Some(positions[id]) else None
  {
    positions := map[];
    for i := 0 to |owners|
      invariant forall j, k | 0 <= j < k < i :: owners[j] != owners[k]
      invariant forall id | id in positions :: positions[id] < i && owners[positions[id]] == id
      invariant forall j | 0 <= j < i :: owners[j] in positions
    {
      if owners[i] in positions {
        return None, positions;
      }
      positions := positions[owners[i] := i];
    }
    r := Some(State(seq(|owners|, _ => None), [], Nobody, map[], Unclaimed, 0, [], false, 0));
  }

  ghost predicate Init(owners: seq<ModuleId>, s: State) {
    Distinct(owners) && s == State(seq(|owners|, _ => None), [], Nobody, map[], Unclaimed, 0, [], false, 0)
  }

  // ---------------------------------------------------------------------------------------------------------------
  // Atomic steps.

  datatype Step =
    | Begin(call: nat, moduleId: ModuleId)
    | LookUp(call: nat)
    | SetSlot(call: nat)
    | Lock(call: nat)
    | Push(call: nat)
    | Notify(call: nat)
    | Unlock(call: nat)
    | Claim
    | WaitNext
    | LockToCheck
    | Check
    | SpuriousWake

  predicate Enabled(s: State, step: Step) {
    match step
    case Begin(c, _) => c !in s.calls
    case LookUp(c) => c in s.calls && s.calls[c].Entered?
    case SetSlot(c) => c in s.calls && s.calls[c].Setting?
    case Lock(c) => c in s.calls && s.calls[c].Locking? && s.holder == Nobody
    case Push(c) => c in s.calls && s.calls[c].Pushing?
    case Notify(c) => c in s.calls && s.calls[c].Notifying?
    case Unlock(c) => c in s.calls && s.calls[c].Unlocking?
    case Claim => true
    case WaitNext => s.consumer == Idle
    case LockToCheck => (s.consumer == Entering || s.consumer == Waking) && s.holder == Nobody
    case Check => s.consumer == Checking
    case SpuriousWake => s.consumer == Asleep
  }

  /** The position an owner was registered at. */
  ghost function PositionOf(owners: seq<ModuleId>, id: ModuleId): Option<nat> {
    if id in owners then
      var p :| 0 <= p < |owners| && owners[p] == id;
      Some(p)
    else None
  }

  ghost function After(owners: seq<ModuleId>, s: State, step: Step): State
    requires Enabled(s, step) && Sane(owners, s)
  {
    match step
    case Begin(c, id) => s.(calls := s.calls[c := Entered(id)])
    case LookUp(c) =>
      var id := s.calls[c].moduleId;
      var position := PositionOf(owners, id);
      s.(calls := s.calls[c := if position.None? then Rejected(id) else Setting(id, position.value)])
    case SetSlot(c) =>
      var id, p := s.calls[c].moduleId, s.calls[c].position;
      if s.slots[p].Some? then s.(calls := s.calls[c := Rejected(id)])
      else s.(slots := s.slots[p := Some(c)], calls := s.calls[c := Locking(id, p)])
    case Lock(c) =>
      s.(holder := Publisher(c), calls := s.calls[c := Pushing(s.calls[c].moduleId, s.calls[c].position)])
    case Push(c) =>
      var id, p := s.calls[c].moduleId, s.calls[c].position;
      s.(log := s.log + [Completion(p, id)], calls := s.calls[c := Notifying(id, p)])
    case Notify(c) =>
      s.(consumer := if s.consumer == Asleep then Waking else s.consumer,
         calls := s.calls[c := Unlocking(s.calls[c].moduleId, s.calls[c].position)])
    case Unlock(c) =>
      s.(holder := Nobody, calls := s.calls[c := Published(s.calls[c].moduleId, s.calls[c].position)])
    case Claim => if s.consumer == Unclaimed then s.(consumer := Idle, claims := s.claims + 1) else s
    case WaitNext => s.(consumer := Entering)
    case LockToCheck => s.(consumer := Checking, holder := TheConsumer)
    case Check =>
      if s.next < |s.log| then
        s.(consumer := Idle, holder := Nobody, next := s.next + 1, delivered := s.delivered + [s.log[s.next]])
      else if |s.log| == |owners| then s.(consumer := Idle, holder := Nobody, ended := true)
      else s.(consumer := Asleep, holder := Nobody)
    case SpuriousWake => s.(consumer := Waking)
  }

  /** A run: every state follows from the one before by some step of some thread. */
  ghost predicate Run(owners: seq<ModuleId>, run: seq<State>) {
    && run != []
    && Init(owners, run[0])
    && forall i | 0 < i < |run| :: Follows(owners, run[i - 1], run[i])
  }

  ghost predicate Follows(owners: seq<ModuleId>, s: State, s': State) {
    && Sane(owners, s)
    && exists step :: Enabled(s, step) && s' == After(owners, s, step)
  }

  /** Positions are those of slots. */
  ghost predicate Sane(owners: seq<ModuleId>, s: State) {
    && |s.slots| == |owners|
    && forall c | c in s.calls && HasPosition(s.calls[c]) :: s.calls[c].position < |owners|
  }

  predicate HasPosition(call: Call) {
    !call.Entered? && !call.Rejected?
  }

  // ---------------------------------------------------------------------------------------------------------------
  // The invariant.

  /** The call filled its slot and has not logged the completion yet. */
  predicate InDebt(call: Call) {
    call.Locking? || call.Pushing?
  }

  /** The call filled its slot. */
  predicate HasSet(call: Call) {
    InDebt(call) || call.Notifying? || call.Unlocking? || call.Published?
  }

  ghost predicate Owed(calls: map<nat, Call>, p: nat) {
    exists c | c in calls :: InDebt(calls[c]) && calls[c].position == p
  }

  ghost predicate Logged(log: seq<Completion>, p: nat) {
    exists i | 0 <= i < |log| :: log[i].position == p
  }

  predicate Filled(slots: seq<Option<nat>>, p: nat) {
    p < |slots| && slots[p].Some?
  }

  predicate Names(owners: seq<ModuleId>, done: Completion) {
    done.position < |owners| && done.moduleId == owners[done.position]
  }

  /** Each completion names a filled slot with its owner, and no slot is logged twice. */
  ghost predicate LogIsSound(owners: seq<ModuleId>, slots: seq<Option<nat>>, log: seq<Completion>) {
    && (forall i | 0 <= i < |log| :: Filled(slots, log[i].position) && Names(owners, log[i]))
    && (forall i, j | 0 <= i < j < |log| :: log[i].position != log[j].position)
  }

  /** A call works on the slot of its own module; one that was rejected has a module that is not registered or is in its
      slot already. */
  ghost predicate CallIsSound(owners: seq<ModuleId>, slots: seq<Option<nat>>, call: Call) {
    if call.Rejected? then forall p | 0 <= p < |owners| && owners[p] == call.moduleId :: Filled(slots, p)
    else HasPosition(call) ==> call.position < |owners| && owners[call.position] == call.moduleId
  }

  ghost predicate CallsAreSound(owners: seq<ModuleId>, slots: seq<Option<nat>>, calls: map<nat, Call>) {
    forall c | c in calls :: CallIsSound(owners, slots, calls[c])
  }

  /** A slot holds the module of the one call that set it. */
  ghost predicate SlotsAreSound(slots: seq<Option<nat>>, calls: map<nat, Call>) {
    && (forall p: nat | Filled(slots, p) ::
          slots[p].value in calls && HasSet(calls[slots[p].value]) && calls[slots[p].value].position == p)
    && (forall c | c in calls && HasSet(calls[c]) ::
          Filled(slots, calls[c].position) && slots[calls[c].position] == Some(c))
  }

  /** A filled slot is logged if and only if the call that filled it has paid its debt. */
  ghost predicate DebtsAreSound(slots: seq<Option<nat>>, log: seq<Completion>, calls: map<nat, Call>) {
    && (forall p: nat | Filled(slots, p) :: Logged(log, p) || Owed(calls, p))
    && (forall c | c in calls && HasSet(calls[c]) ::
          Filled(slots, calls[c].position) && (InDebt(calls[c]) <==> !Logged(log, calls[c].position)))
    && (forall c, d | c in calls && d in calls && HasSet(calls[c]) && HasSet(calls[d]) ::
          calls[c].position == calls[d].position ==> c == d)
  }

  ghost predicate MutexIsSound(s: State) {
    && (forall c | c in s.calls ::
          s.calls[c].Pushing? || s.calls[c].Notifying? || s.calls[c].Unlocking? <==> s.holder == Publisher(c))
    && (forall c | s.holder == Publisher(c) :: c in s.calls)
    && (s.holder == TheConsumer <==> s.consumer == Checking)
  }

  /** Nothing to deliver and more to come. */
  predicate NothingToSay(owners: seq<ModuleId>, s: State) {
    s.next == |s.log| && |s.log| != |owners|
  }

  /** A publisher has pushed and is about to notify. */
  ghost predicate AboutToNotify(s: State) {
    s.holder.Publisher? && s.holder.call in s.calls && s.calls[s.holder.call].Notifying?
  }

  ghost predicate ConsumerIsSound(owners: seq<ModuleId>, s: State) {
    && s.next <= |s.log| && s.delivered == s.log[..s.next]
    && (s.ended ==> s.next == |s.log| == |owners|)
    && (s.consumer == Asleep ==> NothingToSay(owners, s) || AboutToNotify(s))
    && s.claims == (if s.consumer == Unclaimed then 0 else 1)
  }

  ghost predicate Inv(owners: seq<ModuleId>, s: State) {
    && Distinct(owners)
    && Sane(owners, s)
    && LogIsSound(owners, s.slots, s.log)
    && CallsAreSound(owners, s.slots, s.calls)
    && SlotsAreSound(s.slots, s.calls)
    && DebtsAreSound(s.slots, s.log, s.calls)
    && MutexIsSound(s)
    && ConsumerIsSound(owners, s)
  }

  lemma {:induction false} InitHolds(owners: seq<ModuleId>, s: State)
    requires Init(owners, s)
    ensures Inv(owners, s)
  {
  }

  /** A call without debts moves to another state without debts. */
  lemma {:induction false} SameDebtors(calls: map<nat, Call>, c: nat, call: Call, p: nat)
    requires c in calls ==> !InDebt(calls[c])
    ensures Owed(calls, p) ==> Owed(calls[c := call], p)
  {
    if Owed(calls, p) {
      var d :| d in calls && InDebt(calls[d]) && calls[d].position == p;
      assert d in calls[c := call] && calls[c := call][d] == calls[d];
    }
  }

  lemma {:induction false} CallMoves(owners: seq<ModuleId>, s: State, c: nat, call: Call)
    requires Inv(owners, s)
    requires c in s.calls ==> s.calls[c].Entered? || s.calls[c].Setting?
    requires call.Entered? || ((call.Rejected? || call.Setting?) && CallIsSound(owners, s.slots, call))
    ensures Inv(owners, s.(calls := s.calls[c := call]))
  {
    forall p: nat ensures Owed(s.calls, p) ==> Owed(s.calls[c := call], p) {
      SameDebtors(s.calls, c, call, p);
    }
  }

  lemma {:induction false} SetSlotHolds(owners: seq<ModuleId>, s: State, c: nat)
    requires Inv(owners, s) && Enabled(s, SetSlot(c)) && s.slots[s.calls[c].position].None?
    ensures Inv(owners, After(owners, s, SetSlot(c)))
  {
    var q := s.calls[c].position;
    var s' := After(owners, s, SetSlot(c));
    assert !Filled(s.slots, q);
    assert forall p: nat :: Filled(s'.slots, p) <==> Filled(s.slots, p) || p == q;
    forall p: nat ensures Owed(s.calls, p) ==> Owed(s'.calls, p) {
      SameDebtors(s.calls, c, Locking(s.calls[c].moduleId, q), p);
    }
    assert c in s'.calls && InDebt(s'.calls[c]);
    assert DebtsAreSound(s'.slots, s'.log, s'.calls);
    assert CallsAreSound(owners, s'.slots, s'.calls) && SlotsAreSound(s'.slots, s'.calls);
  }

  lemma {:induction false} LockHolds(owners: seq<ModuleId>, s: State, c: nat)
    requires Inv(owners, s) && Enabled(s, Lock(c))
    ensures Inv(owners, After(owners, s, Lock(c)))
  {
    var calls := After(owners, s, Lock(c)).calls;
    forall p: nat | Owed(s.calls, p) ensures Owed(calls, p) {
      var d :| d in s.calls && InDebt(s.calls[d]) && s.calls[d].position == p;
      assert d in calls && InDebt(calls[d]) && calls[d].position == p;
    }
  }

  /** The positions below `n`. */
  ghost function Range(n: nat): set<nat> {
    if n == 0 then {} else Range(n - 1) + {n - 1}
  }

  lemma {:induction false} RangeSize(n: nat)
    ensures |Range(n)| == n && forall p: nat :: p in Range(n) <==> p < n
  {
    if n > 0 {
      RangeSize(n - 1);
    }
  }

  ghost function Positions(log: seq<Completion>): set<nat> {
    set i | 0 <= i < |log| :: log[i].position
  }

  lemma {:induction false} PositionsSize(log: seq<Completion>)
    requires forall i, j | 0 <= i < j < |log| :: log[i].position != log[j].position
    ensures |Positions(log)| == |log|
  {
    if log != [] {
      var init, last := log[..|log| - 1], log[|log| - 1].position;
      PositionsSize(init);
      assert Positions(log) == Positions(init) + {last} by {
        assert forall i | 0 <= i < |init| :: log[i] == init[i];
      }
      assert last !in Positions(init);
    }
  }

  /** Distinct positions below `n`: at most `n` of them, and `n` of them are all there are. */
  lemma {:induction false} Pigeonhole(log: seq<Completion>, n: nat)
    requires forall i, j | 0 <= i < j < |log| :: log[i].position != log[j].position
    requires forall i | 0 <= i < |log| :: log[i].position < n
    ensures |log| <= n
    ensures |log| == n ==> Positions(log) == Range(n)
  {
    PositionsSize(log);
    RangeSize(n);
    SubsetIsSmaller(Positions(log), Range(n));
  }

  lemma {:induction false} LogGrows(
    owners: seq<ModuleId>, slots: seq<Option<nat>>, log: seq<Completion>, done: Completion)
    requires LogIsSound(owners, slots, log)
    requires Filled(slots, done.position) && Names(owners, done) && !Logged(log, done.position)
    ensures LogIsSound(owners, slots, log + [done]) && |log| < |owners|
    ensures forall p: nat :: Logged(log + [done], p) <==> Logged(log, p) || p == done.position
  {
    var log' := log + [done];
    assert log'[|log|] == done;
    assert forall i | 0 <= i < |log| :: log'[i] == log[i];
    assert forall i | 0 <= i < |log'| :: Names(owners, log'[i]);
    Pigeonhole(log', |owners|);
  }

  lemma {:induction false} PushHolds(owners: seq<ModuleId>, s: State, c: nat)
    requires Inv(owners, s) && Enabled(s, Push(c))
    ensures Inv(owners, After(owners, s, Push(c)))
  {
    var q := s.calls[c].position;
    var s' := After(owners, s, Push(c));
    LogGrows(owners, s.slots, s.log, Completion(q, s.calls[c].moduleId));
    PaidDebt(s.slots, s.log, s'.log, s.calls, c);
    assert AboutToNotify(s');
  }

  lemma {:induction false} PaidDebt(
    slots: seq<Option<nat>>, log: seq<Completion>, log': seq<Completion>, calls: map<nat, Call>, c: nat)
    requires DebtsAreSound(slots, log, calls) && c in calls && InDebt(calls[c])
    requires forall p: nat :: Logged(log', p) <==> Logged(log, p) || p == calls[c].position
    ensures DebtsAreSound(slots, log', calls[c := Notifying(calls[c].moduleId, calls[c].position)])
  {
    var calls' := calls[c := Notifying(calls[c].moduleId, calls[c].position)];
    forall p: nat | Filled(slots, p) ensures Logged(log', p) || Owed(calls', p) {
      if !Logged(log', p) {
        var d :| d in calls && InDebt(calls[d]) && calls[d].position == p;
        assert d in calls' && calls'[d] == calls[d];
      }
    }
  }

  lemma {:induction false} NoDebtMoves(
    slots: seq<Option<nat>>, log: seq<Completion>, calls: map<nat, Call>, c: nat, call: Call)
    requires DebtsAreSound(slots, log, calls) && c in calls && HasSet(calls[c]) && !InDebt(calls[c])
    requires HasSet(call) && !InDebt(call) && call.position == calls[c].position
    ensures DebtsAreSound(slots, log, calls[c := call])
  {
    forall p: nat ensures Owed(calls, p) ==> Owed(calls[c := call], p) {
      SameDebtors(calls, c, call, p);
    }
  }

  lemma {:induction false} NotifyHolds(owners: seq<ModuleId>, s: State, c: nat)
    requires Inv(owners, s) && Enabled(s, Notify(c))
    ensures Inv(owners, After(owners, s, Notify(c)))
  {
    NoDebtMoves(s.slots, s.log, s.calls, c, Unlocking(s.calls[c].moduleId, s.calls[c].position));
  }

  lemma {:induction false} UnlockHolds(owners: seq<ModuleId>, s: State, c: nat)
    requires Inv(owners, s) && Enabled(s, Unlock(c))
    ensures Inv(owners, After(owners, s, Unlock(c)))
  {
    NoDebtMoves(s.slots, s.log, s.calls, c, Published(s.calls[c].moduleId, s.calls[c].position));
  }

  lemma {:induction false} ConsumerHolds(owners: seq<ModuleId>, s: State, step: Step)
    requires Inv(owners, s) && Enabled(s, step)
    requires step.Claim? || step.WaitNext? || step.LockToCheck? || step.Check? || step.SpuriousWake?
    ensures Inv(owners, After(owners, s, step))
  {
  }

  /** Owners are registered once, so a filled slot is the only one of its module. */
  lemma {:induction false} SecondIsRejected(owners: seq<ModuleId>, s: State, c: nat)
    requires Inv(owners, s) && Enabled(s, SetSlot(c)) && s.slots[s.calls[c].position].Some?
    ensures CallIsSound(owners, s.slots, Rejected(s.calls[c].moduleId))
  {
    assert CallIsSound(owners, s.slots, s.calls[c]);
  }

  lemma {:induction false} StepHolds(owners: seq<ModuleId>, s: State, step: Step)
    requires Inv(owners, s) && Enabled(s, step)
    ensures Inv(owners, After(owners, s, step))
  {
    match step
    case Begin(c, id) => CallMoves(owners, s, c, Entered(id));
    case LookUp(c) => CallMoves(owners, s, c, After(owners, s, step).calls[c]);
    case SetSlot(c) =>
      if s.slots[s.calls[c].position].Some? {
        SecondIsRejected(owners, s, c);
        CallMoves(owners, s, c, Rejected(s.calls[c].moduleId));
      } else {
        SetSlotHolds(owners, s, c);
      }
    case Lock(c) => LockHolds(owners, s, c);
    case Push(c) => PushHolds(owners, s, c);
    case Notify(c) => NotifyHolds(owners, s, c);
    case Unlock(c) => UnlockHolds(owners, s, c);
    case _ => ConsumerHolds(owners, s, step);
  }

  lemma {:induction false} RunHolds(owners: seq<ModuleId>, run: seq<State>, i: nat)
    requires Run(owners, run) && i < |run|
    ensures Inv(owners, run[i])
  {
    if i == 0 {
      InitHolds(owners, run[0]);
    } else {
      RunHolds(owners, run, i - 1);
      assert Follows(owners, run[i - 1], run[i]);
      var step :| Enabled(run[i - 1], step) && run[i] == After(owners, run[i - 1], step);
      StepHolds(owners, run[i - 1], step);
    }
  }

  // ---------------------------------------------------------------------------------------------------------------
  // What every run keeps.

  /** The call whose module is in the slot of the completion. */
  ghost predicate SetBy(s: State, done: Completion, c: nat) {
    && done.position < |s.slots| && s.slots[done.position] == Some(c)
    && c in s.calls && HasSet(s.calls[c]) && s.calls[c].moduleId == done.moduleId
  }

  /** Whatever was delivered names the module of the call that set its slot and the position where that module was
      registered, nothing is delivered twice, no module is published twice, and there is one consumer at most. */
  lemma {:induction false} DeliveriesAreSound(owners: seq<ModuleId>, run: seq<State>, i: nat)
    requires Run(owners, run) && i < |run|
    ensures var s := run[i];
      && (forall k | 0 <= k < |s.delivered| ::
           Names(owners, s.delivered[k]) && exists c :: SetBy(s, s.delivered[k], c))
      && (forall j, k | 0 <= j < k < |s.delivered| :: s.delivered[j].moduleId != s.delivered[k].moduleId)
      && (forall c, d | c in s.calls && d in s.calls && c != d && HasSet(s.calls[c]) && HasSet(s.calls[d]) ::
            s.calls[c].moduleId != s.calls[d].moduleId)
      && s.claims <= 1
  {
    RunHolds(owners, run, i);
    DeliveredIsSet(owners, run[i]);
    ModulesAreSetOnce(owners, run[i]);
  }

  lemma {:induction false} DeliveredIsSet(owners: seq<ModuleId>, s: State)
    requires Inv(owners, s)
    ensures forall k | 0 <= k < |s.delivered| ::
      Names(owners, s.delivered[k]) && exists c :: SetBy(s, s.delivered[k], c)
    ensures forall j, k | 0 <= j < k < |s.delivered| :: s.delivered[j].moduleId != s.delivered[k].moduleId
  {
    assert forall k | 0 <= k < |s.delivered| :: s.delivered[k] == s.log[k] && Names(owners, s.log[k]);
    forall k | 0 <= k < |s.delivered| ensures exists c :: SetBy(s, s.delivered[k], c) {
      var p := s.log[k].position;
      assert Filled(s.slots, p);
      assert CallIsSound(owners, s.slots, s.calls[s.slots[p].value]);
      assert SetBy(s, s.delivered[k], s.slots[p].value);
    }
  }

  lemma {:induction false} ModulesAreSetOnce(owners: seq<ModuleId>, s: State)
    requires Inv(owners, s)
    ensures forall c, d | c in s.calls && d in s.calls && c != d && HasSet(s.calls[c]) && HasSet(s.calls[d]) ::
      s.calls[c].moduleId != s.calls[d].moduleId
  {
    forall c, d | c in s.calls && d in s.calls && c != d && HasSet(s.calls[c]) && HasSet(s.calls[d])
      ensures s.calls[c].moduleId != s.calls[d].moduleId
    {
      assert CallIsSound(owners, s.slots, s.calls[c]) && CallIsSound(owners, s.slots, s.calls[d]);
    }
  }

  /** A call is turned away when it is looked up if and only if its module is not registered, and moves on to the slot
      of its module otherwise. */
  lemma {:induction false} LookUpRejectsIffUnregistered(owners: seq<ModuleId>, run: seq<State>, i: nat, c: nat)
    requires Run(owners, run) && i < |run| && Enabled(run[i], LookUp(c))
    ensures Sane(owners, run[i])
    ensures var id, call := run[i].calls[c].moduleId, After(owners, run[i], LookUp(c)).calls[c];
      if id in owners then call.Setting? && call.position < |owners| && owners[call.position] == id else call.Rejected?
  {
    RunHolds(owners, run, i);
  }

  /** It is turned away at its slot if and only if another call with the same module set it before. */
  lemma {:induction false} SetSlotRejectsIffPublished(owners: seq<ModuleId>, run: seq<State>, i: nat, c: nat)
    requires Run(owners, run) && i < |run| && Enabled(run[i], SetSlot(c))
    ensures Sane(owners, run[i])
    ensures After(owners, run[i], SetSlot(c)).calls[c].Rejected? <==>
      exists d | d in run[i].calls :: HasSet(run[i].calls[d]) && run[i].calls[d].moduleId == run[i].calls[c].moduleId
  {
    RunHolds(owners, run, i);
    var s := run[i];
    var p := s.calls[c].position;
    assert CallIsSound(owners, s.slots, s.calls[c]);
    if Filled(s.slots, p) {
      assert CallIsSound(owners, s.slots, s.calls[s.slots[p].value]);
    }
    if d :| d in s.calls && HasSet(s.calls[d]) && s.calls[d].moduleId == s.calls[c].moduleId {
      assert CallIsSound(owners, s.slots, s.calls[d]);
    }
  }

  /** The call whose module the store gives out for an owner. */
  ghost function Get(owners: seq<ModuleId>, s: State, id: ModuleId): Option<nat>
    requires Sane(owners, s)
  {
    var position := PositionOf(owners, id);
    if position.None? then None else s.slots[position.value]
  }

  /** The store gives out a module if and only if some call with that module has set its slot, and then the module of
      that call. */
  lemma {:induction false} GetIsPublished(owners: seq<ModuleId>, run: seq<State>, i: nat, id: ModuleId, c: nat)
    requires Run(owners, run) && i < |run|
    ensures Sane(owners, run[i])
    ensures Get(owners, run[i], id) == Some(c) <==>
      c in run[i].calls && HasSet(run[i].calls[c]) && run[i].calls[c].moduleId == id
  {
    RunHolds(owners, run, i);
    var s := run[i];
    if c in s.calls {
      assert CallIsSound(owners, s.slots, s.calls[c]);
    }
    var position := PositionOf(owners, id);
    if position.Some? && Filled(s.slots, position.value) {
      assert CallIsSound(owners, s.slots, s.calls[s.slots[position.value].value]);
    }
  }

  /** A check that lets `wait_next` return delivers the next completion or, after all of them, the end; it goes to sleep
      if and only if there is nothing to say. */
  lemma {:induction false} CheckAnswers(owners: seq<ModuleId>, run: seq<State>, i: nat)
    requires Run(owners, run) && i < |run| && Enabled(run[i], Check)
    ensures Sane(owners, run[i])
    ensures var s, t := run[i], After(owners, run[i], Check);
      && (t.consumer == Asleep <==> NothingToSay(owners, s))
      && (t.consumer != Asleep ==> t.consumer == Idle)
      && (t.consumer == Idle ==>
            if |s.delivered| < |s.log| then t.delivered == s.log[..|s.delivered| + 1]
            else t.ended && |t.delivered| == |owners|)
      && t.holder == Nobody
  {
    RunHolds(owners, run, i);
    Pigeonhole(run[i].log, |owners|);
  }

  /** Slots, completions and deliveries are not taken back or changed, and calls keep the modules they were made
      with. */
  ghost predicate Later(s: State, t: State) {
    && s.log <= t.log && s.delivered <= t.delivered
    && (forall p: nat | Filled(s.slots, p) :: Filled(t.slots, p) && t.slots[p] == s.slots[p])
    && (forall c | c in s.calls :: c in t.calls && t.calls[c].moduleId == s.calls[c].moduleId)
  }

  lemma {:induction false} LaterThrough(s: State, t: State, r: State)
    requires Later(s, t) && Later(t, r)
    ensures Later(s, r)
  {
  }

  lemma {:induction false} StepIsLater(owners: seq<ModuleId>, s: State, step: Step)
    requires Sane(owners, s) && Enabled(s, step)
    ensures Later(s, After(owners, s, step))
  {
    var t := After(owners, s, step);
    assert s.log <= t.log && s.delivered <= t.delivered;
  }

  /** A call enters with the module it is made with. */
  lemma {:induction false} BeginEnters(owners: seq<ModuleId>, run: seq<State>, i: nat, j: nat, c: nat, id: ModuleId)
    requires Run(owners, run) && 0 < i <= j < |run|
    requires Enabled(run[i - 1], Begin(c, id)) && Sane(owners, run[i - 1])
    requires run[i] == After(owners, run[i - 1], Begin(c, id))
    ensures c in run[j].calls && run[j].calls[c].moduleId == id
  {
    NothingIsTakenBack(owners, run, i, j);
    assert c in run[i].calls;
  }

  /** So it is over every run. */
  lemma {:induction false} NothingIsTakenBack(owners: seq<ModuleId>, run: seq<State>, i: nat, j: nat)
    requires Run(owners, run) && i <= j < |run|
    ensures Later(run[i], run[j])
  {
    if i < j {
      NothingIsTakenBack(owners, run, i, j - 1);
      FollowsIsLater(owners, run[j - 1], run[j]);
      LaterThrough(run[i], run[j - 1], run[j]);
    }
  }

  lemma {:induction false} FollowsIsLater(owners: seq<ModuleId>, s: State, s': State)
    requires Follows(owners, s, s')
    ensures Later(s, s')
  {
    var step :| Enabled(s, step) && s' == After(owners, s, step);
    StepIsLater(owners, s, step);
  }

  /** The end of the stream is answered only after every registered module was delivered. */
  lemma {:induction false} EndComesLast(owners: seq<ModuleId>, run: seq<State>, i: nat, p: nat)
    requires Run(owners, run) && i < |run| && run[i].ended && p < |owners|
    ensures Completion(p, owners[p]) in run[i].delivered
  {
    RunHolds(owners, run, i);
    var s := run[i];
    assert s.delivered == s.log;
    assert forall k | 0 <= k < |s.log| :: Names(owners, s.log[k]);
    Pigeonhole(s.log, |owners|);
    RangeSize(|owners|);
    assert p in Positions(s.log);
    var k :| 0 <= k < |s.log| && s.log[k].position == p;
    assert s.log[k] == Completion(p, owners[p]);
  }

  /** A consumer asleep while there is something to answer is about to be woken: the publisher that holds the mutex has
      pushed and not yet notified, and its next step wakes the consumer. */
  lemma {:induction false} NoLostWakeup(owners: seq<ModuleId>, run: seq<State>, i: nat)
    requires Run(owners, run) && i < |run| && run[i].consumer == Asleep && !NothingToSay(owners, run[i])
    ensures run[i].holder.Publisher? && Enabled(run[i], Notify(run[i].holder.call))
    ensures Sane(owners, run[i]) && After(owners, run[i], Notify(run[i].holder.call)).consumer == Waking
  {
    RunHolds(owners, run, i);
  }

  /** Whoever holds the mutex can move, and only by moving on towards releasing it. */
  lemma {:induction false} MutexHolderCanMove(owners: seq<ModuleId>, run: seq<State>, i: nat)
    requires Run(owners, run) && i < |run|
    ensures match run[i].holder
      case Nobody => true
      case TheConsumer => Enabled(run[i], Check)
      case Publisher(c) => Enabled(run[i], Push(c)) || Enabled(run[i], Notify(c)) || Enabled(run[i], Unlock(c))
  {
    RunHolds(owners, run, i);
  }

  /** A call that has not returned has a step, or waits for the mutex that somebody holds. */
  lemma {:induction false} CallsCanMove(owners: seq<ModuleId>, run: seq<State>, i: nat, c: nat)
    requires Run(owners, run) && i < |run| && c in run[i].calls
    ensures var s := run[i]; var call := s.calls[c];
      || call.Published? || call.Rejected?
      || (exists step :: Enabled(s, step) && Sane(owners, s) && After(owners, s, step).calls[c] != call)
      || (call.Locking? && s.holder != Nobody)
  {
    RunHolds(owners, run, i);
    var s := run[i];
    var next := match s.calls[c]
      case Entered(_) => LookUp(c)
      case Setting(_, _) => SetSlot(c)
      case Locking(_, _) => Lock(c)
      case Pushing(_, _) => Push(c)
      case Notifying(_, _) => Notify(c)
      case _ => Unlock(c);
    if !s.calls[c].Published? && !s.calls[c].Rejected? && !(s.calls[c].Locking? && s.holder != Nobody) {
      assert Enabled(s, next) && After(owners, s, next).calls[c] != s.calls[c];
    }
  }

  /** Once every slot is filled and every call has returned, the log is complete, the consumer is not asleep, and its
      next check answers. */
  lemma {:induction false} CompleteStoreAnswers(owners: seq<ModuleId>, run: seq<State>, i: nat)
    requires Run(owners, run) && i < |run|
    requires forall p: nat | p < |owners| :: Filled(run[i].slots, p)
    requires forall c | c in run[i].calls :: run[i].calls[c].Published? || run[i].calls[c].Rejected?
    ensures |run[i].log| == |owners| && run[i].consumer != Asleep
    ensures run[i].consumer == Checking ==> Sane(owners, run[i]) && After(owners, run[i], Check).consumer == Idle
  {
    RunHolds(owners, run, i);
    CompleteLog(owners, run[i].slots, run[i].log, run[i].calls);
  }

  lemma {:induction false} CompleteLog(
    owners: seq<ModuleId>, slots: seq<Option<nat>>, log: seq<Completion>, calls: map<nat, Call>)
    requires LogIsSound(owners, slots, log) && DebtsAreSound(slots, log, calls)
    requires forall p: nat | p < |owners| :: Filled(slots, p)
    requires forall c | c in calls :: !InDebt(calls[c])
    ensures |log| == |owners|
  {
    RangeSize(|owners|);
    forall p: nat | p in Range(|owners|) ensures p in Positions(log) {
      assert Filled(slots, p);
      assert Logged(log, p);
    }
    assert forall k | 0 <= k < |log| :: Names(owners, log[k]);
    Pigeonhole(log, |owners|);
    PositionsSize(log);
    SubsetIsSmaller(Range(|owners|), Positions(log));
  }
}
