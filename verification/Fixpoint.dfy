/** The mutual fixed point over functions, function instances, global instances and vtables of one module, from a new
    worklist or from one rebuilt for a finished module. Lowering of bodies is a parameter. */
module Fixpoint {
  import opened Collections
  import opened Options
  import I = Instances

  /** A reference to a function, a function instance or a global instance. Keys of global instances have no self. */
  datatype Item = Function(def: I.Def) | Instance(key: I.Key) | Global(key: I.Key)

  /** A vtable and the functions and function instances in it. */
  datatype Vtable = Vtable(key: nat, entries: seq<Item>)

  /** What a materialized item refers to. */
  datatype Discovery = Discovery(refs: seq<Item>, vtables: seq<Vtable>)

  const NONE := Discovery([], [])

  /** A function with a source cannot be lowered when it is a trait method or lowering fails; a generic one stays a
      template. */
  datatype Outcome = Unlowered | Template | Lowered(discovery: Discovery)

  /** What a static initializer refers to besides plain globals: it can take the address of a function or a function
      instance, never of a global instance. */
  datatype Init = Init(functions: seq<I.Def>, instances: seq<I.Key>)

  /** `inst` is what the instance worklist asks, `sources` the functions of the module, `bodyOf` what an instance refers
      to besides other instances, and `lowersGlobal` says that a global instance can be lowered. */
  datatype World = World(
    inst: I.World, preplanned: I.Def -> bool, sources: map<I.Def, Outcome>, bodyOf: I.Key -> Discovery,
    lowersGlobal: I.Key -> bool, initOf: I.Key -> Init)

  /** The module under construction, the references it forwards, and its worklist. */
  datatype State = State(
    functions: seq<I.Def>, instances: seq<I.Key>, globals: seq<I.Key>, vtables: seq<Vtable>,
    foreign: seq<Item>, limited: bool,
    pendingFunctions: seq<I.Def>, pendingInstances: seq<I.Key>, pendingGlobals: seq<I.Key>, queued: set<Item>)

  predicate Pending(s: State, x: Item) {
    match x
    case Function(def) => def in s.pendingFunctions
    case Instance(key) => key in s.pendingInstances
    case Global(key) => key in s.pendingGlobals
  }

  predicate Materialized(s: State, x: Item) {
    match x
    case Function(def) => def in s.functions
    case Instance(key) => key in s.instances
    case Global(key) => key in s.globals
  }

  /** The module that declares an item. */
  function UnitOf(x: Item): nat {
    match x
    case Function(def) => def.unit
    case Instance(key) => key.def.unit
    case Global(key) => key.def.unit
  }

  predicate Lowers(w: World, def: I.Def) {
    def in w.sources && w.sources[def].Lowered?
  }

  predicate Idle(s: State) {
    s.pendingFunctions == [] && s.pendingInstances == [] && s.pendingGlobals == []
  }

  /** Everything an item refers to. The references of an instance to other instances are those the instance worklist
      finds in its body. */
  function DiscoveryOf(w: World, x: Item): Discovery {
    match x
    case Function(def) => if Lowers(w, def) then w.sources[def].discovery else NONE
    case Instance(key) => InstanceDiscovery(w, key)
    case Global(key) =>
      var init := w.initOf(key);
      Discovery(AsFunctions(init.functions) + AsInstances(init.instances), [])
  }

  function InstanceDiscovery(w: World, key: I.Key): Discovery {
    var found, rest := w.inst.discover(key), w.bodyOf(key);
    Discovery(rest.refs + if found.Some? then AsInstances(found.value) else [], rest.vtables)
  }

  function AsInstances(keys: seq<I.Key>): seq<Item> {
    seq(|keys|, i requires 0 <= i < |keys| => Instance(keys[i]))
  }

  function AsGlobals(keys: seq<I.Key>): seq<Item> {
    seq(|keys|, i requires 0 <= i < |keys| => Global(keys[i]))
  }

  function AsFunctions(defs: seq<I.Def>): seq<Item> {
    seq(|defs|, i requires 0 <= i < |defs| => Function(defs[i]))
  }

  // ---------------------------------------------------------------------------------------------------------------
  // Accounting.

  /** Materialized here, forwarded, planned elsewhere already, or dropped by a named filter. */
  ghost predicate Accounted(w: World, s: State, x: Item) {
    match x
    case Function(def) =>
      || def in s.functions
      || (def.unit != w.inst.unit && (w.preplanned(def) || x in s.foreign))
      || (def.unit == w.inst.unit && !Lowers(w, def))
    case Instance(key) =>
      || (key.def.unit != w.inst.unit && x in s.foreign)
      || (key.def.unit == w.inst.unit && (I.HasUnresolved(w.inst, key) || InstanceDone(w, s, I.CanonKey(w.inst, key))))
    case Global(key) =>
      || (key.def.unit != w.inst.unit && x in s.foreign)
      || (key.def.unit == w.inst.unit && GlobalDone(w, s, GlobalKey(w, key)))
  }

  /** A canonical instance key that exists, has no template or no symbol, is not ground, is nested too deep, or came
      when the module was full. */
  ghost predicate InstanceDone(w: World, s: State, key: I.Key) {
    || key in s.instances
    || key in I.KnownKeys(w.inst, s.instances)
    || !w.inst.template(key.def)
    || !I.AllGround(w.inst, key)
    || !I.AllShallow(key)
    || !w.inst.symbol(key)
    || (s.limited && |s.instances| >= I.MAX_FUNCTION_INSTANCES)
  }

  function GlobalKey(w: World, key: I.Key): I.Key {
    key.(args := seq(|key.args|, i requires 0 <= i < |key.args| => w.inst.canonArg(key.args[i])))
  }

  ghost function KnownGlobals(w: World, globals: seq<I.Key>): set<I.Key> {
    set k | k in globals :: GlobalKey(w, k)
  }

  predicate GroundArgs(w: World, key: I.Key) {
    forall i | 0 <= i < |key.args| :: I.Ground(w.inst, key.args[i])
  }

  /** Two references stand for the same global instance if and only if their keys differ in nothing but arguments with
      the same canonical forms. */
  lemma {:induction false} SameGlobalIff(w: World, a: I.Key, b: I.Key)
    ensures GlobalKey(w, a) == GlobalKey(w, b) <==>
      && a.def == b.def && a.argUnit == b.argUnit && a.self == b.self && a.consts == b.consts
      && |a.args| == |b.args|
      && forall i | 0 <= i < |a.args| :: w.inst.canonArg(a.args[i]) == w.inst.canonArg(b.args[i])
  {
    var ka, kb := GlobalKey(w, a), GlobalKey(w, b);
    if ka == kb {
      forall i | 0 <= i < |a.args| ensures w.inst.canonArg(a.args[i]) == w.inst.canonArg(b.args[i]) {
        assert ka.args[i] == kb.args[i];
      }
    } else if |a.args| == |b.args| &&
              forall i | 0 <= i < |a.args| :: w.inst.canonArg(a.args[i]) == w.inst.canonArg(b.args[i]) {
      assert ka.args == kb.args;
    }
  }

  /** The filter on global instances lets a key through if and only if nothing nested in its arguments is open. */
  lemma {:induction false} GlobalFilterDecides(w: World, key: I.Key)
    ensures GroundArgs(w, key) <==> forall t | t in key.args :: I.NothingOpen(w.inst, t)
  {
    forall i | 0 <= i < |key.args| ensures I.Ground(w.inst, key.args[i]) <==> I.NothingOpen(w.inst, key.args[i]) {
      I.GroundIffNothingOpen(w.inst, key.args[i]);
    }
    if forall t | t in key.args :: I.NothingOpen(w.inst, t) {
      forall i | 0 <= i < |key.args| ensures I.Ground(w.inst, key.args[i]) {
        assert key.args[i] in key.args;
      }
    }
  }

  /** A canonical global instance key that exists, is not ground or cannot be lowered. */
  ghost predicate GlobalDone(w: World, s: State, key: I.Key) {
    key in s.globals || key in KnownGlobals(w, s.globals) || !GroundArgs(w, key) || !w.lowersGlobal(key)
  }

  /** What may be materialized here: a lowered function, an instance that passes every filter, a ground global instance
      that can be lowered, all of this module. */
  ghost predicate Admissible(w: World, x: Item) {
    match x
    case Function(def) => def.unit == w.inst.unit && Lowers(w, def)
    case Instance(key) => I.Admitted(w.inst, key)
    case Global(key) => key.def.unit == w.inst.unit && GroundArgs(w, key) && w.lowersGlobal(key)
  }

  ghost predicate HasVtable(s: State, key: nat) {
    exists i | 0 <= i < |s.vtables| :: s.vtables[i].key == key
  }

  /** Everything referred to is waiting its turn or accounted for. */
  ghost predicate Tracked(w: World, s: State, d: Discovery) {
    && (forall x | x in d.refs :: x in s.queued || Accounted(w, s, x))
    && (forall v | v in d.vtables :: HasVtable(s, v.key))
  }

  ghost predicate EntriesTracked(w: World, s: State, v: Vtable) {
    forall x | x in v.entries :: x in s.queued || Accounted(w, s, x)
  }

  /** `hand` holds items taken from the queue and not dealt with yet. */
  ghost predicate Valid(w: World, s: State, hand: set<Item>) {
    && (forall x | x in s.queued :: Pending(s, x) || x in hand || Accounted(w, s, x))
    && (forall x | Materialized(s, x) :: Admissible(w, x) && Tracked(w, s, DiscoveryOf(w, x)))
    && (forall i | 0 <= i < |s.vtables| :: EntriesTracked(w, s, s.vtables[i]))
  }

  /** The body of `x` refers to `y`: the lowered body of a function, the body of an instance with the instances in it,
      the initializer of a global instance. */
  ghost predicate Uses(w: World, x: Item, y: Item) {
    match x
    case Function(def) => Lowers(w, def) && y in w.sources[def].discovery.refs
    case Instance(key) => y in w.bodyOf(key).refs || (y.Instance? && Finds(w, key, y.key))
    case Global(key) => match y {
      case Function(def) => def in w.initOf(key).functions
      case Instance(k) => k in w.initOf(key).instances
      case Global(_) => false
    }
  }

  ghost predicate Finds(w: World, key: I.Key, k: I.Key) {
    w.inst.discover(key).Some? && k in w.inst.discover(key).value
  }

  /** The body of `x` has this vtable. */
  ghost predicate UsesVtable(w: World, x: Item, v: Vtable) {
    match x
    case Function(def) => Lowers(w, def) && v in w.sources[def].discovery.vtables
    case Instance(key) => v in w.bodyOf(key).vtables
    case Global(_) => false
  }

  lemma {:induction false} DiscoveryIsUse(w: World, x: Item)
    ensures forall y :: y in DiscoveryOf(w, x).refs <==> Uses(w, x, y)
    ensures forall v :: v in DiscoveryOf(w, x).vtables <==> UsesVtable(w, x, v)
  {
    match x
    case Function(_) =>
    case Instance(key) =>
      InstancesAreListed(if w.inst.discover(key).Some? then w.inst.discover(key).value else []);
    case Global(key) =>
      InstancesAreListed(w.initOf(key).instances);
      FunctionsAreListed(w.initOf(key).functions);
  }

  lemma {:induction false} InstancesAreListed(keys: seq<I.Key>)
    ensures forall y :: y in AsInstances(keys) <==> y.Instance? && y.key in keys
  {
    forall y: Item | y.Instance? && y.key in keys ensures y in AsInstances(keys) {
      var i :| 0 <= i < |keys| && keys[i] == y.key;
      assert AsInstances(keys)[i] == y;
    }
  }

  lemma {:induction false} FunctionsAreListed(defs: seq<I.Def>)
    ensures forall y :: y in AsFunctions(defs) <==> y.Function? && y.def in defs
  {
    forall y: Item | y.Function? && y.def in defs ensures y in AsFunctions(defs) {
      var i :| 0 <= i < |defs| && defs[i] == y.def;
      assert AsFunctions(defs)[i] == y;
    }
  }

  /** Nothing is referred to and unaccounted for. */
  ghost predicate Covered(w: World, s: State, d: Discovery) {
    && (forall x | x in d.refs :: Accounted(w, s, x))
    && (forall v | v in d.vtables :: HasVtable(s, v.key))
  }

  /** What the body of `x` refers to is accounted for, and its vtables are there. */
  ghost predicate BodyCovered(w: World, s: State, x: Item) {
    && (forall y | Uses(w, x, y) :: Accounted(w, s, y))
    && (forall v | UsesVtable(w, x, v) :: HasVtable(s, v.key))
  }

  ghost predicate Closed(w: World, s: State) {
    && (forall x | Materialized(s, x) :: Admissible(w, x) && BodyCovered(w, s, x))
    && (forall i, x | 0 <= i < |s.vtables| && x in s.vtables[i].entries :: Accounted(w, s, x))
  }

  lemma {:induction false} CoveredIsBodyCovered(w: World, s: State, x: Item)
    ensures Covered(w, s, DiscoveryOf(w, x)) <==> BodyCovered(w, s, x)
  {
    DiscoveryIsUse(w, x);
  }

  ghost predicate AllAccounted(w: World, s: State, items: set<Item>) {
    forall x | x in items :: Accounted(w, s, x)
  }

  lemma {:induction false} DrainedIsClosed(w: World, s: State)
    requires Valid(w, s, {}) && Idle(s)
    ensures Closed(w, s) && AllAccounted(w, s, s.queued)
  {
    forall x | x in s.queued ensures Accounted(w, s, x) {
      assert !Pending(s, x);
    }
    forall x | Materialized(s, x) ensures BodyCovered(w, s, x) {
      assert Tracked(w, s, DiscoveryOf(w, x));
      CoveredIsBodyCovered(w, s, x);
    }
    forall i, x | 0 <= i < |s.vtables| && x in s.vtables[i].entries ensures Accounted(w, s, x) {
      assert EntriesTracked(w, s, s.vtables[i]);
    }
  }

  /** The worklist of a finished module: its own items count as queued, nothing is pending. */
  function Reopened(s: State): State {
    s.(pendingFunctions := [], pendingInstances := [], pendingGlobals := [],
       queued := (set x | x in AsFunctions(s.functions)) + (set x | x in AsInstances(s.instances))
               + (set x | x in AsGlobals(s.globals)))
  }

  lemma {:induction false} OwnItemsAreAccounted(w: World, s: State)
    requires forall x | Materialized(s, x) :: Admissible(w, x)
    ensures AllAccounted(w, s, Reopened(s).queued)
  {
    forall x | x in Reopened(s).queued ensures Accounted(w, s, x) {
      assert Materialized(s, x);
      if x.Instance? {
        assert I.CanonKey(w.inst, x.key) in I.KnownKeys(w.inst, s.instances);
      }
      if x.Global? {
        assert GlobalKey(w, x.key) in KnownGlobals(w, s.globals);
      }
    }
  }

  /** Work on a closed module resumes in a valid state, although its worklist forgot what was forwarded or dropped. */
  lemma {:induction false} ReopenedIsValid(w: World, s: State)
    requires Closed(w, s)
    ensures Valid(w, Reopened(s), {})
  {
    var r := Reopened(s);
    OwnItemsAreAccounted(w, s);
    SameItems(w, s, r);
    forall x | Materialized(r, x) ensures Admissible(w, x) && Tracked(w, r, DiscoveryOf(w, x)) {
      assert Materialized(s, x);
      CoveredIsBodyCovered(w, s, x);
      StaysCovered(w, s, r, DiscoveryOf(w, x));
    }
  }

  /** States with the same items and forwarded references account for the same references. */
  lemma {:induction false} SameItems(w: World, s: State, t: State)
    requires s.functions == t.functions && s.instances == t.instances && s.globals == t.globals
    requires s.foreign == t.foreign && s.limited == t.limited
    ensures forall x :: Accounted(w, s, x) <==> Accounted(w, t, x)
  {
  }

  lemma {:induction false} StaysCovered(w: World, s: State, t: State, d: Discovery)
    requires Covered(w, s, d) && s.vtables <= t.vtables
    requires forall x | Accounted(w, s, x) :: Accounted(w, t, x)
    ensures Covered(w, t, d)
  {
    forall v | v in d.vtables ensures HasVtable(t, v.key) {
      VtableStays(s, t, v.key);
    }
  }

  lemma {:induction false} VtableStays(s: State, t: State, key: nat)
    requires HasVtable(s, key) && s.vtables <= t.vtables
    ensures HasVtable(t, key)
  {
    var i :| 0 <= i < |s.vtables| && s.vtables[i].key == key;
    assert t.vtables[i].key == key;
  }

  // ---------------------------------------------------------------------------------------------------------------
  // Queueing.

  /** `d` refers to `x` or has a vtable with `x` in it. */
  ghost predicate Mentions(d: Discovery, x: Item) {
    x in d.refs || exists v | v in d.vtables :: x in v.entries
  }

  ghost predicate SameQueue(s: State, t: State) {
    && t.pendingFunctions == s.pendingFunctions
    && t.pendingInstances == s.pendingInstances
    && t.pendingGlobals == s.pendingGlobals
    && t.queued == s.queued
  }

  /** What queueing `d` may do: items of `d` become pending, and new vtables are those of `d`, with their entries
      queued. */
  ghost predicate Grown(s: State, t: State, d: Discovery) {
    && t == s.(vtables := t.vtables, pendingFunctions := t.pendingFunctions, pendingInstances := t.pendingInstances,
               pendingGlobals := t.pendingGlobals, queued := t.queued)
    && s.vtables <= t.vtables
    && s.queued <= t.queued
    && (forall x | Pending(s, x) :: Pending(t, x))
    && (forall x | Pending(t, x) :: Pending(s, x) || Mentions(d, x))
    && (forall x | x in t.queued :: x in s.queued || Pending(t, x))
    && (forall i | |s.vtables| <= i < |t.vtables| :: t.vtables[i] in d.vtables)
    && (forall i, x | |s.vtables| <= i < |t.vtables| && x in t.vtables[i].entries :: x in t.queued)
  }

  lemma {:induction false} GrownThrough(s: State, t: State, r: State, d: Discovery)
    requires Grown(s, t, d) && Grown(t, r, d)
    ensures Grown(s, r, d)
  {
  }

  /** One item never queued before. */
  function Pushed(s: State, x: Item): State {
    var t := s.(queued := s.queued + {x});
    match x
    case Function(def) => t.(pendingFunctions := t.pendingFunctions + [def])
    case Instance(key) => t.(pendingInstances := t.pendingInstances + [key])
    case Global(key) => t.(pendingGlobals := t.pendingGlobals + [key])
  }

  lemma {:induction false} PushedThrough(s: State, t: State, x: Item, d: Discovery)
    requires Grown(s, t, d) && t.vtables == s.vtables && Mentions(d, x)
    ensures Grown(s, Pushed(t, x), d) && Pushed(t, x).vtables == s.vtables
    ensures Pushed(t, x).queued == t.queued + {x}
  {
    GrownThrough(s, t, Pushed(t, x), d);
  }

  method Enqueue(s: State, refs: seq<Item>, ghost d: Discovery) returns (t: State)
    requires forall x | x in refs :: Mentions(d, x)
    ensures Grown(s, t, d) && t.vtables == s.vtables && forall x | x in refs :: x in t.queued
    ensures refs == [] ==> t == s
  {
    t := s;
    for i := 0 to |refs|
      invariant Grown(s, t, d) && t.vtables == s.vtables && forall j | 0 <= j < i :: refs[j] in t.queued
      invariant i == 0 ==> t == s
    {
      if refs[i] !in t.queued {
        assert refs[i] in refs;
        PushedThrough(s, t, refs[i], d);
        t := Pushed(t, refs[i]);
      }
    }
  }

  /** Adds the vtables with new keys and queues their entries. */
  method AppendVtableDelta(s: State, vtables: seq<Vtable>, ghost d: Discovery) returns (t: State, changed: bool)
    requires forall v | v in vtables :: v in d.vtables
    ensures Grown(s, t, d) && (changed <==> t.vtables != s.vtables) && (!changed ==> t == s)
    ensures forall v | v in vtables :: HasVtable(t, v.key)
    ensures vtables == [] ==> t == s
  {
    t, changed := s, false;
    for i := 0 to |vtables|
      invariant Grown(s, t, d) && (changed <==> t.vtables != s.vtables) && (!changed ==> t == s)
      invariant forall j | 0 <= j < i :: HasVtable(t, vtables[j].key)
      invariant i == 0 ==> t == s
    {
      var v := vtables[i];
      assert v in vtables;
      if forall j | 0 <= j < |t.vtables| :: t.vtables[j].key != v.key {
        ghost var before := t;
        t := AddVtable(t, v, d);
        GrownThrough(s, before, t, d);
        forall j | 0 <= j < i ensures HasVtable(t, vtables[j].key) {
          VtableStays(before, t, vtables[j].key);
        }
        changed := true;
      }
    }
  }

  method AddVtable(s: State, v: Vtable, ghost d: Discovery) returns (t: State)
    requires v in d.vtables
    ensures Grown(s, t, d) && t.vtables == s.vtables + [v] && HasVtable(t, v.key)
  {
    t := Enqueue(s, v.entries, d);
    t := t.(vtables := t.vtables + [v]);
    assert t.vtables[|s.vtables|] == v;
  }

  /** Queues all references and then the entries of new vtables. */
  method EnqueueDiscovery(s: State, d: Discovery) returns (t: State, changed: bool)
    ensures Grown(s, t, d) && (changed <==> t.vtables != s.vtables) && (d == NONE ==> t == s)
    ensures (forall x | x in d.refs :: x in t.queued) && forall v | v in d.vtables :: HasVtable(t, v.key)
  {
    var mid := Enqueue(s, d.refs, d);
    t, changed := AppendVtableDelta(mid, d.vtables, d);
    GrownThrough(s, mid, t, d);
  }

  // ---------------------------------------------------------------------------------------------------------------
  // Validity is kept.

  lemma {:induction false} StaysTracked(w: World, s: State, t: State, d: Discovery)
    requires Tracked(w, s, d) && s.queued <= t.queued && s.vtables <= t.vtables
    requires forall x | Accounted(w, s, x) :: Accounted(w, t, x)
    ensures Tracked(w, t, d)
  {
    forall v | v in d.vtables ensures HasVtable(t, v.key) {
      VtableStays(s, t, v.key);
    }
  }

  lemma {:induction false} GrownIsValid(w: World, s: State, t: State, d: Discovery, hand: set<Item>)
    requires Valid(w, s, hand) && Grown(s, t, d)
    ensures Valid(w, t, hand)
  {
    SameItems(w, s, t);
    forall x | Materialized(t, x) ensures Admissible(w, x) && Tracked(w, t, DiscoveryOf(w, x)) {
      assert Materialized(s, x);
      StaysTracked(w, s, t, DiscoveryOf(w, x));
    }
    forall i | 0 <= i < |t.vtables| ensures EntriesTracked(w, t, t.vtables[i]) {
      if i < |s.vtables| {
        assert EntriesTracked(w, s, s.vtables[i]);
      }
    }
  }

  /** Items and forwarded references grew, nothing else changed. */
  ghost predicate Extended(s: State, t: State) {
    && t == s.(functions := t.functions, instances := t.instances, globals := t.globals, foreign := t.foreign,
               limited := t.limited)
    && s.functions <= t.functions && s.instances <= t.instances && s.globals <= t.globals
    && s.foreign <= t.foreign && (s.limited ==> t.limited)
  }

  lemma {:induction false} StillAccounted(w: World, s: State, t: State)
    requires s.functions <= t.functions && s.instances <= t.instances && s.globals <= t.globals
    requires s.foreign <= t.foreign && (s.limited ==> t.limited)
    ensures forall x | Accounted(w, s, x) :: Accounted(w, t, x)
  {
    assert forall k | k in s.instances :: k in t.instances;
    assert forall k | k in s.globals :: k in t.globals;
    assert forall x | x in s.foreign :: x in t.foreign;
  }

  /** What was in hand is dealt with, and new items have their references queued. */
  lemma {:induction false} HandIsEmptied(w: World, s: State, t: State, hand: set<Item>)
    requires Valid(w, s, hand) && Extended(s, t)
    requires AllAccounted(w, t, hand)
    requires forall x | Materialized(t, x) && !Materialized(s, x) ::
      Admissible(w, x) && Tracked(w, s, DiscoveryOf(w, x))
    ensures Valid(w, t, {})
  {
    StillAccounted(w, s, t);
    forall x | x in t.queued ensures Pending(t, x) || Accounted(w, t, x) {
      assert Pending(s, x) ==> Pending(t, x);
    }
    forall x | Materialized(t, x) ensures Admissible(w, x) && Tracked(w, t, DiscoveryOf(w, x)) {
      StaysTracked(w, s, t, DiscoveryOf(w, x));
    }
    forall i | 0 <= i < |t.vtables| ensures EntriesTracked(w, t, t.vtables[i]) {
      assert EntriesTracked(w, s, s.vtables[i]);
    }
  }

  /** Items, vtables and forwarded references only grew. Instances stop at the limit, and only a full module is
      marked as limited. */
  ghost predicate Gained(s: State, t: State) {
    && s.functions <= t.functions && s.instances <= t.instances && s.globals <= t.globals && s.vtables <= t.vtables
    && s.foreign <= t.foreign
    && |t.instances| <= Max(|s.instances|, I.MAX_FUNCTION_INSTANCES)
    && (s.limited ==> t.limited)
    && (t.limited ==> s.limited || |t.instances| >= I.MAX_FUNCTION_INSTANCES)
  }

  /** Nothing is taken back. */
  ghost predicate Keeps(s: State, t: State) {
    Gained(s, t) && s.queued <= t.queued
  }

  lemma {:induction false} KeepsThrough(s: State, t: State, r: State)
    requires Keeps(s, t) && Keeps(t, r)
    ensures Keeps(s, r)
  {
  }

  /** Items were taken off the queue into the hand. */
  lemma {:induction false} TakenIsValid(w: World, s: State, t: State, hand: set<Item>)
    requires Valid(w, s, {})
    requires t == s.(pendingFunctions := t.pendingFunctions, pendingInstances := t.pendingInstances,
                     pendingGlobals := t.pendingGlobals)
    requires forall x | Pending(s, x) :: Pending(t, x) || x in hand
    ensures Valid(w, t, hand)
  {
    SameItems(w, s, t);
    forall x | Materialized(t, x) ensures Admissible(w, x) && Tracked(w, t, DiscoveryOf(w, x)) {
      assert Materialized(s, x);
      StaysTracked(w, s, t, DiscoveryOf(w, x));
    }
    forall i | 0 <= i < |t.vtables| ensures EntriesTracked(w, t, t.vtables[i]) {
      assert EntriesTracked(w, s, s.vtables[i]);
    }
  }

  // ---------------------------------------------------------------------------------------------------------------
  // Provenance: nothing is materialized, forwarded or added without a chain of references from the roots.

  /** The item that a reference materializes as: instances and global instances under their canonical key. */
  function Target(w: World, x: Item): Item {
    match x
    case Function(_) => x
    case Instance(key) => Instance(I.CanonKey(w.inst, key))
    case Global(key) => Global(GlobalKey(w, key))
  }

  /** The body of `x` or a vtable in it refers to `y`, which the instance worklist may have brought into canonical
      form. */
  ghost predicate RefersTo(w: World, x: Item, y: Item) {
    || Uses(w, x, y)
    || (exists v | UsesVtable(w, x, v) :: y in v.entries)
    || (x.Instance? && y.Instance? && I.Refers(w.inst, x.key, y.key))
  }

  lemma {:induction false} MentionIsReference(w: World, x: Item, y: Item)
    requires Mentions(DiscoveryOf(w, x), y)
    ensures RefersTo(w, x, y)
  {
    DiscoveryIsUse(w, x);
  }

  /** What `x` stands for was materialized and refers to `y`. */
  ghost predicate Link(w: World, s: State, x: Item, y: Item) {
    Materialized(s, Target(w, x)) && RefersTo(w, Target(w, x), y)
  }

  ghost predicate Path(w: World, s: State, roots: iset<Item>, p: seq<Item>) {
    p != [] && p[0] in roots && forall i | 0 < i < |p| :: Link(w, s, p[i - 1], p[i])
  }

  ghost predicate Reachable(w: World, s: State, roots: iset<Item>, x: Item) {
    exists p :: Path(w, s, roots, p) && p[|p| - 1] == x
  }

  /** A reachable reference stands for `x`. */
  ghost predicate Wanted(w: World, s: State, roots: iset<Item>, x: Item) {
    exists r :: Reachable(w, s, roots, r) && Target(w, r) == x
  }

  /** Some materialized item has this vtable. */
  ghost predicate InUse(w: World, s: State, v: Vtable) {
    exists x :: Materialized(s, x) && UsesVtable(w, x, v)
  }

  /** Everything that `s` has and `base` does not have was asked for. */
  ghost predicate Sourced(w: World, roots: iset<Item>, base: State, s: State) {
    && (forall x | Materialized(s, x) && !Materialized(base, x) :: Wanted(w, s, roots, x))
    && (forall i | |base.foreign| <= i < |s.foreign| :: Reachable(w, s, roots, s.foreign[i]))
    && (forall i | |base.vtables| <= i < |s.vtables| :: InUse(w, s, s.vtables[i]))
  }

  ghost predicate Rooted(w: World, roots: iset<Item>, base: State, s: State) {
    (forall x | Pending(s, x) :: Reachable(w, s, roots, x)) && Sourced(w, roots, base, s)
  }

  ghost function Waiting(s: State): iset<Item> {
    iset x | Pending(s, x)
  }

  lemma {:induction false} RootIsReachable(w: World, s: State, roots: iset<Item>, x: Item)
    requires x in roots
    ensures Reachable(w, s, roots, x)
  {
    assert Path(w, s, roots, [x]);
  }

  lemma {:induction false} LinkReaches(w: World, s: State, roots: iset<Item>, x: Item, y: Item)
    requires Reachable(w, s, roots, x) && Link(w, s, x, y)
    ensures Reachable(w, s, roots, y)
  {
    var p :| Path(w, s, roots, p) && p[|p| - 1] == x;
    assert Path(w, s, roots, p + [y]);
  }

  /** Paths stay when more is materialized. */
  lemma {:induction false} StaysReachable(w: World, s: State, t: State, roots: iset<Item>, x: Item)
    requires Reachable(w, s, roots, x) && forall y | Materialized(s, y) :: Materialized(t, y)
    ensures Reachable(w, t, roots, x)
  {
    var p :| Path(w, s, roots, p) && p[|p| - 1] == x;
    forall i | 0 < i < |p| ensures Link(w, t, p[i - 1], p[i]) {
      assert Link(w, s, p[i - 1], p[i]);
    }
  }

  lemma {:induction false} StaysWanted(w: World, s: State, t: State, roots: iset<Item>, x: Item)
    requires Wanted(w, s, roots, x) && forall y | Materialized(s, y) :: Materialized(t, y)
    ensures Wanted(w, t, roots, x)
  {
    var r :| Reachable(w, s, roots, r) && Target(w, r) == x;
    StaysReachable(w, s, t, roots, r);
  }

  /** What a wanted and materialized item refers to is reachable. */
  lemma {:induction false} WantedReaches(w: World, s: State, roots: iset<Item>, x: Item, y: Item)
    requires Wanted(w, s, roots, x) && Materialized(s, x) && RefersTo(w, x, y)
    ensures Reachable(w, s, roots, y)
  {
    var r :| Reachable(w, s, roots, r) && Target(w, r) == x;
    LinkReaches(w, s, roots, r, y);
  }

  /** A run starts with the pending items as its roots. */
  lemma {:induction false} WaitingIsRooted(w: World, s: State)
    ensures Rooted(w, Waiting(s), s, s)
  {
    forall x | Pending(s, x) ensures Reachable(w, s, Waiting(s), x) {
      RootIsReachable(w, s, Waiting(s), x);
    }
  }

  /** The new items of `t` are `items`, and they are wanted. */
  ghost predicate AllWanted(w: World, roots: iset<Item>, q: State, t: State, items: seq<Item>) {
    && (forall x | Materialized(q, x) :: Materialized(t, x))
    && (forall x | Materialized(t, x) && !Materialized(q, x) :: x in items)
    && (forall x | x in items :: Materialized(t, x) && Wanted(w, t, roots, x))
  }

  ghost predicate AllReachable(w: World, roots: iset<Item>, q: State, t: State) {
    q.foreign <= t.foreign && forall i | |q.foreign| <= i < |t.foreign| :: Reachable(w, t, roots, t.foreign[i])
  }

  /** What `d` mentions is what some of `items` mentions. */
  ghost predicate IsOf(w: World, d: Discovery, items: seq<Item>) {
    && (forall y | Mentions(d, y) :: exists x | x in items :: Mentions(DiscoveryOf(w, x), y))
    && (forall v | v in d.vtables :: exists x | x in items :: v in DiscoveryOf(w, x).vtables)
  }

  /** `items`, whose references `d` are queued in `q`, were materialized in `t`. */
  ghost predicate Adds(w: World, roots: iset<Item>, q: State, t: State, items: seq<Item>, d: Discovery) {
    && AllWanted(w, roots, q, t, items)
    && AllReachable(w, roots, q, t)
    && IsOf(w, d, items)
    && t.vtables == q.vtables
    && (forall x | Pending(t, x) :: Pending(q, x))
  }

  lemma {:induction false} AddedIsRooted(
    w: World, roots: iset<Item>, base: State, s: State, q: State, t: State, items: seq<Item>, d: Discovery)
    requires Rooted(w, roots, base, s) && Grown(s, q, d) && Adds(w, roots, q, t, items, d)
    ensures Rooted(w, roots, base, t)
  {
    forall x | Pending(t, x) ensures Reachable(w, t, roots, x) {
      PendingIsReachable(w, roots, s, q, t, items, d, x);
    }
    AddedIsSourced(w, roots, base, s, q, t, items, d);
  }

  lemma {:induction false} PendingIsReachable(
    w: World, roots: iset<Item>, s: State, q: State, t: State, items: seq<Item>, d: Discovery, x: Item)
    requires forall y | Pending(s, y) :: Reachable(w, s, roots, y)
    requires Grown(s, q, d) && Adds(w, roots, q, t, items, d) && Pending(t, x)
    ensures Reachable(w, t, roots, x)
  {
    if Pending(s, x) {
      StaysReachable(w, s, t, roots, x);
    } else {
      var m :| m in items && Mentions(DiscoveryOf(w, m), x);
      MentionIsReference(w, m, x);
      WantedReaches(w, t, roots, m, x);
    }
  }

  lemma {:induction false} AddedIsSourced(
    w: World, roots: iset<Item>, base: State, s: State, q: State, t: State, items: seq<Item>, d: Discovery)
    requires Sourced(w, roots, base, s) && Grown(s, q, d) && Adds(w, roots, q, t, items, d)
    ensures Sourced(w, roots, base, t)
  {
    forall x | Materialized(t, x) && !Materialized(base, x) ensures Wanted(w, t, roots, x) {
      if x !in items {
        assert Materialized(s, x);
        StaysWanted(w, s, t, roots, x);
      }
    }
    forall i | |base.foreign| <= i < |t.foreign| ensures Reachable(w, t, roots, t.foreign[i]) {
      if i < |s.foreign| {
        StaysReachable(w, s, t, roots, s.foreign[i]);
      }
    }
    forall i | |base.vtables| <= i < |t.vtables| ensures InUse(w, t, t.vtables[i]) {
      if i < |s.vtables| {
        assert InUse(w, s, s.vtables[i]);
      } else {
        assert t.vtables[i] in d.vtables;
        var x :| x in items && t.vtables[i] in DiscoveryOf(w, x).vtables;
        DiscoveryIsUse(w, x);
      }
    }
  }

  // ---------------------------------------------------------------------------------------------------------------
  // The three drains.

  /** What every part of the loop keeps. */
  ghost predicate Sound(w: World, roots: iset<Item>, base: State, s: State) {
    Valid(w, s, {}) && Rooted(w, roots, base, s)
  }

  /** How much can still be materialized. Functions have finitely many sources and instances have a limit. */
  ghost function Room(w: World, s: State): nat {
    (if |s.instances| < I.MAX_FUNCTION_INSTANCES then I.MAX_FUNCTION_INSTANCES - |s.instances| else 0)
    + |w.sources.Keys - SetOf(s.functions)|
  }

  lemma {:induction false} FunctionTakesRoom(w: World, s: State, t: State, def: I.Def)
    requires t.functions == s.functions + [def] && t.instances == s.instances
    requires def in w.sources && def !in s.functions
    ensures Room(w, t) < Room(w, s)
  {
    assert w.sources.Keys - SetOf(s.functions) == (w.sources.Keys - SetOf(t.functions)) + {def};
  }

  /** What was forwarded since `s`. */
  function Forwarded(s: State, t: State): seq<Item> {
    if |s.foreign| <= |t.foreign| then t.foreign[|s.foreign|..] else []
  }

  /** Only references to other modules are forwarded, and without using room only those that were pending and, after
      global instances were, functions and function instances. */
  ghost predicate Frugal(w: World, s: State, t: State) {
    && Room(w, t) <= Room(w, s)
    && s.foreign <= t.foreign
    && (forall x | x in Forwarded(s, t) :: UnitOf(x) != w.inst.unit)
    && (Room(w, t) == Room(w, s) ==> forall x | Pending(t, x) || x in Forwarded(s, t) :: Earlier(s, x))
  }

  ghost predicate Earlier(s: State, x: Item) {
    x.Global? || s.pendingGlobals == [] ==> Pending(s, x)
  }

  lemma {:induction false} FrugalThrough(w: World, s: State, t: State, r: State)
    requires Frugal(w, s, t) && Frugal(w, t, r)
    ensures Frugal(w, s, r)
  {
    assert Forwarded(s, r) == Forwarded(s, t) + Forwarded(t, r);
    if Room(w, r) == Room(w, s) {
      if s.pendingGlobals == [] && t.pendingGlobals != [] {
        assert Pending(t, Global(t.pendingGlobals[0]));
        assert false;
      }
      forall x | Pending(r, x) || x in Forwarded(s, r) ensures Earlier(s, x) {
        assert x in Forwarded(s, t) || Earlier(t, x);
      }
    }
  }

  lemma {:induction false} SameIsFrugal(w: World, s: State)
    ensures Frugal(w, s, s)
  {
  }

  /** There is less room, or the same room and the queue of `t`. */
  ghost predicate Down(w: World, s: State, t: State, r: State) {
    Room(w, r) < Room(w, s) || (Room(w, r) == Room(w, s) && SameQueue(t, r))
  }

  function PopFunction(s: State): State
    requires s.pendingFunctions != []
  {
    s.(pendingFunctions := s.pendingFunctions[1..])
  }

  /** A pending function that is forwarded or dropped. */
  lemma {:induction false} FunctionIsSettled(w: World, roots: iset<Item>, base: State, s: State, t: State)
    requires Sound(w, roots, base, s) && s.pendingFunctions != []
    requires Accounted(w, t, Function(s.pendingFunctions[0]))
    requires || t == PopFunction(s)
             || t == PopFunction(s).(foreign := s.foreign + [Function(s.pendingFunctions[0])])
    ensures Sound(w, roots, base, t)
  {
    var x, popped := Function(s.pendingFunctions[0]), PopFunction(s);
    FunctionIsTaken(w, s, x);
    HandIsEmptied(w, popped, t, {x});
    SettledIsRooted(w, roots, base, s, t, x);
  }

  lemma {:induction false} FunctionIsTaken(w: World, s: State, x: Item)
    requires Valid(w, s, {}) && s.pendingFunctions != [] && x == Function(s.pendingFunctions[0])
    ensures Valid(w, PopFunction(s), {x}) && Pending(s, x)
  {
    assert forall y | Pending(s, y) :: Pending(PopFunction(s), y) || y == x;
    TakenIsValid(w, s, PopFunction(s), {x});
  }

  lemma {:induction false} SettledIsRooted(w: World, roots: iset<Item>, base: State, s: State, t: State, x: Item)
    requires Rooted(w, roots, base, s) && Pending(s, x)
    requires t == s.(pendingFunctions := t.pendingFunctions, foreign := t.foreign)
    requires t.foreign == s.foreign || t.foreign == s.foreign + [x]
    requires forall y | Pending(t, y) :: Pending(s, y)
    ensures Rooted(w, roots, base, t)
  {
    StaysReachable(w, s, t, roots, x);
    assert AllWanted(w, roots, s, t, []) && AllReachable(w, roots, s, t);
    AddedIsRooted(w, roots, base, s, s, t, [], NONE);
  }

  /** A pending function whose references were queued and which is materialized. */
  lemma {:induction false} FunctionIsAdded(
    w: World, roots: iset<Item>, base: State, s: State, q: State, t: State, def: I.Def)
    requires Sound(w, roots, base, s) && s.pendingFunctions != [] && def == s.pendingFunctions[0]
    requires Admissible(w, Function(def)) && Grown(PopFunction(s), q, DiscoveryOf(w, Function(def)))
    requires forall x | x in DiscoveryOf(w, Function(def)).refs :: x in q.queued
    requires forall v | v in DiscoveryOf(w, Function(def)).vtables :: HasVtable(q, v.key)
    requires t == q.(functions := q.functions + [def])
    ensures Sound(w, roots, base, t)
  {
    var x, d := Function(def), DiscoveryOf(w, Function(def));
    FunctionIsTaken(w, s, x);
    GrownIsValid(w, PopFunction(s), q, d, {x});
    assert Tracked(w, q, d);
    HandIsEmptied(w, q, t, {x});
    PoppedIsRooted(w, roots, base, s, PopFunction(s));
    StaysReachable(w, s, t, roots, x);
    OneIsAdded(w, roots, base, PopFunction(s), q, t, def);
  }

  lemma {:induction false} OneIsAdded(
    w: World, roots: iset<Item>, base: State, s: State, q: State, t: State, def: I.Def)
    requires Rooted(w, roots, base, s) && Grown(s, q, DiscoveryOf(w, Function(def)))
    requires t == q.(functions := q.functions + [def]) && Reachable(w, t, roots, Function(def))
    ensures Rooted(w, roots, base, t)
  {
    var x, d := Function(def), DiscoveryOf(w, Function(def));
    assert Target(w, x) == x && x in [x];
    assert AllWanted(w, roots, q, t, [x]) && AllReachable(w, roots, q, t) && IsOf(w, d, [x]);
    AddedIsRooted(w, roots, base, s, q, t, [x], d);
  }

  lemma {:induction false} PoppedIsRooted(w: World, roots: iset<Item>, base: State, s: State, t: State)
    requires Rooted(w, roots, base, s)
    requires t == s.(pendingFunctions := t.pendingFunctions, pendingInstances := t.pendingInstances,
                     pendingGlobals := t.pendingGlobals)
    requires forall x | Pending(t, x) :: Pending(s, x)
    ensures Rooted(w, roots, base, t)
  {
    assert Adds(w, roots, s, t, [], NONE);
    AddedIsRooted(w, roots, base, s, s, t, [], NONE);
  }

  lemma {:induction false} SettledIsFrugal(w: World, s: State, t: State)
    requires s.pendingFunctions != []
    requires var def := s.pendingFunctions[0];
      t == PopFunction(s) ||
      (def.unit != w.inst.unit && t == PopFunction(s).(foreign := s.foreign + [Function(def)]))
    ensures Frugal(w, s, t)
  {
    assert t.foreign == s.foreign ==> Forwarded(s, t) == [];
    assert t.foreign == s.foreign + [Function(s.pendingFunctions[0])] ==>
      Forwarded(s, t) == [Function(s.pendingFunctions[0])];
    assert forall x | Pending(t, x) :: Pending(s, x);
  }

  lemma {:induction false} SettledStep(w: World, roots: iset<Item>, base: State, s: State, t: State)
    requires Sound(w, roots, base, s) && s.pendingFunctions != []
    requires Accounted(w, t, Function(s.pendingFunctions[0]))
    requires var def := s.pendingFunctions[0];
      t == PopFunction(s) ||
      (def.unit != w.inst.unit && t == PopFunction(s).(foreign := s.foreign + [Function(def)]))
    ensures Sound(w, roots, base, t) && Keeps(s, t) && Frugal(w, s, t) && Down(w, s, PopFunction(s), t)
  {
    FunctionIsSettled(w, roots, base, s, t);
    SettledIsFrugal(w, s, t);
  }

  /** One pending function. */
  method LowerFunction(w: World, s: State, ghost roots: iset<Item>, ghost base: State) returns (t: State, changed: bool)
    requires Sound(w, roots, base, s) && s.pendingFunctions != []
    ensures Sound(w, roots, base, t) && Keeps(s, t) && Frugal(w, s, t) && Down(w, s, PopFunction(s), t)
  {
    var def := s.pendingFunctions[0];
    t, changed := PopFunction(s), false;
    if def.unit != w.inst.unit {
      if !w.preplanned(def) {
        t := t.(foreign := t.foreign + [Function(def)]);
      }
      SettledStep(w, roots, base, s, t);
      return;
    }
    if def in s.functions || !Lowers(w, def) {
      SettledStep(w, roots, base, s, t);
      return;
    }
    t := AddFunction(w, s, def, roots, base);
    changed := true;
  }

  /** Materializes a pending function and queues what it refers to. */
  method AddFunction(w: World, s: State, def: I.Def, ghost roots: iset<Item>, ghost base: State) returns (t: State)
    requires Sound(w, roots, base, s) && s.pendingFunctions != [] && def == s.pendingFunctions[0]
    requires def !in s.functions && Admissible(w, Function(def))
    ensures Sound(w, roots, base, t) && Keeps(s, t) && Frugal(w, s, t) && Room(w, t) < Room(w, s)
  {
    var queued, _ := EnqueueDiscovery(PopFunction(s), w.sources[def].discovery);
    t := queued.(functions := queued.functions + [def]);
    FunctionIsAdded(w, roots, base, s, queued, t, def);
    FunctionTakesRoom(w, s, t, def);
    assert Forwarded(s, t) == [];
  }

  /** Progress of a part of a round: less room, or the same room and some pending lists emptied. */
  ghost predicate Advances(w: World, s: State, t: State) {
    || Room(w, t) < Room(w, s)
    || (Room(w, t) == Room(w, s)
        && Shorter(t.pendingFunctions, s.pendingFunctions)
        && Shorter(t.pendingInstances, s.pendingInstances)
        && Shorter(t.pendingGlobals, s.pendingGlobals))
  }

  ghost predicate Shorter<T>(a: seq<T>, b: seq<T>) {
    a == [] || a == b
  }

  method LowerFunctionClosure(w: World, s: State, ghost roots: iset<Item>, ghost base: State)
    returns (t: State, changed: bool)
    requires Sound(w, roots, base, s)
    ensures Sound(w, roots, base, t) && Keeps(s, t) && Frugal(w, s, t) && t.pendingFunctions == [] && Advances(w, s, t)
    ensures s.pendingFunctions == [] ==> t == s && !changed
  {
    t, changed := s, false;
    SameIsFrugal(w, s);
    while t.pendingFunctions != []
      invariant Sound(w, roots, base, t) && Keeps(s, t) && (s.pendingFunctions == [] ==> t == s && !changed)
      invariant Frugal(w, s, t)
      invariant Room(w, t) < Room(w, s) ||
        (Room(w, t) == Room(w, s) && t.pendingInstances == s.pendingInstances && t.pendingGlobals == s.pendingGlobals)
      decreases Room(w, t), |t.pendingFunctions|
    {
      ghost var before := t;
      var one;
      t, one := LowerFunction(w, t, roots, base);
      KeepsThrough(s, before, t);
      FrugalThrough(w, s, before, t);
      changed := changed || one;
    }
  }

  function AllDiscoveries(w: World, items: seq<Item>): Discovery {
    if items == [] then NONE else
    var rest, last := AllDiscoveries(w, items[..|items| - 1]), DiscoveryOf(w, items[|items| - 1]);
    Discovery(rest.refs + last.refs, rest.vtables + last.vtables)
  }

  lemma {:induction false} InAllDiscoveries(w: World, items: seq<Item>, x: Item)
    requires x in items
    ensures forall y | y in DiscoveryOf(w, x).refs :: y in AllDiscoveries(w, items).refs
    ensures forall v | v in DiscoveryOf(w, x).vtables :: v in AllDiscoveries(w, items).vtables
    decreases |items|
  {
    if x != items[|items| - 1] {
      InAllDiscoveries(w, items[..|items| - 1], x);
    }
  }

  /** Each reference and each vtable in the discoveries of several items belongs to one of them. */
  lemma {:induction false} FromOneDiscovery(w: World, items: seq<Item>)
    ensures forall y | y in AllDiscoveries(w, items).refs :: exists x | x in items :: y in DiscoveryOf(w, x).refs
    ensures forall v | v in AllDiscoveries(w, items).vtables :: exists x | x in items :: v in DiscoveryOf(w, x).vtables
    decreases |items|
  {
    if items != [] {
      FromOneDiscovery(w, items[..|items| - 1]);
      assert items[|items| - 1] in items;
    }
  }

  lemma {:induction false} MentionedByOne(w: World, items: seq<Item>, y: Item)
    requires Mentions(AllDiscoveries(w, items), y)
    ensures exists x | x in items :: Mentions(DiscoveryOf(w, x), y)
  {
    FromOneDiscovery(w, items);
    if y in AllDiscoveries(w, items).refs {
      var x :| x in items && y in DiscoveryOf(w, x).refs;
      assert Mentions(DiscoveryOf(w, x), y);
    } else {
      var v :| v in AllDiscoveries(w, items).vtables && y in v.entries;
      var x :| x in items && v in DiscoveryOf(w, x).vtables;
      assert Mentions(DiscoveryOf(w, x), y);
    }
  }

  /** Queues everything the new items refer to. */
  method EnqueueAll(w: World, s: State, items: seq<Item>, ghost hand: set<Item>) returns (t: State, changed: bool)
    requires Valid(w, s, hand)
    ensures Valid(w, t, hand) && Grown(s, t, AllDiscoveries(w, items)) && (items == [] ==> t == s)
    ensures forall x | x in items :: Tracked(w, t, DiscoveryOf(w, x))
  {
    t, changed := EnqueueDiscovery(s, AllDiscoveries(w, items));
    GrownIsValid(w, s, t, AllDiscoveries(w, items), hand);
    forall x | x in items ensures Tracked(w, t, DiscoveryOf(w, x)) {
      InAllDiscoveries(w, items, x);
    }
  }

  /** The references given to the instance worklist are accounted for by what it leaves. */
  lemma {:induction false} WorkAccounts(w: World, s: State, t: State, refs: seq<I.Key>, work: I.Work)
    requires forall k | k in refs :: I.Settled(w.inst, I.KnownKeys(w.inst, s.instances), work, k)
    requires work.limited ==> |s.instances| + |work.instances| >= I.MAX_FUNCTION_INSTANCES
    requires t.instances == s.instances + work.instances && t.limited == (s.limited || work.limited)
    requires t.foreign == s.foreign + AsInstances(work.foreign)
    ensures AllAccounted(w, t, SetOf(AsInstances(refs)))
  {
    assert forall k | k in s.instances :: k in t.instances;
    forall x | x in SetOf(AsInstances(refs)) ensures Accounted(w, t, x) {
      assert x.key in refs;
      if x.key.def.unit != w.inst.unit {
        var i :| 0 <= i < |work.foreign| && work.foreign[i] == x.key;
        assert t.foreign[|s.foreign| + i] == x;
      }
    }
  }

  lemma {:induction false} NewInstances(w: World, s: State, t: State, work: I.Work)
    requires t.instances == s.instances + work.instances && t.functions == s.functions && t.globals == s.globals
    requires forall i | 0 <= i < |work.instances| :: I.Admitted(w.inst, work.instances[i])
    ensures forall x | Materialized(t, x) && !Materialized(s, x) :: Admissible(w, x) && x in AsInstances(work.instances)
  {
    forall x | Materialized(t, x) && !Materialized(s, x)
      ensures Admissible(w, x) && x in AsInstances(work.instances)
    {
      var i :| 0 <= i < |work.instances| && work.instances[i] == x.key;
      assert AsInstances(work.instances)[i] == x;
    }
  }

  /** An instance named by the references or by one of the first `n` instances is reachable. */
  lemma {:induction false} NamedIsReachable(
    w: World, t: State, roots: iset<Item>, refs: seq<I.Key>, instances: seq<I.Key>, n: nat, k: I.Key)
    requires n <= |instances| && I.Named(w.inst, refs, instances[..n], k)
    requires forall r | r in refs :: Reachable(w, t, roots, Instance(r))
    requires forall i | 0 <= i < |instances| :: Materialized(t, Instance(instances[i]))
    requires forall i | 0 <= i < |instances| :: I.AskedFor(w.inst, refs, instances, i)
    ensures Reachable(w, t, roots, Instance(k))
    decreases n, 0
  {
    if k !in refs {
      var i :| 0 <= i < n && I.Refers(w.inst, instances[..n][i], k);
      AskedIsWanted(w, t, roots, refs, instances, i);
      WantedReaches(w, t, roots, Instance(instances[i]), Instance(k));
    }
  }

  lemma {:induction false} AskedIsWanted(
    w: World, t: State, roots: iset<Item>, refs: seq<I.Key>, instances: seq<I.Key>, i: nat)
    requires i < |instances|
    requires forall r | r in refs :: Reachable(w, t, roots, Instance(r))
    requires forall j | 0 <= j < |instances| :: Materialized(t, Instance(instances[j]))
    requires forall j | 0 <= j < |instances| :: I.AskedFor(w.inst, refs, instances, j)
    ensures Wanted(w, t, roots, Instance(instances[i]))
    decreases i, 1
  {
    assert I.AskedFor(w.inst, refs, instances, i);
    var k :| I.Named(w.inst, refs, instances[..i], k) && I.CanonKey(w.inst, k) == instances[i];
    NamedIsReachable(w, t, roots, refs, instances, i, k);
    assert Target(w, Instance(k)) == Instance(instances[i]);
  }

  /** What the instance worklist materializes was asked for. */
  lemma {:induction false} WorkIsWanted(
    w: World, roots: iset<Item>, q: State, t: State, refs: seq<I.Key>, instances: seq<I.Key>)
    requires t.instances == q.instances + instances && t.functions == q.functions && t.globals == q.globals
    requires forall i | 0 <= i < |instances| :: I.AskedFor(w.inst, refs, instances, i)
    requires forall k | k in refs :: Reachable(w, t, roots, Instance(k))
    ensures AllWanted(w, roots, q, t, AsInstances(instances))
  {
    var items := AsInstances(instances);
    assert forall i | 0 <= i < |instances| :: t.instances[|q.instances| + i] == instances[i];
    forall x | Materialized(t, x) && !Materialized(q, x) ensures x in items {
      var i :| 0 <= i < |instances| && instances[i] == x.key;
      assert items[i] == x;
    }
    forall x | x in items ensures Materialized(t, x) && Wanted(w, t, roots, x) {
      var i :| 0 <= i < |items| && items[i] == x;
      AskedIsWanted(w, t, roots, refs, instances, i);
    }
  }

  /** What it forwards was asked for too. */
  lemma {:induction false} WorkIsReachable(
    w: World, roots: iset<Item>, q: State, t: State, refs: seq<I.Key>, instances: seq<I.Key>, foreign: seq<I.Key>)
    requires t.foreign == q.foreign + AsInstances(foreign)
    requires forall i | 0 <= i < |instances| :: Materialized(t, Instance(instances[i]))
    requires forall i | 0 <= i < |instances| :: I.AskedFor(w.inst, refs, instances, i)
    requires forall k | k in foreign :: I.Named(w.inst, refs, instances, k)
    requires forall k | k in refs :: Reachable(w, t, roots, Instance(k))
    ensures AllReachable(w, roots, q, t)
  {
    assert instances[..|instances|] == instances;
    forall i | |q.foreign| <= i < |t.foreign| ensures Reachable(w, t, roots, t.foreign[i]) {
      NamedIsReachable(w, t, roots, refs, instances, |instances|, foreign[i - |q.foreign|]);
    }
  }

  lemma {:induction false} WorkAdds(w: World, roots: iset<Item>, q: State, t: State, refs: seq<I.Key>, work: I.Work)
    requires t.instances == q.instances + work.instances && t.functions == q.functions && t.globals == q.globals
    requires t.foreign == q.foreign + AsInstances(work.foreign) && t.vtables == q.vtables
    requires forall x | Pending(t, x) :: Pending(q, x)
    requires forall i | 0 <= i < |work.instances| :: I.AskedFor(w.inst, refs, work.instances, i)
    requires forall k | k in work.foreign :: I.Named(w.inst, refs, work.instances, k)
    requires forall k | k in refs :: Reachable(w, t, roots, Instance(k))
    ensures Adds(w, roots, q, t, AsInstances(work.instances), AllDiscoveries(w, AsInstances(work.instances)))
  {
    WorkIsWanted(w, roots, q, t, refs, work.instances);
    assert forall i | 0 <= i < |work.instances| :: t.instances[|q.instances| + i] == work.instances[i];
    WorkIsReachable(w, roots, q, t, refs, work.instances, work.foreign);
    DiscoveriesAreOfItems(w, AsInstances(work.instances));
  }

  lemma {:induction false} DiscoveriesAreOfItems(w: World, items: seq<Item>)
    ensures IsOf(w, AllDiscoveries(w, items), items)
  {
    FromOneDiscovery(w, items);
    forall y | Mentions(AllDiscoveries(w, items), y) ensures exists x | x in items :: Mentions(DiscoveryOf(w, x), y) {
      MentionedByOne(w, items, y);
    }
  }

  /** All pending instances at once, through the instance worklist. */
  method LowerInstances(w: World, s: State, ghost roots: iset<Item>, ghost base: State)
    returns (t: State, changed: bool)
    requires Sound(w, roots, base, s)
    ensures Sound(w, roots, base, t) && Keeps(s, t) && Frugal(w, s, t) && Down(w, s, s.(pendingInstances := []), t)
  {
    var refs := s.pendingInstances;
    ghost var hand := SetOf(AsInstances(refs));
    var taken := s.(pendingInstances := []);
    AllTaken(refs);
    TakenIsValid(w, s, taken, hand);
    var work := I.LowerFunctionInstances(w.inst, s.instances, refs);
    var queued;
    queued, changed := EnqueueAll(w, taken, AsInstances(work.instances), hand);
    t := queued.(instances := queued.instances + work.instances, limited := queued.limited || work.limited,
                 foreign := queued.foreign + AsInstances(work.foreign));
    WorkAccounts(w, queued, t, refs, work);
    NewInstances(w, queued, t, work);
    HandIsEmptied(w, queued, t, hand);
    WorkIsRooted(w, roots, base, s, queued, t, work);
    WorkIsFrugal(w, s, t, work);
    changed := changed || work.instances != [];
  }

  /** The worklist uses room, or it forwards pending references and does nothing else. */
  lemma {:induction false} WorkIsFrugal(w: World, s: State, t: State, work: I.Work)
    requires t.functions == s.functions && t.instances == s.instances + work.instances
    requires |t.instances| <= Max(|s.instances|, I.MAX_FUNCTION_INSTANCES)
    requires t.foreign == s.foreign + AsInstances(work.foreign)
    requires forall k | k in work.foreign ::
      I.Named(w.inst, s.pendingInstances, work.instances, k) && k.def.unit != w.inst.unit
    requires work.instances == [] ==> forall x | Pending(t, x) :: Pending(s, x)
    ensures Frugal(w, s, t)
  {
    assert Forwarded(s, t) == AsInstances(work.foreign);
    forall x | x in AsInstances(work.foreign)
      ensures UnitOf(x) != w.inst.unit && (work.instances == [] ==> Pending(s, x))
    {
      assert x.key in work.foreign;
    }
  }

  lemma {:induction false} WorkIsRooted(
    w: World, roots: iset<Item>, base: State, s: State, q: State, t: State, work: I.Work)
    requires Rooted(w, roots, base, s)
    requires Grown(s.(pendingInstances := []), q, AllDiscoveries(w, AsInstances(work.instances)))
    requires t == q.(instances := q.instances + work.instances, foreign := q.foreign + AsInstances(work.foreign),
                     limited := t.limited)
    requires forall i | 0 <= i < |work.instances| :: I.AskedFor(w.inst, s.pendingInstances, work.instances, i)
    requires forall k | k in work.foreign :: I.Named(w.inst, s.pendingInstances, work.instances, k)
    ensures Rooted(w, roots, base, t)
  {
    var taken, items := s.(pendingInstances := []), AsInstances(work.instances);
    PoppedIsRooted(w, roots, base, s, taken);
    AllTaken(s.pendingInstances);
    PendingStaysReachable(w, s, t, roots, AsInstances(s.pendingInstances));
    WorkAdds(w, roots, q, t, s.pendingInstances, work);
    AddedIsRooted(w, roots, base, taken, q, t, items, AllDiscoveries(w, items));
  }

  lemma {:induction false} PendingStaysReachable(w: World, s: State, t: State, roots: iset<Item>, items: seq<Item>)
    requires forall x | Pending(s, x) :: Reachable(w, s, roots, x)
    requires forall x | x in items :: Pending(s, x)
    requires s.functions <= t.functions && s.instances <= t.instances && s.globals <= t.globals
    ensures forall x | x in items :: Reachable(w, t, roots, x)
  {
    forall x | x in items ensures Reachable(w, t, roots, x) {
      StaysReachable(w, s, t, roots, x);
    }
  }

  lemma {:induction false} AllTaken(keys: seq<I.Key>)
    ensures forall k | k in keys :: Instance(k) in SetOf(AsInstances(keys)) && Global(k) in SetOf(AsGlobals(keys))
  {
    forall k | k in keys ensures Instance(k) in SetOf(AsInstances(keys)) && Global(k) in SetOf(AsGlobals(keys)) {
      var i :| 0 <= i < |keys| && keys[i] == k;
      assert AsInstances(keys)[i] == Instance(k) && AsGlobals(keys)[i] == Global(k);
    }
  }

  ghost predicate GlobalSettled(w: World, existing: seq<I.Key>, instances: seq<I.Key>, foreign: seq<I.Key>, k: I.Key) {
    || (k.def.unit != w.inst.unit && k in foreign)
    || (k.def.unit == w.inst.unit && GlobalSeen(w, existing, instances, GlobalKey(w, k)))
  }

  ghost predicate GlobalSeen(w: World, existing: seq<I.Key>, instances: seq<I.Key>, key: I.Key) {
    key in KnownGlobals(w, existing) || key in instances || !GroundArgs(w, key) || !w.lowersGlobal(key)
  }

  /** A new global instance: it may be materialized, did not exist, and one of the references stands for it. */
  ghost predicate NewGlobal(w: World, existing: seq<I.Key>, refs: seq<I.Key>, key: I.Key) {
    Admissible(w, Global(key)) && key !in KnownGlobals(w, existing) && exists k | k in refs :: GlobalKey(w, k) == key
  }

  /** Sorts global references: foreign ones are forwarded, the others are known, dropped by a filter or new. */
  method LowerGlobalRefs(w: World, existing: seq<I.Key>, refs: seq<I.Key>)
    returns (instances: seq<I.Key>, foreign: seq<I.Key>)
    ensures forall k | k in refs :: GlobalSettled(w, existing, instances, foreign, k)
    ensures forall i | 0 <= i < |instances| :: NewGlobal(w, existing, refs, instances[i])
    ensures Distinct(instances)
    ensures forall k | k in foreign :: k in refs && k.def.unit != w.inst.unit
  {
    instances, foreign := [], [];
    var seen := set k | k in existing :: GlobalKey(w, k);
    for i := 0 to |refs|
      invariant forall key | key in seen :: GlobalSeen(w, existing, instances, key)
      invariant forall key | key in KnownGlobals(w, existing) || key in instances :: key in seen
      invariant forall j | 0 <= j < i :: GlobalSettled(w, existing, instances, foreign, refs[j])
      invariant forall j | 0 <= j < |instances| :: NewGlobal(w, existing, refs, instances[j])
      invariant Distinct(instances)
      invariant forall k | k in foreign :: k in refs && k.def.unit != w.inst.unit
    {
      var k := refs[i];
      var key := GlobalKey(w, k);
      if k.def.unit != w.inst.unit {
        foreign := foreign + [k];
      } else if key !in seen {
        seen := seen + {key};
        if GroundArgs(w, key) && w.lowersGlobal(key) {
          assert k in refs;
          instances := instances + [key];
        }
      }
    }
  }

  lemma {:induction false} GlobalsAccount(
    w: World, s: State, t: State, refs: seq<I.Key>, instances: seq<I.Key>, foreign: seq<I.Key>)
    requires forall k | k in refs :: GlobalSettled(w, s.globals, instances, foreign, k)
    requires t.globals == s.globals + instances && t.foreign == s.foreign + AsGlobals(foreign)
    ensures AllAccounted(w, t, SetOf(AsGlobals(refs)))
  {
    assert forall k | k in s.globals :: k in t.globals;
    forall x | x in SetOf(AsGlobals(refs)) ensures Accounted(w, t, x) {
      assert x.key in refs;
      if x.key.def.unit != w.inst.unit {
        var i :| 0 <= i < |foreign| && foreign[i] == x.key;
        assert t.foreign[|s.foreign| + i] == x;
      }
    }
  }

  lemma {:induction false} NewGlobals(w: World, s: State, t: State, instances: seq<I.Key>)
    requires t.globals == s.globals + instances && t.functions == s.functions && t.instances == s.instances
    requires forall i | 0 <= i < |instances| :: Admissible(w, Global(instances[i]))
    ensures forall x | Materialized(t, x) && !Materialized(s, x) :: Admissible(w, x) && x in AsGlobals(instances)
  {
    forall x | Materialized(t, x) && !Materialized(s, x) ensures Admissible(w, x) && x in AsGlobals(instances) {
      var i :| 0 <= i < |instances| && instances[i] == x.key;
      assert AsGlobals(instances)[i] == x;
    }
  }

  /** New global instances were asked for. */
  lemma {:induction false} GlobalsAreWanted(
    w: World, roots: iset<Item>, q: State, t: State, refs: seq<I.Key>, instances: seq<I.Key>)
    requires t.globals == q.globals + instances && t.functions == q.functions && t.instances == q.instances
    requires forall i | 0 <= i < |instances| :: NewGlobal(w, q.globals, refs, instances[i])
    requires forall k | k in refs :: Reachable(w, t, roots, Global(k))
    ensures AllWanted(w, roots, q, t, AsGlobals(instances))
  {
    var items := AsGlobals(instances);
    NewGlobals(w, q, t, instances);
    assert forall i | 0 <= i < |instances| :: t.globals[|q.globals| + i] == instances[i];
    forall x | x in items ensures Materialized(t, x) && Wanted(w, t, roots, x) {
      var i :| 0 <= i < |items| && items[i] == x;
      var k :| k in refs && GlobalKey(w, k) == instances[i];
      assert Target(w, Global(k)) == x;
    }
  }

  lemma {:induction false} GlobalsAdd(
    w: World, roots: iset<Item>, q: State, t: State, refs: seq<I.Key>, instances: seq<I.Key>, foreign: seq<I.Key>)
    requires t.globals == q.globals + instances && t.functions == q.functions && t.instances == q.instances
    requires t.foreign == q.foreign + AsGlobals(foreign) && t.vtables == q.vtables
    requires forall x | Pending(t, x) :: Pending(q, x)
    requires forall i | 0 <= i < |instances| :: NewGlobal(w, q.globals, refs, instances[i])
    requires forall k | k in foreign :: k in refs
    requires forall k | k in refs :: Reachable(w, t, roots, Global(k))
    ensures Adds(w, roots, q, t, AsGlobals(instances), AllDiscoveries(w, AsGlobals(instances)))
  {
    GlobalsAreWanted(w, roots, q, t, refs, instances);
    forall i | |q.foreign| <= i < |t.foreign| ensures Reachable(w, t, roots, t.foreign[i]) {
      assert foreign[i - |q.foreign|] in refs;
    }
    DiscoveriesAreOfItems(w, AsGlobals(instances));
  }

  /** Static initializers mention no global instance. */
  lemma {:induction false} NoGlobalMentioned(w: World, instances: seq<I.Key>, x: Item)
    requires Mentions(AllDiscoveries(w, AsGlobals(instances)), x)
    ensures !x.Global?
  {
    MentionedByOne(w, AsGlobals(instances), x);
    var m :| m in AsGlobals(instances) && Mentions(DiscoveryOf(w, m), x);
  }

  lemma {:induction false} NoMoreGlobals(w: World, s: State, t: State, instances: seq<I.Key>)
    requires Grown(s, t, AllDiscoveries(w, AsGlobals(instances))) && s.pendingGlobals == []
    ensures t.pendingGlobals == []
  {
    assert t.pendingGlobals != [] ==> Pending(t, Global(t.pendingGlobals[0]));
    forall x | Pending(t, x) ensures !x.Global? {
      if !Pending(s, x) {
        NoGlobalMentioned(w, instances, x);
      }
    }
  }

  /** Global instances use no room; what they refer to is no global instance. */
  lemma {:induction false} GlobalsAreFrugal(
    w: World, s: State, q: State, t: State, instances: seq<I.Key>, foreign: seq<I.Key>)
    requires Grown(s.(pendingGlobals := []), q, AllDiscoveries(w, AsGlobals(instances)))
    requires t == q.(globals := q.globals + instances, foreign := q.foreign + AsGlobals(foreign))
    requires forall i | 0 <= i < |instances| :: NewGlobal(w, q.globals, s.pendingGlobals, instances[i])
    requires forall k | k in foreign :: k in s.pendingGlobals && k.def.unit != w.inst.unit
    ensures Frugal(w, s, t) && Room(w, t) == Room(w, s)
  {
    assert Forwarded(s, t) == AsGlobals(foreign);
    forall x | x in AsGlobals(foreign) ensures UnitOf(x) != w.inst.unit && Pending(s, x) {
      assert x.key in foreign;
    }
    forall x | Pending(t, x) ensures Earlier(s, x) {
      if !Pending(s, x) {
        NoGlobalMentioned(w, instances, x);
        assert instances != [];
        assert NewGlobal(w, q.globals, s.pendingGlobals, instances[0]);
      }
    }
  }

  method LowerGlobals(w: World, s: State, ghost roots: iset<Item>, ghost base: State) returns (t: State, changed: bool)
    requires Sound(w, roots, base, s)
    ensures Sound(w, roots, base, t) && Keeps(s, t) && Frugal(w, s, t)
    ensures Room(w, t) == Room(w, s) && t.pendingGlobals == []
  {
    var refs := s.pendingGlobals;
    ghost var hand := SetOf(AsGlobals(refs));
    var taken := s.(pendingGlobals := []);
    AllTaken(refs);
    TakenIsValid(w, s, taken, hand);
    var instances, foreign := LowerGlobalRefs(w, s.globals, refs);
    var queued;
    queued, changed := EnqueueAll(w, taken, AsGlobals(instances), hand);
    NoMoreGlobals(w, taken, queued, instances);
    t := queued.(globals := queued.globals + instances, foreign := queued.foreign + AsGlobals(foreign));
    GlobalsAccount(w, queued, t, refs, instances, foreign);
    NewGlobals(w, queued, t, instances);
    HandIsEmptied(w, queued, t, hand);
    GlobalsAreRooted(w, roots, base, s, queued, t, instances, foreign);
    GlobalsAreFrugal(w, s, queued, t, instances, foreign);
    changed := changed || instances != [];
  }

  lemma {:induction false} GlobalsAreRooted(
    w: World, roots: iset<Item>, base: State, s: State, q: State, t: State, instances: seq<I.Key>, foreign: seq<I.Key>)
    requires Rooted(w, roots, base, s)
    requires Grown(s.(pendingGlobals := []), q, AllDiscoveries(w, AsGlobals(instances)))
    requires t == q.(globals := q.globals + instances, foreign := q.foreign + AsGlobals(foreign))
    requires forall i | 0 <= i < |instances| :: NewGlobal(w, q.globals, s.pendingGlobals, instances[i])
    requires forall k | k in foreign :: k in s.pendingGlobals
    ensures Rooted(w, roots, base, t)
  {
    var taken, items := s.(pendingGlobals := []), AsGlobals(instances);
    PoppedIsRooted(w, roots, base, s, taken);
    AllTaken(s.pendingGlobals);
    PendingStaysReachable(w, s, t, roots, AsGlobals(s.pendingGlobals));
    GlobalsAdd(w, roots, q, t, s.pendingGlobals, instances, foreign);
    AddedIsRooted(w, roots, base, taken, q, t, items, AllDiscoveries(w, items));
  }

  method InstancesIfPending(w: World, s: State, ghost roots: iset<Item>, ghost base: State)
    returns (t: State, changed: bool)
    requires Sound(w, roots, base, s)
    ensures Sound(w, roots, base, t) && Keeps(s, t) && Frugal(w, s, t) && Advances(w, s, t)
    ensures Room(w, t) >= Room(w, s) ==> t.pendingInstances == []
    ensures s.pendingInstances == [] ==> t == s && !changed
  {
    if s.pendingInstances == [] {
      SameIsFrugal(w, s);
      return s, false;
    }
    t, changed := LowerInstances(w, s, roots, base);
  }

  method GlobalsIfPending(w: World, s: State, ghost roots: iset<Item>, ghost base: State)
    returns (t: State, changed: bool)
    requires Sound(w, roots, base, s)
    ensures Sound(w, roots, base, t) && Keeps(s, t) && Frugal(w, s, t)
    ensures Room(w, t) == Room(w, s) && t.pendingGlobals == []
    ensures s.pendingGlobals == [] ==> t == s && !changed
  {
    if s.pendingGlobals == [] {
      SameIsFrugal(w, s);
      return s, false;
    }
    t, changed := LowerGlobals(w, s, roots, base);
  }

  /** One round: functions, then instances, then globals, the last two only when something is pending. Without less
      room it empties the queue of globals, and the other queues too if that one was empty. */
  method Round(w: World, s: State, ghost roots: iset<Item>, ghost base: State) returns (t: State, changed: bool)
    requires Sound(w, roots, base, s)
    ensures Sound(w, roots, base, t) && Keeps(s, t) && Frugal(w, s, t)
    ensures Room(w, t) == Room(w, s) ==> t.pendingGlobals == [] && (s.pendingGlobals == [] ==> Idle(t))
    ensures Idle(s) ==> t == s && !changed
  {
    var first, drained := LowerFunctionClosure(w, s, roots, base);
    var second, more := InstancesIfPending(w, first, roots, base);
    t, changed := GlobalsIfPending(w, second, roots, base);
    KeepsThrough(s, first, second);
    KeepsThrough(s, second, t);
    FrugalThrough(w, s, first, second);
    FrugalThrough(w, s, second, t);
    changed := drained || more || changed;
  }

  /** Always leaves, and only when everything referred to is materialized here, forwarded, planned elsewhere or dropped
      by a named filter. */
  method LowerReachable(w: World, s: State, ghost roots: iset<Item>, ghost base: State) returns (t: State)
    requires Valid(w, s, {}) && Rooted(w, roots, base, s)
    ensures Closed(w, t) && AllAccounted(w, t, t.queued) && Keeps(s, t) && Frugal(w, s, t)
    ensures Sourced(w, roots, base, t)
  {
    t := s;
    SameIsFrugal(w, s);
    var changed := true;
    while changed || !Idle(t)
      invariant Sound(w, roots, base, t) && Keeps(s, t) && Frugal(w, s, t)
      decreases Room(w, t), |t.pendingGlobals| > 0, !Idle(t), changed
    {
      ghost var before := t;
      t, changed := Round(w, t, roots, base);
      KeepsThrough(s, before, t);
      FrugalThrough(w, s, before, t);
    }
    DrainedIsClosed(w, t);
  }

  // ---------------------------------------------------------------------------------------------------------------
  // Resumed runs: other modules send references to a module that was closed before.

  /** Each reference is a root of its own. */
  ghost function Sent(items: seq<Item>): iset<Item> {
    iset x | x in items
  }

  /** Only references to other modules are forwarded, and without using room none that is not `loose`. */
  ghost predicate Modest(w: World, s: State, t: State, loose: iset<Item>) {
    && Room(w, t) <= Room(w, s)
    && (forall x | x in Forwarded(s, t) :: UnitOf(x) != w.inst.unit)
    && (Room(w, t) == Room(w, s) ==> forall x | x in Forwarded(s, t) :: x in loose)
  }

  /** References from other modules to functions of this one. */
  method LowerAdditionalFunctions(w: World, s: State, refs: seq<I.Def>) returns (t: State)
    requires Closed(w, s)
    ensures Closed(w, t) && AllAccounted(w, t, SetOf(AsFunctions(refs))) && Gained(s, t)
    ensures Modest(w, s, t, Sent(AsFunctions(refs)))
    ensures Sourced(w, Sent(AsFunctions(refs)), s, t)
  {
    ReopenedIsValid(w, s);
    ghost var roots := Sent(AsFunctions(refs));
    ghost var d := Discovery(AsFunctions(refs), []);
    var queued := Enqueue(Reopened(s), AsFunctions(refs), d);
    GrownIsValid(w, Reopened(s), queued, d, {});
    forall x | Pending(queued, x) ensures Reachable(w, queued, roots, x) {
      RootIsReachable(w, queued, roots, x);
    }
    t := LowerReachable(w, queued, roots, s);
    FunctionsAreModest(w, s, queued, t, refs);
  }

  lemma {:induction false} FunctionsAreModest(w: World, s: State, q: State, t: State, refs: seq<I.Def>)
    requires Grown(Reopened(s), q, Discovery(AsFunctions(refs), [])) && Frugal(w, q, t)
    ensures Modest(w, s, t, Sent(AsFunctions(refs)))
  {
    assert q.pendingGlobals != [] ==> Pending(q, Global(q.pendingGlobals[0]));
    assert forall x | Pending(q, x) :: x in AsFunctions(refs);
    assert Forwarded(s, t) == Forwarded(q, t);
  }

  /** New items were added to a closed module, and `d` is what they refer to. */
  ghost predicate ClosedBut(w: World, s: State, d: Discovery) {
    && (forall x | Materialized(s, x) :: Admissible(w, x) && CoveredBut(w, s, d, DiscoveryOf(w, x)))
    && (forall i, x | 0 <= i < |s.vtables| && x in s.vtables[i].entries :: Accounted(w, s, x))
  }

  ghost predicate CoveredBut(w: World, s: State, d: Discovery, e: Discovery) {
    && (forall x | x in e.refs :: x in d.refs || Accounted(w, s, x))
    && (forall v | v in e.vtables :: v in d.vtables || HasVtable(s, v.key))
  }

  lemma {:induction false} AddedIsClosedBut(w: World, s: State, t: State, items: seq<Item>)
    requires Closed(w, s) && Extended(s, t)
    requires forall x | Materialized(t, x) && !Materialized(s, x) :: Admissible(w, x) && x in items
    ensures ClosedBut(w, t, AllDiscoveries(w, items))
  {
    StillAccounted(w, s, t);
    forall x | Materialized(t, x)
      ensures Admissible(w, x) && CoveredBut(w, t, AllDiscoveries(w, items), DiscoveryOf(w, x))
    {
      if Materialized(s, x) {
        CoveredIsBodyCovered(w, s, x);
        StaysCovered(w, s, t, DiscoveryOf(w, x));
      } else {
        InAllDiscoveries(w, items, x);
      }
    }
  }

  /** `items` were added to the closed module `base`, and they were asked for. */
  ghost predicate Resumed(w: World, roots: iset<Item>, base: State, s: State, items: seq<Item>) {
    && ClosedBut(w, s, AllDiscoveries(w, items))
    && Sourced(w, roots, base, s)
    && (forall x | x in items :: Materialized(s, x) && Wanted(w, s, roots, x))
  }

  /** Only references to other modules are forwarded, and without using room no global instance unless `d` mentions
      one. */
  ghost predicate Sparing(w: World, s: State, t: State, d: Discovery) {
    && Room(w, t) <= Room(w, s)
    && s.foreign <= t.foreign
    && (forall x | x in Forwarded(s, t) :: UnitOf(x) != w.inst.unit)
    && (Room(w, t) == Room(w, s) && (forall x | Mentions(d, x) :: !x.Global?) ==>
          forall x | x in Forwarded(s, t) :: !x.Global?)
  }

  lemma {:induction false} FrugalIsSparing(w: World, s: State, q: State, t: State, d: Discovery)
    requires Grown(Reopened(s), q, d) && Frugal(w, q, t)
    ensures Sparing(w, s, t, d)
  {
    assert Forwarded(s, t) == Forwarded(q, t);
    forall x | Pending(q, x) ensures Mentions(d, x) {
      assert !Pending(Reopened(s), x);
    }
  }

  /** Closes a module again after items were added. */
  method LowerAdditionalItems(w: World, s: State, items: seq<Item>, ghost roots: iset<Item>, ghost base: State)
    returns (t: State)
    requires Resumed(w, roots, base, s, items)
    ensures Closed(w, t) && Gained(s, t) && Sourced(w, roots, base, t)
    ensures Sparing(w, s, t, AllDiscoveries(w, items))
  {
    var d := AllDiscoveries(w, items);
    var reopened := Reopened(s);
    var queued, _ := EnqueueDiscovery(reopened, d);
    QueuedIsValid(w, s, queued, d);
    ItemsAreRooted(w, roots, base, s, queued, items);
    t := LowerReachable(w, queued, roots, base);
    FrugalIsSparing(w, s, queued, t, d);
  }

  lemma {:induction false} ItemsAreRooted(
    w: World, roots: iset<Item>, base: State, s: State, t: State, items: seq<Item>)
    requires Sourced(w, roots, base, s) && Grown(Reopened(s), t, AllDiscoveries(w, items))
    requires forall x | x in items :: Materialized(s, x) && Wanted(w, s, roots, x)
    ensures Rooted(w, roots, base, t)
  {
    var r := Reopened(s);
    assert Adds(w, roots, s, r, [], NONE);
    AddedIsSourced(w, roots, base, s, s, r, [], NONE);
    forall x | x in items ensures Materialized(t, x) && Wanted(w, t, roots, x) {
      StaysWanted(w, s, t, roots, x);
    }
    DiscoveriesAreOfItems(w, items);
    AddedIsRooted(w, roots, base, r, t, t, items, AllDiscoveries(w, items));
  }

  lemma {:induction false} QueuedIsValid(w: World, s: State, t: State, d: Discovery)
    requires ClosedBut(w, s, d) && Grown(Reopened(s), t, d)
    requires (forall x | x in d.refs :: x in t.queued) && forall v | v in d.vtables :: HasVtable(t, v.key)
    ensures Valid(w, t, {})
  {
    OwnItemsAreAccounted(w, s);
    SameItems(w, s, t);
    forall x | Materialized(t, x) ensures Admissible(w, x) && Tracked(w, t, DiscoveryOf(w, x)) {
      assert Materialized(s, x);
      forall v | v in DiscoveryOf(w, x).vtables ensures HasVtable(t, v.key) {
        if v !in d.vtables {
          VtableStays(s, t, v.key);
        }
      }
    }
  }

  /** References from other modules to function instances of this one. */
  method LowerAdditionalInstances(w: World, s: State, refs: seq<I.Key>) returns (t: State)
    requires Closed(w, s)
    ensures Closed(w, t) && AllAccounted(w, t, SetOf(AsInstances(refs))) && Gained(s, t)
    ensures Modest(w, s, t, Sent(AsInstances(refs)))
    ensures Sourced(w, Sent(AsInstances(refs)), s, t)
  {
    var work := I.LowerFunctionInstances(w.inst, s.instances, refs);
    var mid := s.(instances := s.instances + work.instances, limited := s.limited || work.limited,
                  foreign := s.foreign + AsInstances(work.foreign));
    ghost var roots := Sent(AsInstances(refs));
    WorkAccounts(w, s, mid, refs, work);
    SentInstances(w, s, mid, refs, work);
    WorkIsModest(w, s, mid, refs, work);
    if work.instances == [] {
      NothingAdded(w, mid);
      return mid;
    }
    t := LowerAdditionalItems(w, mid, AsInstances(work.instances), roots, s);
    StillAccounted(w, mid, t);
    StaysModest(w, s, mid, t, AsInstances(refs), AllDiscoveries(w, AsInstances(work.instances)));
  }

  /** The references, and everything that is no global instance. */
  ghost function SentOrOther(items: seq<Item>): iset<Item> {
    iset x: Item | x in items || !x.Global?
  }

  /** A resumed run in two parts, the second of which queues `d`. */
  lemma {:induction false} StaysModest(w: World, s: State, m: State, t: State, items: seq<Item>, d: Discovery)
    requires Modest(w, s, m, Sent(items)) && s.foreign <= m.foreign && Sparing(w, m, t, d)
    ensures Room(w, m) < Room(w, s) ==> Modest(w, s, t, Sent(items))
    ensures (forall x | Mentions(d, x) :: !x.Global?) ==> Modest(w, s, t, SentOrOther(items))
  {
    ForwardedInTwo(s, m, t);
  }

  lemma {:induction false} ForwardedInTwo(s: State, m: State, t: State)
    requires s.foreign <= m.foreign <= t.foreign
    ensures forall x | x in Forwarded(s, t) :: x in Forwarded(s, m) || x in Forwarded(m, t)
  {
    assert Forwarded(s, t) == Forwarded(s, m) + Forwarded(m, t);
  }

  lemma {:induction false} WorkIsModest(w: World, s: State, t: State, refs: seq<I.Key>, work: I.Work)
    requires t.functions == s.functions && t.instances == s.instances + work.instances
    requires |t.instances| <= Max(|s.instances|, I.MAX_FUNCTION_INSTANCES)
    requires t.foreign == s.foreign + AsInstances(work.foreign)
    requires forall k | k in work.foreign :: I.Named(w.inst, refs, work.instances, k) && k.def.unit != w.inst.unit
    ensures Modest(w, s, t, Sent(AsInstances(refs))) && (work.instances != [] ==> Room(w, t) < Room(w, s))
  {
    AllTaken(refs);
    assert Forwarded(s, t) == AsInstances(work.foreign);
    forall x | x in AsInstances(work.foreign)
      ensures UnitOf(x) != w.inst.unit && (work.instances == [] ==> x in AsInstances(refs))
    {
      assert x.key in work.foreign;
    }
  }

  lemma {:induction false} SentAreReachable(w: World, s: State, refs: seq<I.Key>)
    ensures forall k | k in refs :: Reachable(w, s, Sent(AsInstances(refs)), Instance(k))
    ensures forall k | k in refs :: Reachable(w, s, Sent(AsGlobals(refs)), Global(k))
  {
    AllTaken(refs);
    forall k | k in refs
      ensures Reachable(w, s, Sent(AsInstances(refs)), Instance(k)) && Reachable(w, s, Sent(AsGlobals(refs)), Global(k))
    {
      RootIsReachable(w, s, Sent(AsInstances(refs)), Instance(k));
      RootIsReachable(w, s, Sent(AsGlobals(refs)), Global(k));
    }
  }

  lemma {:induction false} SentInstances(w: World, s: State, t: State, refs: seq<I.Key>, work: I.Work)
    requires Closed(w, s) && Extended(s, t) && t.functions == s.functions && t.globals == s.globals
    requires t.instances == s.instances + work.instances && t.foreign == s.foreign + AsInstances(work.foreign)
    requires forall i | 0 <= i < |work.instances| :: I.Admitted(w.inst, work.instances[i])
    requires forall i | 0 <= i < |work.instances| :: I.AskedFor(w.inst, refs, work.instances, i)
    requires forall k | k in work.foreign :: I.Named(w.inst, refs, work.instances, k)
    ensures Resumed(w, Sent(AsInstances(refs)), s, t, AsInstances(work.instances))
  {
    var roots, items := Sent(AsInstances(refs)), AsInstances(work.instances);
    NewInstances(w, s, t, work);
    AddedIsClosedBut(w, s, t, items);
    SentAreReachable(w, t, refs);
    WorkAdds(w, roots, s, t, refs, work);
    AddedAreSent(w, roots, s, t, items);
  }

  lemma {:induction false} SentGlobals(
    w: World, s: State, t: State, refs: seq<I.Key>, instances: seq<I.Key>, foreign: seq<I.Key>)
    requires Closed(w, s) && Extended(s, t) && t.functions == s.functions && t.instances == s.instances
    requires t.globals == s.globals + instances && t.foreign == s.foreign + AsGlobals(foreign)
    requires forall i | 0 <= i < |instances| :: NewGlobal(w, s.globals, refs, instances[i])
    requires forall k | k in foreign :: k in refs
    ensures Resumed(w, Sent(AsGlobals(refs)), s, t, AsGlobals(instances))
  {
    var roots, items := Sent(AsGlobals(refs)), AsGlobals(instances);
    NewGlobals(w, s, t, instances);
    AddedIsClosedBut(w, s, t, items);
    SentGlobalsAdd(w, s, t, refs, instances, foreign);
    AddedAreSent(w, roots, s, t, items);
  }

  lemma {:induction false} SentGlobalsAdd(
    w: World, s: State, t: State, refs: seq<I.Key>, instances: seq<I.Key>, foreign: seq<I.Key>)
    requires Extended(s, t) && t.functions == s.functions && t.instances == s.instances
    requires t.globals == s.globals + instances && t.foreign == s.foreign + AsGlobals(foreign)
    requires forall i | 0 <= i < |instances| :: NewGlobal(w, s.globals, refs, instances[i])
    requires forall k | k in foreign :: k in refs
    ensures Adds(w, Sent(AsGlobals(refs)), s, t, AsGlobals(instances), AllDiscoveries(w, AsGlobals(instances)))
  {
    SentAreReachable(w, t, refs);
    assert forall x | Pending(t, x) :: Pending(s, x);
    GlobalsAdd(w, Sent(AsGlobals(refs)), s, t, refs, instances, foreign);
  }

  lemma {:induction false} AddedAreSent(w: World, roots: iset<Item>, s: State, t: State, items: seq<Item>)
    requires Extended(s, t) && Adds(w, roots, s, t, items, AllDiscoveries(w, items))
    ensures Sourced(w, roots, s, t) && forall x | x in items :: Materialized(t, x) && Wanted(w, t, roots, x)
  {
    AddedIsSourced(w, roots, s, s, s, t, items, AllDiscoveries(w, items));
  }

  lemma {:induction false} NothingAdded(w: World, s: State)
    requires ClosedBut(w, s, AllDiscoveries(w, []))
    ensures Closed(w, s)
  {
    forall x | Materialized(s, x) ensures BodyCovered(w, s, x) {
      assert CoveredBut(w, s, NONE, DiscoveryOf(w, x));
      CoveredIsBodyCovered(w, s, x);
    }
  }

  /** References from other modules to global instances of this one. */
  method LowerAdditionalGlobals(w: World, s: State, refs: seq<I.Key>) returns (t: State)
    requires Closed(w, s)
    ensures Closed(w, t) && AllAccounted(w, t, SetOf(AsGlobals(refs))) && Gained(s, t)
    ensures Modest(w, s, t, SentOrOther(AsGlobals(refs)))
    ensures Sourced(w, Sent(AsGlobals(refs)), s, t)
  {
    var instances, foreign := LowerGlobalRefs(w, s.globals, refs);
    var mid := s.(globals := s.globals + instances, foreign := s.foreign + AsGlobals(foreign));
    ghost var roots := Sent(AsGlobals(refs));
    GlobalsAccount(w, s, mid, refs, instances, foreign);
    SentGlobals(w, s, mid, refs, instances, foreign);
    GlobalsAreModest(w, s, mid, refs, foreign);
    if instances == [] {
      NothingAdded(w, mid);
      return mid;
    }
    t := LowerAdditionalItems(w, mid, AsGlobals(instances), roots, s);
    StillAccounted(w, mid, t);
    forall x | Mentions(AllDiscoveries(w, AsGlobals(instances)), x) ensures !x.Global? {
      NoGlobalMentioned(w, instances, x);
    }
    StaysModest(w, s, mid, t, AsGlobals(refs), AllDiscoveries(w, AsGlobals(instances)));
  }

  lemma {:induction false} GlobalsAreModest(w: World, s: State, t: State, refs: seq<I.Key>, foreign: seq<I.Key>)
    requires t.functions == s.functions && t.instances == s.instances
    requires t.foreign == s.foreign + AsGlobals(foreign)
    requires forall k | k in foreign :: k in refs && k.def.unit != w.inst.unit
    ensures Modest(w, s, t, Sent(AsGlobals(refs)))
  {
    AllTaken(refs);
    assert Forwarded(s, t) == AsGlobals(foreign);
    forall x | x in AsGlobals(foreign) ensures UnitOf(x) != w.inst.unit && x in AsGlobals(refs) {
      assert x.key in foreign;
    }
  }

  /** A module starts with its roots pending and nothing materialized. */
  lemma {:induction false} StartIsValid(w: World, s: State)
    requires s.functions == [] && s.instances == [] && s.globals == [] && s.vtables == []
    requires forall x | x in s.queued :: Pending(s, x)
    ensures Valid(w, s, {}) && Rooted(w, Waiting(s), s, s)
  {
    assert forall x :: !Materialized(s, x);
    WaitingIsRooted(w, s);
  }
}
