/** Owner assignment for aggregate instances and trait-object vtables: the keys and payloads compared up to type
    equivalence, and the canonical forms that decide both comparisons. */
module InstanceOwners {
  import opened Options
  import opened Types
  import opened Owners

  datatype FieldDef = FieldDef(def: nat, name: Sym, ty: Ty)

  /** A struct or union instance. */
  datatype Aggregate = Aggregate(
    def: nat, args: seq<Ty>, consts: seq<ConstArg>, name: Sym, symbol: string, isExtern: bool, fields: seq<FieldDef>)

  predicate AggregateKeysMatch(lens: Lengths, a: Aggregate, b: Aggregate) {
    a.def == b.def && SameTys(Greedy, lens, a.args, b.args) && SameConsts(Greedy, lens, a.consts, b.consts)
  }

  predicate FieldsMatch(lens: Lengths, a: seq<FieldDef>, b: seq<FieldDef>) {
    |a| == |b| && forall i | 0 <= i < |a| :: FieldMatches(lens, a[i], b[i])
  }

  predicate FieldMatches(lens: Lengths, a: FieldDef, b: FieldDef) {
    a.def == b.def && a.name == b.name && SameTy(Greedy, lens, a.ty, b.ty)
  }

  predicate AggregatePayloadsMatch(lens: Lengths, a: Aggregate, b: Aggregate) {
    && a.def == b.def && a.name == b.name && a.symbol == b.symbol && a.isExtern == b.isExtern
    && AggregateKeysMatch(lens, a, b)
    && FieldsMatch(lens, a.fields, b.fields)
  }

  datatype CKey = CKey(def: nat, args: seq<CTy>, consts: seq<CConst>)
  datatype CField = CField(def: nat, name: Sym, ty: CTy)
  datatype CAggregate = CAggregate(key: CKey, name: Sym, symbol: string, isExtern: bool, fields: seq<CField>)

  function AggregateKey(lens: Lengths, a: Aggregate): CKey {
    CKey(a.def, CanonTys(lens, a.args), CanonConsts(lens, a.consts))
  }

  function CanonFields(lens: Lengths, fields: seq<FieldDef>): seq<CField> {
    seq(|fields|, i requires 0 <= i < |fields| => CField(fields[i].def, fields[i].name, Canon(lens, fields[i].ty)))
  }

  function AggregatePayload(lens: Lengths, a: Aggregate): CAggregate {
    CAggregate(AggregateKey(lens, a), a.name, a.symbol, a.isExtern, CanonFields(lens, a.fields))
  }

  lemma {:induction false} AggregateKeysMatchIffSame(lens: Lengths, a: Aggregate, b: Aggregate)
    ensures AggregateKeysMatch(lens, a, b) <==> AggregateKey(lens, a) == AggregateKey(lens, b)
  {
    SameTysIffCanon(Greedy, lens, a.args, b.args);
    SameConstsIffCanon(Greedy, lens, a.consts, b.consts);
  }

  lemma {:induction false} FieldsMatchIffSame(lens: Lengths, a: seq<FieldDef>, b: seq<FieldDef>)
    ensures FieldsMatch(lens, a, b) <==> CanonFields(lens, a) == CanonFields(lens, b)
  {
    if |a| == |b| {
      var ca, cb := CanonFields(lens, a), CanonFields(lens, b);
      forall i | 0 <= i < |a| ensures FieldMatches(lens, a[i], b[i]) <==> ca[i] == cb[i] {
        SameTyIffCanon(Greedy, lens, a[i].ty, b[i].ty);
      }
    }
  }

  lemma {:induction false} AggregatePayloadsMatchIffSame(lens: Lengths, a: Aggregate, b: Aggregate)
    ensures AggregatePayloadsMatch(lens, a, b) <==> AggregatePayload(lens, a) == AggregatePayload(lens, b)
  {
    AggregateKeysMatchIffSame(lens, a, b);
    FieldsMatchIffSame(lens, a.fields, b.fields);
  }

  function AggregateKeys(lens: Lengths): Aggregate -> CKey {
    (x: Aggregate) => AggregateKey(lens, x)
  }

  function AggregatePayloads(lens: Lengths): Aggregate -> CAggregate {
    (x: Aggregate) => AggregatePayload(lens, x)
  }

  function SameAggregateKeys(lens: Lengths): (Aggregate, Aggregate) -> bool {
    (a: Aggregate, b: Aggregate) => AggregateKeysMatch(lens, a, b)
  }

  function SameAggregatePayloads(lens: Lengths): (Aggregate, Aggregate) -> bool {
    (a: Aggregate, b: Aggregate) => AggregatePayloadsMatch(lens, a, b)
  }

  lemma {:induction false} AggregateClassesDecide(lens: Lengths)
    ensures Decides(SameAggregateKeys(lens), AggregateKeys(lens)) &&
      Decides(SameAggregatePayloads(lens), AggregatePayloads(lens))
  {
    forall a, b ensures SameAggregateKeys(lens)(a, b) <==> AggregateKeys(lens)(a) == AggregateKeys(lens)(b) {
      AggregateKeysMatchIffSame(lens, a, b);
    }
    forall a, b
      ensures SameAggregatePayloads(lens)(a, b) <==> AggregatePayloads(lens)(a) == AggregatePayloads(lens)(b)
    {
      AggregatePayloadsMatchIffSame(lens, a, b);
    }
  }

  /** Keeps one owner per key; reports a conflict exactly when two items with matching keys do not match. */
  method AssignAggregateOwners(lens: Lengths, modules: seq<Module<Aggregate>>)
    returns (kept: seq<Module<Aggregate>>, conflicts: seq<Conflict>)
    ensures kept == Assigned(modules, AggregateKeys(lens))
    ensures conflicts == [] <==> Consistent(modules, SameAggregateKeys(lens), SameAggregatePayloads(lens))
    ensures forall p | At(modules, p) :: HasOwner(modules, AggregateKeys(lens), p)
  {
    AggregateClassesDecide(lens);
    kept, conflicts := AssignUniqueOwners(
      modules, SameAggregateKeys(lens), AggregateKeys(lens), SameAggregatePayloads(lens), AggregatePayloads(lens));
    AgreementByComparison(modules, SameAggregateKeys(lens), AggregateKeys(lens), SameAggregatePayloads(lens),
      AggregatePayloads(lens));
  }

  /** Items with matching keys match. */
  ghost predicate Consistent<I>(modules: seq<Module<I>>, key: (I, I) -> bool, payload: (I, I) -> bool) {
    forall p, q | At(modules, p) && At(modules, q) && key(ItemAt(modules, p), ItemAt(modules, q)) ::
      payload(ItemAt(modules, p), ItemAt(modules, q))
  }

  /** Agreement, said with the comparisons instead of the canonical forms. */
  lemma {:induction false} AgreementByComparison<I(!new), K, P>(
    modules: seq<Module<I>>, key: (I, I) -> bool, keyOf: I -> K, payload: (I, I) -> bool, payloadOf: I -> P)
    requires Decides(key, keyOf) && Decides(payload, payloadOf)
    ensures Agreement(modules, keyOf, payloadOf) <==> Consistent(modules, key, payload)
  {
    if Agreement(modules, keyOf, payloadOf) {
      forall p, q | At(modules, p) && At(modules, q) && key(ItemAt(modules, p), ItemAt(modules, q))
        ensures payload(ItemAt(modules, p), ItemAt(modules, q))
      {
        assert SameKey(modules, keyOf, p, q);
      }
    }
  }

  // ---------------------------------------------------------------------------------------------------------------
  // Vtables.

  datatype VtableFunction =
    | Plain(def: nat)
    | Instance(instance: nat, home: nat, self: Option<Ty>, args: seq<Ty>, consts: seq<ConstArg>)

  datatype Entry = Entry(
    traitId: nat, args: seq<Ty>, consts: seq<ConstArg>, methodId: nat, methodName: Sym, slot: nat,
    function_: VtableFunction)

  datatype Vtable = Vtable(
    self: Ty, object_: Ty, traitId: nat, args: seq<Ty>, consts: seq<ConstArg>, entries: seq<Entry>)

  predicate VtableKeysMatch(lens: Lengths, a: Vtable, b: Vtable) {
    SameTy(Greedy, lens, a.self, b.self) && SameTy(Greedy, lens, a.object_, b.object_)
  }

  predicate FunctionsMatch(lens: Lengths, a: VtableFunction, b: VtableFunction) {
    match (a, b)
    case (Plain(f), Plain(g)) => f == g
    case (Instance(da, ha, sa, aa, ca), Instance(db, hb, sb, ab, cb)) =>
      && da == db && ha == hb
      && (match (sa, sb)
          case (None, None) => true
          case (Some(s), Some(t)) => SameTy(Greedy, lens, s, t)
          case _ => false)
      && SameTys(Greedy, lens, aa, ab) && SameConsts(Greedy, lens, ca, cb)
    case _ => false
  }

  predicate EntriesMatch(lens: Lengths, a: Entry, b: Entry) {
    && a.traitId == b.traitId
    && SameTys(Greedy, lens, a.args, b.args) && SameConsts(Greedy, lens, a.consts, b.consts)
    && a.methodId == b.methodId && a.methodName == b.methodName && a.slot == b.slot
    && FunctionsMatch(lens, a.function_, b.function_)
  }

  predicate VtablePayloadsMatch(lens: Lengths, a: Vtable, b: Vtable) {
    && a.traitId == b.traitId
    && SameTys(Greedy, lens, a.args, b.args) && SameConsts(Greedy, lens, a.consts, b.consts)
    && |a.entries| == |b.entries|
    && forall i | 0 <= i < |a.entries| :: EntriesMatch(lens, a.entries[i], b.entries[i])
  }

  datatype CVtableKey = CVtableKey(self: CTy, object_: CTy)
  datatype CFunction =
    | CPlain(def: nat)
    | CInstance(instance: nat, home: nat, self: Option<CTy>, args: seq<CTy>, consts: seq<CConst>)
  datatype CEntry = CEntry(
    traitId: nat, args: seq<CTy>, consts: seq<CConst>, methodId: nat, methodName: Sym, slot: nat, function_: CFunction)
  datatype CVtable = CVtable(traitId: nat, args: seq<CTy>, consts: seq<CConst>, entries: seq<CEntry>)

  function VtableKey(lens: Lengths, v: Vtable): CVtableKey {
    CVtableKey(Canon(lens, v.self), Canon(lens, v.object_))
  }

  function CanonFunction(lens: Lengths, f: VtableFunction): CFunction {
    match f
    case Plain(def) => CPlain(def)
    case Instance(def, home, self, args, consts) =>
      CInstance(def, home, if self.None? then None else Some(Canon(lens, self.value)), CanonTys(lens, args),
                CanonConsts(lens, consts))
  }

  function CanonEntry(lens: Lengths, e: Entry): CEntry {
    CEntry(e.traitId, CanonTys(lens, e.args), CanonConsts(lens, e.consts), e.methodId, e.methodName, e.slot,
           CanonFunction(lens, e.function_))
  }

  function VtablePayload(lens: Lengths, v: Vtable): CVtable {
    CVtable(v.traitId, CanonTys(lens, v.args), CanonConsts(lens, v.consts),
            seq(|v.entries|, i requires 0 <= i < |v.entries| => CanonEntry(lens, v.entries[i])))
  }

  lemma {:induction false} VtableKeysMatchIffSame(lens: Lengths, a: Vtable, b: Vtable)
    ensures VtableKeysMatch(lens, a, b) <==> VtableKey(lens, a) == VtableKey(lens, b)
  {
    SameTyIffCanon(Greedy, lens, a.self, b.self);
    SameTyIffCanon(Greedy, lens, a.object_, b.object_);
  }

  lemma {:induction false} FunctionsMatchIffSame(lens: Lengths, a: VtableFunction, b: VtableFunction)
    ensures FunctionsMatch(lens, a, b) <==> CanonFunction(lens, a) == CanonFunction(lens, b)
  {
    if a.Instance? && b.Instance? {
      SameTysIffCanon(Greedy, lens, a.args, b.args);
      SameConstsIffCanon(Greedy, lens, a.consts, b.consts);
      if a.self.Some? && b.self.Some? {
        SameTyIffCanon(Greedy, lens, a.self.value, b.self.value);
      }
    }
  }

  lemma {:induction false} EntriesMatchIffSame(lens: Lengths, a: Entry, b: Entry)
    ensures EntriesMatch(lens, a, b) <==> CanonEntry(lens, a) == CanonEntry(lens, b)
  {
    SameTysIffCanon(Greedy, lens, a.args, b.args);
    SameConstsIffCanon(Greedy, lens, a.consts, b.consts);
    FunctionsMatchIffSame(lens, a.function_, b.function_);
  }

  lemma {:induction false} VtablePayloadsMatchIffSame(lens: Lengths, a: Vtable, b: Vtable)
    ensures VtablePayloadsMatch(lens, a, b) <==> VtablePayload(lens, a) == VtablePayload(lens, b)
  {
    SameTysIffCanon(Greedy, lens, a.args, b.args);
    SameConstsIffCanon(Greedy, lens, a.consts, b.consts);
    var ca, cb := VtablePayload(lens, a).entries, VtablePayload(lens, b).entries;
    if |ca| == |cb| {
      forall i | 0 <= i < |ca| ensures EntriesMatch(lens, a.entries[i], b.entries[i]) <==> ca[i] == cb[i] {
        EntriesMatchIffSame(lens, a.entries[i], b.entries[i]);
      }
    }
  }

  function VtableKeys(lens: Lengths): Vtable -> CVtableKey {
    (x: Vtable) => VtableKey(lens, x)
  }

  function VtablePayloads(lens: Lengths): Vtable -> CVtable {
    (x: Vtable) => VtablePayload(lens, x)
  }

  function SameVtableKeys(lens: Lengths): (Vtable, Vtable) -> bool {
    (a: Vtable, b: Vtable) => VtableKeysMatch(lens, a, b)
  }

  function SameVtablePayloads(lens: Lengths): (Vtable, Vtable) -> bool {
    (a: Vtable, b: Vtable) => VtablePayloadsMatch(lens, a, b)
  }

  lemma {:induction false} VtableClassesDecide(lens: Lengths)
    ensures Decides(SameVtableKeys(lens), VtableKeys(lens)) && Decides(SameVtablePayloads(lens), VtablePayloads(lens))
  {
    forall a, b ensures SameVtableKeys(lens)(a, b) <==> VtableKeys(lens)(a) == VtableKeys(lens)(b) {
      VtableKeysMatchIffSame(lens, a, b);
    }
    forall a, b ensures SameVtablePayloads(lens)(a, b) <==> VtablePayloads(lens)(a) == VtablePayloads(lens)(b) {
      VtablePayloadsMatchIffSame(lens, a, b);
    }
  }

  /** Keeps one owner per key; reports a conflict exactly when two items with matching keys do not match. */
  method AssignVtableOwners(lens: Lengths, modules: seq<Module<Vtable>>)
    returns (kept: seq<Module<Vtable>>, conflicts: seq<Conflict>)
    ensures kept == Assigned(modules, VtableKeys(lens))
    ensures conflicts == [] <==> Consistent(modules, SameVtableKeys(lens), SameVtablePayloads(lens))
    ensures forall p | At(modules, p) :: HasOwner(modules, VtableKeys(lens), p)
  {
    VtableClassesDecide(lens);
    kept, conflicts := AssignUniqueOwners(
      modules, SameVtableKeys(lens), VtableKeys(lens), SameVtablePayloads(lens), VtablePayloads(lens));
    AgreementByComparison(modules, SameVtableKeys(lens), VtableKeys(lens), SameVtablePayloads(lens),
      VtablePayloads(lens));
  }
}
