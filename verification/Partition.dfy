/** The code-generation partitions of one module: definitions filtered, sorted by stable identity and spread over at
    most four buckets. */
module Partition {
  import opened Collections
  import opened Options
  import opened Paths
  import opened Sorting

  const BUCKETS := 4
  const SPLIT_THRESHOLD := 8

  datatype Global = Global(def: nat, isImport: bool)
  datatype Function = Function(def: nat, generic: bool, hasBody: bool)
  datatype Instance = Instance(id: nat, symbol: string, hasBody: bool)
  datatype Owner = Source(def: nat) | OfInstance(id: nat)
  datatype Closure = Closure(owner: Owner, symbol: string)

  /** Global instances are given by their symbols, vtables by their keys. */
  datatype Module = Module(
    globals: seq<Global>, globalInstances: seq<string>, functions: seq<Function>, instances: seq<Instance>,
    closures: seq<Closure>, vtables: seq<nat>)

  /** Indexes into the module, one list for each kind of definition. */
  datatype Definitions = Definitions(
    globals: seq<nat>, globalInstances: seq<nat>, functions: seq<nat>, instances: seq<nat>, closures: seq<nat>,
    vtables: seq<nat>)


  /** The kinds of definitions that are sorted and bucketed alike. */
  datatype Kind = Globals | GlobalInstances | Functions | FunctionInstances | Closures

  /** What partitioning needs to know of a definition. */
  datatype Entry = Entry(eligible: bool, key: Key, bucket: nat)

  function NumericBucket(value: nat): nat {
    value % BUCKETS
  }

  /** The symbol of the first instance with this id. */
  function SymbolOf(instances: seq<Instance>, id: nat): Option<string> {
    if instances == [] then None
    else if instances[0].id == id then Some(instances[0].symbol)
    else SymbolOf(instances[1..], id)
  }

  function ClosureBucket(m: Module, hash: string -> nat, c: Closure): nat {
    match c.owner
    case Source(def) => NumericBucket(def)
    case OfInstance(id) =>
      var symbol := SymbolOf(m.instances, id);
      NumericBucket(hash(if symbol.Some? then symbol.value else c.symbol))
  }

  function GlobalEntry(g: Global): Entry {
    Entry(!g.isImport, Key("", g.def), NumericBucket(g.def))
  }

  function SymbolEntry(hash: string -> nat, symbol: string, eligible: bool): Entry {
    Entry(eligible, Key(symbol, 0), NumericBucket(hash(symbol)))
  }

  function FunctionEntry(f: Function): Entry {
    Entry(!f.generic && f.hasBody, Key("", f.def), NumericBucket(f.def))
  }

  function EntryOf(m: Module, hash: string -> nat, kind: Kind, i: nat): Entry
    requires i < Count(m, kind)
  {
    match kind
    case Globals => GlobalEntry(m.globals[i])
    case GlobalInstances => SymbolEntry(hash, m.globalInstances[i], true)
    case Functions => FunctionEntry(m.functions[i])
    case FunctionInstances => SymbolEntry(hash, m.instances[i].symbol, m.instances[i].hasBody)
    case Closures => Entry(true, Key(m.closures[i].symbol, 0), ClosureBucket(m, hash, m.closures[i]))
  }

  function Count(m: Module, kind: Kind): nat {
    match kind
    case Globals => |m.globals|
    case GlobalInstances => |m.globalInstances|
    case Functions => |m.functions|
    case FunctionInstances => |m.instances|
    case Closures => |m.closures|
  }

  function Entries(m: Module, hash: string -> nat, kind: Kind): seq<Entry> {
    seq(Count(m, kind), i requires 0 <= i < Count(m, kind) => EntryOf(m, hash, kind, i))
  }

  function List(d: Definitions, kind: Kind): seq<nat> {
    match kind
    case Globals => d.globals
    case GlobalInstances => d.globalInstances
    case Functions => d.functions
    case FunctionInstances => d.instances
    case Closures => d.closures
  }

  function Length(d: Definitions): nat {
    |d.globals| + |d.globalInstances| + |d.functions| + |d.instances| + |d.closures| + |d.vtables|
  }

  // ---------------------------------------------------------------------------------------------------------------
  // Filtering and sorting one kind.

  predicate Wanted(entries: seq<Entry>, i: nat) {
    i < |entries| && entries[i].eligible
  }

  /** `list` holds the eligible indexes, each once, in the order of their keys. */
  ghost predicate Arranged(entries: seq<Entry>, list: seq<nat>) {
    && Distinct(list)
    && (forall i: nat :: i in list <==> Wanted(entries, i))
    && (forall a, b | 0 <= a < b < |list| && list[a] < |entries| && list[b] < |entries| ::
          !Below(entries[list[b]].key, entries[list[a]].key))
  }

  /** The eligible indexes with their keys, in source order. */
  ghost function Eligible(entries: seq<Entry>, n: nat): seq<Keyed<nat>>
    requires n <= |entries|
  {
    if n == 0 then [] else
    Eligible(entries, n - 1) + if entries[n - 1].eligible then [Keyed(entries[n - 1].key, n - 1)] else []
  }

  method SortedDefinitions(entries: seq<Entry>) returns (list: seq<nat>)
    ensures Arranged(entries, list)
  {
    var keyed: seq<Keyed<nat>> := [];
    for i := 0 to |entries|
      invariant keyed == Eligible(entries, i)
    {
      if entries[i].eligible {
        keyed := keyed + [Keyed(entries[i].key, i)];
      }
    }
    var sorted := Sort(keyed);
    list := seq(|sorted|, j requires 0 <= j < |sorted| => sorted[j].value);
    ArrangedByKey(entries, keyed, sorted, list);
  }

  lemma {:induction false} EligibleAt(entries: seq<Entry>, n: nat)
    requires n <= |entries|
    ensures forall i: nat | i < n && entries[i].eligible :: Keyed(entries[i].key, i) in Eligible(entries, n)
    ensures forall k | k in Eligible(entries, n) ::
      k.value < n && entries[k.value].eligible && k.key == entries[k.value].key
  {
    if n > 0 {
      EligibleAt(entries, n - 1);
    }
  }

  lemma {:induction false} EligibleOnce(entries: seq<Entry>, n: nat, k: Keyed<nat>)
    requires n <= |entries|
    ensures multiset(Eligible(entries, n))[k] <= 1
  {
    if n > 0 {
      EligibleOnce(entries, n - 1, k);
      EligibleAt(entries, n - 1);
      NewElement(Eligible(entries, n - 1), Keyed(entries[n - 1].key, n - 1), k);
    }
  }

  lemma {:induction false} NewElement(s: seq<Keyed<nat>>, last: Keyed<nat>, k: Keyed<nat>)
    requires multiset(s)[k] <= 1 && last !in s
    ensures multiset(s + [last])[k] <= 1
  {
    assert last !in multiset(s);
  }

  lemma {:induction false} ArrangedByKey(
    entries: seq<Entry>, keyed: seq<Keyed<nat>>, sorted: seq<Keyed<nat>>, list: seq<nat>)
    requires keyed == Eligible(entries, |entries|) && Sorted(sorted) && multiset(sorted) == multiset(keyed)
    requires |list| == |sorted| && forall j | 0 <= j < |list| :: list[j] == sorted[j].value
    ensures Arranged(entries, list)
  {
    EligibleAt(entries, |entries|);
    forall j | 0 <= j < |sorted|
      ensures list[j] < |entries| && entries[list[j]].eligible && sorted[j].key == entries[list[j]].key
    {
      assert sorted[j] in multiset(keyed);
      assert sorted[j] in keyed;
    }
    forall i: nat | Wanted(entries, i) ensures i in list {
      assert Keyed(entries[i].key, i) in keyed;
      assert Keyed(entries[i].key, i) in multiset(sorted);
      var j :| 0 <= j < |sorted| && sorted[j] == Keyed(entries[i].key, i);
      assert list[j] == i;
    }
    forall a, b | 0 <= a < b < |list| ensures list[a] != list[b] {
      if list[a] == list[b] {
        assert sorted[a] == sorted[b];
        TwiceInMultiset(sorted, a, b);
        EligibleOnce(entries, |entries|, sorted[a]);
      }
    }
  }

  lemma {:induction false} TwiceInMultiset<T>(s: seq<T>, a: nat, b: nat)
    requires a < b < |s| && s[a] == s[b]
    ensures multiset(s)[s[a]] >= 2
  {
    assert s == s[..b] + [s[b]] + s[b + 1..];
    assert s[a] in s[..b];
  }

  // ---------------------------------------------------------------------------------------------------------------
  // Buckets.

  /** The indexes of `list` that go to bucket `b`, in order. */
  function InBucket(entries: seq<Entry>, list: seq<nat>, b: nat): seq<nat> {
    if list == [] then [] else
    var last := list[|list| - 1];
    InBucket(entries, list[..|list| - 1], b) + if last < |entries| && entries[last].bucket == b then [last] else []
  }

  method Distribute(entries: seq<Entry>, list: seq<nat>) returns (buckets: seq<seq<nat>>)
    requires forall i | i in list :: i < |entries|
    requires forall i | 0 <= i < |entries| :: entries[i].bucket < BUCKETS
    ensures |buckets| == BUCKETS && forall b | 0 <= b < BUCKETS :: buckets[b] == InBucket(entries, list, b)
  {
    buckets := seq(BUCKETS, _ => []);
    for j := 0 to |list|
      invariant |buckets| == BUCKETS && forall b | 0 <= b < BUCKETS :: buckets[b] == InBucket(entries, list[..j], b)
    {
      assert list[..j + 1][..j] == list[..j];
      assert list[j] in list;
      var b := entries[list[j]].bucket;
      buckets := buckets[b := buckets[b] + [list[j]]];
    }
    assert list[..|list|] == list;
  }

  lemma {:induction false} InBucketHas(entries: seq<Entry>, list: seq<nat>, b: nat)
    ensures forall i :: i in InBucket(entries, list, b) <==> i in list && i < |entries| && entries[i].bucket == b
    ensures Distinct(list) ==> Distinct(InBucket(entries, list, b))
  {
    if list != [] {
      var init := list[..|list| - 1];
      InBucketHas(entries, init, b);
      assert list == init + [list[|list| - 1]];
    }
  }

  /** All kinds sorted; vtables stay in source order. */
  ghost predicate Prepared(m: Module, hash: string -> nat, d: Definitions) {
    && (forall kind :: Arranged(Entries(m, hash, kind), List(d, kind)))
    && d.vtables == Upto(|m.vtables|)
  }

  function Upto(n: nat): seq<nat> {
    seq(n, i requires 0 <= i < n => i)
  }

  method FromModule(m: Module, hash: string -> nat) returns (d: Definitions)
    ensures Prepared(m, hash, d)
  {
    var globals := SortedDefinitions(Entries(m, hash, Globals));
    var globalInstances := SortedDefinitions(Entries(m, hash, GlobalInstances));
    var functions := SortedDefinitions(Entries(m, hash, Functions));
    var instances := SortedDefinitions(Entries(m, hash, FunctionInstances));
    var closures := SortedDefinitions(Entries(m, hash, Closures));
    d := Definitions(globals, globalInstances, functions, instances, closures, Upto(|m.vtables|));
    forall kind ensures Arranged(Entries(m, hash, kind), List(d, kind)) {
      match kind
      case Globals =>
      case GlobalInstances =>
      case Functions =>
      case FunctionInstances =>
      case Closures =>
    }
  }

  function Bucket(m: Module, hash: string -> nat, d: Definitions, b: nat): Definitions {
    Definitions(
      InBucket(Entries(m, hash, Globals), d.globals, b),
      InBucket(Entries(m, hash, GlobalInstances), d.globalInstances, b),
      InBucket(Entries(m, hash, Functions), d.functions, b),
      InBucket(Entries(m, hash, FunctionInstances), d.instances, b),
      InBucket(Entries(m, hash, Closures), d.closures, b),
      if b == 0 then d.vtables else [])
  }

  function AllBuckets(m: Module, hash: string -> nat, d: Definitions): seq<Definitions> {
    seq(BUCKETS, b requires 0 <= b < BUCKETS => Bucket(m, hash, d, b))
  }

  /** The nonempty ones of the first `n` buckets. */
  ghost function NonEmpty(buckets: seq<Definitions>, n: nat): seq<Part<Definitions>>
    requires n <= |buckets|
  {
    if n == 0 then [] else
    NonEmpty(buckets, n - 1) + if Length(buckets[n - 1]) == 0 then [] else [Part(n - 1, buckets[n - 1])]
  }

  /** The partitions of a module whose definitions are `d`. */
  ghost function Split(m: Module, hash: string -> nat, d: Definitions): seq<Part<Definitions>> {
    if Length(d) == 0 then []
    else if Length(d) < SPLIT_THRESHOLD then [Part(0, d)]
    else NonEmpty(AllBuckets(m, hash, d), BUCKETS)
  }

  /** The partitions of a module, for definitions in any order the unstable sort may leave them in. */
  ghost predicate PartitionsOf(m: Module, hash: string -> nat, parts: seq<Part<Definitions>>) {
    exists d | Prepared(m, hash, d) :: parts == Split(m, hash, d)
  }

  method ForModule(m: Module, hash: string -> nat) returns (parts: seq<Part<Definitions>>)
    ensures PartitionsOf(m, hash, parts)
  {
    var definitions := FromModule(m, hash);
    if Length(definitions) == 0 {
      return [];
    }
    if Length(definitions) < SPLIT_THRESHOLD {
      return [Part(0, definitions)];
    }
    var buckets := FillBuckets(m, hash, definitions);
    parts := KeepNonEmpty(buckets);
    assert parts == Split(m, hash, definitions);
  }

  method KeepNonEmpty(buckets: seq<Definitions>) returns (parts: seq<Part<Definitions>>)
    ensures parts == NonEmpty(buckets, |buckets|)
  {
    parts := [];
    for b := 0 to |buckets|
      invariant parts == NonEmpty(buckets, b)
    {
      if Length(buckets[b]) != 0 {
        parts := parts + [Part(b, buckets[b])];
      }
    }
  }

  method FillBuckets(m: Module, hash: string -> nat, d: Definitions) returns (buckets: seq<Definitions>)
    requires Prepared(m, hash, d)
    ensures buckets == AllBuckets(m, hash, d)
  {
    var globals := DistributeKind(m, hash, d, Globals);
    var globalInstances := DistributeKind(m, hash, d, GlobalInstances);
    var functions := DistributeKind(m, hash, d, Functions);
    var instances := DistributeKind(m, hash, d, FunctionInstances);
    var closures := DistributeKind(m, hash, d, Closures);
    buckets := seq(BUCKETS, b requires 0 <= b < BUCKETS =>
      Definitions(globals[b], globalInstances[b], functions[b], instances[b], closures[b],
                  if b == 0 then d.vtables else []));
  }

  method DistributeKind(m: Module, hash: string -> nat, d: Definitions, kind: Kind) returns (buckets: seq<seq<nat>>)
    requires Prepared(m, hash, d)
    ensures |buckets| == BUCKETS
    ensures forall b | 0 <= b < BUCKETS :: buckets[b] == InBucket(Entries(m, hash, kind), List(d, kind), b)
  {
    assert Arranged(Entries(m, hash, kind), List(d, kind));
    assert forall i | i in List(d, kind) :: Wanted(Entries(m, hash, kind), i);
    buckets := Distribute(Entries(m, hash, kind), List(d, kind));
  }

  // ---------------------------------------------------------------------------------------------------------------
  // Every eligible definition is in exactly one partition.

  lemma {:induction false} NonEmptyHas(buckets: seq<Definitions>, n: nat)
    requires n <= |buckets|
    ensures forall b: nat | b < n && Length(buckets[b]) > 0 :: Part(b, buckets[b]) in NonEmpty(buckets, n)
    ensures forall p | p in NonEmpty(buckets, n) ::
      p.ordinal < n && p.definitions == buckets[p.ordinal] && Length(p.definitions) > 0
  {
    if n > 0 {
      NonEmptyHas(buckets, n - 1);
    }
  }

  ghost predicate ByOrdinal(parts: seq<Part<Definitions>>) {
    forall a, b | 0 <= a < b < |parts| :: parts[a].ordinal < parts[b].ordinal
  }

  lemma {:induction false} OneMorePart(parts: seq<Part<Definitions>>, last: Part<Definitions>)
    requires ByOrdinal(parts) && forall p | p in parts :: p.ordinal < last.ordinal
    ensures ByOrdinal(parts + [last])
  {
    assert forall a | 0 <= a < |parts| :: parts[a] in parts;
  }

  lemma {:induction false} NonEmptyAscends(buckets: seq<Definitions>, n: nat)
    requires n <= |buckets|
    ensures |NonEmpty(buckets, n)| <= n && ByOrdinal(NonEmpty(buckets, n))
  {
    if n > 0 {
      NonEmptyHas(buckets, n - 1);
      NonEmptyAscends(buckets, n - 1);
      var init, last := NonEmpty(buckets, n - 1), Part(n - 1, buckets[n - 1]);
      OneMorePart(init, last);
      assert NonEmpty(buckets, n) == if Length(buckets[n - 1]) == 0 then init else init + [last];
    }
  }

  /** At most four partitions, none empty, by ascending ordinal. */
  lemma {:induction false} PartsAreOrdered(m: Module, hash: string -> nat, d: Definitions)
    ensures var parts := Split(m, hash, d);
      && |parts| <= 4
      && (forall p | p in parts :: p.ordinal < 4 && Length(p.definitions) > 0)
      && ByOrdinal(parts)
  {
    NonEmptyHas(AllBuckets(m, hash, d), BUCKETS);
    NonEmptyAscends(AllBuckets(m, hash, d), BUCKETS);
  }

  /** What is emitted: globals that are not imported, global instances, functions that are not generic and have a body,
      function instances with a body, closure entries. */
  ghost predicate Emitted(m: Module, kind: Kind, i: nat) {
    match kind
    case Globals => i < |m.globals| && !m.globals[i].isImport
    case GlobalInstances => i < |m.globalInstances|
    case Functions => i < |m.functions| && !m.functions[i].generic && m.functions[i].hasBody
    case FunctionInstances => i < |m.instances| && m.instances[i].hasBody
    case Closures => i < |m.closures|
  }

  /** The remainder modulo four of the number, or of the hash of the symbol, that places a definition. A closure has the
      number or symbol of its owner. */
  ghost function Remainder(m: Module, hash: string -> nat, kind: Kind, i: nat): nat
    requires i < Count(m, kind)
  {
    match kind
    case Globals => m.globals[i].def % 4
    case GlobalInstances => hash(m.globalInstances[i]) % 4
    case Functions => m.functions[i].def % 4
    case FunctionInstances => hash(m.instances[i].symbol) % 4
    case Closures => match m.closures[i].owner {
      case Source(def) => def % 4
      case OfInstance(id) =>
        var symbol := SymbolOf(m.instances, id);
        hash(if symbol.Some? then symbol.value else m.closures[i].symbol) % 4
    }
  }

  /** The ordinal of the partition that index `i` of a kind goes to. */
  ghost function Home(m: Module, hash: string -> nat, d: Definitions, kind: Kind, i: nat): nat
    requires i < Count(m, kind)
  {
    if Length(d) < 8 then 0 else Remainder(m, hash, kind, i)
  }

  ghost predicate Eligibly(m: Module, hash: string -> nat, kind: Kind, i: nat) {
    i < Count(m, kind) && EntryOf(m, hash, kind, i).eligible
  }

  lemma {:induction false} EntryMeans(m: Module, hash: string -> nat, kind: Kind, i: nat)
    ensures Eligibly(m, hash, kind, i) <==> Emitted(m, kind, i)
    ensures i < Count(m, kind) ==> EntryOf(m, hash, kind, i).bucket == Remainder(m, hash, kind, i)
  {
  }

  lemma {:induction false} BucketList(m: Module, hash: string -> nat, d: Definitions, kind: Kind, b: nat)
    ensures List(Bucket(m, hash, d, b), kind) == InBucket(Entries(m, hash, kind), List(d, kind), b)
  {
  }

  lemma {:induction false} BucketIsSmall(m: Module, hash: string -> nat, kind: Kind, i: nat)
    requires i < Count(m, kind)
    ensures EntryOf(m, hash, kind, i).bucket < BUCKETS
  {
  }

  lemma {:induction false} ListIsPart(d: Definitions, kind: Kind, i: nat)
    requires i in List(d, kind)
    ensures Length(d) > 0
  {
  }

  /** An emitted definition is in the partition of its ordinal; a partition has only emitted definitions of its
      ordinal, each once. */
  lemma {:induction false} PartitionIsExact(m: Module, hash: string -> nat, d: Definitions, kind: Kind, i: nat)
    requires Prepared(m, hash, d)
    ensures Emitted(m, kind, i) ==>
      exists p :: p in Split(m, hash, d) && p.ordinal == Home(m, hash, d, kind, i) && i in List(p.definitions, kind)
    ensures forall p | p in Split(m, hash, d) && i in List(p.definitions, kind) ::
      Emitted(m, kind, i) && p.ordinal == Home(m, hash, d, kind, i)
    ensures forall p | p in Split(m, hash, d) :: Distinct(List(p.definitions, kind))
  {
    var entries, list := Entries(m, hash, kind), List(d, kind);
    assert Arranged(entries, list);
    assert i in list <==> Wanted(entries, i);
    EntryMeans(m, hash, kind, i);
    if Length(d) >= SPLIT_THRESHOLD {
      SplitIsExact(m, hash, d, kind, i);
    } else {
      if Eligibly(m, hash, kind, i) {
        ListIsPart(d, kind, i);
        assert Part(0, d) in Split(m, hash, d);
      }
      assert forall p | p in Split(m, hash, d) :: p == Part(0, d);
    }
  }

  /** `i` does not come after `j`: by number, or by symbol. */
  ghost predicate InOrder(m: Module, kind: Kind, i: nat, j: nat)
    requires i < Count(m, kind) && j < Count(m, kind)
  {
    match kind
    case Globals => m.globals[i].def <= m.globals[j].def
    case GlobalInstances => !Less(m.globalInstances[j], m.globalInstances[i])
    case Functions => m.functions[i].def <= m.functions[j].def
    case FunctionInstances => !Less(m.instances[j].symbol, m.instances[i].symbol)
    case Closures => !Less(m.closures[j].symbol, m.closures[i].symbol)
  }

  ghost predicate AllInOrder(m: Module, kind: Kind, list: seq<nat>) {
    && (forall i | i in list :: i < Count(m, kind))
    && (forall a, b | 0 <= a < b < |list| && list[a] < Count(m, kind) && list[b] < Count(m, kind) ::
          InOrder(m, kind, list[a], list[b]))
  }

  /** Every partition has the definitions of a kind in order. */
  lemma {:induction false} PartitionIsSorted(m: Module, hash: string -> nat, d: Definitions, kind: Kind)
    requires Prepared(m, hash, d)
    ensures forall p | p in Split(m, hash, d) :: AllInOrder(m, kind, List(p.definitions, kind))
  {
    var entries, list := Entries(m, hash, kind), List(d, kind);
    assert Arranged(entries, list);
    ArrangedIsInOrder(m, hash, kind, list);
    NonEmptyHas(AllBuckets(m, hash, d), BUCKETS);
    forall p | p in Split(m, hash, d) ensures AllInOrder(m, kind, List(p.definitions, kind)) {
      if Length(d) >= SPLIT_THRESHOLD {
        BucketList(m, hash, d, kind, p.ordinal);
        BucketIsInOrder(m, hash, kind, list, p.ordinal);
      }
    }
  }

  lemma {:induction false} ArrangedIsInOrder(m: Module, hash: string -> nat, kind: Kind, list: seq<nat>)
    requires Arranged(Entries(m, hash, kind), list)
    ensures AllInOrder(m, kind, list)
  {
    var entries := Entries(m, hash, kind);
    assert forall i | i in list :: Wanted(entries, i);
    forall a, b | 0 <= a < b < |list| && list[a] < Count(m, kind) && list[b] < Count(m, kind)
      ensures InOrder(m, kind, list[a], list[b])
    {
      assert !Below(entries[list[b]].key, entries[list[a]].key);
      Irreflexive("");
    }
  }

  lemma {:induction false} BucketIsInOrder(m: Module, hash: string -> nat, kind: Kind, list: seq<nat>, b: nat)
    requires AllInOrder(m, kind, list)
    ensures AllInOrder(m, kind, InBucket(Entries(m, hash, kind), list, b))
  {
    if list != [] {
      var init, last := list[..|list| - 1], list[|list| - 1];
      assert list == init + [last];
      FewerInOrder(m, kind, init, last);
      BucketIsInOrder(m, hash, kind, init, b);
      PickedFromList(Entries(m, hash, kind), init, b);
      OneMoreInOrder(m, kind, InBucket(Entries(m, hash, kind), init, b), init, last);
    }
  }

  lemma {:induction false} FewerInOrder(m: Module, kind: Kind, init: seq<nat>, last: nat)
    requires AllInOrder(m, kind, init + [last])
    ensures AllInOrder(m, kind, init)
  {
    var list := init + [last];
    assert forall i | i in init :: i in list;
    assert forall a | 0 <= a < |init| :: init[a] == list[a];
  }

  lemma {:induction false} PickedFromList(entries: seq<Entry>, list: seq<nat>, b: nat)
    ensures forall i | i in InBucket(entries, list, b) :: i in list
  {
    InBucketHas(entries, list, b);
  }

  lemma {:induction false} OneMoreInOrder(m: Module, kind: Kind, picked: seq<nat>, init: seq<nat>, last: nat)
    requires AllInOrder(m, kind, picked) && AllInOrder(m, kind, init + [last]) && forall i | i in picked :: i in init
    ensures AllInOrder(m, kind, picked + [last])
  {
    var list := init + [last];
    assert last in list;
    forall a | 0 <= a < |picked| ensures picked[a] < Count(m, kind) && InOrder(m, kind, picked[a], last) {
      assert picked[a] in picked;
      var i :| 0 <= i < |init| && init[i] == picked[a];
      assert list[i] == picked[a] && list[i] in list && list[|init|] == last;
    }
  }

  lemma {:induction false} SplitIsExact(m: Module, hash: string -> nat, d: Definitions, kind: Kind, i: nat)
    requires Length(d) >= SPLIT_THRESHOLD && Arranged(Entries(m, hash, kind), List(d, kind))
    ensures Eligibly(m, hash, kind, i) ==>
      exists p :: p in Split(m, hash, d) && p.ordinal == EntryOf(m, hash, kind, i).bucket &&
        i in List(p.definitions, kind)
    ensures forall p | p in Split(m, hash, d) && i in List(p.definitions, kind) ::
      Eligibly(m, hash, kind, i) && p.ordinal == EntryOf(m, hash, kind, i).bucket
    ensures forall p | p in Split(m, hash, d) :: Distinct(List(p.definitions, kind))
  {
    var entries, list := Entries(m, hash, kind), List(d, kind);
    assert i in list <==> Wanted(entries, i);
    NonEmptyHas(AllBuckets(m, hash, d), BUCKETS);
    if Eligibly(m, hash, kind, i) {
      var b := EntryOf(m, hash, kind, i).bucket;
      BucketIsSmall(m, hash, kind, i);
      BucketList(m, hash, d, kind, b);
      InBucketHas(entries, list, b);
      ListIsPart(Bucket(m, hash, d, b), kind, i);
      assert Part(b, AllBuckets(m, hash, d)[b]) in Split(m, hash, d);
    }
    forall p | p in Split(m, hash, d)
      ensures i in List(p.definitions, kind) ==>
        Eligibly(m, hash, kind, i) && p.ordinal == EntryOf(m, hash, kind, i).bucket
      ensures Distinct(List(p.definitions, kind))
    {
      BucketList(m, hash, d, kind, p.ordinal);
      InBucketHas(entries, list, p.ordinal);
    }
  }

  /** Vtables stay together in source order, in the partition with ordinal 0. */
  lemma {:induction false} VtablesStayTogether(m: Module, hash: string -> nat, d: Definitions)
    requires Prepared(m, hash, d)
    ensures forall p | p in Split(m, hash, d) ::
      p.definitions.vtables == if p.ordinal == 0 then Upto(|m.vtables|) else []
    ensures m.vtables != [] ==> exists p :: p in Split(m, hash, d) && p.ordinal == 0
  {
    var buckets := AllBuckets(m, hash, d);
    NonEmptyHas(buckets, BUCKETS);
    if m.vtables != [] {
      assert |d.vtables| > 0 && |buckets[0].vtables| > 0;
      assert Length(d) < SPLIT_THRESHOLD ==> Split(m, hash, d)[0] == Part(0, d);
      assert Length(d) >= SPLIT_THRESHOLD ==> Part(0, buckets[0]) in Split(m, hash, d);
    }
  }

  ghost predicate UniqueInstances(m: Module) {
    forall i, j | 0 <= i < j < |m.instances| :: m.instances[i].id != m.instances[j].id
  }

  lemma {:induction false} SymbolOfInstance(instances: seq<Instance>, i: nat)
    requires i < |instances| && forall a, b | 0 <= a < b < |instances| :: instances[a].id != instances[b].id
    ensures SymbolOf(instances, instances[i].id) == Some(instances[i].symbol)
  {
    if i > 0 {
      assert instances[0].id != instances[i].id;
      SymbolOfInstance(instances[1..], i - 1);
    }
  }

  /** The definition that owns a closure. */
  ghost predicate OwnedBy(m: Module, c: nat, kind: Kind, i: nat) {
    && c < |m.closures| && i < Count(m, kind)
    && match m.closures[c].owner
       case Source(def) => kind == Functions && m.functions[i].def == def
       case OfInstance(id) => kind == FunctionInstances && m.instances[i].id == id
  }

  /** A closure entry shares the partition of its emitted owner. */
  lemma {:induction false} ClosureFollowsOwner(
    m: Module, hash: string -> nat, d: Definitions, c: nat, kind: Kind, i: nat)
    requires Prepared(m, hash, d) && UniqueInstances(m) && OwnedBy(m, c, kind, i) && Emitted(m, kind, i)
    ensures exists p :: p in Split(m, hash, d) && c in p.definitions.closures && i in List(p.definitions, kind)
  {
    PartitionIsExact(m, hash, d, Closures, c);
    PartitionIsExact(m, hash, d, kind, i);
    if m.closures[c].owner.OfInstance? {
      SymbolOfInstance(m.instances, i);
    }
    var p :| p in Split(m, hash, d) && p.ordinal == Home(m, hash, d, Closures, c) && c in List(p.definitions, Closures);
    var q :| q in Split(m, hash, d) && q.ordinal == Home(m, hash, d, kind, i) && i in List(q.definitions, kind);
    OrdinalIsUnique(m, hash, d, p, q);
  }

  lemma {:induction false} OrdinalIsUnique(
    m: Module, hash: string -> nat, d: Definitions, p: Part<Definitions>, q: Part<Definitions>)
    requires p in Split(m, hash, d) && q in Split(m, hash, d) && p.ordinal == q.ordinal
    ensures p == q
  {
    PartsAreOrdered(m, hash, d);
    var parts := Split(m, hash, d);
    var a :| 0 <= a < |parts| && parts[a] == p;
    var b :| 0 <= b < |parts| && parts[b] == q;
  }

  // ---------------------------------------------------------------------------------------------------------------
  // Input order does not matter.

  ghost predicate SameElements<T(!new)>(a: seq<T>, b: seq<T>) {
    forall x :: x in a <==> x in b
  }

  /** The same definitions in another order; vtables in the same order. */
  ghost predicate Reordered(m: Module, n: Module) {
    && SameElements(m.globals, n.globals)
    && SameElements(m.globalInstances, n.globalInstances)
    && SameElements(m.functions, n.functions)
    && SameElements(m.instances, n.instances)
    && SameElements(m.closures, n.closures)
    && m.vtables == n.vtables
    && UniqueInstances(m) && UniqueInstances(n)
  }

  /** No two eligible definitions of a kind share a key. */
  ghost predicate UniqueKeys(entries: seq<Entry>) {
    forall i, j | 0 <= i < j < |entries| && entries[i].eligible && entries[j].eligible ::
      entries[i].key != entries[j].key
  }

  ghost function At(entries: seq<Entry>, i: nat): Keyed<Entry> {
    var e := if i < |entries| then entries[i] else Entry(false, Key("", 0), 0);
    Keyed(e.key, e)
  }

  /** The definitions at these indexes. */
  ghost function Picked(entries: seq<Entry>, list: seq<nat>): seq<Keyed<Entry>> {
    seq(|list|, j requires 0 <= j < |list| => At(entries, list[j]))
  }

  lemma {:induction false} PickedAscends(entries: seq<Entry>, list: seq<nat>)
    requires Arranged(entries, list) && UniqueKeys(entries)
    ensures forall i | i in list :: Wanted(entries, i)
    ensures Ascending(Picked(entries, list))
    ensures forall x :: x in Picked(entries, list) <==> x.value in entries && x.value.eligible && x.key == x.value.key
  {
    assert forall i | i in list :: Wanted(entries, i);
    var picked := Picked(entries, list);
    forall a, b | 0 <= a < b < |picked| ensures Below(picked[a].key, picked[b].key) {
      assert list[a] in list && list[b] in list && list[a] != list[b];
      assert list[a] < list[b] || list[b] < list[a];
      BelowIsOrder(picked[a].key, picked[b].key, picked[a].key);
    }
    forall x: Keyed<Entry> | x.value in entries && x.value.eligible && x.key == x.value.key ensures x in picked {
      var i :| 0 <= i < |entries| && entries[i] == x.value;
      assert Wanted(entries, i);
      var j :| 0 <= j < |list| && list[j] == i;
      assert picked[j] == x;
    }
    forall x | x in picked ensures x.value in entries && x.value.eligible && x.key == x.value.key {
      var j :| 0 <= j < |picked| && picked[j] == x;
      assert list[j] in list;
    }
  }

  lemma {:induction false} PickedIsCanonical(a: seq<Entry>, b: seq<Entry>, listA: seq<nat>, listB: seq<nat>)
    requires Arranged(a, listA) && Arranged(b, listB) && UniqueKeys(a) && UniqueKeys(b) && SameElements(a, b)
    ensures Picked(a, listA) == Picked(b, listB)
  {
    PickedAscends(a, listA);
    PickedAscends(b, listB);
    AscendingIsUnique(Picked(a, listA), Picked(b, listB));
  }

  /** The bucket `k` part of picked entries. */
  ghost function BucketOf(picked: seq<Keyed<Entry>>, k: nat): seq<Keyed<Entry>> {
    if picked == [] then [] else
    var last := picked[|picked| - 1];
    BucketOf(picked[..|picked| - 1], k) + if last.value.bucket == k then [last] else []
  }

  lemma {:induction false} PickedBucket(entries: seq<Entry>, list: seq<nat>, k: nat)
    requires forall i | i in list :: i < |entries|
    ensures Picked(entries, InBucket(entries, list, k)) == BucketOf(Picked(entries, list), k)
  {
    if list != [] {
      var init, last := list[..|list| - 1], list[|list| - 1];
      forall i | i in init ensures i < |entries| {
        assert i in list;
      }
      assert last in list;
      PickedBucket(entries, init, k);
      PickedPrefix(entries, list);
      if entries[last].bucket == k {
        PickedMore(entries, InBucket(entries, init, k), last);
      } else {
        assert InBucket(entries, list, k) == InBucket(entries, init, k);
      }
    }
  }

  lemma {:induction false} PickedPrefix(entries: seq<Entry>, list: seq<nat>)
    requires list != []
    ensures |Picked(entries, list)| == |list|
    ensures Picked(entries, list)[..|list| - 1] == Picked(entries, list[..|list| - 1])
    ensures Picked(entries, list)[|list| - 1] == At(entries, list[|list| - 1])
  {
  }

  lemma {:induction false} PickedMore(entries: seq<Entry>, list: seq<nat>, last: nat)
    ensures Picked(entries, list + [last]) == Picked(entries, list) + [At(entries, last)]
  {
  }

  lemma {:induction false} SameSymbols(m: Module, n: Module, id: nat)
    requires Reordered(m, n)
    ensures SymbolOf(m.instances, id) == SymbolOf(n.instances, id)
  {
    SymbolOfMissing(m.instances, id);
    SymbolOfMissing(n.instances, id);
    if i :| 0 <= i < |m.instances| && m.instances[i].id == id {
      assert m.instances[i] in n.instances;
      var j :| 0 <= j < |n.instances| && n.instances[j] == m.instances[i];
      SymbolOfInstance(m.instances, i);
      SymbolOfInstance(n.instances, j);
    } else {
      forall j | 0 <= j < |n.instances| ensures n.instances[j].id != id {
        assert n.instances[j] in m.instances;
      }
    }
  }

  lemma {:induction false} SymbolOfMissing(instances: seq<Instance>, id: nat)
    ensures (forall i | 0 <= i < |instances| :: instances[i].id != id) ==> SymbolOf(instances, id) == None
  {
    if instances != [] {
      SymbolOfMissing(instances[1..], id);
    }
  }

  lemma {:induction false} EntryMoves(m: Module, n: Module, hash: string -> nat, kind: Kind, e: Entry)
    requires Reordered(m, n) && e in Entries(m, hash, kind)
    ensures e in Entries(n, hash, kind)
  {
    var i :| 0 <= i < Count(m, kind) && Entries(m, hash, kind)[i] == e;
    var j: nat;
    match kind {
      case Globals => assert m.globals[i] in n.globals; j :| 0 <= j < |n.globals| && n.globals[j] == m.globals[i];
      case GlobalInstances =>
        assert m.globalInstances[i] in n.globalInstances;
        j :| 0 <= j < |n.globalInstances| && n.globalInstances[j] == m.globalInstances[i];
      case Functions =>
        assert m.functions[i] in n.functions;
        j :| 0 <= j < |n.functions| && n.functions[j] == m.functions[i];
      case FunctionInstances =>
        assert m.instances[i] in n.instances;
        j :| 0 <= j < |n.instances| && n.instances[j] == m.instances[i];
      case Closures =>
        assert m.closures[i] in n.closures;
        j :| 0 <= j < |n.closures| && n.closures[j] == m.closures[i];
        if m.closures[i].owner.OfInstance? {
          SameSymbols(m, n, m.closures[i].owner.id);
        }
    }
    assert Entries(n, hash, kind)[j] == e;
  }

  lemma {:induction false} SameEntries(m: Module, n: Module, hash: string -> nat, kind: Kind)
    requires Reordered(m, n)
    ensures SameElements(Entries(m, hash, kind), Entries(n, hash, kind))
  {
    forall e | e in Entries(m, hash, kind) ensures e in Entries(n, hash, kind) {
      EntryMoves(m, n, hash, kind, e);
    }
    forall e | e in Entries(n, hash, kind) ensures e in Entries(m, hash, kind) {
      EntryMoves(n, m, hash, kind, e);
    }
  }

  /** For uniquely keyed definitions, each partition holds the same definitions in the same order whatever the order of
      the input, and the decision to split is the same. */
  lemma {:induction false} PartitionIsCanonical(
    m: Module, n: Module, hash: string -> nat, d: Definitions, e: Definitions, kind: Kind, k: nat)
    requires Reordered(m, n) && Prepared(m, hash, d) && Prepared(n, hash, e)
    requires forall x :: UniqueKeys(Entries(m, hash, x)) && UniqueKeys(Entries(n, hash, x))
    ensures Length(d) == Length(e)
    ensures Picked(Entries(m, hash, kind), List(Bucket(m, hash, d, k), kind)) ==
      Picked(Entries(n, hash, kind), List(Bucket(n, hash, e, k), kind))
    ensures Picked(Entries(m, hash, kind), List(d, kind)) == Picked(Entries(n, hash, kind), List(e, kind))
  {
    SameLengths(m, n, hash, d, e);
    KindIsCanonical(m, n, hash, d, e, kind);
    BucketList(m, hash, d, kind, k);
    BucketList(n, hash, e, kind, k);
    PickedBucket(Entries(m, hash, kind), List(d, kind), k);
    PickedBucket(Entries(n, hash, kind), List(e, kind), k);
  }

  lemma {:induction false} KindIsCanonical(
    m: Module, n: Module, hash: string -> nat, d: Definitions, e: Definitions, kind: Kind)
    requires Reordered(m, n) && Prepared(m, hash, d) && Prepared(n, hash, e)
    requires UniqueKeys(Entries(m, hash, kind)) && UniqueKeys(Entries(n, hash, kind))
    ensures |List(d, kind)| == |List(e, kind)|
    ensures (forall i | i in List(d, kind) :: i < Count(m, kind)) &&
      (forall i | i in List(e, kind) :: i < Count(n, kind))
    ensures Picked(Entries(m, hash, kind), List(d, kind)) == Picked(Entries(n, hash, kind), List(e, kind))
  {
    SameEntries(m, n, hash, kind);
    assert Arranged(Entries(m, hash, kind), List(d, kind)) && Arranged(Entries(n, hash, kind), List(e, kind));
    PickedIsCanonical(Entries(m, hash, kind), Entries(n, hash, kind), List(d, kind), List(e, kind));
    assert |Picked(Entries(m, hash, kind), List(d, kind))| == |Picked(Entries(n, hash, kind), List(e, kind))|;
  }

  lemma {:induction false} SameLengths(m: Module, n: Module, hash: string -> nat, d: Definitions, e: Definitions)
    requires Reordered(m, n) && Prepared(m, hash, d) && Prepared(n, hash, e)
    requires forall x :: UniqueKeys(Entries(m, hash, x)) && UniqueKeys(Entries(n, hash, x))
    ensures Length(d) == Length(e)
  {
    forall kind ensures |List(d, kind)| == |List(e, kind)| {
      KindIsCanonical(m, n, hash, d, e, kind);
    }
    assert |List(d, Globals)| == |List(e, Globals)| && |List(d, GlobalInstances)| == |List(e, GlobalInstances)|;
    assert |List(d, Functions)| == |List(e, Functions)| && |List(d, FunctionInstances)| == |List(e, FunctionInstances)|;
    assert |List(d, Closures)| == |List(e, Closures)|;
  }

  /** Two partition lists agree: the same ordinals, and at each the same definitions of every kind. */
  ghost predicate Agree(
    m: Module, n: Module, hash: string -> nat, a: seq<Part<Definitions>>, b: seq<Part<Definitions>>)
  {
    && |a| == |b|
    && forall i | 0 <= i < |a| ::
         a[i].ordinal == b[i].ordinal && SamePicked(m, n, hash, a[i].definitions, b[i].definitions)
  }

  ghost predicate SamePicked(m: Module, n: Module, hash: string -> nat, a: Definitions, b: Definitions) {
    && (forall kind :: Picked(Entries(m, hash, kind), List(a, kind)) == Picked(Entries(n, hash, kind), List(b, kind)))
    && a.vtables == b.vtables
  }

  lemma {:induction false} SamePickedLength(m: Module, n: Module, hash: string -> nat, a: Definitions, b: Definitions)
    requires SamePicked(m, n, hash, a, b)
    ensures Length(a) == Length(b)
  {
    forall kind ensures |List(a, kind)| == |List(b, kind)| {
      assert |Picked(Entries(m, hash, kind), List(a, kind))| == |Picked(Entries(n, hash, kind), List(b, kind))|;
    }
    assert |List(a, Globals)| == |List(b, Globals)| && |List(a, GlobalInstances)| == |List(b, GlobalInstances)|;
    assert |List(a, Functions)| == |List(b, Functions)| && |List(a, FunctionInstances)| == |List(b, FunctionInstances)|;
    assert |List(a, Closures)| == |List(b, Closures)|;
  }

  lemma {:induction false} NonEmptyAgrees(
    m: Module, n: Module, hash: string -> nat, a: seq<Definitions>, b: seq<Definitions>, k: nat)
    requires |a| == |b| && k <= |a| && forall i | 0 <= i < |a| :: SamePicked(m, n, hash, a[i], b[i])
    ensures Agree(m, n, hash, NonEmpty(a, k), NonEmpty(b, k))
  {
    if k > 0 {
      NonEmptyAgrees(m, n, hash, a, b, k - 1);
      SamePickedLength(m, n, hash, a[k - 1], b[k - 1]);
    }
  }

  /** For uniquely keyed definitions the partitions do not depend on the order of the input. */
  lemma {:induction false} SplitIsCanonical(m: Module, n: Module, hash: string -> nat, d: Definitions, e: Definitions)
    requires Reordered(m, n) && Prepared(m, hash, d) && Prepared(n, hash, e)
    requires forall x :: UniqueKeys(Entries(m, hash, x)) && UniqueKeys(Entries(n, hash, x))
    ensures Agree(m, n, hash, Split(m, hash, d), Split(n, hash, e))
  {
    SameLengths(m, n, hash, d, e);
    var a, b := AllBuckets(m, hash, d), AllBuckets(n, hash, e);
    forall k | 0 <= k < BUCKETS ensures SamePicked(m, n, hash, a[k], b[k]) {
      forall kind
        ensures Picked(Entries(m, hash, kind), List(a[k], kind)) == Picked(Entries(n, hash, kind), List(b[k], kind))
      {
        PartitionIsCanonical(m, n, hash, d, e, kind, k);
      }
    }
    NonEmptyAgrees(m, n, hash, a, b, BUCKETS);
    forall kind ensures Picked(Entries(m, hash, kind), List(d, kind)) == Picked(Entries(n, hash, kind), List(e, kind)) {
      KindIsCanonical(m, n, hash, d, e, kind);
    }
  }
}
