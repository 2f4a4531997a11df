/** Dead-function elimination: two-sorted worklist reachability from the retained roots of a module, then a sweep. */
module DeadFunctions {
  import opened Collections
  import opened Options

  datatype Sort = Function | Instance

  /** A function by definition, or a function instance by key. */
  datatype Node = Node(sort: Sort, id: nat)

  /** What a body, an initializer or a vtable refers to. */
  datatype Refs = Refs(functions: set<nat>, instances: seq<nat>)

  const NO_REFS := Refs({}, [])

  function Extend(refs: Refs, more: Refs): Refs {
    Refs(refs.functions + more.functions, refs.instances + more.instances)
  }

  ghost predicate Mentions(refs: Refs, n: Node) {
    match n.sort
    case Function => n.id in refs.functions
    case Instance => n.id in refs.instances
  }

  /** A function or an instance; `removable` when it is private, local to the module and not external. */
  datatype Item = Item(id: nat, removable: bool, body: Option<Refs>)

  datatype Closure = Closure(owner: Node, body: Refs)

  /** `others` are the initializers of globals and global instances and the entries of vtables, which are never
      removed. */
  datatype Module = Module(functions: seq<Item>, instances: seq<Item>, closures: seq<Closure>, others: seq<Refs>)

  function Items(m: Module, sort: Sort): seq<Item> {
    match sort
    case Function => m.functions
    case Instance => m.instances
  }

  function Ids(items: seq<Item>): set<nat> {
    set i | 0 <= i < |items| :: items[i].id
  }

  predicate Present(m: Module, n: Node) {
    n.id in Ids(Items(m, n.sort))
  }

  function RemovableIds(items: seq<Item>): set<nat> {
    set i | 0 <= i < |items| && items[i].removable :: items[i].id
  }

  /** Some item with this id is removable. */
  ghost predicate Removable(m: Module, n: Node) {
    exists i | 0 <= i < |Items(m, n.sort)| :: Items(m, n.sort)[i].removable && Items(m, n.sort)[i].id == n.id
  }

  lemma {:induction false} RemovableIsListed(m: Module, n: Node)
    ensures Removable(m, n) <==> n.id in RemovableIds(Items(m, n.sort))
  {
  }

  // ---------------------------------------------------------------------------------------------------------------
  // The specification: what is reachable from what must stay.

  /** A closure owned by `owner` mentions `n`. */
  ghost predicate ClosureMentions(m: Module, owner: Node, n: Node) {
    exists c | 0 <= c < |m.closures| :: m.closures[c].owner == owner && Mentions(m.closures[c].body, n)
  }

  /** The item a lookup by id finds: a table built front to back keeps the last. */
  function Find(items: seq<Item>, id: nat): Option<Item> {
    if items == [] then None else
    var last := items[|items| - 1];
    if last.id == id then Some(last) else Find(items[..|items| - 1], id)
  }

  lemma {:induction false} FindIsLast(items: seq<Item>, id: nat)
    ensures Find(items, id).Some? <==> exists item :: item in items && item.id == id
    ensures Find(items, id).Some? ==> exists i | 0 <= i < |items| :: LastWithId(items, id, i, Find(items, id).value)
  {
    if items != [] {
      var n := |items| - 1;
      FindIsLast(items[..n], id);
      assert items == items[..n] + [items[n]];
      if items[n].id == id {
        assert LastWithId(items, id, n, items[n]);
      } else if Find(items[..n], id).Some? {
        var i :| 0 <= i < n && LastWithId(items[..n], id, i, Find(items[..n], id).value);
        assert LastWithId(items, id, i, Find(items, id).value);
      }
    }
  }

  /** `item`, at position `i`, is the last one with the id. */
  ghost predicate LastWithId(items: seq<Item>, id: nat, i: nat, item: Item) {
    && i < |items| && items[i] == item && item in items && item.id == id
    && forall j | i < j < |items| :: items[j].id != id
  }

  /** `n` is mentioned by the body or the closures of the item `from`. */
  ghost predicate Edge(m: Module, from: Node, n: Node) {
    var item := Find(Items(m, from.sort), from.id);
    && item.Some?
    && ((item.value.body.Some? && Mentions(item.value.body.value, n)) || ClosureMentions(m, from, n))
  }

  /** `n` is mentioned by the body or the closures of a retained item with a body. */
  ghost predicate RetainedMentions(m: Module, sort: Sort, i: nat, n: Node)
    requires i < |Items(m, sort)|
  {
    var item := Items(m, sort)[i];
    && !Removable(m, Node(sort, item.id))
    && item.body.Some?
    && (Mentions(item.body.value, n) || ClosureMentions(m, Node(sort, item.id), n))
  }

  ghost predicate Root(m: Module, n: Node) {
    || (exists i | 0 <= i < |m.functions| :: RetainedMentions(m, Function, i, n))
    || (exists i | 0 <= i < |m.instances| :: RetainedMentions(m, Instance, i, n))
    || (exists o | 0 <= o < |m.others| :: Mentions(m.others[o], n))
  }

  ghost predicate Path(m: Module, path: seq<Node>) {
    && path != []
    && Root(m, path[0])
    && forall i | 0 < i < |path| :: Edge(m, path[i - 1], path[i])
  }

  ghost predicate Reachable(m: Module, n: Node) {
    exists path: seq<Node> :: Path(m, path) && path[|path| - 1] == n
  }

  ghost predicate Survives(m: Module, n: Node) {
    !Removable(m, n) || Reachable(m, n)
  }

  lemma {:induction false} RootIsReachable(m: Module, n: Node)
    requires Root(m, n)
    ensures Reachable(m, n)
  {
    var path := [n];
    assert Path(m, path) && path[|path| - 1] == n;
  }

  lemma {:induction false} EdgeIsReachable(m: Module, from: Node, n: Node)
    requires Reachable(m, from) && Edge(m, from, n)
    ensures Reachable(m, n)
  {
    var path: seq<Node> :| Path(m, path) && path[|path| - 1] == from;
    var longer := path + [n];
    assert forall i | 0 < i < |longer| :: Edge(m, longer[i - 1], longer[i]);
    assert Path(m, longer) && longer[|longer| - 1] == n;
  }

  /** A set of references that has the roots and is closed under edges has everything reachable. */
  lemma {:induction false} ClosedHasReachable(m: Module, refs: Refs, path: seq<Node>)
    requires Path(m, path)
    requires forall n | Root(m, n) :: Mentions(refs, n)
    requires forall from, n | Mentions(refs, from) && Edge(m, from, n) :: Mentions(refs, n)
    ensures Mentions(refs, path[|path| - 1])
  {
    if |path| > 1 {
      ClosedHasReachable(m, refs, path[..|path| - 1]);
      assert Edge(m, path[|path| - 2], path[|path| - 1]);
    }
  }

  // ---------------------------------------------------------------------------------------------------------------
  // Roots.

  method ExtendClosureRefs(m: Module, owner: Node, refs: Refs) returns (out: Refs)
    ensures forall n :: Mentions(out, n) <==> Mentions(refs, n) || ClosureMentions(m, owner, n)
  {
    out := refs;
    for c := 0 to |m.closures|
      invariant forall n :: Mentions(out, n) <==>
        Mentions(refs, n) || exists d | 0 <= d < c :: m.closures[d].owner == owner && Mentions(m.closures[d].body, n)
    {
      ghost var before := out;
      if m.closures[c].owner == owner {
        out := Extend(out, m.closures[c].body);
        assert forall n :: Mentions(out, n) <==> Mentions(before, n) || Mentions(m.closures[c].body, n);
      }
    }
  }

  method RetainedRefs(m: Module, sort: Sort, refs: Refs) returns (out: Refs)
    ensures forall n :: Mentions(out, n) <==>
      Mentions(refs, n) || exists i | 0 <= i < |Items(m, sort)| :: RetainedMentions(m, sort, i, n)
  {
    var items := Items(m, sort);
    var removable := RemovableIds(items);
    out := refs;
    for i := 0 to |items|
      invariant forall n :: Mentions(out, n) <==>
        Mentions(refs, n) || exists j | 0 <= j < i :: RetainedMentions(m, sort, j, n)
    {
      ghost var before := out;
      RemovableIsListed(m, Node(sort, items[i].id));
      if items[i].id !in removable && items[i].body.Some? {
        out := Extend(out, items[i].body.value);
        out := ExtendClosureRefs(m, Node(sort, items[i].id), out);
      }
      assert forall n :: Mentions(out, n) <==> Mentions(before, n) || RetainedMentions(m, sort, i, n);
    }
  }

  method RootRefs(m: Module) returns (refs: Refs)
    ensures forall n :: Mentions(refs, n) <==> Root(m, n)
  {
    refs := RetainedRefs(m, Function, NO_REFS);
    refs := RetainedRefs(m, Instance, refs);
    ghost var retained := refs;
    for o := 0 to |m.others|
      invariant forall n :: Mentions(refs, n) <==>
        Mentions(retained, n) || exists p | 0 <= p < o :: Mentions(m.others[p], n)
    {
      ghost var before := refs;
      refs := Extend(refs, m.others[o]);
      assert forall n :: Mentions(refs, n) <==> Mentions(before, n) || Mentions(m.others[o], n);
    }
  }

  // ---------------------------------------------------------------------------------------------------------------
  // The worklist.

  datatype Work = Work(
    refs: Refs, known: set<nat>,
    visitedFunctions: set<nat>, visitedInstances: set<nat>,
    pendingFunctions: seq<nat>, pendingInstances: seq<nat>)

  ghost predicate Visited(w: Work, n: Node) {
    match n.sort
    case Function => n.id in w.visitedFunctions
    case Instance => n.id in w.visitedInstances
  }

  ghost predicate Pending(w: Work, n: Node) {
    match n.sort
    case Function => n.id in w.pendingFunctions
    case Instance => n.id in w.pendingInstances
  }

  /** Everything referenced is visited, pending or the node in hand, and what is visited has its edges referenced. */
  ghost predicate Valid(m: Module, roots: Refs, live: iset<Node>, w: Work, hand: set<Node>) {
    && (forall n | Mentions(roots, n) :: Mentions(w.refs, n))
    && (forall id :: id in w.known <==> id in w.refs.instances)
    && (forall n | Mentions(w.refs, n) :: n in live)
    && (forall n :: Visited(w, n) || Pending(w, n) || n in hand <==> Mentions(w.refs, n))
    && (forall from, n | Visited(w, from) && Edge(m, from, n) :: Mentions(w.refs, n))
  }

  /** `live` is closed under edges and inside the finite `universe`. */
  ghost predicate Bounded(m: Module, live: iset<Node>, universe: Refs) {
    && (forall from, n | from in live && Edge(m, from, n) :: n in live)
    && (forall n | n in live :: Mentions(universe, n))
  }

  /** Every body, closure and other root, one after the other. */
  ghost function AllRefs(m: Module): seq<Refs> {
    seq(|m.functions|, i requires 0 <= i < |m.functions| => Body(m.functions[i])) +
    seq(|m.instances|, i requires 0 <= i < |m.instances| => Body(m.instances[i])) +
    seq(|m.closures|, c requires 0 <= c < |m.closures| => m.closures[c].body) + m.others
  }

  /** All ids anything in the module can mention. */
  ghost function Universe(m: Module): Refs {
    Union(AllRefs(m))
  }

  function Body(item: Item): Refs {
    if item.body.Some? then item.body.value else NO_REFS
  }

  ghost function Union(all: seq<Refs>): Refs {
    if all == [] then NO_REFS else Extend(Union(all[..|all| - 1]), all[|all| - 1])
  }

  lemma {:induction false} UnionMentions(all: seq<Refs>, k: nat, n: Node)
    requires k < |all| && Mentions(all[k], n)
    ensures Mentions(Union(all), n)
  {
    if k < |all| - 1 {
      UnionMentions(all[..|all| - 1], k, n);
    }
  }

  lemma {:induction false} ReachableIsInUniverse(m: Module, n: Node)
    requires Reachable(m, n)
    ensures Mentions(Universe(m), n)
  {
    var path: seq<Node> :| Path(m, path) && path[|path| - 1] == n;
    var k := SomeMention(m, n, path);
    MentionIsListed(m, n, k);
    UnionMentions(AllRefs(m), k, n);
  }

  lemma {:induction false} MentionIsListed(m: Module, n: Node, k: nat)
    requires var f, i, c := |m.functions|, |m.instances|, |m.closures|;
      && k < f + i + c + |m.others|
      && (k < f ==> Mentions(Body(m.functions[k]), n))
      && (f <= k < f + i ==> Mentions(Body(m.instances[k - f]), n))
      && (f + i <= k < f + i + c ==> Mentions(m.closures[k - f - i].body, n))
      && (f + i + c <= k ==> Mentions(m.others[k - f - i - c], n))
    ensures k < |AllRefs(m)| && Mentions(AllRefs(m)[k], n)
  {
  }

  /** A reachable node is mentioned by some body, closure or root, here by its position in the list of them all. */
  lemma {:induction false} SomeMention(m: Module, n: Node, path: seq<Node>) returns (k: nat)
    requires Path(m, path) && path[|path| - 1] == n
    ensures var f, i, c := |m.functions|, |m.instances|, |m.closures|;
      && k < f + i + c + |m.others|
      && (k < f ==> Mentions(Body(m.functions[k]), n))
      && (f <= k < f + i ==> Mentions(Body(m.instances[k - f]), n))
      && (f + i <= k < f + i + c ==> Mentions(m.closures[k - f - i].body, n))
      && (f + i + c <= k ==> Mentions(m.others[k - f - i - c], n))
  {
    var f, i, c := |m.functions|, |m.instances|, |m.closures|;
    if o :| 0 <= o < |m.others| && Mentions(m.others[o], n) {
      return f + i + c + o;
    }
    if d :| 0 <= d < c && Mentions(m.closures[d].body, n) {
      return f + i + d;
    }
    if |path| == 1 {
      if j :| 0 <= j < f && RetainedMentions(m, Function, j, n) {
        return j;
      }
      var j :| 0 <= j < i && RetainedMentions(m, Instance, j, n);
      return f + j;
    }
    var from := path[|path| - 2];
    assert Edge(m, from, n);
    FindIsLast(Items(m, from.sort), from.id);
    var item := Find(Items(m, from.sort), from.id).value;
    var j :| 0 <= j < |Items(m, from.sort)| && Items(m, from.sort)[j] == item;
    return if from.sort == Function then j else f + j;
  }

  /** Ids of the universe not referenced yet. */
  ghost function Unreferenced(universe: Refs, refs: Refs): nat {
    |universe.functions - refs.functions| + |IdSet(universe.instances) - IdSet(refs.instances)|
  }

  ghost function IdSet(ids: seq<nat>): set<nat> {
    set id | id in ids
  }

  method EnqueueNewRefs(w: Work, discovered: Refs) returns (out: Work)
    requires forall id :: id in w.known <==> id in w.refs.instances
    ensures out.visitedFunctions == w.visitedFunctions && out.visitedInstances == w.visitedInstances
    ensures forall id :: id in out.known <==> id in out.refs.instances
    ensures forall n :: Mentions(out.refs, n) <==> Mentions(w.refs, n) || Mentions(discovered, n)
    ensures forall n :: Pending(out, n) <==> Pending(w, n) || (Mentions(discovered, n) && !Mentions(w.refs, n))
    ensures (forall n | Mentions(discovered, n) :: Mentions(w.refs, n)) ==> out == w
  {
    out := w;
    var functions := discovered.functions;
    while functions != {}
      invariant functions <= discovered.functions
      invariant out == w.(refs := out.refs, pendingFunctions := out.pendingFunctions)
      invariant out.refs == w.refs.(functions := w.refs.functions + (discovered.functions - functions))
      invariant forall id :: id in out.pendingFunctions <==>
        id in w.pendingFunctions || (id in discovered.functions - functions && id !in w.refs.functions)
      invariant discovered.functions <= w.refs.functions ==> out == w
    {
      var id :| id in functions;
      functions := functions - {id};
      if id !in out.refs.functions {
        out := out.(refs := out.refs.(functions := out.refs.functions + {id}),
                    pendingFunctions := out.pendingFunctions + [id]);
      }
    }
    ghost var mid := out;
    for i := 0 to |discovered.instances|
      invariant out == mid.(refs := out.refs, known := out.known, pendingInstances := out.pendingInstances)
      invariant out.refs == mid.refs.(instances := out.refs.instances)
      invariant forall id :: id in out.known <==> id in out.refs.instances
      invariant forall id :: id in out.known <==> id in w.known || id in discovered.instances[..i]
      invariant forall id :: id in out.pendingInstances <==>
        id in w.pendingInstances || (id in discovered.instances[..i] && id !in w.known)
      invariant (forall id | id in discovered.instances :: id in w.known) ==> out == mid
    {
      var id := discovered.instances[i];
      assert discovered.instances[..i + 1] == discovered.instances[..i] + [id];
      if id !in out.known {
        out := out.(known := out.known + {id}, refs := out.refs.(instances := out.refs.instances + [id]),
                    pendingInstances := out.pendingInstances + [id]);
      }
    }
    assert discovered.instances[..|discovered.instances|] == discovered.instances;
    UnchangedByKnown(w, mid, out, discovered);
  }

  lemma {:induction false} UnchangedByKnown(w: Work, mid: Work, out: Work, discovered: Refs)
    requires forall id :: id in w.known <==> id in w.refs.instances
    requires discovered.functions <= w.refs.functions ==> mid == w
    requires (forall id | id in discovered.instances :: id in w.known) ==> out == mid
    ensures (forall n | Mentions(discovered, n) :: Mentions(w.refs, n)) ==> out == w
  {
    if forall n | Mentions(discovered, n) :: Mentions(w.refs, n) {
      forall id | id in discovered.functions ensures id in w.refs.functions {
        assert Mentions(discovered, Node(Function, id));
      }
      forall id | id in discovered.instances ensures id in w.known {
        assert Mentions(discovered, Node(Instance, id));
      }
    }
  }

  function PopFront(w: Work, sort: Sort): Work
    requires Queue(w, sort) != []
  {
    match sort
    case Function => w.(pendingFunctions := w.pendingFunctions[1..])
    case Instance => w.(pendingInstances := w.pendingInstances[1..])
  }

  function Queue(w: Work, sort: Sort): seq<nat> {
    match sort
    case Function => w.pendingFunctions
    case Instance => w.pendingInstances
  }

  function Mark(w: Work, n: Node): Work {
    match n.sort
    case Function => w.(visitedFunctions := w.visitedFunctions + {n.id})
    case Instance => w.(visitedInstances := w.visitedInstances + {n.id})
  }

  predicate Marked(w: Work, n: Node) {
    match n.sort
    case Function => n.id in w.visitedFunctions
    case Instance => n.id in w.visitedInstances
  }

  /** Fewer ids left to reference, or as many and a shorter queue. */
  ghost predicate Progress(universe: Refs, after: Work, before: Work) {
    || Unreferenced(universe, after.refs) < Unreferenced(universe, before.refs)
    || (after.refs == before.refs && Backlog(after) < Backlog(before))
  }

  ghost function Backlog(w: Work): nat {
    |w.pendingFunctions| + |w.pendingInstances|
  }

  lemma {:induction false} UnreferencedShrinks(universe: Refs, before: Refs, after: Refs, n: Node)
    requires forall k | Mentions(before, k) :: Mentions(after, k)
    requires Mentions(universe, n) && Mentions(after, n) && !Mentions(before, n)
    ensures Unreferenced(universe, after) < Unreferenced(universe, before)
  {
    forall id | id in before.functions ensures id in after.functions {
      assert Mentions(after, Node(Function, id));
    }
    forall id | id in before.instances ensures id in after.instances {
      assert Mentions(after, Node(Instance, id));
    }
    var f0, f1 := universe.functions - before.functions, universe.functions - after.functions;
    var i0, i1 := IdSet(universe.instances) - IdSet(before.instances),
      IdSet(universe.instances) - IdSet(after.instances);
    SubsetIsSmaller(f1, f0);
    SubsetIsSmaller(i1, i0);
    if n.sort == Function {
      assert n.id in f0 && n.id !in f1;
    } else {
      assert n.id in i0 && n.id !in i1;
    }
  }

  /** What an item and its closures mention; nothing for an item of another module. */
  method Discover(m: Module, n: Node) returns (discovered: Refs)
    ensures forall k :: Mentions(discovered, k) <==> Edge(m, n, k)
  {
    var item := Find(Items(m, n.sort), n.id);
    if item.None? {
      return NO_REFS;
    }
    discovered := ExtendClosureRefs(m, n, Body(item.value));
  }

  /** Pops one node, and on its first visit queues what it mentions. */
  method Visit(m: Module, w: Work, sort: Sort, ghost roots: Refs, ghost live: iset<Node>, ghost universe: Refs)
    returns (out: Work)
    requires Valid(m, roots, live, w, {}) && Bounded(m, live, universe) && Queue(w, sort) != []
    ensures Valid(m, roots, live, out, {}) && Progress(universe, out, w)
  {
    var n := Node(sort, Queue(w, sort)[0]);
    assert Pending(w, n);
    out := PopFront(w, sort);
    PopHolds(w, sort);
    if !Marked(out, n) {
      out := Expand(m, out, n, roots, live, universe);
    }
  }

  lemma {:induction false} PopHolds(w: Work, sort: Sort)
    requires Queue(w, sort) != []
    ensures forall k :: Pending(w, k) <==> Pending(PopFront(w, sort), k) || k == Node(sort, Queue(w, sort)[0])
  {
  }

  /** The first visit of the node in hand. */
  method Expand(m: Module, w: Work, n: Node, ghost roots: Refs, ghost live: iset<Node>, ghost universe: Refs)
    returns (out: Work)
    requires Valid(m, roots, live, w, {n}) && Bounded(m, live, universe) && !Visited(w, n)
    ensures Valid(m, roots, live, out, {})
    ensures (out.refs == w.refs && Backlog(out) == Backlog(w)) ||
      Unreferenced(universe, out.refs) < Unreferenced(universe, w.refs)
  {
    var marked := Mark(w, n);
    assert forall k :: Visited(marked, k) <==> Visited(w, k) || k == n;
    var discovered := Discover(m, n);
    out := EnqueueNewRefs(marked, discovered);
    forall k | Mentions(discovered, k) ensures k in live && Mentions(universe, k) {
      assert Edge(m, n, k) && n in live;
    }
    ExpandShrinks(w, marked, out, discovered, universe);
  }

  lemma {:induction false} ExpandShrinks(w: Work, marked: Work, out: Work, discovered: Refs, universe: Refs)
    requires marked.refs == w.refs && Backlog(marked) == Backlog(w)
    requires forall k | Mentions(discovered, k) :: Mentions(universe, k)
    requires forall k :: Mentions(out.refs, k) <==> Mentions(w.refs, k) || Mentions(discovered, k)
    requires (forall k | Mentions(discovered, k) :: Mentions(marked.refs, k)) ==> out == marked
    ensures (out.refs == w.refs && Backlog(out) == Backlog(w)) ||
      Unreferenced(universe, out.refs) < Unreferenced(universe, w.refs)
  {
    if k :| Mentions(discovered, k) && !Mentions(w.refs, k) {
      UnreferencedShrinks(universe, w.refs, out.refs, k);
    }
  }

  ghost function ReachableNodes(m: Module): iset<Node> {
    iset n | Reachable(m, n)
  }

  lemma {:induction false} ReachableIsBounded(m: Module)
    ensures Bounded(m, ReachableNodes(m), Universe(m))
  {
    forall from, n | Reachable(m, from) && Edge(m, from, n) ensures Reachable(m, n) {
      EdgeIsReachable(m, from, n);
    }
    forall n | Reachable(m, n) ensures Mentions(Universe(m), n) {
      ReachableIsInUniverse(m, n);
    }
  }

  method CollectTransitiveRefs(m: Module, roots: Refs) returns (refs: Refs)
    requires forall n :: Mentions(roots, n) <==> Root(m, n)
    ensures forall n :: Mentions(refs, n) <==> Reachable(m, n)
  {
    forall n | Root(m, n) ensures Reachable(m, n) {
      RootIsReachable(m, n);
    }
    ReachableIsBounded(m);
    refs := Drain(m, roots, ReachableNodes(m), Universe(m));
    forall n | Reachable(m, n) ensures Mentions(refs, n) {
      var path: seq<Node> :| Path(m, path) && path[|path| - 1] == n;
      ClosedHasReachable(m, refs, path);
    }
  }

  method Drain(m: Module, roots: Refs, ghost live: iset<Node>, ghost universe: Refs) returns (refs: Refs)
    requires Bounded(m, live, universe) && forall n | Mentions(roots, n) :: n in live
    ensures forall n | Mentions(roots, n) :: Mentions(refs, n)
    ensures forall n | Mentions(refs, n) :: n in live
    ensures forall from, n | Mentions(refs, from) && Edge(m, from, n) :: Mentions(refs, n)
  {
    var functions := InSomeOrder(roots.functions);
    var w := Work(roots, set id | id in roots.instances, {}, {}, functions, roots.instances);
    while w.pendingFunctions != [] || w.pendingInstances != []
      invariant Valid(m, roots, live, w, {})
      decreases Unreferenced(universe, w.refs), Backlog(w)
    {
      ghost var before := w;
      while w.pendingFunctions != []
        invariant Valid(m, roots, live, w, {})
        invariant w == before || Progress(universe, w, before)
        decreases Unreferenced(universe, w.refs), Backlog(w)
      {
        w := Visit(m, w, Function, roots, live, universe);
      }
      while w.pendingInstances != []
        invariant Valid(m, roots, live, w, {})
        invariant Progress(universe, w, before) || (w == before && w.pendingFunctions == [])
        decreases Unreferenced(universe, w.refs), Backlog(w)
      {
        w := Visit(m, w, Instance, roots, live, universe);
      }
    }
    refs := w.refs;
    assert forall n :: !Pending(w, n);
  }

  method InSomeOrder(ids: set<nat>) returns (r: seq<nat>)
    ensures forall id :: id in r <==> id in ids
  {
    r := [];
    var left := ids;
    while left != {}
      invariant left <= ids
      invariant forall id :: id in r <==> id in ids - left
    {
      var id :| id in left;
      left := left - {id};
      r := r + [id];
    }
  }

  // ---------------------------------------------------------------------------------------------------------------
  // The sweep.

  ghost function KeptItems(m: Module, sort: Sort, items: seq<Item>): seq<Item> {
    if items == [] then [] else
    var last := items[|items| - 1];
    KeptItems(m, sort, items[..|items| - 1]) + if Survives(m, Node(sort, last.id)) then [last] else []
  }

  ghost function KeptClosures(m: Module, closures: seq<Closure>): seq<Closure> {
    if closures == [] then [] else
    var last := closures[|closures| - 1];
    KeptClosures(m, closures[..|closures| - 1]) + if Present(m, last.owner) then [last] else []
  }

  predicate AnythingRemovable(m: Module) {
    RemovableIds(m.functions) != {} || RemovableIds(m.instances) != {}
  }

  /** What the pass leaves; without removable items it leaves the module alone. */
  ghost function Swept(m: Module): Module {
    if !AnythingRemovable(m) then m else
    var kept := Module(KeptItems(m, Function, m.functions), KeptItems(m, Instance, m.instances), m.closures, m.others);
    kept.(closures := KeptClosures(kept, m.closures))
  }

  method RetainItems(m: Module, sort: Sort, live: set<nat>) returns (kept: seq<Item>)
    requires forall id :: id in live <==> Reachable(m, Node(sort, id))
    ensures kept == KeptItems(m, sort, Items(m, sort))
  {
    var items := Items(m, sort);
    var removable := RemovableIds(items);
    kept := [];
    for i := 0 to |items|
      invariant kept == KeptItems(m, sort, items[..i])
    {
      assert items[..i + 1][..i] == items[..i];
      RemovableIsListed(m, Node(sort, items[i].id));
      if !(items[i].id in removable && items[i].id !in live) {
        kept := kept + [items[i]];
      }
    }
    assert items[..|items|] == items;
  }

  method RetainClosures(m: Module, closures: seq<Closure>) returns (kept: seq<Closure>)
    ensures kept == KeptClosures(m, closures)
  {
    kept := [];
    for i := 0 to |closures|
      invariant kept == KeptClosures(m, closures[..i])
    {
      assert closures[..i + 1][..i] == closures[..i];
      if Present(m, closures[i].owner) {
        kept := kept + [closures[i]];
      }
    }
    assert closures[..|closures|] == closures;
  }

  method RemoveUnusedPrivateFunctions(m: Module) returns (r: Module)
    ensures r == Swept(m)
  {
    if !AnythingRemovable(m) {
      return m;
    }
    var roots := RootRefs(m);
    var refs := CollectTransitiveRefs(m, roots);
    forall id ensures id in refs.functions <==> Reachable(m, Node(Function, id)) {
      assert Mentions(refs, Node(Function, id)) <==> id in refs.functions;
    }
    var functions := RetainItems(m, Function, refs.functions);
    var live := set id | id in refs.instances;
    forall id ensures id in live <==> Reachable(m, Node(Instance, id)) {
      assert Mentions(refs, Node(Instance, id)) <==> id in refs.instances;
    }
    var instances := RetainItems(m, Instance, live);
    r := Module(functions, instances, m.closures, m.others);
    var closures := RetainClosures(r, m.closures);
    r := r.(closures := closures);
  }

  // ---------------------------------------------------------------------------------------------------------------
  // What the pass promises.

  /** The sweep keeps the surviving items, in order, with their contents. */
  lemma {:induction false} KeptItemsAt(m: Module, sort: Sort, items: seq<Item>)
    ensures forall item :: item in KeptItems(m, sort, items) <==> item in items && Survives(m, Node(sort, item.id))
  {
    if items != [] {
      KeptItemsAt(m, sort, items[..|items| - 1]);
      assert items == items[..|items| - 1] + [items[|items| - 1]];
    }
  }

  lemma {:induction false} KeptClosuresAt(m: Module, closures: seq<Closure>)
    ensures forall c :: c in KeptClosures(m, closures) <==> c in closures && Present(m, c.owner)
  {
    if closures != [] {
      KeptClosuresAt(m, closures[..|closures| - 1]);
      assert closures == closures[..|closures| - 1] + [closures[|closures| - 1]];
    }
  }

  lemma {:induction false} NothingRemovable(m: Module, n: Node)
    requires !AnythingRemovable(m)
    ensures Survives(m, n)
  {
    RemovableIsListed(m, n);
  }

  lemma {:induction false} SweptItems(m: Module, sort: Sort)
    ensures forall item :: item in Items(Swept(m), sort) <==> item in Items(m, sort) && Survives(m, Node(sort, item.id))
  {
    KeptItemsAt(m, sort, Items(m, sort));
    if !AnythingRemovable(m) {
      forall item: Item ensures Survives(m, Node(sort, item.id)) {
        NothingRemovable(m, Node(sort, item.id));
      }
    }
  }

  lemma {:induction false} PresentIffItem(m: Module, n: Node)
    ensures Present(m, n) <==> exists item :: item in Items(m, n.sort) && item.id == n.id
  {
    var items := Items(m, n.sort);
    if item :| item in items && item.id == n.id {
      var i :| 0 <= i < |items| && items[i] == item;
      assert items[i].id in Ids(items);
    }
  }

  /** Where ids are unique, an item goes if and only if it is removable and unreachable. */
  lemma {:induction false} RetainedItemStays(m: Module, sort: Sort, i: nat)
    requires i < |Items(m, sort)| && UniqueIds(Items(m, sort))
    ensures var item := Items(m, sort)[i];
      item in Items(Swept(m), sort) <==> !item.removable || Reachable(m, Node(sort, item.id))
  {
    var items := Items(m, sort);
    SweptItems(m, sort);
    if j :| 0 <= j < |items| && items[j].removable && items[j].id == items[i].id {
      assert j == i;
    }
  }

  /** An item survives if and only if it was there and is retained or reachable. */
  lemma {:induction false} SweepIsExact(m: Module, n: Node)
    ensures Present(Swept(m), n) <==> Present(m, n) && Survives(m, n)
  {
    SweptItems(m, n.sort);
    PresentIffItem(m, n);
    PresentIffItem(Swept(m), n);
  }

  /** Every closure entry hangs off an item of the module. */
  ghost predicate OwnersPresent(m: Module) {
    forall c | 0 <= c < |m.closures| :: Present(m, m.closures[c].owner)
  }

  lemma {:induction false} ClosuresFollowOwners(m: Module, c: Closure)
    requires OwnersPresent(m)
    ensures c in Swept(m).closures <==> c in m.closures && Present(Swept(m), c.owner)
  {
    if AnythingRemovable(m) {
      var kept := Swept(m).(closures := m.closures);
      KeptClosuresAt(kept, m.closures);
      assert Present(kept, c.owner) <==> Present(Swept(m), c.owner);
    }
  }

  ghost predicate UniqueIds(items: seq<Item>) {
    forall i, j | 0 <= i < j < |items| :: items[i].id != items[j].id
  }

  ghost predicate OwnersHaveBodies(m: Module) {
    forall c | c in m.closures :: exists i | 0 <= i < |Items(m, c.owner.sort)| ::
      Items(m, c.owner.sort)[i].id == c.owner.id && Items(m, c.owner.sort)[i].body.Some?
  }

  /** Something left in the module refers to `n`. */
  ghost predicate Referenced(m: Module, n: Node) {
    || (exists item :: item in m.functions && Mentions(Body(item), n))
    || (exists item :: item in m.instances && Mentions(Body(item), n))
    || (exists c :: c in m.closures && Mentions(c.body, n))
    || (exists o :: o in m.others && Mentions(o, n))
  }

  lemma {:induction false} FindUnique(items: seq<Item>, i: nat)
    requires UniqueIds(items) && i < |items|
    ensures Find(items, items[i].id) == Some(items[i])
  {
    if i < |items| - 1 {
      FindUnique(items[..|items| - 1], i);
    }
  }

  /** What a surviving item or one of its closures mentions is reachable. */
  lemma {:induction false} SurvivorMentionsReachable(m: Module, sort: Sort, i: nat, n: Node)
    requires i < |Items(m, sort)| && UniqueIds(Items(m, sort)) && Survives(m, Node(sort, Items(m, sort)[i].id))
    requires var item := Items(m, sort)[i];
      item.body.Some? && (Mentions(item.body.value, n) || ClosureMentions(m, Node(sort, item.id), n))
    ensures Reachable(m, n)
  {
    var node := Node(sort, Items(m, sort)[i].id);
    if Removable(m, node) {
      FindUnique(Items(m, sort), i);
      EdgeIsReachable(m, node, n);
    } else {
      assert RetainedMentions(m, sort, i, n);
      RootIsReachable(m, n);
    }
  }

  lemma {:induction false} SurvivingItemMention(m: Module, sort: Sort, item: Item, n: Node)
    requires UniqueIds(Items(m, sort)) && item in Items(Swept(m), sort) && Mentions(Body(item), n)
    ensures Reachable(m, n)
  {
    SweptItems(m, sort);
    var i :| 0 <= i < |Items(m, sort)| && Items(m, sort)[i] == item;
    SurvivorMentionsReachable(m, sort, i, n);
  }

  /** A retained item without a body. */
  ghost predicate BodylessOwner(m: Module, o: Node) {
    var item := Find(Items(m, o.sort), o.id);
    item.Some? && item.value.body.None? && !Removable(m, o)
  }

  /** The closures of retained items without a body mention only what survives or was never there. */
  ghost predicate BodylessAreHarmless(m: Module) {
    forall c, n | c in m.closures && BodylessOwner(m, c.owner) && Mentions(c.body, n) && Present(m, n) :: Survives(m, n)
  }

  lemma {:induction false} SurvivingClosureMention(m: Module, c: Closure, n: Node)
    requires UniqueIds(m.functions) && UniqueIds(m.instances) && AnythingRemovable(m)
    requires c in Swept(m).closures && Mentions(c.body, n)
    ensures Reachable(m, n) || BodylessOwner(m, c.owner)
  {
    var kept, items := Swept(m).(closures := m.closures), Items(m, c.owner.sort);
    KeptClosuresAt(kept, m.closures);
    assert Present(kept, c.owner) <==> Present(Swept(m), c.owner);
    SweepIsExact(m, c.owner);
    var i :| 0 <= i < |items| && items[i].id == c.owner.id;
    FindUnique(items, i);
    var k :| 0 <= k < |m.closures| && m.closures[k] == c;
    assert ClosureMentions(m, c.owner, n);
    if items[i].body.Some? {
      SurvivorMentionsReachable(m, c.owner.sort, i, n);
    } else if Removable(m, c.owner) {
      EdgeIsReachable(m, c.owner, n);
    }
  }

  /** Something left in the module refers to an item that was removed. */
  ghost predicate Dangling(m: Module, n: Node) {
    Present(m, n) && Referenced(Swept(m), n) && !Present(Swept(m), n)
  }

  lemma {:induction false} DanglingIsBodyless(m: Module, n: Node)
    requires UniqueIds(m.functions) && UniqueIds(m.instances) && Dangling(m, n)
    ensures exists c :: c in m.closures && BodylessOwner(m, c.owner) && Mentions(c.body, n)
  {
    SweepIsExact(m, n);
    if item :| item in Swept(m).functions && Mentions(Body(item), n) {
      SurvivingItemMention(m, Function, item, n);
    } else if item :| item in Swept(m).instances && Mentions(Body(item), n) {
      SurvivingItemMention(m, Instance, item, n);
    } else if c :| c in Swept(m).closures && Mentions(c.body, n) {
      SurvivingClosureMention(m, c, n);
      KeptClosuresAt(Swept(m).(closures := m.closures), m.closures);
    } else {
      RootIsReachable(m, n);
    }
  }

  lemma {:induction false} BodylessDangles(m: Module, c: Closure, n: Node)
    requires c in m.closures && BodylessOwner(m, c.owner) && Mentions(c.body, n) && Present(m, n) && !Survives(m, n)
    ensures Dangling(m, n)
  {
    FindIsLast(Items(m, c.owner.sort), c.owner.id);
    PresentIffItem(m, c.owner);
    SweepIsExact(m, c.owner);
    SweepIsExact(m, n);
    var kept := Swept(m).(closures := m.closures);
    KeptClosuresAt(kept, m.closures);
    assert Present(kept, c.owner) <==> Present(Swept(m), c.owner);
    assert c in Swept(m).closures;
  }

  /** The sweep leaves nothing dangling if and only if the closures of retained owners without a body, which it keeps
      and does not follow, mention only what survives or was never there. */
  lemma {:induction false} DanglesIffBodyless(m: Module)
    requires UniqueIds(m.functions) && UniqueIds(m.instances)
    ensures (forall n :: !Dangling(m, n)) <==> BodylessAreHarmless(m)
  {
    forall n | Dangling(m, n) ensures !BodylessAreHarmless(m) {
      DanglingIsBodyless(m, n);
      SweepIsExact(m, n);
    }
    forall c, n | c in m.closures && BodylessOwner(m, c.owner) && Mentions(c.body, n) && Present(m, n) &&
      !Survives(m, n)
      ensures Dangling(m, n)
    {
      BodylessDangles(m, c, n);
    }
  }

  /** Where every owner of a closure has a body nothing dangles: whatever a survivor refers to is still there if it was
      there before. */
  lemma {:induction false} NothingDangles(m: Module, n: Node)
    requires UniqueIds(m.functions) && UniqueIds(m.instances) && OwnersHaveBodies(m)
    requires Present(m, n) && Referenced(Swept(m), n)
    ensures Present(Swept(m), n)
  {
    forall c | c in m.closures ensures !BodylessOwner(m, c.owner) {
      var items := Items(m, c.owner.sort);
      var i :| 0 <= i < |items| && items[i].id == c.owner.id && items[i].body.Some?;
      FindUnique(items, i);
    }
    DanglesIffBodyless(m);
    assert !Dangling(m, n);
  }

  // A second run removes nothing.

  lemma {:induction false} FindKept(m: Module, sort: Sort, items: seq<Item>, id: nat)
    requires Survives(m, Node(sort, id))
    ensures Find(KeptItems(m, sort, items), id) == Find(items, id)
  {
    if items != [] {
      FindKept(m, sort, items[..|items| - 1], id);
      var kept := KeptItems(m, sort, items);
      if Survives(m, Node(sort, items[|items| - 1].id)) {
        assert kept[..|kept| - 1] == KeptItems(m, sort, items[..|items| - 1]);
      } else {
        assert kept == KeptItems(m, sort, items[..|items| - 1]);
      }
    }
  }

  lemma {:induction false} FindSwept(m: Module, n: Node)
    requires Survives(m, n)
    ensures Find(Items(Swept(m), n.sort), n.id) == Find(Items(m, n.sort), n.id)
  {
    FindKept(m, n.sort, Items(m, n.sort), n.id);
  }

  lemma {:induction false} ClosureMentionStays(m: Module, owner: Node, n: Node)
    requires Present(m, owner) && Survives(m, owner) && ClosureMentions(m, owner, n)
    ensures ClosureMentions(Swept(m), owner, n)
  {
    SweepIsExact(m, owner);
    var c :| 0 <= c < |m.closures| && m.closures[c].owner == owner && Mentions(m.closures[c].body, n);
    if AnythingRemovable(m) {
      var kept := Swept(m).(closures := m.closures);
      KeptClosuresAt(kept, m.closures);
      assert Present(kept, owner);
    }
    assert m.closures[c] in Swept(m).closures;
  }

  lemma {:induction false} RemovableStays(m: Module, n: Node)
    requires Removable(Swept(m), n)
    ensures Removable(m, n)
  {
    SweptItems(m, n.sort);
    var i :| 0 <= i < |Items(Swept(m), n.sort)| && Items(Swept(m), n.sort)[i].removable
             && Items(Swept(m), n.sort)[i].id == n.id;
    var item := Items(Swept(m), n.sort)[i];
    assert item in Items(m, n.sort);
  }

  lemma {:induction false} EdgeStays(m: Module, from: Node, n: Node)
    requires Survives(m, from) && Edge(m, from, n)
    ensures Edge(Swept(m), from, n)
  {
    FindSwept(m, from);
    FindIsLast(Items(m, from.sort), from.id);
    PresentIffItem(m, from);
    if ClosureMentions(m, from, n) {
      ClosureMentionStays(m, from, n);
    }
  }

  lemma {:induction false} RetainedStays(m: Module, sort: Sort, i: nat, n: Node)
    requires i < |Items(m, sort)| && RetainedMentions(m, sort, i, n)
    ensures exists j | 0 <= j < |Items(Swept(m), sort)| :: RetainedMentions(Swept(m), sort, j, n)
  {
    var item := Items(m, sort)[i];
    var node := Node(sort, item.id);
    SweptItems(m, sort);
    var j :| 0 <= j < |Items(Swept(m), sort)| && Items(Swept(m), sort)[j] == item;
    if Removable(Swept(m), node) {
      RemovableStays(m, node);
    }
    if ClosureMentions(m, node, n) {
      PresentIffItem(m, node);
      ClosureMentionStays(m, node, n);
    }
    assert RetainedMentions(Swept(m), sort, j, n);
  }

  lemma {:induction false} RootStays(m: Module, n: Node)
    requires Root(m, n)
    ensures Root(Swept(m), n)
  {
    if i :| 0 <= i < |m.functions| && RetainedMentions(m, Function, i, n) {
      RetainedStays(m, Function, i, n);
    } else if i :| 0 <= i < |m.instances| && RetainedMentions(m, Instance, i, n) {
      RetainedStays(m, Instance, i, n);
    }
  }

  lemma {:induction false} ReachableStays(m: Module, path: seq<Node>)
    requires Path(m, path)
    ensures Reachable(m, path[|path| - 1]) && Reachable(Swept(m), path[|path| - 1])
  {
    var n := path[|path| - 1];
    if |path| == 1 {
      RootStays(m, n);
      RootIsReachable(m, n);
      RootIsReachable(Swept(m), n);
    } else {
      var from := path[|path| - 2];
      ReachableStays(m, path[..|path| - 1]);
      EdgeStays(m, from, n);
      EdgeIsReachable(m, from, n);
      EdgeIsReachable(Swept(m), from, n);
    }
  }

  lemma {:induction false} SurvivorSurvives(m: Module, n: Node)
    requires Survives(m, n)
    ensures Survives(Swept(m), n)
  {
    if Removable(Swept(m), n) {
      RemovableStays(m, n);
      var path: seq<Node> :| Path(m, path) && path[|path| - 1] == n;
      ReachableStays(m, path);
    }
  }

  lemma {:induction false} AllKept(m: Module, sort: Sort, items: seq<Item>)
    requires forall item | item in items :: Survives(m, Node(sort, item.id))
    ensures KeptItems(m, sort, items) == items
  {
    if items != [] {
      AllKept(m, sort, items[..|items| - 1]);
    }
  }

  lemma {:induction false} AllClosuresKept(m: Module, closures: seq<Closure>)
    requires forall c | c in closures :: Present(m, c.owner)
    ensures KeptClosures(m, closures) == closures
  {
    if closures != [] {
      AllClosuresKept(m, closures[..|closures| - 1]);
    }
  }

  /** A second run removes nothing. */
  lemma {:induction false} SweepIsIdempotent(m: Module)
    ensures Swept(Swept(m)) == Swept(m)
  {
    var once := Swept(m);
    if AnythingRemovable(m) && AnythingRemovable(once) {
      SweptItems(m, Function);
      SweptItems(m, Instance);
      forall item | item in once.functions ensures Survives(once, Node(Function, item.id)) {
        SurvivorSurvives(m, Node(Function, item.id));
      }
      forall item | item in once.instances ensures Survives(once, Node(Instance, item.id)) {
        SurvivorSurvives(m, Node(Instance, item.id));
      }
      AllKept(once, Function, once.functions);
      AllKept(once, Instance, once.instances);
      KeptClosuresAt(once.(closures := m.closures), m.closures);
      forall c | c in once.closures ensures Present(once, c.owner) {
        assert Present(once.(closures := m.closures), c.owner);
      }
      AllClosuresKept(once, once.closures);
    }
  }

  /** A retained owner without a body whose closure is the only mention of a function. */
  lemma {:induction false} BodylessOwnerDangles()
    ensures var m := Module([Item(0, false, None), Item(1, true, Some(NO_REFS))], [],
                            [Closure(Node(Function, 0), Refs({1}, []))], []);
      Dangling(m, Node(Function, 1))
  {
    var gone := Node(Function, 1);
    var m := Module([Item(0, false, None), Item(1, true, Some(NO_REFS))], [],
                    [Closure(Node(Function, 0), Refs({1}, []))], []);
    assert Items(m, Function)[1].removable && Items(m, Function)[1].id == 1;
    assert Removable(m, gone);
    assert forall n :: !Root(m, n);
    assert m.functions[0].id in Ids(m.functions) && m.functions[1].id in Ids(m.functions);
    FindUnique(m.functions, 0);
    assert m.closures[0] in m.closures;
    BodylessDangles(m, m.closures[0], gone);
  }
}
