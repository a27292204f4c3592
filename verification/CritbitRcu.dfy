/** One writer (holding the tree's lock) interleaved with any number of lock-free readers.
    Memory is a finite map from addresses to node fields; reclaiming a node removes its address
    from the map, and a later allocation may hand the same address out again. */
module CritbitRcu {
  import opened Common
  import opened CritbitKeys
  import opened CritbitModel
  import opened CritbitMemory

  type Addr = nat
  type ReaderId = nat

  /** Where a reader stands: inside its read-side section but before loading the root, or holding
      a pointer it loaded. */
  datatype Position = Start | At(p: Ptr<Addr>)

  /** `seen` is a history variable: what the tree held under the key at each moment since the
      reader loaded the root. */
  datatype Reader = Reader(key: Key, pos: Position, seen: set<Option<Elem>>)

  /** What the lock holder is doing between two of its stores. */
  datatype Writer =
    | Idle
    | Linking(e: Elem, n: nat, slot: Slot<Addr>, node: Addr)
    | Unlinked(node: Addr)

  /** `content` is the abstract map, changed at the publishing store. `waiting` holds the nodes
      handed to call_rcu, each with the readers its callback still waits for. */
  datatype State = State(root: Ptr<Addr>, mem: map<Addr, Fields<Addr>>, content: map<Key, Elem>,
                         readers: map<ReaderId, Reader>, waiting: map<Addr, set<ReaderId>>, writer: Writer)

  datatype Step =
    | Lock(r: ReaderId, key: Key)
    | LoadRoot(r: ReaderId)
    | Follow(r: ReaderId)
    | Unlock(r: ReaderId)
    | InsertFirst(e: Elem)
    | Prepare(e: Elem, n: nat, slot: Slot<Addr>, node: Addr)
    | Publish
    | DeleteLast(k: Key)
    | UnlinkStore(k: Key, slot: Slot<Addr>, node: Addr)
    | CallRcu
    | Reclaim(a: Addr)

  function Lookup(m: map<Key, Elem>, k: Key): Option<Elem> {
    if k in m then Some(m[k]) else None
  }

  /** What a reader whose walk is over returns. */
  function Result(rd: Reader): Option<Elem>
    requires rd.pos.At?
  {
    if rd.pos.p.ElemPtr? && rd.pos.p.e.name == rd.key then Some(rd.pos.p.e) else None
  }

  predicate WalkOver(rd: Reader) {
    rd.pos.At? && !rd.pos.p.NodePtr?
  }

  function SlotPtr(s: State, slot: Slot<Addr>): Ptr<Addr>
    requires slot.ChildSlot? ==> slot.q in s.mem
  {
    if slot.RootSlot? then s.root else GetChild(s.mem[slot.q], slot.right)
  }

  /** The initialised node, before it is published: the element on its own side, the slot's present
      content on the other. */
  function NewNode(s: State, e: Elem, n: nat, slot: Slot<Addr>): Fields<Addr>
    requires slot.ChildSlot? ==> slot.q in s.mem
  {
    var p := SlotPtr(s, slot);
    if Bit(e.name, n) then Fields(p, ElemPtr(e), n / 8, OtherBits(n % 8))
    else Fields(ElemPtr(e), p, n / 8, OtherBits(n % 8))
  }

  /** The store of one pointer into a slot. */
  function StoreSlot(s: State, slot: Slot<Addr>, p: Ptr<Addr>): State
    requires slot.ChildSlot? ==> slot.q in s.mem
  {
    match slot
    case RootSlot => s.(root := p)
    case ChildSlot(q, right) => s.(mem := s.mem[q := SetChild(s.mem[q], right, p)])
  }

  /** Every running lookup takes note of the new content. */
  function Observe(readers: map<ReaderId, Reader>, content: map<Key, Elem>): map<ReaderId, Reader> {
    map r | r in readers ::
      if readers[r].pos.At? then readers[r].(seen := readers[r].seen + {Lookup(content, readers[r].key)})
      else readers[r]
  }

  /** The writer's walks read a structure nobody else changes, so each is one step whose result is
      what the sequential code guarantees. */
  ghost predicate InsertWalk(s: State, e: Elem, n: nat, slot: Slot<Addr>, node: Addr) {
    exists t: Tree<Addr> ::
      && Rep(s.mem, s.root, t) && Find(t, e.name).name != e.name
      && n == CritBit(e.name, Find(t, e.name).name)
      && SpliceSlot(t, slot, n, e, node) && (InSlot(t, slot).Leaf? || InSlot(t, slot).bit > n)
  }

  ghost predicate DeleteWalk(s: State, k: Key, slot: Slot<Addr>, node: Addr) {
    exists t: Tree<Addr> ::
      && Rep(s.mem, s.root, t) && Find(t, k).name == k && UnlinkSlot(t, slot, k)
      && InSlot(t, slot).at == node && Child(InSlot(t, slot), Bit(k, InSlot(t, slot).bit)).Leaf?
  }

  ghost predicate Enabled(s: State, step: Step) {
    match step
    case Lock(r, key) => r !in s.readers
    case LoadRoot(r) => r in s.readers && s.readers[r].pos.Start?
    case Follow(r) => r in s.readers && s.readers[r].pos.At? && s.readers[r].pos.p.NodePtr?
        && s.readers[r].pos.p.q in s.mem
    case Unlock(r) => r in s.readers && WalkOver(s.readers[r])
    case InsertFirst(e) => s.writer.Idle? && s.root == Null
    case Prepare(e, n, slot, node) =>
      && s.writer.Idle? && node !in s.mem && (slot.ChildSlot? ==> slot.q in s.mem)
      && InsertWalk(s, e, n, slot, node)
    case Publish => s.writer.Linking? && (s.writer.slot.ChildSlot? ==> s.writer.slot.q in s.mem)
    case DeleteLast(k) => s.writer.Idle? && s.root.ElemPtr? && s.root.e.name == k
    case UnlinkStore(k, slot, node) =>
      && s.writer.Idle? && node in s.mem && (slot.ChildSlot? ==> slot.q in s.mem)
      && DeleteWalk(s, k, slot, node)
    case CallRcu => s.writer.Unlinked?
    case Reclaim(a) => a in s.waiting && s.waiting[a] == {}
  }

  ghost function Apply(s: State, step: Step): State
    requires Enabled(s, step)
  {
    match step
    case Lock(r, key) => s.(readers := s.readers[r := Reader(key, Start, {})])
    case LoadRoot(r) =>
      var rd := s.readers[r];
      s.(readers := s.readers[r := Reader(rd.key, At(s.root), {Lookup(s.content, rd.key)})])
    case Follow(r) =>
      var rd := s.readers[r];
      var q := s.mem[rd.pos.p.q];
      var right := Direction(q.otherbits, ByteAt(rd.key, q.byte)) == 1;
      s.(readers := s.readers[r := rd.(pos := At(GetChild(q, right)))])
    case Unlock(r) =>
      s.(readers := s.readers - {r}, waiting := map a | a in s.waiting :: s.waiting[a] - {r})
    case InsertFirst(e) =>
      var content := s.content[e.name := e];
      s.(root := ElemPtr(e), content := content, readers := Observe(s.readers, content))
    case Prepare(e, n, slot, node) =>
      s.(mem := s.mem[node := NewNode(s, e, n, slot)], writer := Linking(e, n, slot, node))
    case Publish =>
      var w := s.writer;
      var content := s.content[w.e.name := w.e];
      StoreSlot(s, w.slot, NodePtr(w.node)).(content := content, readers := Observe(s.readers, content), writer := Idle)
    case DeleteLast(k) =>
      var content := s.content - {k};
      s.(root := Null, content := content, readers := Observe(s.readers, content))
    case UnlinkStore(k, slot, node) =>
      var q := s.mem[node];
      var right := Direction(q.otherbits, ByteAt(k, q.byte)) == 1;
      var content := s.content - {k};
      StoreSlot(s, slot, GetChild(q, !right)).(content := content, readers := Observe(s.readers, content),
                                               writer := Unlinked(node))
    case CallRcu =>
      s.(waiting := s.waiting[s.writer.node := s.readers.Keys], writer := Idle)
    case Reclaim(a) => s.(mem := s.mem - {a}, waiting := s.waiting - {a})
  }

  const INIT := State(Null, map[], map[], map[], map[], Idle)

  // ---------- The invariant ----------

  /** What the live tree and each reader's pointer lead to. */
  datatype Views = Views(live: Root<Addr>, trees: map<ReaderId, Tree<Addr>>)

  ghost function LiveNodes(v: Views): set<Addr> {
    if v.live.Empty? then {} else Nodes(v.live.t)
  }

  ghost predicate LiveOk(s: State, v: Views) {
    && (v.live.Empty? ==> s.root == Null)
    && (v.live.Root? ==> GoodTree(s.mem, s.root, v.live.t))
    && RootContent(v.live) == s.content
  }

  /** Whatever the reader's pointer still offers under its key was in the tree at some moment of
      the lookup; if it offers nothing, the key was absent at some moment. */
  ghost predicate SeenOk(rd: Reader, m: map<Key, Elem>) {
    Lookup(m, rd.key) in rd.seen
  }

  /** The reader holds a pointer into the structure. */
  ghost predicate Walking(s: State, r: ReaderId) {
    r in s.readers && s.readers[r].pos.At? && s.readers[r].pos.p != Null
  }

  ghost predicate ReaderOk(s: State, v: Views, r: ReaderId)
    requires r in s.readers
  {
    var rd := s.readers[r];
    && (rd.pos.At? && rd.pos.p == Null ==> None in rd.seen)
    && (Walking(s, r) ==>
          && r in v.trees && GoodTree(s.mem, rd.pos.p, v.trees[r]) && SeenOk(rd, Content(v.trees[r]))
          && forall a | a in Nodes(v.trees[r]) :: Protected(s, v, r, a))
  }

  /** A node a reader can still reach is live, just unlinked, or waits for that reader. */
  ghost predicate Protected(s: State, v: Views, r: ReaderId, a: Addr) {
    || a in LiveNodes(v)
    || s.writer == Unlinked(a)
    || (a in s.waiting && r in s.waiting[a])
  }

  ghost function WriterNodes(s: State): set<Addr> {
    if s.writer.Idle? then {} else {s.writer.node}
  }

  /** Every allocated node is accounted for exactly once. */
  ghost predicate MemoryOk(s: State, v: Views) {
    && s.mem.Keys == LiveNodes(v) + WriterNodes(s) + s.waiting.Keys
    && LiveNodes(v) !! WriterNodes(s) && LiveNodes(v) !! s.waiting.Keys && WriterNodes(s) !! s.waiting.Keys
    && (forall a | a in s.waiting :: s.waiting[a] <= s.readers.Keys)
  }

  /** The pending insertion is still the right one when its store comes. */
  ghost predicate WriterOk(s: State, v: Views) {
    s.writer.Linking? ==>
      && v.live.Root?
      && var w := s.writer; var t := v.live.t;
         && FirstDiff(w.e.name, Find(t, w.e.name).name, w.n)
         && SpliceSlot(t, w.slot, w.n, w.e, w.node) && (InSlot(t, w.slot).Leaf? || InSlot(t, w.slot).bit > w.n)
         && (w.slot.ChildSlot? ==> w.slot.q in s.mem)
         && w.node in s.mem && s.mem[w.node] == NewNode(s, w.e, w.n, w.slot)
  }

  ghost predicate ReadersOk(s: State, v: Views) {
    forall r | r in s.readers :: ReaderOk(s, v, r)
  }

  ghost predicate Holds(s: State, v: Views) {
    LiveOk(s, v) && MemoryOk(s, v) && WriterOk(s, v) && ReadersOk(s, v)
  }

  ghost predicate Inv(s: State) {
    exists v: Views :: Holds(s, v)
  }

  // ---------- Reader steps ----------

  lemma InitHolds()
    ensures Inv(INIT)
  {
    assert Holds(INIT, Views(Empty, map[]));
  }

  lemma LockHolds(s: State, v: Views, r: ReaderId, key: Key)
    requires Holds(s, v) && r !in s.readers
    ensures Holds(Apply(s, Lock(r, key)), v)
  {
    var s' := Apply(s, Lock(r, key));
    forall x | x in s'.readers ensures ReaderOk(s', v, x) {
      if x != r { ReaderFrame(s, s', v, v, x); }
    }
  }

  /** A reader is unaffected when memory, its own record and its protection stay. */
  lemma ReaderFrame(s: State, s': State, v: Views, v': Views, r: ReaderId)
    requires r in s.readers && ReaderOk(s, v, r) && r in s'.readers && s'.readers[r] == s.readers[r]
    requires Walking(s, r) ==> r in v'.trees && v'.trees[r] == v.trees[r]
    requires Walking(s, r) ==> forall a | a in Nodes(v.trees[r]) && a in s.mem :: a in s'.mem && s'.mem[a] == s.mem[a]
    requires Walking(s, r) ==> forall a | a in Nodes(v.trees[r]) && Protected(s, v, r, a) :: Protected(s', v', r, a)
    ensures ReaderOk(s', v', r)
  {
    if Walking(s, r) { RepFrame(s.mem, s'.mem, s.readers[r].pos.p, v.trees[r]); }
  }

  ghost function LoadedViews(v: Views, r: ReaderId): Views {
    if v.live.Empty? then v else v.(trees := v.trees[r := v.live.t])
  }

  lemma LoadRootHolds(s: State, v: Views, r: ReaderId)
    requires Holds(s, v) && Enabled(s, LoadRoot(r))
    ensures Holds(Apply(s, LoadRoot(r)), LoadedViews(v, r))
  {
    var s', v' := Apply(s, LoadRoot(r)), LoadedViews(v, r);
    forall x | x in s'.readers ensures ReaderOk(s', v', x) {
      if x != r { ReaderFrame(s, s', v, v', x); }
    }
  }

  ghost function FollowedViews(s: State, v: Views, r: ReaderId): Views
    requires Holds(s, v) && Enabled(s, Follow(r))
  {
    assert ReaderOk(s, v, r);
    v.(trees := v.trees[r := Child(v.trees[r], Bit(s.readers[r].key, v.trees[r].bit))])
  }

  /** The reader's next pointer leads to the child its key selects, which answers for the key alike. */
  lemma FollowStep(s: State, v: Views, r: ReaderId, s': State, t: Tree<Addr>, c: Tree<Addr>)
    requires Enabled(s, Follow(r)) && ReaderOk(s, v, r) && r in v.trees && t == v.trees[r] && s' == Apply(s, Follow(r))
    requires t.Node? && c == Child(t, Bit(s.readers[r].key, t.bit))
    ensures s'.readers[r] == s.readers[r].(pos := s'.readers[r].pos) && s'.readers[r].pos.At?
    ensures GoodTree(s'.mem, s'.readers[r].pos.p, c) && SeenOk(s'.readers[r], Content(c)) && Nodes(c) <= Nodes(t)
  {
    var d := Bit(s.readers[r].key, t.bit);
    assert s'.readers[r].pos == At(GetChild(s.mem[t.at], d)) && Rep(s.mem, GetChild(s.mem[t.at], d), c);
    OneSide(t, s.readers[r].key);
    assert Lookup(Content(c), s.readers[r].key) == Lookup(Content(t), s.readers[r].key);
  }

  lemma FollowHolds(s: State, v: Views, r: ReaderId)
    requires Holds(s, v) && Enabled(s, Follow(r))
    ensures Holds(Apply(s, Follow(r)), FollowedViews(s, v, r))
  {
    assert ReaderOk(s, v, r);
    var s', v', t := Apply(s, Follow(r)), FollowedViews(s, v, r), v.trees[r];
    FollowStep(s, v, r, s', t, v'.trees[r]);
    forall a | a in Nodes(v'.trees[r]) ensures Protected(s', v', r, a) { assert Protected(s, v, r, a); }
    forall x | x in s'.readers ensures ReaderOk(s', v', x) {
      if x != r { ReaderFrame(s, s', v, v', x); }
    }
  }

  lemma UnlockHolds(s: State, v: Views, r: ReaderId)
    requires Holds(s, v) && Enabled(s, Unlock(r))
    ensures Holds(Apply(s, Unlock(r)), v)
  {
    var s' := Apply(s, Unlock(r));
    assert s'.waiting.Keys == s.waiting.Keys;
    forall x | x in s'.readers ensures ReaderOk(s', v, x) { ReaderFrame(s, s', v, v, x); }
  }

  // ---------- Writer steps that store nothing a reader can see ----------

  lemma InsertWalkIsLive(s: State, v: Views, e: Elem, n: nat, slot: Slot<Addr>, node: Addr)
    requires LiveOk(s, v) && InsertWalk(s, e, n, slot, node)
    ensures v.live.Root?
    ensures var t := v.live.t;
            && FirstDiff(e.name, Find(t, e.name).name, n)
            && SpliceSlot(t, slot, n, e, node) && (InSlot(t, slot).Leaf? || InSlot(t, slot).bit > n)
  {
    var t :| && Rep(s.mem, s.root, t) && Find(t, e.name).name != e.name
             && n == CritBit(e.name, Find(t, e.name).name)
             && SpliceSlot(t, slot, n, e, node) && (InSlot(t, slot).Leaf? || InSlot(t, slot).bit > n);
    RepUnique(s.mem, s.root, t, v.live.t);
  }

  lemma PrepareWriter(s: State, v: Views, e: Elem, n: nat, slot: Slot<Addr>, node: Addr)
    requires LiveOk(s, v) && MemoryOk(s, v) && Enabled(s, Prepare(e, n, slot, node))
    ensures WriterOk(Apply(s, Prepare(e, n, slot, node)), v) && LiveOk(Apply(s, Prepare(e, n, slot, node)), v)
  {
    InsertWalkIsLive(s, v, e, n, slot, node);
    RepFrame(s.mem, Apply(s, Prepare(e, n, slot, node)).mem, s.root, v.live.t);
  }

  lemma PrepareHolds(s: State, v: Views, e: Elem, n: nat, slot: Slot<Addr>, node: Addr)
    requires Holds(s, v) && Enabled(s, Prepare(e, n, slot, node))
    ensures Holds(Apply(s, Prepare(e, n, slot, node)), v)
  {
    var s' := Apply(s, Prepare(e, n, slot, node));
    PrepareWriter(s, v, e, n, slot, node);
    forall x | x in s'.readers ensures ReaderOk(s', v, x) {
      FreshNode(s, v, x, node);
      ReaderFrame(s, s', v, v, x);
    }
  }

  lemma FreshNode(s: State, v: Views, r: ReaderId, node: Addr)
    requires Holds(s, v) && r in s.readers && node !in s.mem
    ensures Walking(s, r) ==> node !in Nodes(v.trees[r])
  {
    if Walking(s, r) { RepNodes(s.mem, s.readers[r].pos.p, v.trees[r]); }
  }

  lemma CallRcuHolds(s: State, v: Views)
    requires Holds(s, v) && Enabled(s, CallRcu)
    ensures Holds(Apply(s, CallRcu), v)
  {
    var s' := Apply(s, CallRcu);
    forall x | x in s'.readers ensures ReaderOk(s', v, x) { ReaderFrame(s, s', v, v, x); }
  }

  /** When the callback runs nobody can reach the node any more. */
  lemma ReclaimHolds(s: State, v: Views, a: Addr)
    requires Holds(s, v) && Enabled(s, Reclaim(a))
    ensures Holds(Apply(s, Reclaim(a)), v)
  {
    var s' := Apply(s, Reclaim(a));
    if v.live.Root? { RepFrame(s.mem, s'.mem, s.root, v.live.t); }
    assert s'.mem.Keys == s.mem.Keys - {a} && s'.waiting.Keys == s.waiting.Keys - {a};
    forall x | x in s'.readers ensures ReaderOk(s', v, x) {
      if Walking(s, x) {
        forall b | b in Nodes(v.trees[x]) ensures b != a { assert Protected(s, v, x, b); }
      }
      ReaderFrame(s, s', v, v, x);
    }
  }

  // ---------- Writer steps that change what readers see ----------

  /** The reader's tree after a store of subtree c into a slot. */
  ghost function ViewAfter(t: Tree<Addr>, slot: Slot<Addr>, c: Tree<Addr>): Tree<Addr> {
    if slot.ChildSlot? && slot.q in Nodes(t) then Subst(t, slot.q, slot.right, c) else t
  }

  /** Under key k the store brings the new content; under every other key it changes nothing. */
  ghost predicate ChangesOnly(k: Key, before: map<Key, Elem>, after: map<Key, Elem>, content: map<Key, Elem>) {
    && (forall j | j != k :: Lookup(after, j) == Lookup(before, j))
    && Lookup(after, k) == Lookup(content, k)
    && (k in before || k in after)
  }

  lemma ChangedLookup(m: map<Key, Elem>, before: map<Key, Elem>, after: map<Key, Elem>, k: Key, j: Key,
                      content: map<Key, Elem>)
    requires ChangesOnly(k, before, after, content)
    requires forall i | i in before :: i in m && m[i] == before[i]
    ensures var w := (m - before.Keys) + after;
            Lookup(w, j) == if j == k then Lookup(content, k) else Lookup(m, j)
  {
    if j != k { assert Lookup(after, j) == Lookup(before, j); }
  }

  /** The memory after the store of one pointer into a slot. */
  ghost predicate SlotStored(h: map<Addr, Fields<Addr>>, h': map<Addr, Fields<Addr>>, slot: Slot<Addr>, np: Ptr<Addr>) {
    if slot.RootSlot? then h' == h
    else slot.q in h && h' == h[slot.q := SetChild(h[slot.q], slot.right, np)]
  }

  /** What a reader's pointer leads to across a store that replaces the subtree b in a slot by c. */
  lemma ViewAfterStore(h: map<Addr, Fields<Addr>>, h': map<Addr, Fields<Addr>>, root: Ptr<Addr>, live: Tree<Addr>,
                       p: Ptr<Addr>, t: Tree<Addr>, slot: Slot<Addr>, np: Ptr<Addr>, c: Tree<Addr>, f: Key)
    requires GoodTree(h, root, live) && HasSlot(live, slot) && GoodTree(h, p, t) && SlotStored(h, h', slot, np)
    requires WF(Put(live, slot, c)) && Rep(h', np, c) && Distinct(c)
    requires f in Content(InSlot(live, slot)) && f in Content(c) && Nodes(c) !! Nodes(t) - Nodes(InSlot(live, slot))
    ensures GoodTree(h', p, ViewAfter(t, slot, c)) && Nodes(ViewAfter(t, slot, c)) <= Nodes(t) + Nodes(c)
    ensures slot.ChildSlot? && slot.q in Nodes(t) ==>
              && Content(ViewAfter(t, slot, c)) == (Content(t) - Content(InSlot(live, slot)).Keys) + Content(c)
              && forall i | i in Content(InSlot(live, slot)) ::
                   i in Content(t) && Content(t)[i] == Content(InSlot(live, slot))[i]
  {
    if slot.ChildSlot? && slot.q in Nodes(t) {
      ViewStore(h, h', root, live, p, t, slot.q, slot.right, np, c, f);
      ChildFacts(t, slot.q, slot.right);
    } else {
      RepFrame(h, h', p, t);
    }
  }

  lemma LookupAfterStore(t: Tree<Addr>, u: Tree<Addr>, b: map<Key, Elem>, c: map<Key, Elem>, k: Key, key: Key,
                         content: map<Key, Elem>)
    requires ChangesOnly(k, b, c, content) && Content(u) == (Content(t) - b.Keys) + c
    requires forall i | i in b :: i in Content(t) && Content(t)[i] == b[i]
    ensures Lookup(Content(u), key) == Lookup(Content(t), key) || Lookup(Content(u), key) == Lookup(content, key)
  {
    ChangedLookup(Content(t), b, c, k, key, content);
  }

  /** One reader across such a store. */
  lemma ReaderAfterStore(s: State, s': State, v: Views, v': Views, r: ReaderId, slot: Slot<Addr>, np: Ptr<Addr>,
                         c: Tree<Addr>, f: Key, k: Key)
    requires LiveOk(s, v) && r in s.readers && ReaderOk(s, v, r) && v.live.Root? && HasSlot(v.live.t, slot)
    requires SlotStored(s.mem, s'.mem, slot, np)
    requires s'.readers == Observe(s.readers, s'.content) && s'.waiting == s.waiting && !s.writer.Unlinked?
    requires v'.live == Root(Put(v.live.t, slot, c)) && WF(v'.live.t)
    requires Walking(s, r) ==> r in v'.trees && v'.trees[r] == ViewAfter(v.trees[r], slot, c)
    requires Rep(s'.mem, np, c) && Distinct(c)
    requires f in Content(InSlot(v.live.t, slot)) && f in Content(c)
    requires ChangesOnly(k, Content(InSlot(v.live.t, slot)), Content(c), s'.content)
    requires Walking(s, r) ==> Nodes(c) !! Nodes(v.trees[r]) - Nodes(InSlot(v.live.t, slot))
    requires forall a | a in LiveNodes(v) :: a in LiveNodes(v') || s'.writer == Unlinked(a)
    requires Nodes(c) <= LiveNodes(v')
    ensures ReaderOk(s', v', r)
  {
    if Walking(s, r) {
      var rd, t, b := s.readers[r], v.trees[r], InSlot(v.live.t, slot);
      ViewAfterStore(s.mem, s'.mem, s.root, v.live.t, rd.pos.p, t, slot, np, c, f);
      if slot.ChildSlot? && slot.q in Nodes(t) {
        LookupAfterStore(t, v'.trees[r], Content(b), Content(c), k, rd.key, s'.content);
      }
      forall a | a in Nodes(v'.trees[r]) ensures Protected(s', v', r, a) {
        if a in Nodes(v.trees[r]) { assert Protected(s, v, r, a); }
      }
    }
  }

  lemma ObserveUnchanged(s: State, v: Views, content: map<Key, Elem>, r: ReaderId, s': State, v': Views)
    requires Holds(s, v) && r in s.readers
    requires s'.readers == Observe(s.readers, content) && s'.mem == s.mem && s'.waiting == s.waiting
    requires v'.trees == v.trees && LiveNodes(v) <= LiveNodes(v') && s'.writer == s.writer
    ensures ReaderOk(s', v', r)
  {
    if Walking(s, r) {
      forall a | a in Nodes(v.trees[r]) ensures Protected(s', v', r, a) { assert Protected(s, v, r, a); }
    }
  }

  lemma InsertFirstHolds(s: State, v: Views, e: Elem)
    requires Holds(s, v) && Enabled(s, InsertFirst(e))
    ensures Holds(Apply(s, InsertFirst(e)), v.(live := Root(Leaf(e))))
  {
    var s', v' := Apply(s, InsertFirst(e)), v.(live := Root(Leaf(e)));
    assert v.live.Empty?;
    forall r | r in s'.readers ensures ReaderOk(s', v', r) { ObserveUnchanged(s, v, s'.content, r, s', v'); }
  }

  lemma DeleteLastHolds(s: State, v: Views, k: Key)
    requires Holds(s, v) && Enabled(s, DeleteLast(k))
    ensures Holds(Apply(s, DeleteLast(k)), v.(live := Empty))
  {
    var s', v' := Apply(s, DeleteLast(k)), v.(live := Empty);
    assert v.live == Root(Leaf(s.root.e));
    forall r | r in s'.readers ensures ReaderOk(s', v', r) { ObserveUnchanged(s, v, s'.content, r, s', v'); }
  }

  ghost function ViewsAfter(v: Views, slot: Slot<Addr>, c: Tree<Addr>): Views
    requires v.live.Root? && HasSlot(v.live.t, slot)
  {
    Views(Root(Put(v.live.t, slot, c)), map r | r in v.trees :: ViewAfter(v.trees[r], slot, c))
  }

  /** The pending node is invisible to readers until it is published. */
  lemma LinkingInvisible(s: State, v: Views, r: ReaderId)
    requires Holds(s, v) && s.writer.Linking? && Walking(s, r)
    ensures s.writer.node !in Nodes(v.trees[r])
  {
    assert ReaderOk(s, v, r);
    assert s.writer.node in Nodes(v.trees[r]) ==> Protected(s, v, r, s.writer.node);
  }

  lemma PublishTree(s: State, v: Views)
    requires LiveOk(s, v) && MemoryOk(s, v) && WriterOk(s, v) && Enabled(s, Publish)
    ensures var w := s.writer; var t := v.live.t; var u := Splice(t, w.n, w.e, w.node);
            && WF(u) && Content(u) == s.content[w.e.name := w.e] && w.e.name !in s.content
            && u == Put(t, w.slot, Splice(InSlot(t, w.slot), w.n, w.e, w.node))
  {
    var w := s.writer;
    SpliceWF(v.live.t, w.n, w.e, w.node);
    SpliceContent(v.live.t, w.n, w.e, w.node);
  }

  lemma PublishMemory(s: State, v: Views)
    requires LiveOk(s, v) && MemoryOk(s, v) && WriterOk(s, v) && Enabled(s, Publish)
    ensures var s' := Apply(s, Publish); var w := s.writer; var t := v.live.t; var u := Splice(t, w.n, w.e, w.node);
            Rep(s'.mem, s'.root, u) && Distinct(u) && Nodes(u) == Nodes(t) + {w.node}
  {
    var s', w, t := Apply(s, Publish), s.writer, v.live.t;
    RepSlot(s.mem, s.root, t, w.slot);
    assert s'.mem[w.node] == s.mem[w.node];
    assert Stored(s.mem, s'.mem, s.root, s'.root, Nodes(t), w.slot, NodePtr(w.node));
    SpliceRep(s.mem, s'.mem, s.root, s'.root, t, w.slot, w.n, w.e, w.node);
  }

  lemma PublishSubtree(s: State, v: Views)
    requires LiveOk(s, v) && MemoryOk(s, v) && WriterOk(s, v) && Enabled(s, Publish)
    ensures var s' := Apply(s, Publish); var w := s.writer; var sub := InSlot(v.live.t, w.slot);
            var c := Splice(sub, w.n, w.e, w.node);
            && Rep(s'.mem, NodePtr(w.node), c) && Distinct(c)
            && Nodes(c) == Nodes(sub) + {w.node} && Nodes(sub) <= Nodes(v.live.t)
  {
    var s', w, t := Apply(s, Publish), s.writer, v.live.t;
    RepSlot(s.mem, s.root, t, w.slot);
    assert s'.mem[w.node] == s.mem[w.node];
    RepFrame(s.mem, s'.mem, SlotPtr(s, w.slot), InSlot(t, w.slot));
    SpliceHereRep(s'.mem, InSlot(t, w.slot), w.n, w.e, w.node);
  }

  lemma SlotContentSubset(s: State, v: Views, slot: Slot<Addr>)
    requires LiveOk(s, v) && v.live.Root? && HasSlot(v.live.t, slot)
    ensures WF(InSlot(v.live.t, slot))
    ensures forall k | k in Content(InSlot(v.live.t, slot)) :: k in s.content
  {
    if slot.ChildSlot? { ChildFacts(v.live.t, slot.q, slot.right); }
  }

  lemma SpliceChanges(sub: Tree<Addr>, n: nat, e: Elem, node: Addr, content: map<Key, Elem>)
    requires sub.Leaf? || sub.bit > n
    requires e.name !in Content(sub)
    ensures Content(Splice(sub, n, e, node)) == Content(sub)[e.name := e]
    ensures ChangesOnly(e.name, Content(sub), Content(Splice(sub, n, e, node)), content[e.name := e])
  {
  }

  ghost function PublishedViews(s: State, v: Views): Views
    requires WriterOk(s, v) && s.writer.Linking?
  {
    var w := s.writer;
    ViewsAfter(v, w.slot, Splice(InSlot(v.live.t, w.slot), w.n, w.e, w.node))
  }

  lemma PublishReader(s: State, v: Views, r: ReaderId)
    requires Holds(s, v) && Enabled(s, Publish) && r in s.readers
    ensures ReaderOk(Apply(s, Publish), PublishedViews(s, v), r)
  {
    var s', w := Apply(s, Publish), s.writer;
    var sub := InSlot(v.live.t, w.slot);
    var f := NonEmpty(sub);
    PublishTree(s, v);
    PublishMemory(s, v);
    PublishSubtree(s, v);
    SlotContentSubset(s, v, w.slot);
    SpliceChanges(sub, w.n, w.e, w.node, s.content);
    if Walking(s, r) { LinkingInvisible(s, v, r); }
    ReaderAfterStore(s, s', v, PublishedViews(s, v), r, w.slot, NodePtr(w.node), Splice(sub, w.n, w.e, w.node), f,
                     w.e.name);
  }

  lemma PublishLive(s: State, v: Views)
    requires LiveOk(s, v) && MemoryOk(s, v) && WriterOk(s, v) && Enabled(s, Publish)
    ensures LiveOk(Apply(s, Publish), PublishedViews(s, v))
    ensures LiveNodes(PublishedViews(s, v)) == LiveNodes(v) + {s.writer.node}
  {
    PublishTree(s, v);
    PublishMemory(s, v);
  }

  lemma PublishAccounts(s: State, s': State, v: Views, v': Views)
    requires MemoryOk(s, v) && s.writer.Linking? && s'.writer.Idle?
    requires s'.mem.Keys == s.mem.Keys && s'.waiting == s.waiting && s'.readers.Keys == s.readers.Keys
    requires LiveNodes(v') == LiveNodes(v) + {s.writer.node}
    ensures MemoryOk(s', v')
  {
  }

  lemma PublishReaders(s: State, v: Views, s': State, v': Views)
    requires Holds(s, v) && Enabled(s, Publish) && s' == Apply(s, Publish) && v' == PublishedViews(s, v)
    ensures ReadersOk(s', v')
  {
    forall r | r in s'.readers ensures ReaderOk(s', v', r) { PublishReader(s, v, r); }
  }

  lemma PublishFrame(s: State)
    requires Enabled(s, Publish)
    ensures var s' := Apply(s, Publish);
            && s'.writer.Idle? && s'.waiting == s.waiting && s'.readers.Keys == s.readers.Keys
            && (s.writer.slot.RootSlot? || s.writer.slot.q in s.mem ==> s'.mem.Keys == s.mem.Keys)
  {
  }

  /** Publishing a node keeps every reader and the live tree consistent. */
  lemma PublishHolds(s: State, v: Views)
    requires Holds(s, v) && Enabled(s, Publish)
    ensures Holds(Apply(s, Publish), PublishedViews(s, v))
  {
    var s', v' := Apply(s, Publish), PublishedViews(s, v);
    PublishLive(s, v);
    PublishFrame(s);
    PublishAccounts(s, s', v, v');
    PublishReaders(s, v, s', v');
  }

  lemma DeleteWalkIsLive(s: State, v: Views, k: Key, slot: Slot<Addr>, node: Addr)
    requires LiveOk(s, v) && DeleteWalk(s, k, slot, node)
    ensures v.live.Root?
    ensures var t := v.live.t;
            && Find(t, k).name == k && UnlinkSlot(t, slot, k)
            && InSlot(t, slot).at == node && Child(InSlot(t, slot), Bit(k, InSlot(t, slot).bit)).Leaf?
  {
    var t :| && Rep(s.mem, s.root, t) && Find(t, k).name == k && UnlinkSlot(t, slot, k)
             && InSlot(t, slot).at == node && Child(InSlot(t, slot), Bit(k, InSlot(t, slot).bit)).Leaf?;
    RepUnique(s.mem, s.root, t, v.live.t);
  }

  lemma UnlinkTree(s: State, v: Views, k: Key, slot: Slot<Addr>)
    requires LiveOk(s, v) && v.live.Root? && Find(v.live.t, k).name == k && UnlinkSlot(v.live.t, slot, k)
    requires Child(InSlot(v.live.t, slot), Bit(k, InSlot(v.live.t, slot).bit)).Leaf?
    ensures var u := Unlink(v.live.t, k); var c := InSlot(v.live.t, slot);
            && WF(u) && Content(u) == s.content - {k} && u == Put(v.live.t, slot, Child(c, !Bit(k, c.bit)))
  {
    FindDecides(v.live.t, k);
    UnlinkWF(v.live.t, k);
    UnlinkContent(v.live.t, k);
  }

  lemma UnlinkMemory(s: State, v: Views, k: Key, slot: Slot<Addr>, node: Addr)
    requires LiveOk(s, v) && Enabled(s, UnlinkStore(k, slot, node))
    requires v.live.Root? && UnlinkSlot(v.live.t, slot, k)
    requires InSlot(v.live.t, slot).at == node
             && Child(InSlot(v.live.t, slot), Bit(k, InSlot(v.live.t, slot).bit)).Leaf?
    ensures var s' := Apply(s, UnlinkStore(k, slot, node)); var t := v.live.t; var u := Unlink(t, k);
            var c := InSlot(t, slot); var sibling := Child(c, !Bit(k, c.bit));
            && Rep(s'.mem, s'.root, u) && Distinct(u) && Nodes(u) == Nodes(t) - {node} && node in Nodes(t)
            && s' == StoreSlot(s, slot, GetChild(s.mem[node], !Bit(k, c.bit)))
                       .(content := s.content - {k}, readers := Observe(s.readers, s.content - {k}),
                         writer := Unlinked(node))
            && Rep(s'.mem, GetChild(s.mem[node], !Bit(k, c.bit)), sibling) && Distinct(sibling)
            && Nodes(sibling) <= Nodes(c) - {node} && Nodes(c) <= Nodes(t)
  {
    var s', t := Apply(s, UnlinkStore(k, slot, node)), v.live.t;
    var c := InSlot(t, slot);
    var d := Bit(k, c.bit);
    RepSlot(s.mem, s.root, t, slot);
    assert Direction(s.mem[node].otherbits, ByteAt(k, s.mem[node].byte)) == 1 <==> d;
    UnlinkRep(s.mem, s'.mem, s.root, s'.root, t, slot, k);
    RepFrame(s.mem, s'.mem, GetChild(s.mem[node], !d), Child(c, !d));
  }

  lemma UnlinkChanges(c: Tree<Addr>, k: Key, content: map<Key, Elem>)
    requires WF(c) && c.Node? && k in Content(c) && Child(c, Bit(k, c.bit)).Leaf?
    ensures ChangesOnly(k, Content(c), Content(Child(c, !Bit(k, c.bit))), content - {k})
  {
    OneSide(c, k);
    UnlinkContent(c, k);
  }

  ghost function UnlinkedViews(v: Views, k: Key, slot: Slot<Addr>): Views
    requires v.live.Root? && UnlinkSlot(v.live.t, slot, k)
  {
    var c := InSlot(v.live.t, slot);
    ViewsAfter(v, slot, Child(c, !Bit(k, c.bit)))
  }

  lemma UnlinkReader(s: State, v: Views, k: Key, slot: Slot<Addr>, node: Addr, r: ReaderId)
    requires Holds(s, v) && Enabled(s, UnlinkStore(k, slot, node)) && r in s.readers
    requires v.live.Root? && Find(v.live.t, k).name == k && UnlinkSlot(v.live.t, slot, k)
    requires InSlot(v.live.t, slot).at == node
             && Child(InSlot(v.live.t, slot), Bit(k, InSlot(v.live.t, slot).bit)).Leaf?
    ensures ReaderOk(Apply(s, UnlinkStore(k, slot, node)), UnlinkedViews(v, k, slot), r)
  {
    var s' := Apply(s, UnlinkStore(k, slot, node));
    var c := InSlot(v.live.t, slot);
    var sibling := Child(c, !Bit(k, c.bit));
    var f := NonEmpty(sibling);
    UnlinkTree(s, v, k, slot);
    UnlinkMemory(s, v, k, slot, node);
    SlotContentSubset(s, v, slot);
    FindDecides(c, k);
    UnlinkChanges(c, k, s.content);
    assert f in Content(c) by { OneSide(c, f); }
    ReaderAfterStore(s, s', v, UnlinkedViews(v, k, slot), r, slot, GetChild(s.mem[node], !Bit(k, c.bit)), sibling, f,
                     k);
  }

  lemma UnlinkLive(s: State, v: Views, k: Key, slot: Slot<Addr>, node: Addr)
    requires LiveOk(s, v) && Enabled(s, UnlinkStore(k, slot, node))
    requires v.live.Root? && Find(v.live.t, k).name == k && UnlinkSlot(v.live.t, slot, k)
    requires InSlot(v.live.t, slot).at == node
             && Child(InSlot(v.live.t, slot), Bit(k, InSlot(v.live.t, slot).bit)).Leaf?
    ensures LiveOk(Apply(s, UnlinkStore(k, slot, node)), UnlinkedViews(v, k, slot))
    ensures LiveNodes(UnlinkedViews(v, k, slot)) == LiveNodes(v) - {node} && node in LiveNodes(v)
  {
    UnlinkTree(s, v, k, slot);
    UnlinkMemory(s, v, k, slot, node);
  }

  lemma UnlinkAccounts(s: State, s': State, v: Views, v': Views, node: Addr)
    requires MemoryOk(s, v) && s.writer.Idle? && s'.writer == Unlinked(node)
    requires s'.mem.Keys == s.mem.Keys && s'.waiting == s.waiting && s'.readers.Keys == s.readers.Keys
    requires LiveNodes(v') == LiveNodes(v) - {node} && node in LiveNodes(v)
    ensures MemoryOk(s', v')
  {
  }

  lemma UnlinkReaders(s: State, v: Views, k: Key, slot: Slot<Addr>, node: Addr, s': State, v': Views)
    requires Holds(s, v) && Enabled(s, UnlinkStore(k, slot, node)) && s' == Apply(s, UnlinkStore(k, slot, node))
    requires v.live.Root? && Find(v.live.t, k).name == k && UnlinkSlot(v.live.t, slot, k)
             && v' == UnlinkedViews(v, k, slot)
    requires InSlot(v.live.t, slot).at == node
             && Child(InSlot(v.live.t, slot), Bit(k, InSlot(v.live.t, slot).bit)).Leaf?
    ensures ReadersOk(s', v')
  {
    forall r | r in s'.readers ensures ReaderOk(s', v', r) { UnlinkReader(s, v, k, slot, node, r); }
  }

  /** Unlinking a node keeps every reader consistent, including those standing on the node. */
  lemma UnlinkHolds(s: State, v: Views, k: Key, slot: Slot<Addr>, node: Addr)
    requires Holds(s, v) && Enabled(s, UnlinkStore(k, slot, node))
    ensures v.live.Root? && UnlinkSlot(v.live.t, slot, k)
    ensures Holds(Apply(s, UnlinkStore(k, slot, node)), UnlinkedViews(v, k, slot))
  {
    DeleteWalkIsLive(s, v, k, slot, node);
    var s', v' := Apply(s, UnlinkStore(k, slot, node)), UnlinkedViews(v, k, slot);
    UnlinkLive(s, v, k, slot, node);
    UnlinkAccounts(s, s', v, v', node);
    UnlinkReaders(s, v, k, slot, node, s', v');
  }

  // ---------- Whole runs ----------

  /** What the live tree and the readers' pointers lead to after a step. */
  ghost function StepViews(s: State, v: Views, step: Step): Views
    requires Holds(s, v) && Enabled(s, step)
  {
    match step
    case LoadRoot(r) => LoadedViews(v, r)
    case Follow(r) => FollowedViews(s, v, r)
    case InsertFirst(e) => v.(live := Root(Leaf(e)))
    case Publish => PublishedViews(s, v)
    case DeleteLast(k) => v.(live := Empty)
    case UnlinkStore(k, slot, node) =>
      DeleteWalkIsLive(s, v, k, slot, node);
      UnlinkedViews(v, k, slot)
    case _ => v
  }

  lemma StepHolds(s: State, v: Views, step: Step)
    requires Holds(s, v) && Enabled(s, step)
    ensures Holds(Apply(s, step), StepViews(s, v, step))
  {
    match step
    case Lock(r, key) => LockHolds(s, v, r, key);
    case LoadRoot(r) => LoadRootHolds(s, v, r);
    case Follow(r) => FollowHolds(s, v, r);
    case Unlock(r) => UnlockHolds(s, v, r);
    case InsertFirst(e) => InsertFirstHolds(s, v, e);
    case Prepare(e, n, slot, node) => PrepareHolds(s, v, e, n, slot, node);
    case Publish => PublishHolds(s, v);
    case DeleteLast(k) => DeleteLastHolds(s, v, k);
    case UnlinkStore(k, slot, node) => UnlinkHolds(s, v, k, slot, node);
    case CallRcu => CallRcuHolds(s, v);
    case Reclaim(a) => ReclaimHolds(s, v, a);
  }

  /** Every step keeps the invariant. */
  lemma StepKeepsInv(s: State, step: Step)
    requires Inv(s) && Enabled(s, step)
    ensures Inv(Apply(s, step))
  {
    var v: Views :| Holds(s, v);
    StepHolds(s, v, step);
  }

  /** A run from the empty tree: each state follows from the one before by an enabled step. */
  ghost predicate Run(ss: seq<State>, steps: seq<Step>) {
    && |ss| == |steps| + 1 && ss[0] == INIT
    && forall i | 0 <= i < |steps| :: Enabled(ss[i], steps[i]) && ss[i + 1] == Apply(ss[i], steps[i])
  }

  lemma {:induction false} RunInv(ss: seq<State>, steps: seq<Step>, i: nat)
    requires Run(ss, steps) && i < |ss|
    ensures Inv(ss[i])
  {
    if i == 0 {
      InitHolds();
    } else {
      RunInv(ss, steps, i - 1);
      StepKeepsInv(ss[i - 1], steps[i - 1]);
    }
  }

  /** No reader ever stands on a node whose RCU callback has run: its next load is from a node
      still in memory. */
  lemma NoUseAfterFree(ss: seq<State>, steps: seq<Step>, i: nat, r: ReaderId)
    requires Run(ss, steps) && i < |ss| && r in ss[i].readers
    requires ss[i].readers[r].pos.At? && ss[i].readers[r].pos.p.NodePtr?
    ensures ss[i].readers[r].pos.p.q in ss[i].mem && Enabled(ss[i], Follow(r))
  {
    RunInv(ss, steps, i);
    var v: Views :| Holds(ss[i], v);
    assert ReaderOk(ss[i], v, r);
  }

  /** A step adds to what a running lookup has seen at most the content after the step. */
  lemma SeenStep(s: State, step: Step, r: ReaderId)
    requires Enabled(s, step) && r in s.readers && r in Apply(s, step).readers && Apply(s, step).readers[r].pos.At?
    ensures Apply(s, step).readers[r].key == s.readers[r].key
    ensures s.readers[r].pos.Start? ==>
            Apply(s, step).readers[r].seen == {Lookup(Apply(s, step).content, s.readers[r].key)}
    ensures s.readers[r].pos.At? ==>
              Apply(s, step).readers[r].seen <= s.readers[r].seen + {Lookup(Apply(s, step).content, s.readers[r].key)}
  {
  }

  lemma SeenRunStep(ss: seq<State>, steps: seq<Step>, r: ReaderId, j: nat)
    requires Run(ss, steps) && 0 < j < |ss| && r in ss[j - 1].readers && r in ss[j].readers && ss[j].readers[r].pos.At?
    ensures ss[j].readers[r].key == ss[j - 1].readers[r].key
    ensures ss[j - 1].readers[r].pos.Start? ==> ss[j].readers[r].seen == {Lookup(ss[j].content, ss[j].readers[r].key)}
    ensures ss[j - 1].readers[r].pos.At? ==>
              ss[j].readers[r].seen <= ss[j - 1].readers[r].seen + {Lookup(ss[j].content, ss[j].readers[r].key)}
  {
    assert ss[j] == ss[(j - 1) + 1] == Apply(ss[j - 1], steps[j - 1]);
    SeenStep(ss[j - 1], steps[j - 1], r);
  }

  /** o is what the tree held under the key in some state after i, up to j. */
  ghost predicate HeldBetween(ss: seq<State>, key: Key, i: nat, j: nat, o: Option<Elem>)
    requires j < |ss|
  {
    exists m :: i < m <= j && Lookup(ss[m].content, key) == o
  }

  lemma HeldLonger(ss: seq<State>, key: Key, i: nat, j: nat, o: Option<Elem>)
    requires 0 < j < |ss| && HeldBetween(ss, key, i, j - 1, o)
    ensures HeldBetween(ss, key, i, j, o)
  {
    var m :| i < m <= j - 1 && Lookup(ss[m].content, key) == o;
  }

  ghost predicate AllHeld(ss: seq<State>, key: Key, i: nat, j: nat, seen: set<Option<Elem>>)
    requires j < |ss|
  {
    forall o | o in seen :: HeldBetween(ss, key, i, j, o)
  }

  lemma StillHeld(ss: seq<State>, key: Key, i: nat, j: nat, seen: set<Option<Elem>>, more: set<Option<Elem>>)
    requires 0 < j < |ss| && i < j && more <= seen + {Lookup(ss[j].content, key)}
    requires AllHeld(ss, key, i, j - 1, seen)
    ensures AllHeld(ss, key, i, j, more)
  {
    forall o | o in more ensures HeldBetween(ss, key, i, j, o) {
      if o == Lookup(ss[j].content, key) {
        assert i < j <= j && Lookup(ss[j].content, key) == o;
      } else {
        HeldLonger(ss, key, i, j, o);
      }
    }
  }

  /** The m-th step is one of a lookup that started in state i, and adds to what it has seen at most the
      content then. */
  ghost predicate Looks(ss: seq<State>, r: ReaderId, i: nat, m: nat)
    requires 0 < m < |ss|
  {
    && r in ss[m - 1].readers && r in ss[m].readers && ss[m].readers[r].key == ss[m - 1].readers[r].key
    && ss[m].readers[r].seen
       <= (if m == i + 1 then {} else ss[m - 1].readers[r].seen) + {Lookup(ss[m].content, ss[m].readers[r].key)}
  }

  lemma {:induction false} SeenHeld(ss: seq<State>, r: ReaderId, i: nat, j: nat, key: Key)
    requires i < j < |ss| && r in ss[i].readers && ss[i].readers[r].key == key
    requires forall m | i < m <= j :: Looks(ss, r, i, m)
    ensures r in ss[j].readers && ss[j].readers[r].key == key && AllHeld(ss, key, i, j, ss[j].readers[r].seen)
    decreases j
  {
    assert Looks(ss, r, i, j);
    if j == i + 1 {
      StillHeld(ss, key, i, j, {}, ss[j].readers[r].seen);
    } else {
      SeenHeld(ss, r, i, j - 1, key);
      StillHeld(ss, key, i, j, ss[j - 1].readers[r].seen, ss[j].readers[r].seen);
    }
  }

  /** All a lookup has seen was in the tree after the state in which it started. */
  lemma SeenIsHistory(ss: seq<State>, steps: seq<Step>, r: ReaderId, i: nat, j: nat, key: Key)
    requires Run(ss, steps) && i < j < |ss|
    requires r in ss[i].readers && ss[i].readers[r].pos.Start? && ss[i].readers[r].key == key
    requires forall m | i < m <= j :: r in ss[m].readers && ss[m].readers[r].pos.At?
    ensures ss[j].readers[r].key == key
    ensures AllHeld(ss, key, i, j, ss[j].readers[r].seen)
  {
    forall m | i < m <= j ensures Looks(ss, r, i, m) {
      assert r in ss[m - 1].readers;
      SeenRunStep(ss, steps, r, m);
    }
    SeenHeld(ss, r, i, j, key);
  }

  /** Lookups are linearizable: in every run, the result of a lookup whose walk starts after state i
      and is over in state j is what the tree held under the key at one moment in between. */
  lemma LookupLinearizable(ss: seq<State>, steps: seq<Step>, r: ReaderId, i: nat, j: nat)
    requires Run(ss, steps) && i < j < |ss|
    requires r in ss[i].readers && ss[i].readers[r].pos.Start?
    requires forall m | i < m <= j :: r in ss[m].readers && ss[m].readers[r].pos.At?
    requires WalkOver(ss[j].readers[r])
    ensures HeldBetween(ss, ss[i].readers[r].key, i, j, Result(ss[j].readers[r]))
  {
    RunInv(ss, steps, j);
    var v: Views :| Holds(ss[j], v);
    assert ReaderOk(ss[j], v, r);
    SeenIsHistory(ss, steps, r, i, j, ss[i].readers[r].key);
    var rd := ss[j].readers[r];
    assert Result(rd) in rd.seen && AllHeld(ss, ss[i].readers[r].key, i, j, rd.seen);
  }

  /** A key that is in the tree with one element for the whole lookup is found, with that element;
      a key that is absent for the whole lookup is not found. */
  lemma StableKeyLookup(ss: seq<State>, steps: seq<Step>, r: ReaderId, i: nat, j: nat, stable: Option<Elem>)
    requires Run(ss, steps) && i < j < |ss|
    requires r in ss[i].readers && ss[i].readers[r].pos.Start?
    requires forall m | i < m <= j :: r in ss[m].readers && ss[m].readers[r].pos.At?
    requires WalkOver(ss[j].readers[r])
    requires forall m | i < m <= j :: Lookup(ss[m].content, ss[i].readers[r].key) == stable
    ensures Result(ss[j].readers[r]) == stable
  {
    LookupLinearizable(ss, steps, r, i, j);
  }

  /** Nodes are neither leaked nor freed twice: in every state each allocated node is exactly one of
      live, in the writer's hands, or waiting for its callback. */
  lemma NodesAccounted(ss: seq<State>, steps: seq<Step>, i: nat)
    requires Run(ss, steps) && i < |ss|
    ensures exists live: Root<Addr> ::
              && (live.Root? ==> GoodTree(ss[i].mem, ss[i].root, live.t)) && (live.Empty? ==> ss[i].root == Null)
              && RootContent(live) == ss[i].content
              && MemoryOk(ss[i], Views(live, map[]))
  {
    RunInv(ss, steps, i);
    var v: Views :| Holds(ss[i], v);
    assert MemoryOk(ss[i], Views(v.live, map[]));
  }

  // ---------- The writer is never stuck ----------

  /** The second insertion walk goes on until it stands at the place for the new node. */
  lemma {:induction false} InsertPlace(t: Tree<Addr>, slot: Slot<Addr>, n: nat, e: Elem, a: Addr)
      returns (r: Slot<Addr>)
    requires Distinct(t) && SpliceSlot(t, slot, n, e, a)
    ensures SpliceSlot(t, r, n, e, a) && (InSlot(t, r).Leaf? || InSlot(t, r).bit > n)
    decreases InSlot(t, slot)
  {
    var c := InSlot(t, slot);
    if c.Leaf? || c.bit > n {
      r := slot;
    } else {
      SpliceSlotStep(t, slot, n, e, a);
      r := InsertPlace(t, ChildSlot(c.at, Bit(e.name, c.bit)), n, e, a);
    }
  }

  /** The deletion walk goes on until the key's leaf is a child of the node it stands at. */
  lemma {:induction false} DeletePlace(t: Tree<Addr>, slot: Slot<Addr>, k: Key) returns (r: Slot<Addr>)
    requires Distinct(t) && UnlinkSlot(t, slot, k)
    ensures UnlinkSlot(t, r, k) && Child(InSlot(t, r), Bit(k, InSlot(t, r).bit)).Leaf?
    decreases InSlot(t, slot)
  {
    var c := InSlot(t, slot);
    if Child(c, Bit(k, c.bit)).Leaf? {
      r := slot;
    } else {
      UnlinkSlotStep(t, slot, k);
      r := DeletePlace(t, ChildSlot(c.at, Bit(k, c.bit)), k);
    }
  }

  /** In every run an idle writer can insert any absent element, given memory for a node: at once into
      an empty tree, otherwise by a node linked in at the right place. */
  lemma InsertEnabled(ss: seq<State>, steps: seq<Step>, i: nat, e: Elem, node: Addr)
    requires Run(ss, steps) && i < |ss| && ss[i].writer.Idle? && e.name !in ss[i].content && node !in ss[i].mem
    ensures if ss[i].root == Null then Enabled(ss[i], InsertFirst(e))
            else exists n, slot :: Enabled(ss[i], Prepare(e, n, slot, node))
  {
    var s := ss[i];
    RunInv(ss, steps, i);
    var v: Views :| Holds(s, v);
    if s.root != Null {
      var t := v.live.t;
      FindDecides(t, e.name);
      var n := CritBit(e.name, Find(t, e.name).name);
      var slot := InsertPlace(t, RootSlot, n, e, node);
      RepSlot(s.mem, s.root, t, slot);
      assert InsertWalk(s, e, n, slot, node);
      assert Enabled(s, Prepare(e, n, slot, node));
    }
  }

  /** In every run an idle writer can delete any present key: at once when it is the last one, otherwise
      by unlinking the node above its leaf. */
  lemma DeleteEnabled(ss: seq<State>, steps: seq<Step>, i: nat, k: Key)
    requires Run(ss, steps) && i < |ss| && ss[i].writer.Idle? && k in ss[i].content
    ensures if ss[i].root.ElemPtr? then Enabled(ss[i], DeleteLast(k))
            else exists slot, node :: Enabled(ss[i], UnlinkStore(k, slot, node))
  {
    var s := ss[i];
    RunInv(ss, steps, i);
    var v: Views :| Holds(s, v);
    var t := v.live.t;
    FindDecides(t, k);
    if t.Node? {
      var slot := DeletePlace(t, RootSlot, k);
      RepSlot(s.mem, s.root, t, slot);
      assert DeleteWalk(s, k, slot, InSlot(t, slot).at);
      assert Enabled(s, UnlinkStore(k, slot, InSlot(t, slot).at));
    }
  }
}
