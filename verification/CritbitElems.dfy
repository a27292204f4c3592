/** How long the strings at the leaves live: each element is allocated before it is inserted, and after
    its key was deleted it is handed to call_rcu, whose callback frees it. A freed address may be
    allocated again. */
module CritbitElems {
  import opened Common
  import opened CritbitKeys
  import opened CritbitModel
  import opened CritbitMemory
  import opened CritbitRcu

  /** `heap` is what stands at each allocated address. `removed` are the elements that are out of the tree
      but not yet handed over; `dying` are the addresses handed over, each with the readers its callback
      still waits for. */
  datatype World = World(s: State, heap: map<nat, Elem>, removed: set<Elem>, dying: map<nat, set<ReaderId>>)

  datatype Act =
    | Tree(step: Step)
    | HandOver(e: Elem)
    | Free(a: nat)

  /** The element a step brings into the tree, and the key it takes out. */
  function Brings(step: Step): Option<Elem> {
    if step.InsertFirst? || step.Prepare? then Some(step.e) else None
  }

  function TakesOut(step: Step): Option<Key> {
    if step.DeleteLast? || step.UnlinkStore? then Some(step.k) else None
  }

  ghost predicate CanAct(w: World, a: Act) {
    match a
    case Tree(step) =>
      Enabled(w.s, step) && (Brings(step).Some? ==> Brings(step).value.addr !in w.heap)
    case HandOver(e) => e in w.removed
    case Free(addr) => addr in w.dying && w.dying[addr] == {}
  }

  ghost function Next(w: World, a: Act): World
    requires CanAct(w, a)
  {
    match a
    case Tree(step) =>
      var k := TakesOut(step);
      World(Apply(w.s, step),
            if Brings(step).Some? then w.heap[step.e.addr := step.e] else w.heap,
            if k.Some? && k.value in w.s.content then w.removed + {w.s.content[k.value]} else w.removed,
            if step.Unlock? then map addr | addr in w.dying :: w.dying[addr] - {step.r} else w.dying)
    case HandOver(e) => w.(removed := w.removed - {e}, dying := w.dying[e.addr := w.s.readers.Keys])
    case Free(addr) => w.(heap := w.heap - {addr}, dying := w.dying - {addr})
  }

  const START := World(INIT, map[], {}, map[])

  // ---------- The invariant ----------

  ghost function Elems(t: Tree<Addr>): set<Elem> {
    if t.Leaf? then {t.e} else Elems(t.left) + Elems(t.right)
  }

  /** The element stands where it was allocated, and its address is not on its way to be freed. */
  ghost predicate Stands(w: World, e: Elem) {
    e.addr in w.heap && w.heap[e.addr] == e && e.addr !in w.dying
  }

  ghost predicate InTree(s: State, e: Elem) {
    e.name in s.content && s.content[e.name] == e
  }

  ghost predicate Pending(s: State, e: Elem) {
    s.writer.Linking? && s.writer.e == e
  }

  /** Elements in the tree, about to be linked in, or just taken out stand, and each is only one of
      these. */
  ghost predicate Accounted(w: World) {
    && (forall e | InTree(w.s, e) :: Stands(w, e) && e !in w.removed && !Pending(w.s, e))
    && (forall e | Pending(w.s, e) :: Stands(w, e) && e !in w.removed)
    && (forall e | e in w.removed :: Stands(w, e))
    && (forall a | a in w.dying :: a in w.heap)
  }

  /** The reader can still compare its key with the element: it stands in the tree, was just taken out, or
      is waiting for the reader. */
  ghost predicate Readable(w: World, r: ReaderId, e: Elem) {
    && e.addr in w.heap && w.heap[e.addr] == e
    && (InTree(w.s, e) || e in w.removed || (e.addr in w.dying && r in w.dying[e.addr]))
  }

  ghost predicate ViewReadable(w: World, v: Views, r: ReaderId) {
    Walking(w.s, r) && r in v.trees ==> forall e | e in Elems(v.trees[r]) :: Readable(w, r, e)
  }

  ghost predicate Good(w: World, v: Views) {
    Holds(w.s, v) && Accounted(w) && forall r :: ViewReadable(w, v, r)
  }

  ghost predicate GoodWorld(w: World) {
    exists v: Views :: Good(w, v)
  }

  // ---------- Elements of a tree ----------

  lemma {:induction false} ElemsInContent(t: Tree<Addr>, e: Elem)
    requires WF(t)
    ensures e in Elems(t) <==> e.name in Content(t) && Content(t)[e.name] == e
  {
    if t.Leaf? {
    } else {
      ElemsInContent(t.left, e);
      ElemsInContent(t.right, e);
      OneSide(t, e.name);
    }
  }

  lemma {:induction false} SubstElems(t: Tree<Addr>, q: Addr, d: bool, c: Tree<Addr>)
    requires q in Nodes(t)
    ensures Elems(Subst(t, q, d, c)) <= Elems(t) + Elems(c)
  {
    if t.at == q {
    } else if q in Nodes(t.left) {
      SubstElems(t.left, q, d, c);
    } else {
      SubstElems(t.right, q, d, c);
    }
  }

  lemma {:induction false} PutElems(t: Tree<Addr>, q: Addr, d: bool, c: Tree<Addr>)
    requires q in Nodes(t)
    ensures Elems(c) <= Elems(Subst(t, q, d, c))
  {
    if t.at == q {
    } else if q in Nodes(t.left) {
      PutElems(t.left, q, d, c);
    } else {
      PutElems(t.right, q, d, c);
    }
  }

  /** What the live tree holds is what the state says it holds. */
  lemma LiveElems(s: State, v: Views, e: Elem)
    requires LiveOk(s, v) && v.live.Root? && e in Elems(v.live.t)
    ensures InTree(s, e)
  {
    ElemsInContent(v.live.t, e);
  }

  // ---------- Steps of the tree ----------

  /** A store brings no element into a reader's view that is not in the tree then. */
  lemma StoreOrigin(v: Views, slot: Slot<Addr>, c: Tree<Addr>, r: ReaderId, e: Elem)
    requires v.live.Root? && HasSlot(v.live.t, slot) && r in v.trees && e in Elems(ViewAfter(v.trees[r], slot, c))
    ensures e in Elems(v.trees[r]) || e in Elems(Put(v.live.t, slot, c))
  {
    if slot.ChildSlot? && slot.q in Nodes(v.trees[r]) {
      SubstElems(v.trees[r], slot.q, slot.right, c);
      PutElems(v.live.t, slot.q, slot.right, c);
    }
  }

  /** Nor into the tree itself. */
  lemma StoreViewOrigin(s': State, v: Views, v': Views, slot: Slot<Addr>, c: Tree<Addr>, r: ReaderId, e: Elem)
    requires v.live.Root? && HasSlot(v.live.t, slot) && r in v.trees && v' == ViewsAfter(v, slot, c) && LiveOk(s', v')
    requires e in Elems(v'.trees[r])
    ensures e in Elems(v.trees[r]) || InTree(s', e)
  {
    StoreOrigin(v, slot, c, r, e);
    if e in Elems(v'.live.t) { LiveElems(s', v', e); }
  }

  lemma PublishOrigin(s: State, v: Views, r: ReaderId, e: Elem)
    requires LiveOk(s, v) && WriterOk(s, v) && Enabled(s, Publish) && LiveOk(Apply(s, Publish), PublishedViews(s, v))
    requires r in PublishedViews(s, v).trees && e in Elems(PublishedViews(s, v).trees[r])
    ensures InTree(Apply(s, Publish), e) || (r in v.trees && e in Elems(v.trees[r]))
  {
    var w := s.writer;
    StoreViewOrigin(Apply(s, Publish), v, PublishedViews(s, v), w.slot,
                    Splice(InSlot(v.live.t, w.slot), w.n, w.e, w.node), r, e);
  }

  lemma UnlinkOrigin(s': State, v: Views, k: Key, slot: Slot<Addr>, r: ReaderId, e: Elem)
    requires v.live.Root? && UnlinkSlot(v.live.t, slot, k) && LiveOk(s', UnlinkedViews(v, k, slot))
    requires r in UnlinkedViews(v, k, slot).trees && e in Elems(UnlinkedViews(v, k, slot).trees[r])
    ensures InTree(s', e) || (r in v.trees && e in Elems(v.trees[r]))
  {
    var c := InSlot(v.live.t, slot);
    StoreViewOrigin(s', v, UnlinkedViews(v, k, slot), slot, Child(c, !Bit(k, c.bit)), r, e);
  }

  lemma LoadOrigin(s: State, v: Views, x: ReaderId, r: ReaderId, e: Elem)
    requires LiveOk(s, v) && Enabled(s, LoadRoot(x)) && Walking(Apply(s, LoadRoot(x)), r)
    requires r in LoadedViews(v, x).trees && e in Elems(LoadedViews(v, x).trees[r])
    ensures InTree(s, e) || (Walking(s, r) && r in v.trees && e in Elems(v.trees[r]))
  {
    if x == r { LiveElems(s, v, e); }
  }

  lemma FollowOrigin(s: State, v: Views, x: ReaderId, r: ReaderId, e: Elem)
    requires Holds(s, v) && Enabled(s, Follow(x)) && Walking(Apply(s, Follow(x)), r)
    requires r in FollowedViews(s, v, x).trees && e in Elems(FollowedViews(s, v, x).trees[r])
    ensures Walking(s, r) && r in v.trees && e in Elems(v.trees[r])
  {
    assert ReaderOk(s, v, x);
  }

  /** Only a reader's own loads put it on another tree. */
  lemma StillWalking(s: State, step: Step, r: ReaderId)
    requires Enabled(s, step) && !step.LoadRoot? && !step.Follow? && Walking(Apply(s, step), r)
    ensures Walking(s, r)
  {
  }

  /** An element in a reader's view after a step was there before, or is in the tree. */
  lemma ViewOrigin(s: State, v: Views, step: Step, s': State, v': Views, r: ReaderId, e: Elem)
    requires Holds(s, v) && Enabled(s, step) && s' == Apply(s, step) && v' == StepViews(s, v, step) && LiveOk(s', v')
    requires Walking(s', r) && r in v'.trees && e in Elems(v'.trees[r])
    ensures InTree(s', e) || (Walking(s, r) && r in v.trees && e in Elems(v.trees[r]))
  {
    if step.LoadRoot? {
      LoadOrigin(s, v, step.r, r, e);
    } else if step.Follow? {
      FollowOrigin(s, v, step.r, r, e);
    } else {
      StillWalking(s, step, r);
      if step.Publish? {
        PublishOrigin(s, v, r, e);
      } else if step.UnlinkStore? {
        DeleteWalkIsLive(s, v, step.k, step.slot, step.node);
        UnlinkOrigin(s', v, step.k, step.slot, r, e);
      }
    }
  }

  /** What a step does to the content: it adds an element under a new name, takes one out, or nothing. */
  ghost predicate ContentStep(s: State, step: Step, s': State) {
    match step
    case InsertFirst(e) => e.name !in s.content && s'.content == s.content[e.name := e]
    case Publish =>
      s.writer.Linking? && s.writer.e.name !in s.content && s'.content == s.content[s.writer.e.name := s.writer.e]
    case DeleteLast(k) => k in s.content && s.content[k].name == k && s'.content == s.content - {k}
    case UnlinkStore(k, _, _) => k in s.content && s.content[k].name == k && s'.content == s.content - {k}
    case _ => s'.content == s.content
  }

  lemma StepsContent(s: State, v: Views, step: Step)
    requires Holds(s, v) && Enabled(s, step)
    ensures ContentStep(s, step, Apply(s, step))
  {
    match step
    case Publish => PublishTree(s, v);
    case DeleteLast(k) =>
    case UnlinkStore(k, slot, node) =>
      DeleteWalkIsLive(s, v, k, slot, node);
      FindDecides(v.live.t, k);
      ContentNames(v.live.t, k);
    case _ =>
  }

  lemma StepsPending(s: State, step: Step, e: Elem)
    requires Enabled(s, step)
    ensures Pending(Apply(s, step), e) <==> (step.Prepare? && e == step.e) || (Pending(s, e) && !step.Publish?)
  {
  }

  lemma TreeAccounted(w: World, step: Step, w': World)
    requires CanAct(w, Tree(step)) && Accounted(w) && w' == Next(w, Tree(step)) && ContentStep(w.s, step, w'.s)
    requires forall e :: Pending(w'.s, e) <==> (step.Prepare? && e == step.e) || (Pending(w.s, e) && !step.Publish?)
    ensures Accounted(w')
  {
    forall e | InTree(w'.s, e) ensures Stands(w', e) && e !in w'.removed && !Pending(w'.s, e) {
      assert InTree(w.s, e) || Pending(w.s, e) || step.InsertFirst?;
    }
    forall e | e in w'.removed ensures Stands(w', e) {
      assert e in w.removed || InTree(w.s, e);
    }
  }

  lemma ReadableKept(w: World, step: Step, w': World, r: ReaderId, e: Elem)
    requires CanAct(w, Tree(step)) && w' == Next(w, Tree(step)) && ContentStep(w.s, step, w'.s)
    requires Readable(w, r, e) && r in w'.s.readers
    ensures Readable(w', r, e)
  {
  }

  lemma TreeActGood(w: World, v: Views, step: Step)
    requires Good(w, v) && CanAct(w, Tree(step))
    ensures Good(Next(w, Tree(step)), StepViews(w.s, v, step))
  {
    var w', v' := Next(w, Tree(step)), StepViews(w.s, v, step);
    StepHolds(w.s, v, step);
    StepsContent(w.s, v, step);
    forall e ensures Pending(w'.s, e) <==> (step.Prepare? && e == step.e) || (Pending(w.s, e) && !step.Publish?) {
      StepsPending(w.s, step, e);
    }
    TreeAccounted(w, step, w');
    forall r ensures ViewReadable(w', v', r) { TreeViewReadable(w, v, step, w', v', r); }
  }

  lemma TreeViewReadable(w: World, v: Views, step: Step, w': World, v': Views, r: ReaderId)
    requires Good(w, v) && CanAct(w, Tree(step)) && w' == Next(w, Tree(step)) && v' == StepViews(w.s, v, step)
    requires Holds(w'.s, v') && ContentStep(w.s, step, w'.s) && Accounted(w')
    ensures ViewReadable(w', v', r)
  {
    if Walking(w'.s, r) && r in v'.trees {
      forall e | e in Elems(v'.trees[r]) ensures Readable(w', r, e) {
        ViewOrigin(w.s, v, step, w'.s, v', r, e);
        if !InTree(w'.s, e) {
          assert ViewReadable(w, v, r);
          ReadableKept(w, step, w', r, e);
        }
      }
    }
  }

  // ---------- Handing over and freeing ----------

  lemma HandOverGood(w: World, v: Views, e: Elem)
    requires Good(w, v) && CanAct(w, HandOver(e))
    ensures Good(Next(w, HandOver(e)), v)
  {
    var w' := Next(w, HandOver(e));
    forall r ensures ViewReadable(w', v, r) {
      assert ViewReadable(w, v, r);
    }
  }

  /** When the callback runs no reader can come to compare with the string any more. */
  lemma FreeGood(w: World, v: Views, a: nat)
    requires Good(w, v) && CanAct(w, Free(a))
    ensures Good(Next(w, Free(a)), v)
  {
    var w' := Next(w, Free(a));
    forall r ensures ViewReadable(w', v, r) {
      assert ViewReadable(w, v, r);
    }
  }

  /** Every step of writer, readers and callbacks keeps the invariant. */
  lemma ActKeepsGood(w: World, a: Act)
    requires GoodWorld(w) && CanAct(w, a)
    ensures GoodWorld(Next(w, a))
  {
    var v: Views :| Good(w, v);
    match a
    case Tree(step) => TreeActGood(w, v, step);
    case HandOver(e) => HandOverGood(w, v, e);
    case Free(addr) => FreeGood(w, v, addr);
  }

  // ---------- Runs ----------

  ghost predicate ActRun(ws: seq<World>, acts: seq<Act>) {
    && |ws| == |acts| + 1 && ws[0] == START
    && forall i | 0 <= i < |acts| :: CanAct(ws[i], acts[i]) && ws[i + 1] == Next(ws[i], acts[i])
  }

  lemma StartGood()
    ensures GoodWorld(START)
  {
    var v := Views(Empty, map[]);
    assert Holds(INIT, v);
    assert forall r :: ViewReadable(START, v, r);
    assert Good(START, v);
  }

  lemma {:induction false} ActRunGood(ws: seq<World>, acts: seq<Act>, i: nat)
    requires ActRun(ws, acts) && i < |ws|
    ensures GoodWorld(ws[i])
  {
    if i == 0 {
      StartGood();
    } else {
      ActRunGood(ws, acts, i - 1);
      ActKeepsGood(ws[i - 1], acts[i - 1]);
    }
  }

  lemma AtLeaf(s: State, v: Views, r: ReaderId)
    requires Walking(s, r) && s.readers[r].pos.p.ElemPtr? && ReaderOk(s, v, r)
    ensures r in v.trees && s.readers[r].pos.p.e in Elems(v.trees[r])
  {
    assert Rep(s.mem, s.readers[r].pos.p, v.trees[r]);
  }

  /** In every run a reader that has come to a leaf compares its key with the string that was inserted:
      it has not been freed and its address has not been used for another. */
  lemma NoFreedString(ws: seq<World>, acts: seq<Act>, i: nat, r: ReaderId)
    requires ActRun(ws, acts) && i < |ws| && r in ws[i].s.readers
    requires ws[i].s.readers[r].pos.At? && ws[i].s.readers[r].pos.p.ElemPtr?
    ensures var e := ws[i].s.readers[r].pos.p.e; e.addr in ws[i].heap && ws[i].heap[e.addr] == e
  {
    var w := ws[i];
    ActRunGood(ws, acts, i);
    var v: Views :| Good(w, v);
    assert ReaderOk(w.s, v, r) && ViewReadable(w, v, r);
    AtLeaf(w.s, v, r);
  }

  /** In every run the strings in the tree are allocated, each once, and none of them is on its way to be
      freed; a string out of the tree is freed only after it was handed over. */
  lemma StringsAccounted(ws: seq<World>, acts: seq<Act>, i: nat, k: Key)
    requires ActRun(ws, acts) && i < |ws| && k in ws[i].s.content
    ensures var e := ws[i].s.content[k]; e.name == k && Stands(ws[i], e) && e !in ws[i].removed
  {
    var w := ws[i];
    ActRunGood(ws, acts, i);
    var v: Views :| Good(w, v);
    ContentNames(v.live.t, k);
    assert InTree(w.s, w.s.content[k]);
  }
}
