/** Node memory: how linked nodes represent a tree, and what a single pointer store does to it.
    The address type is a parameter: node objects for the sequential code, numbers for the
    machine that interleaves readers with the writer. */
module CritbitMemory {
  import opened CritbitKeys
  import opened CritbitModel

  /** A tagged pointer: NULL, an (aligned) element, or a node (low bit set). */
  datatype Ptr<A> = Null | ElemPtr(e: Elem) | NodePtr(q: A)

  /** The fields of a node. */
  datatype Fields<A> = Fields(child0: Ptr<A>, child1: Ptr<A>, byte: nat, otherbits: bv8)

  function GetChild<A>(f: Fields<A>, right: bool): Ptr<A> {
    if right then f.child1 else f.child0
  }

  function SetChild<A>(f: Fields<A>, right: bool, p: Ptr<A>): Fields<A> {
    if right then f.(child1 := p) else f.(child0 := p)
  }

  ghost function Nodes<A>(t: Tree<A>): set<A> {
    match t
    case Leaf(_) => {}
    case Node(q, _, l, r) => {q} + Nodes(l) + Nodes(r)
  }

  /** No node object occurs twice. */
  ghost predicate Distinct<A>(t: Tree<A>) {
    match t
    case Leaf(_) => true
    case Node(q, _, l, r) =>
      Distinct(l) && Distinct(r) && q !in Nodes(l) && q !in Nodes(r) && Nodes(l) !! Nodes(r)
  }

  /** Pointer p, followed through memory h, leads to tree t. */
  ghost predicate Rep<A>(h: map<A, Fields<A>>, p: Ptr<A>, t: Tree<A>)
    decreases t
  {
    match t
    case Leaf(e) => p == ElemPtr(e)
    case Node(q, n, l, r) =>
      && p == NodePtr(q) && q in h
      && h[q].byte == n / 8 && h[q].otherbits == OtherBits(n % 8)
      && Rep(h, h[q].child0, l) && Rep(h, h[q].child1, r)
  }

  lemma {:induction false} RepFrame<A>(h: map<A, Fields<A>>, h': map<A, Fields<A>>, p: Ptr<A>, t: Tree<A>)
    requires Rep(h, p, t)
    requires forall q | q in Nodes(t) :: q in h ==> q in h' && h'[q] == h[q]
    ensures Rep(h', p, t)
    decreases t
  {
    if t.Leaf? {
    } else {
      RepFrame(h, h', h[t.at].child0, t.left);
      RepFrame(h, h', h[t.at].child1, t.right);
    }
  }

  lemma {:induction false} RepNodes<A>(h: map<A, Fields<A>>, p: Ptr<A>, t: Tree<A>)
    requires Rep(h, p, t)
    ensures Nodes(t) <= h.Keys
    decreases t
  {
    if t.Leaf? {
    } else {
      RepNodes(h, h[t.at].child0, t.left);
      RepNodes(h, h[t.at].child1, t.right);
    }
  }

  /** A pointer leads to at most one tree. */
  lemma {:induction false} RepUnique<A>(h: map<A, Fields<A>>, p: Ptr<A>, t: Tree<A>, u: Tree<A>)
    requires Rep(h, p, t) && Rep(h, p, u)
    ensures t == u
    decreases t
  {
    if t.Leaf? {
    } else {
      SameMask(t.bit % 8, u.bit % 8);
      RepUnique(h, h[t.at].child0, t.left, u.left);
      RepUnique(h, h[t.at].child1, t.right, u.right);
    }
  }

  lemma SameMask(i: nat, j: nat)
    requires i < 8 && j < 8 && OtherBits(i) == OtherBits(j)
    ensures i == j
  {
    OtherBitsOrder(i, j);
    OtherBitsOrder(j, i);
  }

  /** The subtree in slot d of node q. */
  ghost function ChildOf<A>(t: Tree<A>, q: A, d: bool): Tree<A>
    requires q in Nodes(t)
  {
    if t.at == q then Child(t, d)
    else if q in Nodes(t.left) then ChildOf(t.left, q, d)
    else ChildOf(t.right, q, d)
  }

  ghost function BitOf<A>(t: Tree<A>, q: A): nat
    requires q in Nodes(t)
  {
    if t.at == q then t.bit
    else if q in Nodes(t.left) then BitOf(t.left, q)
    else BitOf(t.right, q)
  }

  /** The tree after storing subtree c into slot d of node q. */
  ghost function Subst<A>(t: Tree<A>, q: A, d: bool, c: Tree<A>): Tree<A>
    requires q in Nodes(t)
  {
    if t.at == q then WithChild(t, d, c)
    else if q in Nodes(t.left) then t.(left := Subst(t.left, q, d, c))
    else t.(right := Subst(t.right, q, d, c))
  }

  /** One pointer store turns a represented tree into its substitution. */
  lemma {:induction false} RepStore<A>(h: map<A, Fields<A>>, h': map<A, Fields<A>>, p: Ptr<A>, t: Tree<A>,
                                       q: A, d: bool, np: Ptr<A>, c: Tree<A>)
    requires Rep(h, p, t) && Distinct(t) && q in Nodes(t)
    requires forall x | x in Nodes(t) && x != q :: x in h ==> x in h' && h'[x] == h[x]
    requires q in h ==> q in h' && h'[q] == SetChild(h[q], d, np)
    requires Rep(h', np, c)
    ensures Rep(h', p, Subst(t, q, d, c))
    decreases t
  {
    var l, r := h[t.at].child0, h[t.at].child1;
    if t.at == q {
      if d { RepFrame(h, h', l, t.left); } else { RepFrame(h, h', r, t.right); }
    } else if q in Nodes(t.left) {
      RepStore(h, h', l, t.left, q, d, np, c);
      RepFrame(h, h', r, t.right);
    } else {
      RepFrame(h, h', l, t.left);
      RepStore(h, h', r, t.right, q, d, np, c);
    }
  }

  /** What the slot holds in memory leads to the subtree in that slot. */
  lemma {:induction false} RepChild<A>(h: map<A, Fields<A>>, p: Ptr<A>, t: Tree<A>, q: A, d: bool)
    requires Rep(h, p, t) && q in Nodes(t)
    ensures q in h && Rep(h, GetChild(h[q], d), ChildOf(t, q, d))
    ensures h[q].byte == BitOf(t, q) / 8 && h[q].otherbits == OtherBits(BitOf(t, q) % 8)
    decreases t
  {
    if t.at == q {
    } else {
      if q in Nodes(t.left) { RepChild(h, h[t.at].child0, t.left, q, d); }
      else { RepChild(h, h[t.at].child1, t.right, q, d); }
    }
  }

  lemma {:induction false} ChildNodes<A>(t: Tree<A>, q: A, d: bool)
    requires q in Nodes(t) && Distinct(t)
    ensures Nodes(ChildOf(t, q, d)) <= Nodes(t) && q !in Nodes(ChildOf(t, q, d)) && Distinct(ChildOf(t, q, d))
  {
    if t.at == q {
    } else {
      if q in Nodes(t.left) { ChildNodes(t.left, q, d); } else { ChildNodes(t.right, q, d); }
    }
  }

  /** A store below t's root is a store into the one side that holds the node. */
  lemma SubstSide<A>(t: Tree<A>, q: A, d: bool, c: Tree<A>, side: bool)
    requires q in Nodes(t) && t.at != q && side == (q !in Nodes(t.left))
    ensures q in Nodes(Child(t, side)) && Child(t, side).Node?
    ensures Subst(t, q, d, c) == WithChild(t, side, Subst(Child(t, side), q, d, c))
    ensures ChildOf(t, q, d) == ChildOf(Child(t, side), q, d) && BitOf(t, q) == BitOf(Child(t, side), q)
    ensures Subst(Child(t, side), q, d, c).Node? && Subst(Child(t, side), q, d, c).bit == Child(t, side).bit
  {
  }

  /** A store exchanges the nodes of the old subtree for those of the new one. */
  lemma {:induction false} SubstDistinct<A>(t: Tree<A>, q: A, d: bool, c: Tree<A>)
    requires q in Nodes(t) && Distinct(t) && Distinct(c)
    requires Nodes(c) !! Nodes(t) - Nodes(ChildOf(t, q, d))
    ensures Distinct(Subst(t, q, d, c))
    ensures Nodes(Subst(t, q, d, c)) == (Nodes(t) - Nodes(ChildOf(t, q, d))) + Nodes(c)
  {
    if t.at == q {
      ChildNodes(t, q, d);
      SideDistinct(t, d, c, Nodes(Child(t, d)), Nodes(c));
    } else {
      var side := q !in Nodes(t.left);
      SubstSide(t, q, d, c, side);
      ChildNodes(Child(t, side), q, d);
      SubstDistinct(Child(t, side), q, d, c);
      SideDistinct(t, side, Subst(Child(t, side), q, d, c), Nodes(ChildOf(t, q, d)), Nodes(c));
    }
  }

  lemma SideDistinct<A>(t: Tree<A>, side: bool, s: Tree<A>, x: set<A>, c: set<A>)
    requires t.Node? && Distinct(t) && Distinct(s) && x <= Nodes(Child(t, side)) && c !! Nodes(t) - x
    requires Nodes(s) == (Nodes(Child(t, side)) - x) + c
    ensures Distinct(WithChild(t, side, s)) && Nodes(WithChild(t, side, s)) == (Nodes(t) - x) + c
  {
  }

  /** Moving one node further down the path: the slot below addresses the same tree. */
  lemma {:induction false} SubstDeeper<A>(t: Tree<A>, q: A, d: bool, d2: bool, x: Tree<A>)
    requires Distinct(t) && q in Nodes(t) && ChildOf(t, q, d).Node?
    ensures var c := ChildOf(t, q, d);
            && c.at in Nodes(t) && ChildOf(t, c.at, d2) == Child(c, d2) && BitOf(t, c.at) == c.bit
            && Subst(t, q, d, WithChild(c, d2, x)) == Subst(t, c.at, d2, x)
  {
    ChildNodes(t, q, d);
    if t.at == q {
      var c := Child(t, d);
      assert c.at in Nodes(c);
    } else if q in Nodes(t.left) {
      ChildNodes(t.left, q, d);
      SubstDeeper(t.left, q, d, d2, x);
    } else {
      ChildNodes(t.right, q, d);
      SubstDeeper(t.right, q, d, d2, x);
    }
  }

  /** The keys below slot d of node q agree up to and including the node's bit. */
  ghost predicate FitsUnder(f: Key, m: map<Key, Elem>, n: nat) {
    forall k | k in m :: AgreeBefore(f, k, n + 1)
  }

  lemma {:induction false} ChildFacts<A>(t: Tree<A>, q: A, d: bool)
    requires WF(t) && q in Nodes(t)
    ensures WF(ChildOf(t, q, d)) && Above(BitOf(t, q), ChildOf(t, q, d))
    ensures forall k | k in Content(ChildOf(t, q, d)) ::
              k in Content(t) && Content(t)[k] == Content(ChildOf(t, q, d))[k]
    ensures t.bit <= BitOf(t, q)
  {
    if t.at == q {
      forall k | k in Content(Child(t, d)) ensures k in Content(t) && Content(t)[k] == Content(Child(t, d))[k] {
        if !d { assert k !in Content(t.right); }
      }
    } else if q in Nodes(t.left) {
      ChildFacts(t.left, q, d);
      forall k | k in Content(t.left) ensures k !in Content(t.right) {}
    } else {
      ChildFacts(t.right, q, d);
    }
  }

  lemma UnionMinus<V>(l: map<Key, V>, r: map<Key, V>, x: set<Key>, c: map<Key, V>)
    ensures x !! r.Keys && c.Keys !! r.Keys ==> ((l - x) + c) + r == ((l + r) - x) + c
    ensures x !! l.Keys && c.Keys !! l.Keys ==> l + ((r - x) + c) == ((l + r) - x) + c
  {
  }

  lemma SlotContent<A>(t: Tree<A>, side: bool, x: Tree<A>, c: Tree<A>)
    requires WF(t) && t.Node?
    requires forall k | k in Content(x) :: k in Content(Child(t, side))
    requires forall k | k in Content(c) :: Bit(k, t.bit) == side
    ensures var m := (Content(Child(t, side)) - Content(x).Keys) + Content(c);
            (if side then Content(t.left) + m else m + Content(t.right)) == (Content(t) - Content(x).Keys) + Content(c)
  {
    UnionMinus(Content(t.left), Content(t.right), Content(x).Keys, Content(c));
  }

  /** One level of the substitution argument: a changed subtree s on one side of t. */
  lemma SubstStep<A>(t: Tree<A>, side: bool, s: Tree<A>, x: Tree<A>, c: Tree<A>, f: Key)
    requires WF(t) && t.Node? && WF(s) && Above(t.bit, s) && f in Content(Child(t, side))
    requires forall k | k in Content(x) :: k in Content(Child(t, side))
    requires FitsUnder(f, Content(c), t.bit)
    requires Content(s) == (Content(Child(t, side)) - Content(x).Keys) + Content(c)
    ensures WF(WithChild(t, side, s))
    ensures Content(WithChild(t, side, s)) == (Content(t) - Content(x).Keys) + Content(c)
  {
    assert f in Content(t);
    KeysAgree(t, f, t.bit);
    forall k | k in Content(c) ensures Bit(k, t.bit) == side && AgreeBefore(f, k, t.bit) {
      assert AgreeBefore(f, k, t.bit + 1);
    }
    ReplaceChildWF(t, side, s, f);
    SlotContent(t, side, x, c);
  }

  /** Storing a subtree whose keys fit under the slot keeps the crit-bit invariant, and exchanges
      exactly the elements below the slot. */
  lemma {:induction false} SubstFits<A>(t: Tree<A>, q: A, d: bool, c: Tree<A>, f: Key)
    requires WF(t) && q in Nodes(t) && f in Content(ChildOf(t, q, d))
    requires WF(c) && Above(BitOf(t, q), c) && FitsUnder(f, Content(c), BitOf(t, q))
    ensures WF(Subst(t, q, d, c))
    ensures Content(Subst(t, q, d, c)) == (Content(t) - Content(ChildOf(t, q, d)).Keys) + Content(c)
  {
    if t.at == q {
      SubstStep(t, d, c, Child(t, d), c, f);
    } else {
      var side := q !in Nodes(t.left);
      var s := Child(t, side);
      SubstSide(t, q, d, c, side);
      ChildFacts(s, q, d);
      SubstFits(s, q, d, c, f);
      FitsHigher(f, Content(c), t.bit, BitOf(t, q));
      SubstStep(t, side, Subst(s, q, d, c), ChildOf(t, q, d), c, f);
    }
  }

  lemma FitsHigher(f: Key, m: map<Key, Elem>, n: nat, n': nat)
    requires n <= n' && FitsUnder(f, m, n')
    ensures FitsUnder(f, m, n)
  {
    forall k | k in m ensures AgreeBefore(f, k, n + 1) { AgreePrefix(f, k, n + 1, n' + 1); }
  }

  /** A `void **`: the root slot or one child slot of a node. */
  datatype Slot<A> = RootSlot | ChildSlot(q: A, right: bool)

  ghost predicate HasSlot<A>(t: Tree<A>, slot: Slot<A>) {
    slot.ChildSlot? ==> slot.q in Nodes(t)
  }

  ghost function InSlot<A>(t: Tree<A>, slot: Slot<A>): Tree<A>
    requires HasSlot(t, slot)
  {
    if slot.RootSlot? then t else ChildOf(t, slot.q, slot.right)
  }

  /** The tree after storing c into a slot. */
  ghost function Put<A>(t: Tree<A>, slot: Slot<A>, c: Tree<A>): Tree<A>
    requires HasSlot(t, slot)
  {
    if slot.RootSlot? then c else Subst(t, slot.q, slot.right, c)
  }

  /** Putting x into slot `right` of the node held by a slot is putting the node with x into it. */
  lemma PutDeeper<A>(t: Tree<A>, slot: Slot<A>, right: bool, x: Tree<A>)
    requires Distinct(t) && HasSlot(t, slot) && InSlot(t, slot).Node?
    ensures var c := InSlot(t, slot);
            && HasSlot(t, ChildSlot(c.at, right)) && InSlot(t, ChildSlot(c.at, right)) == Child(c, right)
            && Put(t, slot, WithChild(c, right, x)) == Put(t, ChildSlot(c.at, right), x)
  {
    if slot.ChildSlot? { SubstDeeper(t, slot.q, slot.right, right, x); }
  }

  /** A slot the second insertion walk has reached: splicing there is splicing into the whole tree. */
  ghost predicate SpliceSlot<A>(t: Tree<A>, slot: Slot<A>, n: nat, e: Elem, a: A) {
    HasSlot(t, slot) && Splice(t, n, e, a) == Put(t, slot, Splice(InSlot(t, slot), n, e, a))
  }

  lemma SpliceSlotStep<A>(t: Tree<A>, slot: Slot<A>, n: nat, e: Elem, a: A)
    requires Distinct(t) && SpliceSlot(t, slot, n, e, a)
    requires InSlot(t, slot).Node? && InSlot(t, slot).bit <= n
    ensures var c := InSlot(t, slot); SpliceSlot(t, ChildSlot(c.at, Bit(e.name, c.bit)), n, e, a)
    ensures var c := InSlot(t, slot); InSlot(t, ChildSlot(c.at, Bit(e.name, c.bit))) == Child(c, Bit(e.name, c.bit))
  {
    var c := InSlot(t, slot);
    var d := Bit(e.name, c.bit);
    PutDeeper(t, slot, d, Splice(Child(c, d), n, e, a));
  }

  /** A slot the deletion walk has reached: unlinking below it is unlinking from the whole tree. */
  ghost predicate UnlinkSlot<A>(t: Tree<A>, slot: Slot<A>, k: Key) {
    && t.Node? && HasSlot(t, slot) && InSlot(t, slot).Node? && Find(InSlot(t, slot), k) == Find(t, k)
    && Unlink(t, k) == Put(t, slot, Unlink(InSlot(t, slot), k))
  }

  lemma UnlinkSlotStep<A>(t: Tree<A>, slot: Slot<A>, k: Key)
    requires Distinct(t) && UnlinkSlot(t, slot, k)
    requires var c := InSlot(t, slot); Child(c, Bit(k, c.bit)).Node?
    ensures var c := InSlot(t, slot); UnlinkSlot(t, ChildSlot(c.at, Bit(k, c.bit)), k)
    ensures var c := InSlot(t, slot); InSlot(t, ChildSlot(c.at, Bit(k, c.bit))) == Child(c, Bit(k, c.bit))
  {
    var c := InSlot(t, slot);
    var d := Bit(k, c.bit);
    PutDeeper(t, slot, d, Unlink(Child(c, d), k));
  }

  /** Memory h' is h after one store of np into a slot of the tree; every other node of the tree
      is untouched. `p` and `p'` are the root pointer before and after. */
  ghost predicate Stored<A>(h: map<A, Fields<A>>, h': map<A, Fields<A>>, p: Ptr<A>, p': Ptr<A>,
                            nodes: set<A>, slot: Slot<A>, np: Ptr<A>) {
    && (slot.RootSlot? ==> p' == np)
    && (slot.ChildSlot? ==>
          p' == p && (slot.q in h ==> slot.q in h' && h'[slot.q] == SetChild(h[slot.q], slot.right, np)))
    && (forall x | x in nodes && x in h && !(slot.ChildSlot? && x == slot.q) :: x in h' && h'[x] == h[x])
  }

  /** Where a slot's pointer leads. */
  lemma RepSlot<A>(h: map<A, Fields<A>>, p: Ptr<A>, t: Tree<A>, slot: Slot<A>)
    requires Rep(h, p, t) && Distinct(t) && HasSlot(t, slot)
    ensures slot.ChildSlot? ==> slot.q in h
    ensures Rep(h, if slot.RootSlot? then p else GetChild(h[slot.q], slot.right), InSlot(t, slot))
    ensures Nodes(InSlot(t, slot)) <= Nodes(t) && Distinct(InSlot(t, slot))
    ensures slot.ChildSlot? ==> slot.q !in Nodes(InSlot(t, slot))
  {
    if slot.ChildSlot? {
      RepChild(h, p, t, slot.q, slot.right);
      ChildNodes(t, slot.q, slot.right);
    }
  }

  /** After the store the root pointer leads to the updated tree. */
  lemma PutRep<A>(h: map<A, Fields<A>>, h': map<A, Fields<A>>, p: Ptr<A>, p': Ptr<A>, t: Tree<A>,
                  slot: Slot<A>, np: Ptr<A>, c: Tree<A>)
    requires Rep(h, p, t) && Distinct(t) && HasSlot(t, slot) && Stored(h, h', p, p', Nodes(t), slot, np)
    requires Rep(h', np, c) && Distinct(c) && Nodes(c) !! Nodes(t) - Nodes(InSlot(t, slot))
    ensures Rep(h', p', Put(t, slot, c)) && Distinct(Put(t, slot, c))
    ensures Nodes(Put(t, slot, c)) == (Nodes(t) - Nodes(InSlot(t, slot))) + Nodes(c)
  {
    if slot.ChildSlot? {
      RepStore(h, h', p, t, slot.q, slot.right, np, c);
      SubstDistinct(t, slot.q, slot.right, c);
    }
  }

  /** An initialised node over an existing subtree represents the spliced subtree. */
  lemma SpliceHereRep<A>(h: map<A, Fields<A>>, sub: Tree<A>, n: nat, e: Elem, a: A)
    requires (sub.Leaf? || sub.bit > n) && Distinct(sub) && a !in Nodes(sub)
    requires a in h && h[a].byte == n / 8 && h[a].otherbits == OtherBits(n % 8)
    requires GetChild(h[a], Bit(e.name, n)) == ElemPtr(e) && Rep(h, GetChild(h[a], !Bit(e.name, n)), sub)
    ensures Rep(h, NodePtr(a), Splice(sub, n, e, a)) && Distinct(Splice(sub, n, e, a))
    ensures Nodes(Splice(sub, n, e, a)) == Nodes(sub) + {a}
  {
  }

  /** Publishing an initialised node into the slot the walk found inserts the element. */
  lemma SpliceRep<A>(h: map<A, Fields<A>>, h': map<A, Fields<A>>, p: Ptr<A>, p': Ptr<A>, t: Tree<A>,
                     slot: Slot<A>, n: nat, e: Elem, a: A)
    requires Rep(h, p, t) && Distinct(t) && SpliceSlot(t, slot, n, e, a) && a !in Nodes(t)
    requires InSlot(t, slot).Leaf? || InSlot(t, slot).bit > n
    requires Stored(h, h', p, p', Nodes(t), slot, NodePtr(a))
    requires a in h' && h'[a].byte == n / 8 && h'[a].otherbits == OtherBits(n % 8)
    requires GetChild(h'[a], Bit(e.name, n)) == ElemPtr(e)
    requires Rep(h, GetChild(h'[a], !Bit(e.name, n)), InSlot(t, slot))
    ensures Rep(h', p', Splice(t, n, e, a)) && Distinct(Splice(t, n, e, a))
    ensures Nodes(Splice(t, n, e, a)) == Nodes(t) + {a}
  {
    var sub := InSlot(t, slot);
    RepSlot(h, p, t, slot);
    RepFrame(h, h', GetChild(h'[a], !Bit(e.name, n)), sub);
    SpliceHereRep(h', sub, n, e, a);
    PutRep(h, h', p, p', t, slot, NodePtr(a), Splice(sub, n, e, a));
  }

  /** Storing the sibling into the slot that holds the leaf's parent deletes the leaf. */
  lemma UnlinkRep<A>(h: map<A, Fields<A>>, h': map<A, Fields<A>>, p: Ptr<A>, p': Ptr<A>, t: Tree<A>,
                     slot: Slot<A>, k: Key)
    requires Rep(h, p, t) && Distinct(t) && UnlinkSlot(t, slot, k)
    requires var c := InSlot(t, slot); Child(c, Bit(k, c.bit)).Leaf?
    requires var c := InSlot(t, slot); c.at in h ==>
               Stored(h, h', p, p', Nodes(t), slot, GetChild(h[c.at], !Bit(k, c.bit)))
    ensures Rep(h', p', Unlink(t, k)) && Distinct(Unlink(t, k))
    ensures Nodes(Unlink(t, k)) == Nodes(t) - {InSlot(t, slot).at}
  {
    var c := InSlot(t, slot);
    var d := Bit(k, c.bit);
    var sibling := Child(c, !d);
    RepSlot(h, p, t, slot);
    var np := GetChild(h[c.at], !d);
    assert Rep(h, np, sibling);
    RepFrame(h, h', np, sibling);
    PutRep(h, h', p, p', t, slot, np, sibling);
    assert Nodes(c) == {c.at} + Nodes(sibling);
  }

  lemma {:induction false} SubstSlot<A>(t: Tree<A>, q: A, d: bool, c: Tree<A>)
    requires q in Nodes(t)
    ensures var u := Subst(t, q, d, c); q in Nodes(u) && ChildOf(u, q, d) == c && BitOf(u, q) == BitOf(t, q)
  {
    if t.at == q {
    } else {
      if q in Nodes(t.left) { SubstSlot(t.left, q, d, c); } else { SubstSlot(t.right, q, d, c); }
    }
  }

  lemma FitsFromBits(f: Key, m: map<Key, Elem>, n: nat, d: bool)
    requires Bit(f, n) == d && forall k | k in m :: AgreeBefore(f, k, n) && Bit(k, n) == d
    ensures FitsUnder(f, m, n)
  {
    forall k | k in m ensures AgreeBefore(f, k, n + 1) {
      forall i: nat | i < n + 1 ensures Bit(f, i) == Bit(k, i) {}
    }
  }

  lemma SideBits<A>(t: Tree<A>, d: bool)
    requires WF(t) && t.Node?
    ensures forall k | k in Content(Child(t, d)) :: k in Content(t) && Bit(k, t.bit) == d
  {
  }

  lemma SideKeysAgree<A>(t: Tree<A>, d: bool, f: Key)
    requires WF(t) && t.Node? && f in Content(Child(t, d))
    ensures FitsUnder(f, Content(Child(t, d)), t.bit)
  {
    SideBits(t, d);
    KeysAgree(t, f, t.bit);
    FitsFromBits(f, Content(Child(t, d)), t.bit, d);
  }

  /** The keys below a slot agree up to and including the bit of the slot's node. */
  lemma {:induction false} SlotKeysAgree<A>(t: Tree<A>, q: A, d: bool, f: Key)
    requires WF(t) && q in Nodes(t) && f in Content(ChildOf(t, q, d))
    ensures FitsUnder(f, Content(ChildOf(t, q, d)), BitOf(t, q))
  {
    if t.at == q {
      SideKeysAgree(t, d, f);
    } else if q in Nodes(t.left) {
      SlotKeysAgree(t.left, q, d, f);
    } else {
      SlotKeysAgree(t.right, q, d, f);
    }
  }

  ghost predicate GoodTree<A>(h: map<A, Fields<A>>, p: Ptr<A>, t: Tree<A>) {
    Rep(h, p, t) && Distinct(t) && WF(t)
  }

  /** A node shared by two represented trees has the same child and the same bit in both. */
  lemma SharedSlot<A>(h: map<A, Fields<A>>, p: Ptr<A>, t: Tree<A>, p': Ptr<A>, u: Tree<A>, q: A, d: bool)
    requires Rep(h, p, t) && Rep(h, p', u) && q in Nodes(t) && q in Nodes(u)
    ensures ChildOf(t, q, d) == ChildOf(u, q, d) && BitOf(t, q) == BitOf(u, q)
  {
    RepChild(h, p, t, q, d);
    RepChild(h, p', u, q, d);
    RepUnique(h, GetChild(h[q], d), ChildOf(t, q, d), ChildOf(u, q, d));
    SameMask(BitOf(t, q) % 8, BitOf(u, q) % 8);
  }

  /** A store that is right for the live tree is right for every other pointer into the structure,
      including one that starts at a node no longer in the live tree. */
  lemma ViewStore<A>(h: map<A, Fields<A>>, h': map<A, Fields<A>>, rootp: Ptr<A>, live: Tree<A>,
                     p: Ptr<A>, view: Tree<A>, q: A, d: bool, np: Ptr<A>, c: Tree<A>, f: Key)
    requires GoodTree(h, rootp, live) && GoodTree(h, p, view) && q in Nodes(live) && q in Nodes(view)
    requires WF(Subst(live, q, d, c)) && f in Content(ChildOf(live, q, d)) && f in Content(c)
    requires q in h && h' == h[q := SetChild(h[q], d, np)] && Rep(h', np, c) && Distinct(c)
    requires Nodes(c) !! Nodes(view) - Nodes(ChildOf(live, q, d))
    ensures GoodTree(h', p, Subst(view, q, d, c))
    ensures Nodes(Subst(view, q, d, c)) <= Nodes(view) + Nodes(c)
    ensures ChildOf(view, q, d) == ChildOf(live, q, d)
    ensures Content(Subst(view, q, d, c)) == (Content(view) - Content(ChildOf(live, q, d)).Keys) + Content(c)
  {
    SharedSlot(h, rootp, live, p, view, q, d);
    SubstSlot(live, q, d, c);
    ChildFacts(Subst(live, q, d, c), q, d);
    SlotKeysAgree(Subst(live, q, d, c), q, d, f);
    SubstFits(view, q, d, c, f);
    RepStore(h, h', p, view, q, d, np, c);
    SubstDistinct(view, q, d, c);
  }
}
