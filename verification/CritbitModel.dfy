/** The crit-bit tree as a value: what the pointer structure in memory stands for. */
module CritbitModel {
  import opened CritbitKeys

  /** A subtree. `at` is the identity of the node object, `bit` its critical bit
      (byte offset and mask folded into one bit index). */
  datatype Tree<A> = Leaf(e: Elem) | Node(at: A, bit: nat, left: Tree<A>, right: Tree<A>)

  /** What `tree->root` stands for: NULL or a subtree. */
  datatype Root<A> = Empty | Root(t: Tree<A>)

  ghost function Content<A>(t: Tree<A>): map<Key, Elem> {
    match t
    case Leaf(e) => map[e.name := e]
    case Node(_, _, l, r) => Content(l) + Content(r)
  }

  ghost function RootContent<A>(r: Root<A>): map<Key, Elem> {
    if r.Empty? then map[] else Content(r.t)
  }

  /** Every critical bit on a path is larger than the ones above it. */
  predicate Above<A>(n: nat, t: Tree<A>) {
    t.Node? ==> n < t.bit
  }

  /** The crit-bit invariant: bits increase downwards, a node's keys agree before its bit, and
      the bit itself separates its two subtrees. */
  ghost predicate WF<A>(t: Tree<A>) {
    match t
    case Leaf(_) => true
    case Node(_, n, l, r) =>
      && WF(l) && WF(r)
      && Above(n, l) && Above(n, r)
      && (forall k | k in Content(l) :: !Bit(k, n))
      && (forall k | k in Content(r) :: Bit(k, n))
      && (forall j, k | j in Content(t) && k in Content(t) :: AgreeBefore(j, k, n))
  }

  ghost predicate RootWF<A>(r: Root<A>) {
    r.Root? ==> WF(r.t)
  }

  function Child<A>(t: Tree<A>, right: bool): Tree<A>
    requires t.Node?
  {
    if right then t.right else t.left
  }

  function WithChild<A>(t: Tree<A>, right: bool, c: Tree<A>): (r: Tree<A>)
    requires t.Node?
  {
    if right then t.(right := c) else t.(left := c)
  }

  /** The leaf reached by following the key's bits. */
  function Find<A>(t: Tree<A>, k: Key): Elem {
    match t
    case Leaf(e) => e
    case Node(_, n, _, _) => Find(Child(t, Bit(k, n)), k)
  }

  lemma {:induction false} ContentNames<A>(t: Tree<A>, k: Key)
    requires k in Content(t)
    ensures Content(t)[k].name == k
  {
    if t.Leaf? {
    } else {
      if k in Content(t.right) { ContentNames(t.right, k); } else { ContentNames(t.left, k); }
    }
  }

  lemma {:induction false} FindInContent<A>(t: Tree<A>, k: Key)
    requires WF(t)
    ensures var f := Find(t, k); f.name in Content(t) && Content(t)[f.name] == f
  {
    if t.Leaf? {
    } else {
      FindInContent(Child(t, Bit(k, t.bit)), k);
    }
  }

  /** Lookup is complete: the walk ends at the key's own element whenever the key is present. */
  lemma {:induction false} FindsPresent<A>(t: Tree<A>, k: Key)
    requires WF(t) && k in Content(t)
    ensures Find(t, k) == Content(t)[k]
  {
    if t.Leaf? {
    } else {
      FindsPresent(Child(t, Bit(k, t.bit)), k);
    }
  }

  /** Lookup decides membership. */
  lemma FindDecides<A>(t: Tree<A>, k: Key)
    requires WF(t)
    ensures Find(t, k).name == k <==> k in Content(t)
    ensures k in Content(t) ==> Find(t, k) == Content(t)[k]
  {
    FindInContent(t, k);
    if k in Content(t) {
      FindsPresent(t, k);
      ContentNames(t, k);
    }
  }

  /** The leaf the walk reaches shares at least as long a bit prefix with the key as any leaf. */
  lemma {:induction false} BestMatch<A>(t: Tree<A>, k: Key, j: Key, n: nat)
    requires WF(t) && j in Content(t) && AgreeBefore(k, j, n)
    ensures AgreeBefore(k, Find(t, k).name, n)
  {
    if t.Leaf? {
    } else {
      var f := Find(t, k).name;
      FindInContent(t, k);
      assert AgreeBefore(j, f, t.bit);
      if n > t.bit {
        assert Bit(k, t.bit) == Bit(j, t.bit);
        BestMatch(Child(t, Bit(k, t.bit)), k, j, n);
      }
    }
  }

  /** The tree after the second insertion walk: descend along e's bits past every node whose
      critical bit is at most n, and splice a new node in there. */
  function Splice<A>(t: Tree<A>, n: nat, e: Elem, a: A): Tree<A> {
    if t.Leaf? || t.bit > n then
      if Bit(e.name, n) then Node(a, n, t, Leaf(e)) else Node(a, n, Leaf(e), t)
    else
      var d := Bit(e.name, t.bit);
      WithChild(t, d, Splice(Child(t, d), n, e, a))
  }

  lemma {:induction false} SpliceAbove<A>(t: Tree<A>, n: nat, e: Elem, a: A, m: nat)
    requires Above(m, t) && m < n
    ensures Above(m, Splice(t, n, e, a))
  {
  }

  lemma UpdateUnion<V>(l: map<Key, V>, r: map<Key, V>, k: Key, v: V)
    ensures k !in r ==> l[k := v] + r == (l + r)[k := v]
    ensures l + r[k := v] == (l + r)[k := v]
    ensures k !in r ==> (l - {k}) + r == (l + r) - {k}
    ensures k !in l ==> l + (r - {k}) == (l + r) - {k}
  {
  }

  /** A key that takes direction d at a node can only be in the subtree on that side. */
  lemma OneSide<A>(t: Tree<A>, k: Key)
    requires WF(t) && t.Node?
    ensures k !in Content(Child(t, !Bit(k, t.bit)))
    ensures k in Content(t) ==> k in Content(Child(t, Bit(k, t.bit)))
  {
  }

  lemma {:induction false} SpliceContent<A>(t: Tree<A>, n: nat, e: Elem, a: A)
    requires WF(t) && FirstDiff(e.name, Find(t, e.name).name, n)
    ensures e.name !in Content(t)
    ensures Content(Splice(t, n, e, a)) == Content(t)[e.name := e]
  {
    FindDecides(t, e.name);
    if t.Leaf? || t.bit > n {
    } else {
      var d := Bit(e.name, t.bit);
      OneSide(t, e.name);
      SpliceContent(Child(t, d), n, e, a);
      UpdateUnion(Content(t.left), Content(t.right), e.name, e);
    }
  }

  /** A node is well formed when its subtrees are and all its keys agree with one of them
      before the critical bit. */
  lemma NodeWF<A>(a: A, n: nat, l: Tree<A>, r: Tree<A>, f: Key)
    requires WF(l) && WF(r) && Above(n, l) && Above(n, r)
    requires forall k | k in Content(l) :: !Bit(k, n) && AgreeBefore(f, k, n)
    requires forall k | k in Content(r) :: Bit(k, n) && AgreeBefore(f, k, n)
    ensures WF(Node(a, n, l, r))
  {
    var t := Node(a, n, l, r);
    forall i, j | i in Content(t) && j in Content(t) ensures AgreeBefore(i, j, n) {
      assert AgreeBefore(f, i, n) && AgreeBefore(f, j, n);
    }
  }

  /** Every key of a well-formed tree agrees with any one of them before the root bit. */
  lemma KeysAgree<A>(t: Tree<A>, f: Key, m: nat)
    requires WF(t) && f in Content(t) && (t.Leaf? || m <= t.bit)
    ensures forall j | j in Content(t) :: AgreeBefore(f, j, m)
  {
    forall j | j in Content(t) ensures AgreeBefore(f, j, m) {
      if t.Node? { AgreePrefix(f, j, m, t.bit); }
    }
  }

  lemma SpliceHere<A>(t: Tree<A>, n: nat, e: Elem, a: A)
    requires WF(t) && FirstDiff(e.name, Find(t, e.name).name, n)
    requires t.Leaf? || t.bit > n
    ensures WF(Splice(t, n, e, a))
  {
    var f := Find(t, e.name).name;
    FindInContent(t, e.name);
    KeysAgree(t, f, n);
    forall j | j in Content(t) ensures Bit(j, n) == Bit(f, n) {
      if t.Node? { assert AgreeBefore(f, j, t.bit); }
    }
    if Bit(e.name, n) { NodeWF(a, n, t, Leaf(e), f); } else { NodeWF(a, n, Leaf(e), t, f); }
  }

  /** Replacing a subtree keeps the invariant when the new one sits below the node's bit and
      its keys fit under the node. */
  lemma ReplaceChildWF<A>(t: Tree<A>, d: bool, c: Tree<A>, f: Key)
    requires WF(t) && t.Node? && WF(c) && Above(t.bit, c) && f in Content(t)
    requires forall k | k in Content(c) :: Bit(k, t.bit) == d && AgreeBefore(f, k, t.bit)
    ensures WF(WithChild(t, d, c))
  {
    KeysAgree(t, f, t.bit);
    if d { NodeWF(t.at, t.bit, t.left, c, f); } else { NodeWF(t.at, t.bit, c, t.right, f); }
  }

  /** The key being inserted fits under every node passed on the way down. */
  lemma NewKeyFits<A>(t: Tree<A>, k: Key, n: nat)
    requires WF(t) && t.Node? && t.bit <= n && FirstDiff(k, Find(t, k).name, n)
    ensures t.bit < n
    ensures Find(t, k).name in Content(t) && AgreeBefore(Find(t, k).name, k, t.bit)
  {
    var f := Find(t, k).name;
    FindInContent(t, k);
    FindInContent(Child(t, Bit(k, t.bit)), k);
    assert f in Content(Child(t, Bit(k, t.bit))) && Bit(f, t.bit) == Bit(k, t.bit);
    AgreeFewer(k, f, t.bit, n);
  }

  lemma AgreeFewer(j: Key, k: Key, m: nat, n: nat)
    requires AgreeBefore(j, k, n) && m <= n
    ensures AgreeBefore(k, j, m)
  {
  }

  /** Splicing a new node at the first differing bit keeps the invariant. */
  lemma {:induction false} SpliceWF<A>(t: Tree<A>, n: nat, e: Elem, a: A)
    requires WF(t) && FirstDiff(e.name, Find(t, e.name).name, n)
    ensures WF(Splice(t, n, e, a))
  {
    if t.Leaf? || t.bit > n {
      SpliceHere(t, n, e, a);
    } else {
      var d, f := Bit(e.name, t.bit), Find(t, e.name).name;
      var c := Child(t, d);
      SpliceWF(c, n, e, a);
      SpliceContent(c, n, e, a);
      NewKeyFits(t, e.name, n);
      SpliceAbove(c, n, e, a, t.bit);
      KeysAgree(t, f, t.bit);
      ReplaceChildWF(t, d, Splice(c, n, e, a), f);
    }
  }

  /** The tree after unlinking the leaf on k's path: its parent is replaced by the sibling. */
  function Unlink<A>(t: Tree<A>, k: Key): Tree<A>
    requires t.Node?
  {
    var d := Bit(k, t.bit);
    var c := Child(t, d);
    if c.Leaf? then Child(t, !d) else WithChild(t, d, Unlink(c, k))
  }

  lemma {:induction false} UnlinkAbove<A>(t: Tree<A>, k: Key, m: nat)
    requires WF(t) && t.Node? && Above(m, t)
    ensures Above(m, Unlink(t, k))
  {
  }

  lemma {:induction false} UnlinkContent<A>(t: Tree<A>, k: Key)
    requires WF(t) && t.Node? && k in Content(t)
    ensures Content(Unlink(t, k)) == Content(t) - {k}
  {
    var d := Bit(k, t.bit);
    var c := Child(t, d);
    OneSide(t, k);
    if c.Leaf? {
    } else {
      UnlinkContent(c, k);
    }
    UpdateUnion(Content(t.left), Content(t.right), k, Content(t)[k]);
  }

  /** Unlinking a present key keeps the invariant. */
  lemma {:induction false} UnlinkWF<A>(t: Tree<A>, k: Key)
    requires WF(t) && t.Node? && k in Content(t)
    ensures WF(Unlink(t, k))
  {
    var d := Bit(k, t.bit);
    var c := Child(t, d);
    UnlinkContent(t, k);
    if c.Leaf? {
    } else {
      UnlinkWF(c, k);
      UnlinkContent(c, k);
      UnlinkAbove(c, k, t.bit);
    }
  }

  /** Deleting a key right after inserting it gives back the very same tree, node objects included. */
  lemma {:induction false} UnlinkUndoesSplice<A>(t: Tree<A>, n: nat, e: Elem, a: A)
    ensures Unlink(Splice(t, n, e, a), e.name) == t
  {
    if t.Leaf? || t.bit > n {
    } else {
      UnlinkUndoesSplice(Child(t, Bit(e.name, t.bit)), n, e, a);
    }
  }

  /** The shape of a tree: everything except the identity of its node objects. */
  ghost function Shape<A>(t: Tree<A>): Tree<()> {
    match t
    case Leaf(e) => Leaf(e)
    case Node(_, n, l, r) => Node((), n, Shape(l), Shape(r))
  }

  lemma {:induction false} NonEmpty<A>(t: Tree<A>) returns (k: Key)
    ensures k in Content(t)
  {
    if t.Leaf? { k := t.e.name; } else { k := NonEmpty(t.left); }
  }

  lemma RootBitIsMinimal<A, B>(t: Tree<A>, u: Tree<B>)
    requires WF(t) && WF(u) && t.Node? && Content(t) == Content(u)
    ensures u.Node? && u.bit <= t.bit
  {
    var j := NonEmpty(t.left);
    var k := NonEmpty(t.right);
    assert j in Content(u) && k in Content(u);
    assert Bit(j, t.bit) != Bit(k, t.bit);
    assert u.Node? ==> AgreeBefore(j, k, u.bit);
  }

  /** The tree is canonical: two well-formed trees with the same content have the same shape. */
  lemma {:induction false} Canonical<A, B>(t: Tree<A>, u: Tree<B>)
    requires WF(t) && WF(u) && Content(t) == Content(u)
    ensures Shape(t) == Shape(u)
    decreases t
  {
    if t.Node? { RootBitIsMinimal(t, u); }
    if u.Node? { RootBitIsMinimal(u, t); }
    if t.Node? {
      SplitByBit(t);
      SplitByBit(u);
      Canonical(t.left, u.left);
      Canonical(t.right, u.right);
    } else {
      assert t.e.name in Content(u);
      assert Content(t)[t.e.name] == Content(u)[t.e.name];
    }
  }

  lemma SplitByBit<A>(t: Tree<A>)
    requires WF(t) && t.Node?
    ensures Content(t.left) == map k | k in Content(t) && !Bit(k, t.bit) :: Content(t)[k]
    ensures Content(t.right) == map k | k in Content(t) && Bit(k, t.bit) :: Content(t)[k]
  {
  }

  /** The leaves from left to right. */
  function InOrder<A>(t: Tree<A>): seq<Elem> {
    match t
    case Leaf(e) => [e]
    case Node(_, _, l, r) => InOrder(l) + InOrder(r)
  }

  lemma {:induction false} InOrderContent<A>(t: Tree<A>)
    requires WF(t)
    ensures forall e :: e in InOrder(t) <==> e.name in Content(t) && Content(t)[e.name] == e
  {
    if t.Leaf? {
    } else {
      InOrderContent(t.left);
      InOrderContent(t.right);
    }
  }

  /** The leaves from left to right are strictly increasing in unsigned byte order. */
  lemma {:induction false} InOrderSorted<A>(t: Tree<A>)
    requires WF(t)
    ensures forall i, j | 0 <= i < j < |InOrder(t)| :: Less(InOrder(t)[i].name, InOrder(t)[j].name)
  {
    if t.Leaf? {
    } else {
      var l, r := InOrder(t.left), InOrder(t.right);
      InOrderSorted(t.left);
      InOrderSorted(t.right);
      InOrderContent(t.left);
      InOrderContent(t.right);
      forall i, j | 0 <= i < |l| && 0 <= j < |r| ensures Less(l[i].name, r[j].name) {
        assert l[i] in l && r[j] in r;
        assert AgreeBefore(l[i].name, r[j].name, t.bit);
        FirstDiffOrders(l[i].name, r[j].name, t.bit);
      }
      forall i, j | 0 <= i < j < |l + r| ensures Less((l + r)[i].name, (l + r)[j].name) {
        if i < |l| && j >= |l| { assert Less(l[i].name, r[j - |l|].name); }
      }
    }
  }

  lemma FirstDiffUnique(j: Key, k: Key, m: nat, n: nat)
    requires FirstDiff(j, k, m) && FirstDiff(j, k, n)
    ensures m == n
  {
  }

  /** The critical bit of two different keys. */
  ghost function CritBit(j: Key, k: Key): (n: nat)
    requires j != k
    ensures FirstDiff(j, k, n)
  {
    DifferentKeysDiffer(j, k);
    var n: nat :| FirstDiff(j, k, n);
    n
  }

  /** Byte offset and mask computed from the first differing byte locate the critical bit, and the
      direction test on the leaf's byte reads that bit. */
  lemma CritPosition(j: Key, k: Key, i: nat)
    requires FirstByteDiff(j, k, i)
    ensures j != k
    ensures var n := CritBit(j, k); var mask := OtherBits(HighIndex(ByteAt(j, i) ^ ByteAt(k, i)));
            n / 8 == i && OtherBits(n % 8) == mask && (Direction(mask, ByteAt(k, i)) == 1 <==> Bit(k, n))
                && Bit(j, n) != Bit(k, n)
  {
    var h := HighIndex(ByteAt(j, i) ^ ByteAt(k, i));
    CritBitOf(j, k, i);
    FirstDiffUnique(j, k, 8 * i + h, CritBit(j, k));
  }

  /** The whole insert operation on what the root stands for. A key that is present is left alone. */
  ghost function InsertKey<A>(r: Root<A>, e: Elem, a: A): Root<A> {
    if r.Empty? then Root(Leaf(e))
    else
      var f := Find(r.t, e.name).name;
      if f == e.name then r else Root(Splice(r.t, CritBit(e.name, f), e, a))
  }

  /** The whole delete operation on what the root stands for. */
  ghost function DeleteKey<A>(r: Root<A>, k: Key): Root<A> {
    if r.Empty? || Find(r.t, k).name != k then r
    else if r.t.Leaf? then Empty
    else Root(Unlink(r.t, k))
  }

  /** Insertion refines adding a key to a finite map, and only absent keys are added. */
  lemma InsertKeyRefines<A>(r: Root<A>, e: Elem, a: A)
    requires RootWF(r)
    ensures RootWF(InsertKey(r, e, a))
    ensures e.name in RootContent(r) ==> InsertKey(r, e, a) == r
    ensures e.name !in RootContent(r) ==>
              RootContent(InsertKey(r, e, a)) == RootContent(r)[e.name := e]
  {
    if r.Root? {
      var f := Find(r.t, e.name).name;
      FindDecides(r.t, e.name);
      if f != e.name {
        SpliceWF(r.t, CritBit(e.name, f), e, a);
        SpliceContent(r.t, CritBit(e.name, f), e, a);
      }
    }
  }

  /** Deletion refines removing one key from a finite map; an absent key changes nothing. */
  lemma DeleteKeyRefines<A>(r: Root<A>, k: Key)
    requires RootWF(r)
    ensures RootWF(DeleteKey(r, k))
    ensures RootContent(DeleteKey(r, k)) == RootContent(r) - {k}
    ensures k !in RootContent(r) ==> DeleteKey(r, k) == r
  {
    if r.Root? {
      FindDecides(r.t, k);
      if r.t.Node? && k in Content(r.t) {
        UnlinkWF(r.t, k);
        UnlinkContent(r.t, k);
      }
    }
  }

  /** Deleting a key that was just inserted restores the very same tree. */
  lemma DeleteUndoesInsert<A>(r: Root<A>, e: Elem, a: A)
    requires RootWF(r) && e.name !in RootContent(r)
    ensures DeleteKey(InsertKey(r, e, a), e.name) == r
  {
    InsertKeyRefines(r, e, a);
    var u := InsertKey(r, e, a).t;
    FindDecides(u, e.name);
    if r.Root? {
      FindDecides(r.t, e.name);
      UnlinkUndoesSplice(r.t, CritBit(e.name, Find(r.t, e.name).name), e, a);
    }
  }

  /** Insert a list of elements into an empty tree, in order. */
  ghost function Build<A>(es: seq<Elem>, nodes: seq<A>): Root<A>
    requires |es| == |nodes|
  {
    if es == [] then Empty
    else InsertKey(Build(es[..|es| - 1], nodes[..|es| - 1]), es[|es| - 1], nodes[|es| - 1])
  }

  ghost predicate DistinctNames(es: seq<Elem>) {
    forall i, j | 0 <= i < j < |es| :: es[i].name != es[j].name
  }

  /** The elements of a list, by name. */
  ghost predicate ContentOf(m: map<Key, Elem>, es: seq<Elem>) {
    && (forall i | 0 <= i < |es| :: es[i].name in m && m[es[i].name] == es[i])
    && (forall k | k in m :: m[k].name == k && m[k] in es)
  }

  lemma ContentOfAppend(m: map<Key, Elem>, es: seq<Elem>, e: Elem)
    requires ContentOf(m, es) && DistinctNames(es + [e])
    ensures e.name !in m && ContentOf(m[e.name := e], es + [e])
  {
    var fs := es + [e];
    assert forall i | 0 <= i < |es| :: es[i] == fs[i] && fs[i].name != fs[|es|].name;
    assert forall d | d in es :: d.name != e.name;
  }

  lemma SameContent(m: map<Key, Elem>, n: map<Key, Elem>, es: seq<Elem>, fs: seq<Elem>)
    requires ContentOf(m, es) && ContentOf(n, fs)
    requires forall e :: e in es <==> e in fs
    ensures m == n
  {
    forall k | k in m ensures k in n && n[k] == m[k] {
      assert m[k] in fs;
    }
    forall k | k in n ensures k in m {
      assert n[k] in es;
    }
  }

  lemma {:induction false} BuildContent<A>(es: seq<Elem>, nodes: seq<A>)
    requires |es| == |nodes| && DistinctNames(es)
    ensures RootWF(Build(es, nodes))
    ensures ContentOf(RootContent(Build(es, nodes)), es)
  {
    if es == [] {
    } else {
      var n := |es| - 1;
      var before := Build(es[..n], nodes[..n]);
      BuildContent(es[..n], nodes[..n]);
      assert es == es[..n] + [es[n]];
      ContentOfAppend(RootContent(before), es[..n], es[n]);
      InsertKeyRefines(before, es[n], nodes[n]);
    }
  }

  /** Insertion order does not matter: any two orders of the same elements build the same shape. */
  lemma InsertionOrderIrrelevant<A>(es: seq<Elem>, fs: seq<Elem>, a: seq<A>, b: seq<A>)
    requires |es| == |a| && |fs| == |b| && DistinctNames(es) && DistinctNames(fs)
    requires forall e :: e in es <==> e in fs
    ensures Build(es, a).Root? == Build(fs, b).Root?
    ensures Build(es, a).Root? ==> Shape(Build(es, a).t) == Shape(Build(fs, b).t)
  {
    var t, u := Build(es, a), Build(fs, b);
    BuildContent(es, a);
    BuildContent(fs, b);
    SameContent(RootContent(t), RootContent(u), es, fs);
    if t.Root? { var k := NonEmpty(t.t); }
    if u.Root? { var k := NonEmpty(u.t); }
    if t.Root? { Canonical(t.t, u.t); }
  }
}
