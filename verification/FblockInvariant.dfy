/** What every command keeps: registry and namespace agree, ports are symmetric and replicated,
    every binding has its notifiers, and each reference count is exactly what is owed. */
module FblockInvariant {
  import opened Common
  import opened FblockGraph

  /** Every registered idp leads to an object that carries it; no idp has been used twice. */
  ghost predicate Registry<P>(s: State<P>) {
    && s.counter < IDP_SPACE
    && (forall i | i in s.fblmap :: 0 < i <= s.counter && s.fblmap[i] in s.blocks && s.blocks[s.fblmap[i]].idp == i)
  }

  /** Names and registered blocks correspond one to one. */
  ghost predicate Namespace<P>(s: State<P>) {
    && (forall n | n in s.idpmap :: Live(s, s.idpmap[n]) && BlockAt(s, s.idpmap[n]).name == n)
    && (forall i | i in s.fblmap && Live(s, i) :: BlockAt(s, i).name in s.idpmap && s.idpmap[BlockAt(s, i).name] == i)
  }

  /** Every CPU has the same copy of a block's ports. */
  ghost predicate Replicas<P>(s: State<P>) {
    && s.cpus > 0
    && (forall p {:trigger SameOnAllCpus(s.blocks[p].ports, s.cpus)} | p in s.blocks ::
        SameOnAllCpus(s.blocks[p].ports, s.cpus))
  }

  ghost predicate SameOnAllCpus(ports: seq<Ports>, cpus: nat) {
    |ports| == cpus && forall c | 0 <= c < |ports| :: ports[c] == ports[0]
  }

  /** Ports lead to registered blocks, and the block at the other end points back. */
  ghost predicate Symmetry<P>(s: State<P>) {
    forall i {:trigger PointsBack(s, i, Egress)} | i in s.fblmap && Live(s, i) ::
      PointsBack(s, i, Egress) && PointsBack(s, i, Ingress)
  }

  function Opposite(d: Dir): Dir {
    if d.Ingress? then Egress else Ingress
  }

  ghost predicate PointsBack<P>(s: State<P>, i: Idp, d: Dir)
    requires Live(s, i)
  {
    var j := Port(BlockAt(s, i), d);
    j != IDP_UNKNOWN ==> Live(s, j) && Port(BlockAt(s, j), Opposite(d)) == i
  }

  /** Notifier entries know their owner and name registered blocks. */
  ghost predicate Notifiers<P>(s: State<P>) {
    forall i {:trigger OwnList(BlockAt(s, i).notifiers, s.fblmap[i], s.fblmap.Keys)} | i in s.fblmap && Live(s, i) ::
      OwnList(BlockAt(s, i).notifiers, s.fblmap[i], s.fblmap.Keys)
  }

  ghost predicate OwnList<P>(l: seq<Notifier<P>>, p: P, idps: set<Idp>) {
    forall k | 0 <= k < |l| :: l[k].self == p && l[k].remote in idps
  }

  /** A block has at least one notifier for every port bound to a peer. */
  ghost predicate Subscribed<P>(s: State<P>) {
    forall i, j {:trigger Count(BlockAt(s, i).notifiers, j)} | i in s.fblmap && Live(s, i) && j in s.fblmap ::
      Count(BlockAt(s, i).notifiers, j) >= Bindings(BlockAt(s, i), j)
  }

  function Contribution<P>(s: State<P>, m: Idp, i: Idp): nat {
    if Live(s, m) then Count(BlockAt(s, m).notifiers, i) else 0
  }

  /** Notifier entries naming i as remote, over all registered blocks up to idp n. */
  function RefsUpTo<P>(s: State<P>, i: Idp, n: nat): nat {
    if n == 0 then 0 else RefsUpTo(s, i, n - 1) + Contribution(s, n, i)
  }

  /** The references the data structures themselves hold on a block: the registry's, one per bound
      port, one per notifier it owns, one per notifier that names it. */
  ghost function Owed<P>(s: State<P>, p: P): nat
    requires p in s.blocks
  {
    var b := s.blocks[p];
    if Registered(s, p) then 1 + BoundPorts(b) + |b.notifiers| + RefsUpTo(s, b.idp, s.counter) else 0
  }

  /** The counting invariant. */
  ghost predicate Counting<P>(s: State<P>) {
    forall p {:trigger s.blocks[p].refcnt} | p in s.blocks :: s.blocks[p].refcnt == Owed(s, p) + s.held[p]
  }

  /** Exactly the objects with a factory whose count is 0 have been given to the free callback, each once. */
  ghost predicate FreedOnce<P>(s: State<P>) {
    && (forall p | p in s.held :: p in s.blocks)
    && (forall p | p in s.dead :: p in s.blocks)
    && (forall p | p in s.blocks :: s.dead[p] == if s.blocks[p].refcnt == 0 && HasFactory(s, p) then 1 else 0)
  }

  /** The part of the invariant that does not mention reference counts. */
  ghost predicate Graph<P>(s: State<P>) {
    Registry(s) && Namespace(s) && Replicas(s) && Symmetry(s) && Notifiers(s) && Subscribed(s)
  }

  ghost predicate Inv<P>(s: State<P>) {
    Graph(s) && Counting(s) && FreedOnce(s)
  }

  // ---------- Sums over the registry ----------

  lemma {:induction false} RefsDelta<P>(s: State<P>, s': State<P>, i: Idp, n: nat, j: Idp)
    requires forall m: nat | 1 <= m <= n && m != j :: Contribution(s', m, i) == Contribution(s, m, i)
    ensures RefsUpTo(s', i, n)
         == RefsUpTo(s, i, n) + if 1 <= j <= n then Contribution(s', j, i) - Contribution(s, j, i) else 0
  {
    if n == 0 {
    } else {
      RefsDelta(s, s', i, n - 1, j);
    }
  }

  lemma {:induction false} RefsAtLeast<P>(s: State<P>, i: Idp, n: nat, j: Idp)
    requires 1 <= j <= n
    ensures RefsUpTo(s, i, n) >= Contribution(s, j, i)
  {
    if j == n {
    } else {
      RefsAtLeast(s, i, n - 1, j);
    }
  }

  /** s' differs from s in the notifier list of us and in reference counts only. */
  ghost predicate ListChanged<P>(s: State<P>, s': State<P>, us: P, l: seq<Notifier<P>>) {
    && s'.fblmap == s.fblmap && s'.held == s.held && s'.counter == s.counter && s'.blocks.Keys == s.blocks.Keys
    && (forall p | p in s.blocks && p in s'.blocks ::
          && s'.blocks[p].ports == s.blocks[p].ports && s'.blocks[p].idp == s.blocks[p].idp
          && s'.blocks[p].notifiers == (if p == us then l else s.blocks[p].notifiers))
  }

  lemma ListChangeRefs<P>(s: State<P>, s': State<P>, us: P, l: seq<Notifier<P>>, i: Idp)
    requires Registry(s) && Registered(s, us) && ListChanged(s, s', us, l)
    ensures RefsUpTo(s', i, s.counter) == RefsUpTo(s, i, s.counter) + Count(l, i) - Count(s.blocks[us].notifiers, i)
  {
    var j := s.blocks[us].idp;
    forall m: nat | 1 <= m <= s.counter && m != j ensures Contribution(s', m, i) == Contribution(s, m, i) {
      if Live(s, m) { assert s.fblmap[m] != us; }
    }
    RefsDelta(s, s', i, s.counter, j);
  }

  lemma ListChangeBlock<P>(s: State<P>, s': State<P>, us: P, l: seq<Notifier<P>>, p: P)
    requires ListChanged(s, s', us, l) && Registered(s, p)
    ensures Registered(s', p) && s'.blocks[p].idp == s.blocks[p].idp && s'.counter == s.counter
    ensures BoundPorts(s'.blocks[p]) == BoundPorts(s.blocks[p])
    ensures s'.blocks[p].notifiers == if p == us then l else s.blocks[p].notifiers
  {
  }

  lemma OwedIs<P>(s: State<P>, p: P)
    requires Registered(s, p)
    ensures Owed(s, p)
         == 1 + BoundPorts(s.blocks[p]) + |s.blocks[p].notifiers| + RefsUpTo(s, s.blocks[p].idp, s.counter)
  {
  }

  /** What a changed list makes the structures owe to a registered block. */
  lemma ListChangeOwes<P>(s: State<P>, s': State<P>, us: P, l: seq<Notifier<P>>, p: P)
    requires Registry(s) && Registered(s, us) && Registered(s, p) && ListChanged(s, s', us, l)
    ensures Registered(s', p)
    ensures Owed(s', p) == Owed(s, p) + (if p == us then |l| - |s.blocks[us].notifiers| else 0)
                           + Count(l, s.blocks[p].idp) - Count(s.blocks[us].notifiers, s.blocks[p].idp)
  {
    ListChangeRefs(s, s', us, l, s.blocks[p].idp);
    ListChangeBlock(s, s', us, l, p);
    OwedIs(s, p);
    OwedIs(s', p);
  }

  /** A change of one notifier list that is matched in the two reference counts keeps the count. */
  lemma ListChangeCounts<P>(s: State<P>, s': State<P>, us: P, remote: P, l: seq<Notifier<P>>, delta: int)
    requires Registry(s) && Counting(s) && Registered(s, us) && Registered(s, remote) && ListChanged(s, s', us, l)
    requires forall p | p in s.blocks ::
               s'.blocks[p].refcnt
               == s.blocks[p].refcnt + (if p == us then delta else 0) + (if p == remote then delta else 0)
    requires |l| == |s.blocks[us].notifiers| + delta
    requires forall i ::
               Count(l, i) == Count(s.blocks[us].notifiers, i) + if i == s.blocks[remote].idp then delta else 0
    ensures Counting(s')
  {
    forall p | p in s'.blocks ensures s'.blocks[p].refcnt == Owed(s', p) + s'.held[p] {
      if Registered(s, p) {
        ListChangeOwes(s, s', us, l, p);
        assert s.blocks[p].idp == s.blocks[remote].idp <==> p == remote;
      } else {
        assert p != us && p != remote && !Registered(s', p);
      }
    }
  }

  lemma {:induction false} RemoveFirstCount<P>(l: seq<Notifier<P>>, r: Idp, i: Idp)
    ensures Count(RemoveFirst(l, r), i) == Count(l, i) - if i == r && Count(l, r) > 0 then 1 else 0
    ensures |RemoveFirst(l, r)| == |l| - if Count(l, r) > 0 then 1 else 0
  {
    if l == [] || l[0].remote == r {
    } else {
      RemoveFirstCount(l[1..], r, i);
      assert ([l[0]] + RemoveFirst(l[1..], r))[1..] == RemoveFirst(l[1..], r);
    }
  }

  /** Registration is untouched. */
  ghost predicate SameRegistry<P>(s: State<P>, t: State<P>) {
    && t.fblmap == s.fblmap && t.counter == s.counter && t.blocks.Keys == s.blocks.Keys
    && (forall p | p in s.blocks && p in t.blocks :: t.blocks[p].idp == s.blocks[p].idp)
  }

  lemma SubscribeCounts<P>(s: State<P>, us: P, remote: P)
    requires Registry(s) && Counting(s) && Registered(s, us) && Registered(s, remote)
    ensures Counting(Subscribe(s, us, remote)) && SameRegistry(s, Subscribe(s, us, remote))
    ensures Registry(Subscribe(s, us, remote))
  {
    var l := [Notifier(us, s.blocks[remote].idp)] + s.blocks[us].notifiers;
    assert l[1..] == s.blocks[us].notifiers;
    ListChangeCounts(s, Subscribe(s, us, remote), us, remote, l, 1);
  }

  /** The states differ in reference counts only. */
  ghost predicate SameGraph<P>(s: State<P>, s': State<P>) {
    && s'.cpus == s.cpus && s'.fblmap == s.fblmap && s'.idpmap == s.idpmap && s'.counter == s.counter
    && s'.blocks.Keys == s.blocks.Keys
    && (forall p | p in s.blocks && p in s'.blocks :: s'.blocks[p] == s.blocks[p].(refcnt := s'.blocks[p].refcnt))
  }

  lemma SameGraphSymmetry<P>(s: State<P>, s': State<P>)
    requires Symmetry(s) && SameGraph(s, s')
    ensures Symmetry(s')
  {
    forall i | i in s'.fblmap && Live(s', i) ensures PointsBack(s', i, Egress) && PointsBack(s', i, Ingress) {
      assert Live(s, i) && PointsBack(s, i, Egress) && PointsBack(s, i, Ingress);
    }
  }

  lemma SameGraphLists<P>(s: State<P>, s': State<P>)
    requires Notifiers(s) && Subscribed(s) && SameGraph(s, s')
    ensures Notifiers(s') && Subscribed(s')
  {
    forall i | i in s'.fblmap && Live(s', i) ensures OwnList(BlockAt(s', i).notifiers, s'.fblmap[i], s'.fblmap.Keys) {
      assert Live(s, i) && OwnList(BlockAt(s, i).notifiers, s.fblmap[i], s.fblmap.Keys);
    }
    forall i, j | i in s'.fblmap && Live(s', i) && j in s'.fblmap
      ensures Count(BlockAt(s', i).notifiers, j) >= Bindings(BlockAt(s', i), j)
    {
      assert Live(s, i) && Count(BlockAt(s, i).notifiers, j) >= Bindings(BlockAt(s, i), j);
    }
  }

  lemma SameGraphNames<P>(s: State<P>, s': State<P>)
    requires Registry(s) && Namespace(s) && Replicas(s) && SameGraph(s, s')
    ensures Registry(s') && Namespace(s') && Replicas(s')
  {
    forall i | i in s'.fblmap && Live(s', i)
      ensures BlockAt(s', i).name in s'.idpmap && s'.idpmap[BlockAt(s', i).name] == i
    {
      assert Live(s, i) && BlockAt(s, i).name in s.idpmap;
    }
    forall n | n in s'.idpmap ensures Live(s', s'.idpmap[n]) && BlockAt(s', s'.idpmap[n]).name == n {
      assert Live(s, s.idpmap[n]) && BlockAt(s, s.idpmap[n]).name == n;
    }
  }

  lemma SameGraphKeeps<P>(s: State<P>, s': State<P>)
    requires Graph(s) && SameGraph(s, s')
    ensures Graph(s')
  {
    SameGraphNames(s, s');
    SameGraphSymmetry(s, s');
    SameGraphLists(s, s');
  }

  lemma {:induction false} SameRefs<P>(s: State<P>, s': State<P>, i: Idp, n: nat)
    requires forall m: nat | 1 <= m <= n :: Contribution(s', m, i) == Contribution(s, m, i)
    ensures RefsUpTo(s', i, n) == RefsUpTo(s, i, n)
  {
    RefsDelta(s, s', i, n, 0);
  }

  lemma SameGraphOwes<P>(s: State<P>, s': State<P>, p: P)
    requires SameGraph(s, s') && p in s.blocks
    ensures Owed(s', p) == Owed(s, p)
  {
    SameRefs(s, s', s.blocks[p].idp, s.counter);
  }

  lemma SameGraphCounts<P>(s: State<P>, s': State<P>)
    requires SameGraph(s, s') && Counting(s)
    requires forall p | p in s.blocks :: s'.blocks[p].refcnt - s'.held[p] == s.blocks[p].refcnt - s.held[p]
    ensures Counting(s')
  {
    forall p | p in s'.blocks ensures s'.blocks[p].refcnt == Owed(s', p) + s'.held[p] { SameGraphOwes(s, s', p); }
  }

  lemma TakeCounts<P>(s: State<P>, p: P)
    requires p in s.blocks
    ensures SameGraph(s, Take(s, p))
    ensures Counting(s) ==> Counting(Take(s, p))
  {
    var t := Take(s, p);
    assert forall q | q in s.blocks && q != p :: t.blocks[q] == s.blocks[q] && t.held[q] == s.held[q];
    if Counting(s) { SameGraphCounts(s, t); }
  }

  /** What giving one held reference back does, block by block. */
  lemma ReleaseEffect<P>(s: State<P>, p: P)
    requires p in s.blocks && p in s.held
    ensures var t := Release(s, p);
            && SameGraph(s, t)
            && t.blocks[p].refcnt == s.blocks[p].refcnt - 1 && t.held[p] == s.held[p] - 1
            && t.dead[p] == s.dead[p] + (if s.blocks[p].refcnt == 1 && HasFactory(s, p) then 1 else 0)
            && (forall q | q in s.blocks && q != p ::
                  t.blocks[q] == s.blocks[q] && t.held[q] == s.held[q] && t.dead[q] == s.dead[q])
  {
  }

  lemma ReleaseCounts<P>(s: State<P>, p: P)
    requires p in s.blocks && p in s.held && Counting(s)
    ensures Counting(Release(s, p))
  {
    ReleaseEffect(s, p);
    SameGraphCounts(s, Release(s, p));
  }

  lemma TakeFrees<P>(s: State<P>, p: P)
    requires FreedOnce(s) && p in s.blocks && s.blocks[p].refcnt > 0
    ensures FreedOnce(Take(s, p))
  {
  }

  lemma ReleaseFrees<P>(s: State<P>, p: P)
    requires FreedOnce(s) && p in s.blocks && p in s.held && s.blocks[p].refcnt > 0
    ensures FreedOnce(Release(s, p))
  {
    ReleaseEffect(s, p);
  }

  lemma PositiveCount<P>(s: State<P>, p: P)
    requires Counting(s) && p in s.blocks && (Registered(s, p) || p in s.held)
    ensures s.blocks[p].refcnt > 0
  {
  }

  /** Looking a registered block up keeps everything. */
  lemma TakeKeepsInv<P>(s: State<P>, p: P)
    requires Inv(s) && Registered(s, p)
    ensures Inv(Take(s, p)) && SameGraph(s, Take(s, p))
  {
    PositiveCount(s, p);
    TakeCounts(s, p);
    TakeFrees(s, p);
    SameGraphKeeps(s, Take(s, p));
  }

  /** Putting a held reference back keeps everything; the last one frees the block. */
  lemma ReleaseKeepsInv<P>(s: State<P>, p: P)
    requires Inv(s) && p in s.held
    ensures Inv(Release(s, p)) && SameGraph(s, Release(s, p))
  {
    PositiveCount(s, p);
    ReleaseEffect(s, p);
    ReleaseCounts(s, p);
    ReleaseFrees(s, p);
    SameGraphKeeps(s, Release(s, p));
  }

  lemma TakeReleaseCancel<P>(s: State<P>, p: P)
    requires p in s.blocks && s.blocks[p].refcnt > 0
    ensures Release(Take(s, p), p) == s
  {
    assert s.blocks[p := s.blocks[p]] == s.blocks;
  }

  // ---------- Bind ----------

  /** What a successful bind does to each block. */
  ghost function BoundBlock<P>(s: State<P>, p1: P, p2: P, p: P): Block<P>
    requires p1 in s.blocks && p2 in s.blocks && p in s.blocks
  {
    var b, i1, i2 := s.blocks[p], s.blocks[p1].idp, s.blocks[p2].idp;
    var e := if p == p1 then SetAll(b.ports, Egress, i2) else b.ports;
    b.(ports := if p == p2 then SetAll(e, Ingress, i1) else e,
       notifiers := (if p == p2 then [Notifier(p2, i1)] else [])
                    + ((if p == p1 then [Notifier(p1, i2)] else []) + b.notifiers),
       refcnt := b.refcnt + (if p == p1 then 3 else 0) + (if p == p2 then 3 else 0))
  }

  lemma BoundPointwise<P>(s: State<P>, p1: P, p2: P)
    requires p1 in s.blocks && p2 in s.blocks
    ensures Bound(s, p1, p2) == s.(blocks := map p | p in s.blocks :: BoundBlock(s, p1, p2, p))
  {
    var t := Bound(s, p1, p2);
    forall p | p in s.blocks ensures t.blocks[p] == BoundBlock(s, p1, p2, p) {
    }
    assert t.blocks == map p | p in s.blocks :: BoundBlock(s, p1, p2, p);
  }

  lemma SetAllPort(ports: seq<Ports>, d: Dir, i: Idp, cpus: nat)
    requires SameOnAllCpus(ports, cpus) && cpus > 0
    ensures SameOnAllCpus(SetAll(ports, d, i), cpus)
    ensures SetAll(ports, d, i)[0] == WithPort(ports[0], d, i)
  {
  }

  /** Ports of a block after a bind. */
  lemma BoundPortsAfter<P>(s: State<P>, p1: P, p2: P, p: P)
    requires Replicas(s) && p1 in s.blocks && p2 in s.blocks && p in s.blocks
    ensures var b := BoundBlock(s, p1, p2, p);
            && SameOnAllCpus(b.ports, s.cpus)
            && Port(b, Egress) == (if p == p1 then s.blocks[p2].idp else Port(s.blocks[p], Egress))
            && Port(b, Ingress) == (if p == p2 then s.blocks[p1].idp else Port(s.blocks[p], Ingress))
  {
    var b := s.blocks[p];
    SetAllPort(b.ports, Egress, s.blocks[p2].idp, s.cpus);
    SetAllPort(b.ports, Ingress, s.blocks[p1].idp, s.cpus);
    SetAllPort(SetAll(b.ports, Egress, s.blocks[p2].idp), Ingress, s.blocks[p1].idp, s.cpus);
  }

  /** The two blocks are registered and the ports to be bound are free. */
  ghost predicate CanBind<P>(s: State<P>, p1: P, p2: P) {
    && Registered(s, p1) && Registered(s, p2)
    && Port(s.blocks[p1], Egress) == IDP_UNKNOWN && Port(s.blocks[p2], Ingress) == IDP_UNKNOWN
  }

  /** The two blocks are registered and bound to each other. */
  ghost predicate AreBound<P>(s: State<P>, p1: P, p2: P) {
    && Registered(s, p1) && Registered(s, p2)
    && Port(s.blocks[p1], Egress) == s.blocks[p2].idp && Port(s.blocks[p2], Ingress) == s.blocks[p1].idp
  }

  /** How many notifiers for j block p gains when p1 is bound on top of p2. */
  ghost function Gain<P>(s: State<P>, p1: P, p2: P, p: P, j: Idp): nat
    requires p1 in s.blocks && p2 in s.blocks
  {
    (if p == p1 && j == s.blocks[p2].idp then 1 else 0) + (if p == p2 && j == s.blocks[p1].idp then 1 else 0)
  }

  /** Block p as binding (or unbinding) p1 on top of p2 leaves it, reference count aside. */
  ghost predicate BlockRewired<P>(s: State<P>, b': Block<P>, p: P, p1: P, p2: P, bind: bool)
    requires p1 in s.blocks && p2 in s.blocks && p in s.blocks
  {
    var b := s.blocks[p];
    && b'.name == b.name && b'.idp == b.idp && SameOnAllCpus(b'.ports, s.cpus)
    && Port(b', Egress) == (if p != p1 then Port(b, Egress) else if bind then s.blocks[p2].idp else IDP_UNKNOWN)
    && Port(b', Ingress) == (if p != p2 then Port(b, Ingress) else if bind then s.blocks[p1].idp else IDP_UNKNOWN)
    && (forall j :: if bind then Count(b'.notifiers, j) == Count(b.notifiers, j) + Gain(s, p1, p2, p, j)
                    else Count(b'.notifiers, j) == Count(b.notifiers, j) - Gain(s, p1, p2, p, j))
    && (OwnList(b.notifiers, p, s.fblmap.Keys) ==> OwnList(b'.notifiers, p, s.fblmap.Keys))
  }

  ghost predicate Rewired<P>(s: State<P>, t: State<P>, p1: P, p2: P, bind: bool)
    requires p1 in s.blocks && p2 in s.blocks
  {
    && t.cpus == s.cpus && t.fblmap == s.fblmap && t.idpmap == s.idpmap && t.counter == s.counter
    && t.blocks.Keys == s.blocks.Keys
    && (forall p | p in s.blocks && p in t.blocks :: BlockRewired(s, t.blocks[p], p, p1, p2, bind))
  }

  lemma RewiredSymmetry<P>(s: State<P>, t: State<P>, p1: P, p2: P, bind: bool)
    requires Registry(s) && Symmetry(s) && p1 in s.blocks && p2 in s.blocks && Rewired(s, t, p1, p2, bind)
    requires if bind then CanBind(s, p1, p2) else AreBound(s, p1, p2)
    ensures Symmetry(t)
  {
    forall i | i in t.fblmap && Live(t, i) ensures PointsBack(t, i, Egress) && PointsBack(t, i, Ingress) {
      assert PointsBack(s, i, Egress) && PointsBack(s, i, Ingress);
      assert BlockRewired(s, BlockAt(t, i), t.fblmap[i], p1, p2, bind);
      var e, g := Port(BlockAt(t, i), Egress), Port(BlockAt(t, i), Ingress);
      if e in t.fblmap { assert BlockRewired(s, BlockAt(t, e), t.fblmap[e], p1, p2, bind); }
      if g in t.fblmap { assert BlockRewired(s, BlockAt(t, g), t.fblmap[g], p1, p2, bind); }
    }
  }

  lemma BlockSubscribed<P>(s: State<P>, b': Block<P>, p: P, p1: P, p2: P, bind: bool, j: Idp)
    requires p1 in s.blocks && p2 in s.blocks && p in s.blocks && BlockRewired(s, b', p, p1, p2, bind)
    requires if bind then CanBind(s, p1, p2) else AreBound(s, p1, p2)
    requires j != IDP_UNKNOWN && Count(s.blocks[p].notifiers, j) >= Bindings(s.blocks[p], j)
    ensures Count(b'.notifiers, j) >= Bindings(b', j)
  {
  }

  lemma RewiredSubscribed<P>(s: State<P>, t: State<P>, p1: P, p2: P, bind: bool)
    requires Registry(s) && Subscribed(s) && p1 in s.blocks && p2 in s.blocks && Rewired(s, t, p1, p2, bind)
    requires if bind then CanBind(s, p1, p2) else AreBound(s, p1, p2)
    ensures Subscribed(t)
  {
    forall i, j | i in t.fblmap && Live(t, i) && j in t.fblmap
      ensures Count(BlockAt(t, i).notifiers, j) >= Bindings(BlockAt(t, i), j)
    {
      assert Live(s, i) && Count(BlockAt(s, i).notifiers, j) >= Bindings(BlockAt(s, i), j);
      BlockSubscribed(s, BlockAt(t, i), t.fblmap[i], p1, p2, bind, j);
    }
  }

  /** Binding and unbinding keep the graph consistent. */
  lemma RewiredGraph<P>(s: State<P>, t: State<P>, p1: P, p2: P, bind: bool)
    requires Graph(s) && p1 in s.blocks && p2 in s.blocks && Rewired(s, t, p1, p2, bind)
    requires if bind then CanBind(s, p1, p2) else AreBound(s, p1, p2)
    ensures Graph(t)
  {
    RewiredSymmetry(s, t, p1, p2, bind);
    RewiredSubscribed(s, t, p1, p2, bind);
    forall i | i in t.fblmap && Live(t, i) ensures OwnList(BlockAt(t, i).notifiers, t.fblmap[i], t.fblmap.Keys) {
      assert OwnList(BlockAt(s, i).notifiers, s.fblmap[i], s.fblmap.Keys);
      assert BlockRewired(s, BlockAt(t, i), t.fblmap[i], p1, p2, bind);
    }
  }

  lemma OwnListCons<P>(x: Notifier<P>, l: seq<Notifier<P>>, p: P, idps: set<Idp>)
    requires OwnList(l, p, idps) && x.self == p && x.remote in idps
    ensures OwnList([x] + l, p, idps)
  {
  }

  lemma CountCons<P>(x: Notifier<P>, l: seq<Notifier<P>>, j: Idp)
    ensures Count([x] + l, j) == Count(l, j) + if x.remote == j then 1 else 0
  {
    assert ([x] + l)[1..] == l;
  }

  lemma BoundBlockRewired<P>(s: State<P>, p1: P, p2: P, p: P)
    requires Replicas(s) && CanBind(s, p1, p2) && p in s.blocks
    ensures BlockRewired(s, BoundBlock(s, p1, p2, p), p, p1, p2, true)
  {
    BoundPortsAfter(s, p1, p2, p);
    var l, x1, x2 := s.blocks[p].notifiers, Notifier(p1, s.blocks[p2].idp), Notifier(p2, s.blocks[p1].idp);
    var l1 := if p == p1 then [x1] + l else l;
    var l2 := if p == p2 then [x2] + l1 else l1;
    assert BoundBlock(s, p1, p2, p).notifiers == l2;
    forall j ensures Count(l2, j) == Count(l, j) + Gain(s, p1, p2, p, j) {
      CountCons(x1, l, j);
      CountCons(x2, l1, j);
    }
    if OwnList(l, p, s.fblmap.Keys) {
      if p == p1 { OwnListCons(x1, l, p, s.fblmap.Keys); }
      if p == p2 { OwnListCons(x2, l1, p, s.fblmap.Keys); }
    }
  }

  lemma BoundRewired<P>(s: State<P>, p1: P, p2: P)
    requires Replicas(s) && CanBind(s, p1, p2)
    ensures Rewired(s, Bound(s, p1, p2), p1, p2, true)
  {
    BoundPointwise(s, p1, p2);
    forall p | p in s.blocks ensures BlockRewired(s, BoundBlock(s, p1, p2, p), p, p1, p2, true) {
      BoundBlockRewired(s, p1, p2, p);
    }
  }

  /** A change of one block's ports that is matched by its count or its held references. */
  lemma PortChangeCounts<P>(s: State<P>, t: State<P>, p: P)
    requires Counting(s) && Registered(s, p)
    requires t.fblmap == s.fblmap && t.counter == s.counter && t.blocks.Keys == s.blocks.Keys
    requires t.blocks[p].idp == s.blocks[p].idp && t.blocks[p].notifiers == s.blocks[p].notifiers
    requires t.blocks[p].refcnt - BoundPorts(t.blocks[p]) - t.held[p]
             == s.blocks[p].refcnt - BoundPorts(s.blocks[p]) - s.held[p]
    requires forall q | q in s.blocks && q != p :: t.blocks[q] == s.blocks[q] && t.held[q] == s.held[q]
    ensures Counting(t)
  {
    forall q | q in t.blocks ensures t.blocks[q].refcnt == Owed(t, q) + t.held[q] {
      SameRefs(s, t, s.blocks[q].idp, s.counter);
      assert Registered(t, q) == Registered(s, q);
    }
  }

  lemma SetPortCounts<P>(s: State<P>, p: P, d: Dir, i: Idp)
    requires Replicas(s) && Counting(s) && Registered(s, p) && Port(s.blocks[p], d) == IDP_UNKNOWN && i != IDP_UNKNOWN
    ensures Counting(SetPort(s, p, d, i, 1)) && Replicas(SetPort(s, p, d, i, 1))
            && SameRegistry(s, SetPort(s, p, d, i, 1))
    ensures Port(SetPort(s, p, d, i, 1).blocks[p], Opposite(d)) == Port(s.blocks[p], Opposite(d))
  {
    SetAllPort(s.blocks[p].ports, d, i, s.cpus);
    PortChangeCounts(s, SetPort(s, p, d, i, 1), p);
  }

  lemma BoundCounts<P>(s: State<P>, p1: P, p2: P)
    requires Registry(s) && Replicas(s) && Counting(s) && CanBind(s, p1, p2)
    ensures Counting(Bound(s, p1, p2))
  {
    var t1 := SetPort(s, p1, Egress, s.blocks[p2].idp, 1);
    SetPortCounts(s, p1, Egress, s.blocks[p2].idp);
    SetPortCounts(t1, p2, Ingress, s.blocks[p1].idp);
    BoundCounts2(SetPort(t1, p2, Ingress, s.blocks[p1].idp, 1), p1, p2);
  }

  lemma BoundCounts2<P>(s: State<P>, p1: P, p2: P)
    requires Registry(s) && Counting(s) && Registered(s, p1) && Registered(s, p2)
    ensures Counting(Subscribe(Subscribe(s, p1, p2), p2, p1))
  {
    SubscribeCounts(s, p1, p2);
    SubscribeCounts(Subscribe(s, p1, p2), p2, p1);
  }

  lemma NoneFreed<P>(s: State<P>, t: State<P>)
    requires FreedOnce(s) && t.dead == s.dead && t.held == s.held && t.blocks.Keys == s.blocks.Keys
    requires forall p | p in s.blocks :: t.blocks[p].refcnt == 0 <==> s.blocks[p].refcnt == 0
    requires forall p | p in s.blocks :: HasFactory(t, p) == HasFactory(s, p)
    ensures FreedOnce(t)
  {
  }

  lemma BoundFrees<P>(s: State<P>, p1: P, p2: P)
    requires Counting(s) && FreedOnce(s) && CanBind(s, p1, p2)
    ensures FreedOnce(Bound(s, p1, p2))
  {
    PositiveCount(s, p1);
    PositiveCount(s, p2);
    BoundPointwise(s, p1, p2);
    NoneFreed(s, Bound(s, p1, p2));
  }

  /** A successful bind keeps the whole invariant. */
  lemma BoundKeepsInv<P>(s: State<P>, p1: P, p2: P)
    requires Inv(s) && CanBind(s, p1, p2)
    ensures Inv(Bound(s, p1, p2))
  {
    BoundRewired(s, p1, p2);
    RewiredGraph(s, Bound(s, p1, p2), p1, p2, true);
    BoundCounts(s, p1, p2);
    BoundFrees(s, p1, p2);
  }

  // ---------- Unbind ----------

  /** A registered block that a notifier of us names is owed more than the registry's reference. */
  lemma NamedOwes<P>(s: State<P>, us: P, remote: P)
    requires Registry(s) && Counting(s) && Registered(s, us) && Registered(s, remote)
    requires Count(s.blocks[us].notifiers, s.blocks[remote].idp) > 0
    ensures s.blocks[us].refcnt >= 2 && s.blocks[remote].refcnt >= 2
    ensures us == remote ==> s.blocks[us].refcnt >= 3
  {
    RefsAtLeast(s, s.blocks[remote].idp, s.counter, s.blocks[us].idp);
  }

  ghost function Unlisted<P>(b: Block<P>, isUs: bool, isRemote: bool, r: Idp): Block<P> {
    b.(notifiers := if isUs then RemoveFirst(b.notifiers, r) else b.notifiers,
       refcnt := b.refcnt - Twice(isUs, isRemote))
  }

  ghost function Twice(first: bool, second: bool): int {
    (if first then 1 else 0) + (if second then 1 else 0)
  }

  /** The state after an unsubscribe that frees nothing. */
  ghost function AfterUnsubscribe<P>(s: State<P>, us: P, remote: P): State<P>
    requires remote in s.blocks
  {
    s.(blocks := map p | p in s.blocks :: Unlisted(s.blocks[p], p == us, p == remote, s.blocks[remote].idp))
  }

  lemma UnsubscribePointwise<P>(s: State<P>, us: P, remote: P)
    requires us in s.blocks && remote in s.blocks && s.blocks[us].notifiers != []
    requires s.blocks[us].refcnt >= 2 && s.blocks[remote].refcnt >= 2 && (us == remote ==> s.blocks[us].refcnt >= 3)
    ensures Unsubscribe(s, us, remote) == AfterUnsubscribe(s, us, remote)
  {
    assert Unsubscribe(s, us, remote).blocks == AfterUnsubscribe(s, us, remote).blocks;
  }

  /** Unsubscribing from a block that is in the list: one entry and two references less, nothing freed. */
  lemma UnsubscribeEffect<P>(s: State<P>, us: P, remote: P)
    requires Registry(s) && Counting(s) && Registered(s, us) && Registered(s, remote)
    requires Count(s.blocks[us].notifiers, s.blocks[remote].idp) > 0
    ensures var t := Unsubscribe(s, us, remote);
            t == s.(blocks := t.blocks) && SameRegistry(s, t)
                && ListChanged(s, t, us, RemoveFirst(s.blocks[us].notifiers, s.blocks[remote].idp))
    ensures forall p | p in s.blocks :: Unsubscribe(s, us, remote).blocks[p].refcnt ==
              s.blocks[p].refcnt - (if p == us then 1 else 0) - (if p == remote then 1 else 0)
    ensures forall p | p in s.blocks :: HasFactory(Unsubscribe(s, us, remote), p) == HasFactory(s, p)
  {
    NamedOwes(s, us, remote);
    UnsubscribePointwise(s, us, remote);
  }

  lemma UnsubscribeCounts<P>(s: State<P>, us: P, remote: P)
    requires Registry(s) && Counting(s) && Registered(s, us) && Registered(s, remote)
    requires Count(s.blocks[us].notifiers, s.blocks[remote].idp) > 0
    ensures Counting(Unsubscribe(s, us, remote)) && Registry(Unsubscribe(s, us, remote))
  {
    var r, l := s.blocks[remote].idp, s.blocks[us].notifiers;
    UnsubscribeEffect(s, us, remote);
    forall i ensures Count(RemoveFirst(l, r), i) == Count(l, i) + if i == r then -1 else 0 {
      RemoveFirstCount(l, r, i);
    }
    RemoveFirstCount(l, r, r);
    ListChangeCounts(s, Unsubscribe(s, us, remote), us, remote, RemoveFirst(l, r), -1);
  }

  /** What a successful unbind does to each block. */
  ghost function UnboundBlock<P>(s: State<P>, p1: P, p2: P, p: P): Block<P>
    requires p1 in s.blocks && p2 in s.blocks && p in s.blocks
  {
    var b, i1, i2 := s.blocks[p], s.blocks[p1].idp, s.blocks[p2].idp;
    var e := if p == p1 then SetAll(b.ports, Egress, IDP_UNKNOWN) else b.ports;
    var l := if p == p1 then RemoveFirst(b.notifiers, i2) else b.notifiers;
    b.(ports := if p == p2 then SetAll(e, Ingress, IDP_UNKNOWN) else e,
       notifiers := if p == p2 then RemoveFirst(l, i1) else l,
       refcnt := b.refcnt - (if p == p1 then 3 else 0) - (if p == p2 then 3 else 0))
  }

  /** The counts and lists are long enough for an unbind to free nothing and to find its entries. */
  ghost predicate Ample<P>(s: State<P>, p1: P, p2: P) {
    && p1 in s.blocks && p2 in s.blocks
    && s.blocks[p1].refcnt >= 4 && s.blocks[p2].refcnt >= 4 && |s.blocks[p1].notifiers| >= 1
       && |s.blocks[p2].notifiers| >= 1
    && (p1 == p2 ==> s.blocks[p1].refcnt >= 7 && RemoveFirst(s.blocks[p1].notifiers, s.blocks[p1].idp) != [])
  }

  ghost function Cleared<P>(b: Block<P>, first: bool, second: bool): Block<P> {
    var e := if first then SetAll(b.ports, Egress, IDP_UNKNOWN) else b.ports;
    b.(ports := if second then SetAll(e, Ingress, IDP_UNKNOWN) else e)
  }

  ghost function AfterClear<P>(s: State<P>, p1: P, p2: P): State<P> {
    s.(blocks := map p | p in s.blocks :: Cleared(s.blocks[p], p == p1, p == p2))
  }

  lemma ClearedPointwise<P>(s: State<P>, p1: P, p2: P)
    requires p1 in s.blocks && p2 in s.blocks
    ensures SetPort(SetPort(s, p1, Egress, IDP_UNKNOWN, 0), p2, Ingress, IDP_UNKNOWN, 0) == AfterClear(s, p1, p2)
  {
    assert SetPort(SetPort(s, p1, Egress, IDP_UNKNOWN, 0), p2, Ingress, IDP_UNKNOWN, 0).blocks
        == AfterClear(s, p1, p2).blocks;
  }

  ghost function AfterDrops<P>(s: State<P>, p1: P, p2: P): State<P> {
    s.(blocks := map p | p in s.blocks :: s.blocks[p].(refcnt := s.blocks[p].refcnt - Twice(p == p1, p == p2)))
  }

  lemma DropTwoPointwise<P>(s: State<P>, p1: P, p2: P)
    requires p1 in s.blocks && p2 in s.blocks && s.blocks[p1].refcnt >= 2 && s.blocks[p2].refcnt >= 2
    requires p1 == p2 ==> s.blocks[p1].refcnt >= 3
    ensures DropRef(DropRef(s, p2), p1) == AfterDrops(s, p1, p2)
  {
    assert DropRef(DropRef(s, p2), p1).blocks == AfterDrops(s, p1, p2).blocks;
  }

  /** Between its steps an unbind still finds long enough lists and counts. */
  lemma StagesOfUnbind<P>(s: State<P>, p1: P, p2: P)
    requires Ample(s, p1, p2)
    ensures var u := AfterUnsubscribe(AfterClear(s, p1, p2), p1, p2); var w := AfterUnsubscribe(u, p2, p1);
            && u.blocks.Keys == s.blocks.Keys && w.blocks.Keys == s.blocks.Keys
            && u.blocks[p2].notifiers != []
            && u.blocks[p1].refcnt >= 3 && u.blocks[p2].refcnt >= 3 && (p1 == p2 ==> u.blocks[p1].refcnt >= 5)
            && w.blocks[p1].refcnt >= 2 && w.blocks[p2].refcnt >= 2 && (p1 == p2 ==> w.blocks[p1].refcnt >= 3)
  {
  }

  lemma UnbindBlockStages<P>(s: State<P>, p1: P, p2: P, p: P)
    requires p1 in s.blocks && p2 in s.blocks && p in s.blocks
    ensures AfterDrops(AfterUnsubscribe(AfterUnsubscribe(AfterClear(s, p1, p2), p1, p2), p2, p1), p1, p2).blocks[p]
            == UnboundBlock(s, p1, p2, p)
  {
  }

  lemma WithBlocks<P>(s: State<P>, r: State<P>, m: map<P, Block<P>>)
    requires r == s.(blocks := r.blocks) && r.blocks.Keys == m.Keys && forall p | p in m :: r.blocks[p] == m[p]
    ensures r == s.(blocks := m)
  {
    assert r.blocks == m;
  }

  lemma UnbindStagesCompose<P>(s: State<P>, p1: P, p2: P, r: State<P>)
    requires p1 in s.blocks && p2 in s.blocks
    requires r == AfterDrops(AfterUnsubscribe(AfterUnsubscribe(AfterClear(s, p1, p2), p1, p2), p2, p1), p1, p2)
    ensures r == s.(blocks := map p | p in s.blocks :: UnboundBlock(s, p1, p2, p))
  {
    assert r == s.(blocks := r.blocks) && r.blocks.Keys == s.blocks.Keys;
    forall p | p in s.blocks ensures r.blocks[p] == UnboundBlock(s, p1, p2, p) { UnbindBlockStages(s, p1, p2, p); }
    WithBlocks(s, r, map p | p in s.blocks :: UnboundBlock(s, p1, p2, p));
  }

  lemma UnboundPointwise<P>(s: State<P>, p1: P, p2: P)
    requires Ample(s, p1, p2)
    ensures Unbound(s, p1, p2) == s.(blocks := map p | p in s.blocks :: UnboundBlock(s, p1, p2, p))
  {
    StagesOfUnbind(s, p1, p2);
    ClearedPointwise(s, p1, p2);
    var t := AfterClear(s, p1, p2);
    UnsubscribePointwise(t, p1, p2);
    var u := AfterUnsubscribe(t, p1, p2);
    UnsubscribePointwise(u, p2, p1);
    DropTwoPointwise(AfterUnsubscribe(u, p2, p1), p1, p2);
    UnbindStagesCompose(s, p1, p2, Unbound(s, p1, p2));
  }

  /** Bound blocks have a notifier for each other, two when a block is bound to itself. */
  lemma BoundCount<P>(s: State<P>, p1: P, p2: P)
    requires Registry(s) && Subscribed(s) && AreBound(s, p1, p2)
    ensures Count(s.blocks[p1].notifiers, s.blocks[p2].idp) >= 1 && Count(s.blocks[p2].notifiers, s.blocks[p1].idp) >= 1
    ensures p1 == p2 ==> Count(s.blocks[p1].notifiers, s.blocks[p2].idp) >= 2
    ensures p1 == p2 ==> RemoveFirst(s.blocks[p1].notifiers, s.blocks[p1].idp) != []
  {
    var i1, i2 := s.blocks[p1].idp, s.blocks[p2].idp;
    assert Count(BlockAt(s, i1).notifiers, i2) >= Bindings(BlockAt(s, i1), i2);
    assert Count(BlockAt(s, i2).notifiers, i1) >= Bindings(BlockAt(s, i2), i1);
    RemoveFirstCount(s.blocks[p1].notifiers, i1, i1);
  }

  lemma BoundAmple<P>(s: State<P>, p1: P, p2: P)
    requires Registry(s) && Subscribed(s) && Counting(s) && AreBound(s, p1, p2)
    ensures Ample(s, p1, p2)
  {
    var i1, i2 := s.blocks[p1].idp, s.blocks[p2].idp;
    BoundCount(s, p1, p2);
    CountBounded(s.blocks[p1].notifiers, i2);
    CountBounded(s.blocks[p2].notifiers, i1);
    RefsAtLeast(s, i1, s.counter, i2);
    RefsAtLeast(s, i2, s.counter, i1);
  }

  lemma {:induction false} CountBounded<P>(l: seq<Notifier<P>>, i: Idp)
    ensures Count(l, i) <= |l|
  {
    if l == [] {
    } else {
      CountBounded(l[1..], i);
    }
  }

  lemma {:induction false} RemoveFirstOwn<P>(l: seq<Notifier<P>>, r: Idp, p: P, idps: set<Idp>)
    requires OwnList(l, p, idps)
    ensures OwnList(RemoveFirst(l, r), p, idps)
  {
    if l == [] || l[0].remote == r {
    } else {
      assert OwnList(l[1..], p, idps);
      RemoveFirstOwn(l[1..], r, p, idps);
      OwnListCons(l[0], RemoveFirst(l[1..], r), p, idps);
    }
  }

  lemma UnboundBlockRewired<P>(s: State<P>, p1: P, p2: P, p: P)
    requires Registry(s) && Replicas(s) && Subscribed(s) && AreBound(s, p1, p2) && p in s.blocks
    ensures BlockRewired(s, UnboundBlock(s, p1, p2, p), p, p1, p2, false)
  {
    var b, i1, i2 := s.blocks[p], s.blocks[p1].idp, s.blocks[p2].idp;
    BoundCount(s, p1, p2);
    SetAllPort(b.ports, Egress, IDP_UNKNOWN, s.cpus);
    SetAllPort(b.ports, Ingress, IDP_UNKNOWN, s.cpus);
    SetAllPort(SetAll(b.ports, Egress, IDP_UNKNOWN), Ingress, IDP_UNKNOWN, s.cpus);
    var l := if p == p1 then RemoveFirst(b.notifiers, i2) else b.notifiers;
    var l' := if p == p2 then RemoveFirst(l, i1) else l;
    RemoveFirstCount(b.notifiers, i2, i1);
    forall j ensures Count(l', j) == Count(b.notifiers, j) - Gain(s, p1, p2, p, j) {
      RemoveFirstCount(b.notifiers, i2, j);
      RemoveFirstCount(l, i1, j);
    }
    if OwnList(b.notifiers, p, s.fblmap.Keys) {
      RemoveFirstOwn(b.notifiers, i2, p, s.fblmap.Keys);
      RemoveFirstOwn(l, i1, p, s.fblmap.Keys);
    }
  }

  lemma UnboundRewired<P>(s: State<P>, p1: P, p2: P)
    requires Registry(s) && Replicas(s) && Subscribed(s) && Counting(s) && AreBound(s, p1, p2)
    ensures Rewired(s, Unbound(s, p1, p2), p1, p2, false)
  {
    BoundAmple(s, p1, p2);
    UnboundPointwise(s, p1, p2);
    forall p | p in s.blocks ensures BlockRewired(s, UnboundBlock(s, p1, p2, p), p, p1, p2, false) {
      UnboundBlockRewired(s, p1, p2, p);
    }
  }

  // The same unbind, with each port's reference dropped together with the port.

  ghost function AfterClearDrop<P>(s: State<P>, p1: P, p2: P): State<P> {
    AfterDrops(AfterClear(s, p1, p2), p1, p2)
  }

  lemma ClearDropPointwise<P>(s: State<P>, p1: P, p2: P)
    requires p1 in s.blocks && p2 in s.blocks
    ensures SetPort(SetPort(s, p1, Egress, IDP_UNKNOWN, -1), p2, Ingress, IDP_UNKNOWN, -1) == AfterClearDrop(s, p1, p2)
  {
    assert SetPort(SetPort(s, p1, Egress, IDP_UNKNOWN, -1), p2, Ingress, IDP_UNKNOWN, -1).blocks
        == AfterClearDrop(s, p1, p2).blocks;
  }

  lemma ClearPortCounts<P>(s: State<P>, p: P, d: Dir)
    requires Replicas(s) && Counting(s) && Registered(s, p) && Port(s.blocks[p], d) != IDP_UNKNOWN
    ensures Counting(SetPort(s, p, d, IDP_UNKNOWN, -1)) && Replicas(SetPort(s, p, d, IDP_UNKNOWN, -1))
    ensures SameRegistry(s, SetPort(s, p, d, IDP_UNKNOWN, -1))
    ensures Port(SetPort(s, p, d, IDP_UNKNOWN, -1).blocks[p], Opposite(d)) == Port(s.blocks[p], Opposite(d))
  {
    SetAllPort(s.blocks[p].ports, d, IDP_UNKNOWN, s.cpus);
    PortChangeCounts(s, SetPort(s, p, d, IDP_UNKNOWN, -1), p);
  }

  lemma ClearDropCounts<P>(s: State<P>, p1: P, p2: P)
    requires Registry(s) && Replicas(s) && Counting(s) && AreBound(s, p1, p2)
    ensures Counting(AfterClearDrop(s, p1, p2)) && SameRegistry(s, AfterClearDrop(s, p1, p2))
            && Registry(AfterClearDrop(s, p1, p2))
  {
    ClearPortCounts(s, p1, Egress);
    ClearPortCounts(SetPort(s, p1, Egress, IDP_UNKNOWN, -1), p2, Ingress);
    ClearDropPointwise(s, p1, p2);
  }

  lemma ClearDropStages<P>(s: State<P>, p1: P, p2: P)
    requires Ample(s, p1, p2)
    ensures var t := AfterClearDrop(s, p1, p2); var u := AfterUnsubscribe(t, p1, p2);
            && t.blocks.Keys == s.blocks.Keys && u.blocks.Keys == s.blocks.Keys
            && t.blocks[p1].notifiers == s.blocks[p1].notifiers && t.blocks[p1].idp == s.blocks[p1].idp
               && t.blocks[p2].idp == s.blocks[p2].idp
            && t.blocks[p1].refcnt >= 3 && t.blocks[p2].refcnt >= 3 && (p1 == p2 ==> t.blocks[p1].refcnt >= 5)
            && u.blocks[p2].notifiers == (if p1 == p2 then RemoveFirst(s.blocks[p1].notifiers, s.blocks[p2].idp)
                                          else s.blocks[p2].notifiers)
            && u.blocks[p1].refcnt >= 2 && u.blocks[p2].refcnt >= 2 && (p1 == p2 ==> u.blocks[p1].refcnt >= 3)
  {
  }

  lemma ClearDropBlockStages<P>(s: State<P>, p1: P, p2: P, p: P)
    requires p1 in s.blocks && p2 in s.blocks && p in s.blocks
    ensures AfterUnsubscribe(AfterUnsubscribe(AfterClearDrop(s, p1, p2), p1, p2), p2, p1).blocks[p]
            == UnboundBlock(s, p1, p2, p)
  {
  }

  lemma ClearDropCompose<P>(s: State<P>, p1: P, p2: P, r: State<P>)
    requires p1 in s.blocks && p2 in s.blocks
    requires r == AfterUnsubscribe(AfterUnsubscribe(AfterClearDrop(s, p1, p2), p1, p2), p2, p1)
    ensures r == s.(blocks := map p | p in s.blocks :: UnboundBlock(s, p1, p2, p))
  {
    assert r == s.(blocks := r.blocks) && r.blocks.Keys == s.blocks.Keys;
    forall p | p in s.blocks ensures r.blocks[p] == UnboundBlock(s, p1, p2, p) { ClearDropBlockStages(s, p1, p2, p); }
    WithBlocks(s, r, map p | p in s.blocks :: UnboundBlock(s, p1, p2, p));
  }

  lemma UnboundCounts<P>(s: State<P>, p1: P, p2: P)
    requires Registry(s) && Replicas(s) && Subscribed(s) && Counting(s) && AreBound(s, p1, p2)
    ensures Counting(Unbound(s, p1, p2))
  {
    BoundAmple(s, p1, p2);
    BoundCount(s, p1, p2);
    ClearDropStages(s, p1, p2);
    ClearDropCounts(s, p1, p2);
    var t := AfterClearDrop(s, p1, p2);
    UnsubscribeCounts(t, p1, p2);
    UnsubscribePointwise(t, p1, p2);
    var u := AfterUnsubscribe(t, p1, p2);
    RemoveFirstCount(s.blocks[p1].notifiers, s.blocks[p2].idp, s.blocks[p1].idp);
    UnboundCounts2(s, u, p1, p2);
  }

  lemma UnboundCounts2<P>(s: State<P>, u: State<P>, p1: P, p2: P)
    requires Ample(s, p1, p2) && u == AfterUnsubscribe(AfterClearDrop(s, p1, p2), p1, p2)
    requires Registry(u) && Counting(u) && Registered(u, p1) && Registered(u, p2)
    requires Count(u.blocks[p2].notifiers, u.blocks[p1].idp) > 0
    ensures Counting(Unbound(s, p1, p2))
  {
    NamedOwes(u, p2, p1);
    UnsubscribeCounts(u, p2, p1);
    UnsubscribePointwise(u, p2, p1);
    ClearDropCompose(s, p1, p2, AfterUnsubscribe(u, p2, p1));
    UnboundPointwise(s, p1, p2);
  }

  lemma UnboundZero<P>(s: State<P>, p1: P, p2: P, p: P)
    requires Ample(s, p1, p2) && p in s.blocks
    ensures UnboundBlock(s, p1, p2, p).refcnt == 0 <==> s.blocks[p].refcnt == 0
  {
  }

  lemma UnboundFrees<P>(s: State<P>, p1: P, p2: P)
    requires FreedOnce(s) && Ample(s, p1, p2)
    ensures FreedOnce(Unbound(s, p1, p2))
  {
    UnboundPointwise(s, p1, p2);
    forall p | p in s.blocks ensures UnboundBlock(s, p1, p2, p).refcnt == 0 <==> s.blocks[p].refcnt == 0 {
      UnboundZero(s, p1, p2, p);
    }
    NoneFreed(s, Unbound(s, p1, p2));
  }

  /** A successful unbind keeps the whole invariant. */
  lemma UnboundKeepsInv<P>(s: State<P>, p1: P, p2: P)
    requires Inv(s) && AreBound(s, p1, p2)
    ensures Inv(Unbound(s, p1, p2))
  {
    BoundAmple(s, p1, p2);
    UnboundRewired(s, p1, p2);
    RewiredGraph(s, Unbound(s, p1, p2), p1, p2, false);
    UnboundCounts(s, p1, p2);
    UnboundFrees(s, p1, p2);
  }

  lemma UnbindPorts(ports: seq<Ports>, first: bool, second: bool, i1: Idp, i2: Idp, cpus: nat)
    requires SameOnAllCpus(ports, cpus) && cpus > 0
    requires (first ==> ports[0].egress == IDP_UNKNOWN) && (second ==> ports[0].ingress == IDP_UNKNOWN)
    ensures var e := if first then SetAll(ports, Egress, i2) else ports;
            var b := if second then SetAll(e, Ingress, i1) else e;
            var c := if first then SetAll(b, Egress, IDP_UNKNOWN) else b;
            (if second then SetAll(c, Ingress, IDP_UNKNOWN) else c) == ports
  {
    assert forall c | 0 <= c < |ports| :: ports[c] == ports[0];
  }

  lemma UnbindLists<P>(l: seq<Notifier<P>>, x1: Notifier<P>, x2: Notifier<P>, first: bool, second: bool)
    requires first && second ==> x1.remote == x2.remote
    ensures var b := (if second then [x2] else []) + ((if first then [x1] else []) + l);
            var c := if first then RemoveFirst(b, x1.remote) else b;
            (if second then RemoveFirst(c, x2.remote) else c) == l
  {
    assert ([x1] + l)[1..] == l && ([x2] + l)[1..] == l && ([x2] + ([x1] + l))[1..] == [x1] + l;
    assert [] + ([x1] + l) == [x1] + l && [] + l == l;
  }

  /** Unbinding what was just bound gives every block back its ports, list and count. */
  lemma UnbindBlock<P>(s: State<P>, p1: P, p2: P, p: P)
    requires Replicas(s) && p1 in s.blocks && p2 in s.blocks && p in s.blocks
    requires Port(s.blocks[p1], Egress) == IDP_UNKNOWN && Port(s.blocks[p2], Ingress) == IDP_UNKNOWN
    ensures var t := s.(blocks := map q | q in s.blocks :: BoundBlock(s, p1, p2, q));
            UnboundBlock(t, p1, p2, p) == s.blocks[p]
  {
    var i1, i2 := s.blocks[p1].idp, s.blocks[p2].idp;
    UnbindPorts(s.blocks[p].ports, p == p1, p == p2, i1, i2, s.cpus);
    UnbindLists(s.blocks[p].notifiers, Notifier(p1, i2), Notifier(p2, i1), p == p1, p == p2);
  }

  /** A bind followed by an unbind restores ports on every CPU, both counts and both lists exactly. */
  lemma UnbindUndoesBind<P>(s: State<P>, p1: P, p2: P)
    requires Replicas(s) && p1 in s.blocks && p2 in s.blocks
    requires Port(s.blocks[p1], Egress) == IDP_UNKNOWN && Port(s.blocks[p2], Ingress) == IDP_UNKNOWN
    requires s.blocks[p1].refcnt > 0 && s.blocks[p2].refcnt > 0
    ensures Unbound(Bound(s, p1, p2), p1, p2) == s
  {
    BoundPointwise(s, p1, p2);
    var t := s.(blocks := map q | q in s.blocks :: BoundBlock(s, p1, p2, q));
    UnboundPointwise(t, p1, p2);
    forall p | p in s.blocks ensures UnboundBlock(t, p1, p2, p) == s.blocks[p] { UnbindBlock(s, p1, p2, p); }
    WithBlocks(t, Unbound(t, p1, p2), s.blocks);
  }
}
