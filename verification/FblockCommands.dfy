/** Every control command, every packet lookup and whole runs of them. */
module FblockCommands {
  import opened Common
  import opened FblockGraph
  import opened FblockInvariant

  // ---------- Subscriptions asked for by the user ----------

  /** t differs from s in the notifier list of us and in reference counts only. */
  ghost predicate Relisted<P>(s: State<P>, t: State<P>, us: P, l: seq<Notifier<P>>) {
    && t.cpus == s.cpus && t.fblmap == s.fblmap && t.idpmap == s.idpmap && t.counter == s.counter
    && t.blocks.Keys == s.blocks.Keys
    && (forall p | p in s.blocks && p in t.blocks ::
          t.blocks[p] == s.blocks[p].(notifiers := if p == us then l else s.blocks[p].notifiers,
                                      refcnt := t.blocks[p].refcnt))
  }

  lemma RelistedSymmetry<P>(s: State<P>, t: State<P>, us: P, l: seq<Notifier<P>>)
    requires Registry(s) && Symmetry(s) && Relisted(s, t, us, l)
    ensures Symmetry(t)
  {
    forall i | i in t.fblmap && Live(t, i) ensures PointsBack(t, i, Egress) && PointsBack(t, i, Ingress) {
      assert PointsBack(s, i, Egress) && PointsBack(s, i, Ingress);
    }
  }

  lemma RelistedLists<P>(s: State<P>, t: State<P>, us: P, l: seq<Notifier<P>>)
    requires Registry(s) && Notifiers(s) && Subscribed(s) && Relisted(s, t, us, l) && OwnList(l, us, s.fblmap.Keys)
    requires us in s.blocks && forall j | j in s.fblmap :: Count(l, j) >= Bindings(s.blocks[us], j)
    ensures Notifiers(t) && Subscribed(t)
  {
    forall i | i in t.fblmap && Live(t, i) ensures OwnList(BlockAt(t, i).notifiers, t.fblmap[i], t.fblmap.Keys) {
      assert OwnList(BlockAt(s, i).notifiers, s.fblmap[i], s.fblmap.Keys);
    }
    forall i, j | i in t.fblmap && Live(t, i) && j in t.fblmap
      ensures Count(BlockAt(t, i).notifiers, j) >= Bindings(BlockAt(t, i), j)
    {
      assert Count(BlockAt(s, i).notifiers, j) >= Bindings(BlockAt(s, i), j);
    }
  }

  lemma RelistedGraph<P>(s: State<P>, t: State<P>, us: P, l: seq<Notifier<P>>)
    requires Graph(s) && Relisted(s, t, us, l) && OwnList(l, us, s.fblmap.Keys)
    requires us in s.blocks && forall j | j in s.fblmap :: Count(l, j) >= Bindings(s.blocks[us], j)
    ensures Graph(t)
  {
    RelistedSymmetry(s, t, us, l);
    RelistedLists(s, t, us, l);
    assert Registry(t) && Replicas(t);
    assert Namespace(t);
  }

  /** A registered block's own list is in order. */
  lemma OwnFacts<P>(s: State<P>, p: P)
    requires Notifiers(s) && Subscribed(s) && Registered(s, p)
    ensures OwnList(s.blocks[p].notifiers, p, s.fblmap.Keys)
    ensures forall j | j in s.fblmap :: Count(s.blocks[p].notifiers, j) >= Bindings(s.blocks[p], j)
  {
    var i := s.blocks[p].idp;
    assert Live(s, i) && BlockAt(s, i) == s.blocks[p];
  }

  lemma SubscribeRelists<P>(s: State<P>, us: P, remote: P)
    requires us in s.blocks && remote in s.blocks
    ensures Relisted(s, Subscribe(s, us, remote), us, [Notifier(us, s.blocks[remote].idp)] + s.blocks[us].notifiers)
    ensures Subscribe(s, us, remote).dead == s.dead && Subscribe(s, us, remote).held == s.held
    ensures forall p | p in s.blocks :: Subscribe(s, us, remote).blocks[p].refcnt ==
              s.blocks[p].refcnt + (if p == us then 1 else 0) + (if p == remote then 1 else 0)
  {
  }

  lemma SubscribeFrees<P>(s: State<P>, us: P, remote: P)
    requires Counting(s) && FreedOnce(s) && Registered(s, us) && Registered(s, remote)
    ensures FreedOnce(Subscribe(s, us, remote))
  {
    SubscribeRelists(s, us, remote);
    PositiveCount(s, us);
    PositiveCount(s, remote);
    NoneFreed(s, Subscribe(s, us, remote));
  }

  lemma SubscribeGraph<P>(s: State<P>, t: State<P>, us: P, r: Idp)
    requires Graph(s) && Registered(s, us) && r in s.fblmap
             && Relisted(s, t, us, [Notifier(us, r)] + s.blocks[us].notifiers)
    ensures Graph(t)
  {
    var b, x := s.blocks[us], Notifier(us, r);
    OwnFacts(s, us);
    OwnListCons(x, b.notifiers, us, s.fblmap.Keys);
    forall j | j in s.fblmap ensures Count([x] + b.notifiers, j) >= Bindings(b, j) { CountCons(x, b.notifiers, j); }
    RelistedGraph(s, t, us, [x] + b.notifiers);
  }

  lemma SubscribeKeepsInv<P>(s: State<P>, us: P, remote: P)
    requires Inv(s) && Registered(s, us) && Registered(s, remote)
    ensures Inv(Subscribe(s, us, remote))
  {
    SubscribeCounts(s, us, remote);
    SubscribeFrees(s, us, remote);
    SubscribeRelists(s, us, remote);
    SubscribeGraph(s, Subscribe(s, us, remote), us, s.blocks[remote].idp);
  }

  lemma {:induction false} RemoveAbsent<P>(l: seq<Notifier<P>>, r: Idp)
    requires Count(l, r) == 0
    ensures RemoveFirst(l, r) == l
  {
    if l == [] {
    } else {
      RemoveAbsent(l[1..], r);
    }
  }

  lemma UnsubscribeRelists<P>(s: State<P>, us: P, remote: P)
    requires us in s.blocks && remote in s.blocks && s.blocks[us].notifiers != []
    ensures Relisted(s, Unsubscribe(s, us, remote), us, RemoveFirst(s.blocks[us].notifiers, s.blocks[remote].idp))
    ensures Unsubscribe(s, us, remote).held == s.held
    ensures Unsubscribe(s, us, remote).blocks[us].refcnt < s.blocks[us].refcnt
  {
    var b := s.blocks[us];
    var t := Modify(s, us, b.(notifiers := RemoveFirst(b.notifiers, s.blocks[remote].idp)));
    DropRefEffect(t, us);
    DropRefEffect(DropRef(t, us), remote);
  }

  lemma DropRefEffect<P>(s: State<P>, p: P)
    requires p in s.blocks
    ensures SameGraph(s, DropRef(s, p)) && DropRef(s, p).held == s.held
    ensures forall q | q in s.blocks :: DropRef(s, p).blocks[q].refcnt == s.blocks[q].refcnt - if q == p then 1 else 0
  {
  }

  lemma UnsubscribeFrees<P>(s: State<P>, us: P, remote: P)
    requires Registry(s) && Counting(s) && FreedOnce(s) && Registered(s, us) && Registered(s, remote)
    requires Count(s.blocks[us].notifiers, s.blocks[remote].idp) > 0
    ensures FreedOnce(Unsubscribe(s, us, remote))
  {
    NamedOwes(s, us, remote);
    UnsubscribeEffect(s, us, remote);
    FewerFrees(s, Unsubscribe(s, us, remote), us, remote, RemoveFirst(s.blocks[us].notifiers, s.blocks[remote].idp));
  }

  lemma FewerFrees<P>(s: State<P>, t: State<P>, us: P, remote: P, l: seq<Notifier<P>>)
    requires FreedOnce(s) && us in s.blocks && remote in s.blocks && t.dead == s.dead && t.held == s.held
             && ListChanged(s, t, us, l)
    requires t.blocks.Keys == s.blocks.Keys
    requires forall p | p in s.blocks ::
             t.blocks[p].refcnt == s.blocks[p].refcnt - (if p == us then 1 else 0) - (if p == remote then 1 else 0)
    requires s.blocks[us].refcnt >= 2 && s.blocks[remote].refcnt >= 2 && (us == remote ==> s.blocks[us].refcnt >= 3)
    requires forall p | p in s.blocks :: HasFactory(t, p) == HasFactory(s, p)
    ensures FreedOnce(t)
  {
    NoneFreed(s, t);
  }

  lemma UnsubscribeSpare<P>(s: State<P>, us: P, remote: P)
    requires Inv(s) && Registered(s, us) && Registered(s, remote)
    requires Count(s.blocks[us].notifiers, s.blocks[remote].idp) > Bindings(s.blocks[us], s.blocks[remote].idp)
    ensures Inv(Unsubscribe(s, us, remote))
  {
    var t, b, r := Unsubscribe(s, us, remote), s.blocks[us], s.blocks[remote].idp;
    UnsubscribeCounts(s, us, remote);
    UnsubscribeFrees(s, us, remote);
    UnsubscribeRelists(s, us, remote);
    OwnFacts(s, us);
    RemoveFirstOwn(b.notifiers, r, us, s.fblmap.Keys);
    forall j | j in s.fblmap ensures Count(RemoveFirst(b.notifiers, r), j) >= Bindings(b, j) {
      RemoveFirstCount(b.notifiers, r, j);
    }
    RelistedGraph(s, t, us, RemoveFirst(b.notifiers, r));
  }

  lemma LowerMiscounts<P>(s: State<P>, t: State<P>, us: P)
    requires Counting(s) && us in s.blocks && us in t.blocks && Relisted(s, t, us, s.blocks[us].notifiers)
    requires t.held == s.held && t.blocks[us].refcnt < s.blocks[us].refcnt
    ensures !Counting(t)
  {
    assert SameGraph(s, t);
    SameGraphOwes(s, t, us);
  }

  /** With no entry for the remote block the references are dropped all the same. */
  lemma UnsubscribeMiscounts<P>(s: State<P>, us: P, remote: P)
    requires Counting(s) && us in s.blocks && remote in s.blocks && s.blocks[us].notifiers != []
    requires Count(s.blocks[us].notifiers, s.blocks[remote].idp) == 0
    ensures !Counting(Unsubscribe(s, us, remote))
  {
    UnsubscribeRelists(s, us, remote);
    RemoveAbsent(s.blocks[us].notifiers, s.blocks[remote].idp);
    LowerMiscounts(s, Unsubscribe(s, us, remote), us);
  }

  /** With only the entries its bindings need, the unsubscribe takes one of those. */
  lemma UnsubscribeUnbinds<P>(s: State<P>, us: P, remote: P)
    requires Registry(s) && Counting(s) && Registered(s, us) && Registered(s, remote)
    requires 0 < Count(s.blocks[us].notifiers, s.blocks[remote].idp) <= Bindings(s.blocks[us], s.blocks[remote].idp)
    ensures !Subscribed(Unsubscribe(s, us, remote))
  {
    var t, i, r := Unsubscribe(s, us, remote), s.blocks[us].idp, s.blocks[remote].idp;
    UnsubscribeEffect(s, us, remote);
    RemoveFirstCount(s.blocks[us].notifiers, r, r);
    assert i in t.fblmap && Live(t, i) && r in t.fblmap;
    assert Count(BlockAt(t, i).notifiers, r) < Bindings(BlockAt(t, i), r);
  }

  /** Without a spare entry an unsubscribe breaks the invariant: it either drops references for an
      entry that is not there, or takes away the notifier of a binding. */
  lemma UnsubscribeBreaks<P>(s: State<P>, us: P, remote: P)
    requires Inv(s) && Registered(s, us) && Registered(s, remote) && s.blocks[us].notifiers != []
    requires Count(s.blocks[us].notifiers, s.blocks[remote].idp) <= Bindings(s.blocks[us], s.blocks[remote].idp)
    ensures !(Graph(Unsubscribe(s, us, remote)) && Counting(Unsubscribe(s, us, remote)))
  {
    if Count(s.blocks[us].notifiers, s.blocks[remote].idp) == 0 {
      UnsubscribeMiscounts(s, us, remote);
    } else {
      UnsubscribeUnbinds(s, us, remote);
    }
  }

  /** A user's unsubscribe keeps the invariant exactly when the list is empty or holds more entries
      for the remote block than there are bindings to it. */
  lemma UnsubscribeKeepsInvIff<P>(s: State<P>, us: P, remote: P)
    requires Inv(s) && Registered(s, us) && Registered(s, remote)
    ensures Inv(Unsubscribe(s, us, remote)) <==>
              s.blocks[us].notifiers == []
                  || Count(s.blocks[us].notifiers, s.blocks[remote].idp) > Bindings(s.blocks[us], s.blocks[remote].idp)
  {
    if s.blocks[us].notifiers != [] {
      if Count(s.blocks[us].notifiers, s.blocks[remote].idp) > Bindings(s.blocks[us], s.blocks[remote].idp) {
        UnsubscribeSpare(s, us, remote);
      } else {
        UnsubscribeBreaks(s, us, remote);
      }
    }
  }

  // ---------- Removing a block ----------

  /** Nobody but the registry refers to the block: no ports, no notifiers, nobody points to it or
      names it. */
  ghost predicate Isolated<P>(s: State<P>, p: P) {
    && Registered(s, p) && BoundPorts(s.blocks[p]) == 0 && s.blocks[p].notifiers == []
    && (forall i | i in s.fblmap && Live(s, i) :: Apart(BlockAt(s, i), s.blocks[p].idp))
  }

  ghost predicate Apart<P>(b: Block<P>, i: Idp) {
    Count(b.notifiers, i) == 0 && Port(b, Egress) != i && Port(b, Ingress) != i
  }

  /** The count test of remove and replace is exact: only an isolated block passes it. */
  lemma TestIsolates<P>(s: State<P>, p: P)
    requires Registry(s) && Symmetry(s) && Counting(s) && Registered(s, p) && s.blocks[p].refcnt <= s.held[p] + 1
    ensures Isolated(s, p)
  {
    var j := s.blocks[p].idp;
    forall i | i in s.fblmap && Live(s, i) ensures Apart(BlockAt(s, i), j) {
      RefsAtLeast(s, j, s.counter, i);
      assert PointsBack(s, i, Egress) && PointsBack(s, i, Ingress);
    }
  }

  /** t is s with the block out of registry and namespace; reference counts may differ. */
  ghost predicate Detached<P>(s: State<P>, t: State<P>, p: P) {
    && p in s.blocks && t.cpus == s.cpus && t.counter == s.counter && t.blocks.Keys == s.blocks.Keys
    && t.fblmap == s.fblmap - {s.blocks[p].idp} && t.idpmap == s.idpmap - {s.blocks[p].name}
    && (forall q | q in s.blocks && q in t.blocks :: t.blocks[q] == s.blocks[q].(refcnt := t.blocks[q].refcnt))
  }

  lemma DetachedPointsBack<P>(s: State<P>, t: State<P>, p: P, i: Idp, d: Dir)
    requires Detached(s, t, p) && i in t.fblmap && Live(s, i) && PointsBack(s, i, d)
             && Port(BlockAt(s, i), d) != s.blocks[p].idp
    ensures Live(t, i) && PointsBack(t, i, d)
  {
    var j := Port(BlockAt(s, i), d);
    assert BlockAt(t, i) == BlockAt(s, i).(refcnt := BlockAt(t, i).refcnt);
    assert Live(s, j) && j != s.blocks[p].idp ==> Live(t, j) && t.fblmap[j] == s.fblmap[j];
  }

  lemma DetachedSymmetry<P>(s: State<P>, t: State<P>, p: P)
    requires Registry(s) && Symmetry(s) && Isolated(s, p) && Detached(s, t, p)
    ensures Symmetry(t)
  {
    forall i | i in t.fblmap && Live(t, i) ensures PointsBack(t, i, Egress) && PointsBack(t, i, Ingress) {
      assert Live(s, i) && PointsBack(s, i, Egress) && PointsBack(s, i, Ingress)
          && Apart(BlockAt(s, i), s.blocks[p].idp);
      DetachedPointsBack(s, t, p, i, Egress);
      DetachedPointsBack(s, t, p, i, Ingress);
    }
  }

  lemma {:induction false} CountZero<P>(l: seq<Notifier<P>>, i: Idp, k: nat)
    requires Count(l, i) == 0 && k < |l|
    ensures l[k].remote != i
  {
    if k == 0 {
    } else {
      CountZero(l[1..], i, k - 1);
    }
  }

  lemma OwnListShrinks<P>(l: seq<Notifier<P>>, p: P, idps: set<Idp>, i: Idp)
    requires OwnList(l, p, idps) && Count(l, i) == 0
    ensures OwnList(l, p, idps - {i})
  {
    forall k | 0 <= k < |l| ensures l[k].remote != i { CountZero(l, i, k); }
  }

  lemma DetachedLists<P>(s: State<P>, t: State<P>, p: P)
    requires Registry(s) && Notifiers(s) && Subscribed(s) && Isolated(s, p) && Detached(s, t, p)
    ensures Notifiers(t) && Subscribed(t)
  {
    forall i | i in t.fblmap && Live(t, i) ensures OwnList(BlockAt(t, i).notifiers, t.fblmap[i], t.fblmap.Keys) {
      assert Live(s, i) && Apart(BlockAt(s, i), s.blocks[p].idp);
      assert OwnList(BlockAt(s, i).notifiers, s.fblmap[i], s.fblmap.Keys);
      OwnListShrinks(BlockAt(s, i).notifiers, s.fblmap[i], s.fblmap.Keys, s.blocks[p].idp);
      assert t.fblmap.Keys == s.fblmap.Keys - {s.blocks[p].idp};
    }
    forall i, j | i in t.fblmap && Live(t, i) && j in t.fblmap
      ensures Count(BlockAt(t, i).notifiers, j) >= Bindings(BlockAt(t, i), j)
    {
      assert Live(s, i) && Count(BlockAt(s, i).notifiers, j) >= Bindings(BlockAt(s, i), j);
    }
  }

  lemma DetachedNames<P>(s: State<P>, t: State<P>, p: P)
    requires Registry(s) && Namespace(s) && Registered(s, p) && Detached(s, t, p)
    ensures Registry(t) && Namespace(t)
  {
    var j := s.blocks[p].idp;
    assert Live(s, j) && BlockAt(s, j).name in s.idpmap;
    forall i | i in t.fblmap && Live(t, i) ensures BlockAt(t, i).name in t.idpmap && t.idpmap[BlockAt(t, i).name] == i {
      assert Live(s, i) && BlockAt(s, i).name in s.idpmap;
    }
    forall n | n in t.idpmap ensures Live(t, t.idpmap[n]) && BlockAt(t, t.idpmap[n]).name == n {
      assert n in s.idpmap && Live(s, s.idpmap[n]) && BlockAt(s, s.idpmap[n]).name == n;
    }
  }

  lemma DetachedGraph<P>(s: State<P>, t: State<P>, p: P)
    requires Graph(s) && Isolated(s, p) && Detached(s, t, p)
    ensures Graph(t)
  {
    DetachedNames(s, t, p);
    DetachedSymmetry(s, t, p);
    DetachedLists(s, t, p);
    assert Replicas(t);
  }

  lemma DetachedOwes<P>(s: State<P>, t: State<P>, p: P, q: P)
    requires Registry(s) && Isolated(s, p) && Detached(s, t, p) && q in s.blocks
    ensures Owed(t, q) == if q == p then 0 else Owed(s, q)
  {
    var i := s.blocks[q].idp;
    forall m: nat | 1 <= m <= s.counter ensures Contribution(t, m, i) == Contribution(s, m, i) {
      if m == s.blocks[p].idp { assert Contribution(s, m, i) == Count(s.blocks[p].notifiers, i); }
    }
    SameRefs(s, t, i, s.counter);
    assert q != p && Registered(s, q) ==> i != s.blocks[p].idp;
  }

  lemma UnregisterDetaches<P>(s: State<P>, p: P)
    requires p in s.blocks && s.blocks[p].refcnt > 1
    ensures Detached(s, Unregister(s, p), p)
    ensures Unregister(s, p).held == s.held && Unregister(s, p).dead == s.dead
    ensures forall q | q in s.blocks ::
              Unregister(s, p).blocks[q].refcnt == s.blocks[q].refcnt - if q == p then 1 else 0
  {
  }

  /** Taking an isolated, held block out of the registry keeps the invariant. */
  lemma UnregisterKeepsInv<P>(s: State<P>, p: P)
    requires Inv(s) && Registered(s, p) && p in s.held && s.blocks[p].refcnt <= s.held[p] + 1
    ensures Inv(Unregister(s, p)) && Unregister(s, p).held == s.held
  {
    TestIsolates(s, p);
    PositiveOwed(s, p);
    UnregisterDetaches(s, p);
    var t := Unregister(s, p);
    DetachedGraph(s, t, p);
    DetachedCounts(s, t, p);
    NoneFreed(s, t);
  }

  lemma DetachedCounts<P>(s: State<P>, t: State<P>, p: P)
    requires Registry(s) && Counting(s) && Isolated(s, p) && Detached(s, t, p) && t.held == s.held
    requires s.blocks[p].refcnt == s.held[p] + 1
    requires forall q | q in s.blocks :: t.blocks[q].refcnt == s.blocks[q].refcnt - if q == p then 1 else 0
    ensures Counting(t)
  {
    forall q | q in t.blocks ensures t.blocks[q].refcnt == Owed(t, q) + t.held[q] { DetachedOwes(s, t, p, q); }
  }

  lemma PositiveOwed<P>(s: State<P>, p: P)
    requires Counting(s) && Registered(s, p)
    ensures s.blocks[p].refcnt >= 1 + s.held[p]
  {
  }

  // ---------- Replacing a block ----------

  lemma {:induction false} ReownCount<P>(l: seq<Notifier<P>>, p: P, i: Idp)
    ensures Count(Reown(l, p), i) == Count(l, i)
  {
    if l == [] {
    } else {
      ReownCount(l[1..], p, i);
      assert Reown(l, p)[1..] == Reown(l[1..], p);
    }
  }

  /** t is s after p2 took the place of p1, and p2's own idp and name were given up. */
  ghost predicate TookOver<P>(s: State<P>, t: State<P>, p1: P, p2: P) {
    && p1 in s.blocks && p2 in s.blocks && p1 != p2
    && t.cpus == s.cpus && t.counter == s.counter && t.held == s.held && t.dead == s.dead
       && t.blocks.Keys == s.blocks.Keys
    && t.fblmap == (s.fblmap - {s.blocks[p2].idp})[s.blocks[p1].idp := p2] && t.idpmap == s.idpmap - {s.blocks[p2].name}
    && (forall q | q in s.blocks && q != p1 && q != p2 :: t.blocks[q] == s.blocks[q])
    && t.blocks[p2].name == s.blocks[p1].name && t.blocks[p2].idp == t.blocks[p1].idp == s.blocks[p1].idp
    && t.blocks[p2].notifiers == Reown(s.blocks[p1].notifiers, p2) && t.blocks[p2].refcnt == s.blocks[p1].refcnt
    && t.blocks[p2].others == s.blocks[p1].others && t.blocks[p1].refcnt == s.blocks[p2].refcnt - 1
    && {t.blocks[p1].ports, t.blocks[p2].ports} == {s.blocks[p1].ports, s.blocks[p2].ports}
    && HasFactory(t, p1) == HasFactory(s, p1) && HasFactory(t, p2) == HasFactory(s, p2)
  }

  lemma ReplacedTakesOver<P>(s: State<P>, p1: P, p2: P, migrate: bool)
    requires p1 in s.blocks && p2 in s.blocks && p1 != p2 && s.blocks[p2].refcnt > 1
    ensures TookOver(s, Replaced(s, p1, p2, migrate), p1, p2)
    ensures Replaced(s, p1, p2, migrate).blocks[p2].ports == if migrate then s.blocks[p1].ports else s.blocks[p2].ports
  {
  }

  /** Seen by idp, the block that took over is the old one. */
  ghost predicate SameSeen<P>(b: Block<P>, c: Block<P>) {
    && c.name == b.name && c.idp == b.idp && Port(c, Egress) == Port(b, Egress) && Port(c, Ingress) == Port(b, Ingress)
    && |c.notifiers| == |b.notifiers| && (forall j :: Count(c.notifiers, j) == Count(b.notifiers, j))
  }

  lemma SeenAt<P>(s: State<P>, t: State<P>, p1: P, p2: P, i: Idp)
    requires Registry(s) && Isolated(s, p2) && Registered(s, p1) && TookOver(s, t, p1, p2) && i in t.fblmap
    requires Port(t.blocks[p2], Egress) == Port(s.blocks[p1], Egress)
             && Port(t.blocks[p2], Ingress) == Port(s.blocks[p1], Ingress)
    ensures Live(s, i) && Live(t, i) && i != s.blocks[p2].idp && SameSeen(BlockAt(s, i), BlockAt(t, i))
  {
    if i == s.blocks[p1].idp {
      forall j ensures Count(t.blocks[p2].notifiers, j) == Count(s.blocks[p1].notifiers, j) {
        ReownCount(s.blocks[p1].notifiers, p2, j);
      }
    }
  }

  /** The ports of the block in place are those it should have: moved along, or none to move. */
  ghost predicate PortsKept<P>(s: State<P>, t: State<P>, p1: P, p2: P)
    requires p1 in s.blocks && p2 in t.blocks
  {
    Port(t.blocks[p2], Egress) == Port(s.blocks[p1], Egress)
        && Port(t.blocks[p2], Ingress) == Port(s.blocks[p1], Ingress)
  }

  lemma TookOverSymmetry<P>(s: State<P>, t: State<P>, p1: P, p2: P)
    requires Registry(s) && Symmetry(s) && Isolated(s, p2) && Registered(s, p1) && TookOver(s, t, p1, p2)
             && PortsKept(s, t, p1, p2)
    ensures Symmetry(t)
  {
    forall i | i in t.fblmap && Live(t, i) ensures PointsBack(t, i, Egress) && PointsBack(t, i, Ingress) {
      SeenAt(s, t, p1, p2, i);
      assert PointsBack(s, i, Egress) && PointsBack(s, i, Ingress) && Apart(BlockAt(s, i), s.blocks[p2].idp);
      var e, g := Port(BlockAt(t, i), Egress), Port(BlockAt(t, i), Ingress);
      if e != IDP_UNKNOWN { SeenAt(s, t, p1, p2, e); }
      if g != IDP_UNKNOWN { SeenAt(s, t, p1, p2, g); }
    }
  }

  lemma TookOverNames<P>(s: State<P>, t: State<P>, p1: P, p2: P)
    requires Registry(s) && Namespace(s) && Isolated(s, p2) && Registered(s, p1) && TookOver(s, t, p1, p2)
             && PortsKept(s, t, p1, p2)
    ensures Registry(t) && Namespace(t)
  {
    assert Live(s, s.blocks[p2].idp) && BlockAt(s, s.blocks[p2].idp).name in s.idpmap;
    forall i | i in t.fblmap ensures 0 < i <= t.counter && t.fblmap[i] in t.blocks && t.blocks[t.fblmap[i]].idp == i {
      SeenAt(s, t, p1, p2, i);
    }
    forall i | i in t.fblmap && Live(t, i) ensures BlockAt(t, i).name in t.idpmap && t.idpmap[BlockAt(t, i).name] == i {
      SeenAt(s, t, p1, p2, i);
      assert BlockAt(s, i).name in s.idpmap;
    }
    forall n | n in t.idpmap ensures Live(t, t.idpmap[n]) && BlockAt(t, t.idpmap[n]).name == n {
      assert Live(s, s.idpmap[n]) && BlockAt(s, s.idpmap[n]).name == n;
      assert s.idpmap[n] in t.fblmap;
      SeenAt(s, t, p1, p2, s.idpmap[n]);
    }
  }

  lemma ReownOwn<P>(l: seq<Notifier<P>>, p: P, p': P, idps: set<Idp>)
    requires OwnList(l, p, idps)
    ensures OwnList(Reown(l, p'), p', idps)
  {
  }

  lemma TookOverNotifiers<P>(s: State<P>, t: State<P>, p1: P, p2: P)
    requires Registry(s) && Notifiers(s) && Isolated(s, p2) && Registered(s, p1) && TookOver(s, t, p1, p2)
             && PortsKept(s, t, p1, p2)
    ensures Notifiers(t)
  {
    var j := s.blocks[p2].idp;
    assert t.fblmap.Keys == s.fblmap.Keys - {j};
    forall i | i in t.fblmap && Live(t, i) ensures OwnList(BlockAt(t, i).notifiers, t.fblmap[i], t.fblmap.Keys) {
      SeenAt(s, t, p1, p2, i);
      assert Apart(BlockAt(s, i), j) && OwnList(BlockAt(s, i).notifiers, s.fblmap[i], s.fblmap.Keys);
      OwnListShrinks(BlockAt(s, i).notifiers, s.fblmap[i], s.fblmap.Keys, j);
      if i == s.blocks[p1].idp { ReownOwn(s.blocks[p1].notifiers, p1, p2, t.fblmap.Keys); }
    }
  }

  lemma TookOverSubscribed<P>(s: State<P>, t: State<P>, p1: P, p2: P)
    requires Registry(s) && Subscribed(s) && Isolated(s, p2) && Registered(s, p1) && TookOver(s, t, p1, p2)
             && PortsKept(s, t, p1, p2)
    ensures Subscribed(t)
  {
    forall i, k | i in t.fblmap && Live(t, i) && k in t.fblmap
      ensures Count(BlockAt(t, i).notifiers, k) >= Bindings(BlockAt(t, i), k)
    {
      SeenAt(s, t, p1, p2, i);
      assert k in s.fblmap && Count(BlockAt(s, i).notifiers, k) >= Bindings(BlockAt(s, i), k);
    }
  }

  lemma TookOverGraph<P>(s: State<P>, t: State<P>, p1: P, p2: P)
    requires Graph(s) && Isolated(s, p2) && Registered(s, p1) && TookOver(s, t, p1, p2) && PortsKept(s, t, p1, p2)
    ensures Graph(t)
  {
    TookOverNames(s, t, p1, p2);
    TookOverSymmetry(s, t, p1, p2);
    TookOverNotifiers(s, t, p1, p2);
    TookOverSubscribed(s, t, p1, p2);
    TookOverReplicas(s, t, p1, p2);
  }

  lemma TookOverReplicas<P>(s: State<P>, t: State<P>, p1: P, p2: P)
    requires Replicas(s) && TookOver(s, t, p1, p2)
    ensures Replicas(t)
  {
    assert t.blocks[p1].ports in {s.blocks[p1].ports, s.blocks[p2].ports}
        && t.blocks[p2].ports in {s.blocks[p1].ports, s.blocks[p2].ports};
  }

  lemma TookOverRefs<P>(s: State<P>, t: State<P>, p1: P, p2: P, i: Idp)
    requires Registry(s) && Isolated(s, p2) && Registered(s, p1) && TookOver(s, t, p1, p2)
    ensures RefsUpTo(t, i, s.counter) == RefsUpTo(s, i, s.counter)
  {
    forall m: nat | 1 <= m <= s.counter ensures Contribution(t, m, i) == Contribution(s, m, i) {
      if m == s.blocks[p1].idp {
        ReownCount(s.blocks[p1].notifiers, p2, i);
      } else if m == s.blocks[p2].idp {
        assert Contribution(s, m, i) == Count(s.blocks[p2].notifiers, i);
      }
    }
    SameRefs(s, t, i, s.counter);
  }

  lemma TookOverOwes<P>(s: State<P>, t: State<P>, p1: P, p2: P, q: P)
    requires Registry(s) && Isolated(s, p2) && Registered(s, p1) && TookOver(s, t, p1, p2) && q in s.blocks
    ensures Owed(t, q) == if q == p1 then 0
                          else if q == p2 then Owed(s, p1) - BoundPorts(s.blocks[p1]) + BoundPorts(t.blocks[p2])
                          else Owed(s, q)
  {
    TookOverRefs(s, t, p1, p2, s.blocks[q].idp);
    TookOverRefs(s, t, p1, p2, s.blocks[p1].idp);
    assert q != p1 && q != p2 && Registered(s, q) ==>
        s.blocks[q].idp != s.blocks[p1].idp && s.blocks[q].idp != s.blocks[p2].idp;
  }

  /** After the exchange the counts are right exactly when as many references were held on the one
      block as on the other and the ports came along. */
  lemma TookOverCounts<P>(s: State<P>, t: State<P>, p1: P, p2: P)
    requires Registry(s) && Counting(s) && Isolated(s, p2) && Registered(s, p1) && TookOver(s, t, p1, p2)
    ensures Counting(t) <==> s.held[p1] == s.held[p2] && BoundPorts(t.blocks[p2]) == BoundPorts(s.blocks[p1])
  {
    TookOverOwes(s, t, p1, p2, p1);
    TookOverOwes(s, t, p1, p2, p2);
    assert s.blocks[p1].refcnt == Owed(s, p1) + s.held[p1] && s.blocks[p2].refcnt == Owed(s, p2) + s.held[p2];
    assert Owed(s, p2) == 1 by { IsolatedOwed(s, p2); }
    if s.held[p1] == s.held[p2] && BoundPorts(t.blocks[p2]) == BoundPorts(s.blocks[p1]) {
      forall q | q in t.blocks ensures t.blocks[q].refcnt == Owed(t, q) + t.held[q] { TookOverOwes(s, t, p1, p2, q); }
    }
  }

  lemma IsolatedOwed<P>(s: State<P>, p: P)
    requires Isolated(s, p) && Registry(s)
    ensures Owed(s, p) == 1
  {
    ApartRefs(s, s.blocks[p].idp, s.counter);
  }

  lemma {:induction false} ApartRefs<P>(s: State<P>, j: Idp, n: nat)
    requires forall i | i in s.fblmap && Live(s, i) :: Apart(BlockAt(s, i), j)
    ensures RefsUpTo(s, j, n) == 0
  {
    if n == 0 {
    } else {
      ApartRefs(s, j, n - 1);
    }
  }

  /** The exchange of a replace keeps the invariant exactly when both blocks are held equally often and
      the old one's ports either move along or are not bound. */
  lemma ReplacedKeepsInvIff<P>(s: State<P>, p1: P, p2: P, migrate: bool)
    requires Inv(s) && Registered(s, p1) && Isolated(s, p2) && p1 != p2 && p1 in s.held && p2 in s.held
    ensures Inv(Replaced(s, p1, p2, migrate)) <==>
              s.held[p1] == s.held[p2] && (migrate || BoundPorts(s.blocks[p1]) == 0)
    ensures Replaced(s, p1, p2, migrate).held == s.held
    ensures Graph(Replaced(s, p1, p2, migrate)) && Counting(Replaced(s, p1, p2, migrate)) ==>
            Inv(Replaced(s, p1, p2, migrate))
  {
    var t := Replaced(s, p1, p2, migrate);
    PositiveOwed(s, p2);
    ReplacedTakesOver(s, p1, p2, migrate);
    TookOverCounts(s, t, p1, p2);
    if Counting(t) {
      TookOverGraph(s, t, p1, p2);
      TookOverFrees(s, t, p1, p2);
    }
  }

  lemma TookOverFrees<P>(s: State<P>, t: State<P>, p1: P, p2: P)
    requires FreedOnce(s) && TookOver(s, t, p1, p2) && s.blocks[p1].refcnt > 0 && s.blocks[p2].refcnt > 1
    ensures FreedOnce(t)
  {
  }

  /** The steps of a replace, put together. */
  lemma ReplaceSteps<P>(s: State<P>, p1: P, p2: P, migrate: bool, r: State<P>, u: State<P>)
    requires p1 in s.blocks && p2 in s.blocks && p1 != p2
    requires r == RestSwapped(MaybeMigrated(s, p1, p2, migrate), p2, p1)
    requires u == Vacated(r, p1)
    ensures u.blocks[p2].idp !in u.fblmap
    ensures Occupied(u, p2) == Replaced(s, p1, p2, migrate)
  {
    var i1 := s.blocks[p1].idp;
    var m := (s.fblmap - {s.blocks[p2].idp})[i1 := p2];
    RestBlocks(s, p1, p2, migrate, r);
    ReplacedIs(s, p1, p2, migrate, r, m);
    DropKeepsMap(r.(fblmap := r.fblmap - {i1}), p1, m);
    assert (s.fblmap - {s.blocks[p2].idp} - {i1})[i1 := p2] == m;
  }

  lemma ReplacedIs<P>(s: State<P>, p1: P, p2: P, migrate: bool, r: State<P>, m: map<Idp, P>)
    requires p1 in s.blocks && p2 in s.blocks && p1 != p2 && r == RestSwapped(MaybeMigrated(s, p1, p2, migrate), p2, p1)
    requires m == (s.fblmap - {s.blocks[p2].idp})[s.blocks[p1].idp := p2]
    ensures Replaced(s, p1, p2, migrate) == DropRef(r.(fblmap := m), p1)
  {
    RestBlocks(s, p1, p2, migrate, r);
  }

  lemma DropKeepsMap<P>(s: State<P>, p: P, m: map<Idp, P>)
    requires p in s.blocks
    ensures DropRef(s, p).(fblmap := m) == DropRef(s.(fblmap := m), p)
    ensures DropRef(s, p).fblmap == s.fblmap
    ensures forall q | q in s.blocks :: DropRef(s, p).blocks[q].idp == s.blocks[q].idp
  {
  }

  /** p2 out of registry and namespace, and p1's ports moved to it if they are to move. */
  ghost function MaybeMigrated<P>(s: State<P>, p1: P, p2: P, migrate: bool): (r: State<P>)
    requires p1 in s.blocks && p2 in s.blocks
    ensures r.blocks.Keys == s.blocks.Keys
  {
    if migrate then PortsSwapped(Withdrawn(s, p2), p2, p1) else Withdrawn(s, p2)
  }

  lemma RestBlocks<P>(s: State<P>, p1: P, p2: P, migrate: bool, r: State<P>)
    requires p1 in s.blocks && p2 in s.blocks && p1 != p2 && r == RestSwapped(MaybeMigrated(s, p1, p2, migrate), p2, p1)
    ensures var b1, b2 := s.blocks[p1], s.blocks[p2];
            var (q1, q2) := if migrate then (b2.ports, b1.ports) else (b1.ports, b2.ports);
            r.blocks == s.blocks[p1 := Block(b1.name, b1.ftype, q1, Reown(b2.notifiers, p1), b2.others, b2.refcnt,
                                             b1.idp)]
                                [p2 := Block(b1.name, b2.ftype, q2, Reown(b1.notifiers, p2), b1.others, b1.refcnt,
                                             b1.idp)]
    ensures r.blocks[p1].idp == s.blocks[p1].idp == r.blocks[p2].idp
  {
  }
}
