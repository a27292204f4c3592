/** The control commands as a whole, the exact condition under which each keeps the invariant, and
    whole runs of commands interleaved with packet traversals. */
module FblockRuns {
  import opened Common
  import opened FblockGraph
  import opened FblockInvariant
  import opened FblockCommands

  // ---------- References that commands hold while they work ----------

  lemma TakeCommutes<P>(s: State<P>, p: P, q: P)
    requires p in s.blocks && q in s.blocks
    ensures Take(Take(s, p), q) == Take(Take(s, q), p)
  {
    assert Take(Take(s, p), q).blocks == Take(Take(s, q), p).blocks;
  }

  lemma TakeTwiceReleaseTwice<P>(s: State<P>, p: P, q: P)
    requires p in s.blocks && q in s.blocks && s.blocks[p].refcnt > 0 && s.blocks[q].refcnt > 0
    ensures Release(Release(Take(Take(s, p), q), p), q) == s
  {
    TakeCommutes(s, p, q);
    TakeReleaseCancel(Take(s, q), p);
    TakeReleaseCancel(s, q);
  }

  lemma BoundBlockTaken<P>(s: State<P>, t: State<P>, p1: P, p2: P, p: P)
    requires p1 in s.blocks && p2 in s.blocks && p in s.blocks && t.blocks.Keys == s.blocks.Keys
    requires t.blocks[p1].idp == s.blocks[p1].idp && t.blocks[p2].idp == s.blocks[p2].idp
    requires t.blocks[p] == s.blocks[p].(refcnt := t.blocks[p].refcnt)
    ensures BoundBlock(t, p1, p2, p)
         == BoundBlock(s, p1, p2, p)
            .(refcnt := BoundBlock(s, p1, p2, p).refcnt + t.blocks[p].refcnt - s.blocks[p].refcnt)
  {
  }

  lemma TakePointwise<P>(s: State<P>, q: P, p: P)
    requires q in s.blocks && p in s.blocks
    ensures Take(s, q).blocks[p] == s.blocks[p].(refcnt := s.blocks[p].refcnt + if p == q then 1 else 0)
    ensures Take(s, q) == s.(blocks := Take(s, q).blocks, held := s.held + multiset{q})
  {
  }

  lemma TakenBoundBlock<P>(s: State<P>, b: State<P>, p1: P, p2: P, q: P, p: P)
    requires p1 in s.blocks && p2 in s.blocks && q in s.blocks && p in s.blocks
    requires b.blocks.Keys == s.blocks.Keys && b.blocks[p] == BoundBlock(s, p1, p2, p)
    ensures BoundBlock(Take(s, q), p1, p2, p) == Take(b, q).blocks[p]
  {
    TakePointwise(s, q, p);
    TakePointwise(s, q, p1);
    TakePointwise(s, q, p2);
    TakePointwise(b, q, p);
    BoundBlockTaken(s, Take(s, q), p1, p2, p);
  }

  lemma TakenBound<P>(s: State<P>, t: State<P>, b: State<P>, c: State<P>, m: map<P, Block<P>>)
    requires t == s.(blocks := t.blocks, held := t.held) && b == s.(blocks := b.blocks)
             && c == b.(blocks := c.blocks, held := t.held)
    requires m.Keys == c.blocks.Keys && forall p | p in m :: m[p] == c.blocks[p]
    ensures t.(blocks := m) == c
  {
    assert m == c.blocks;
  }

  /** A lookup before a bind and one after it come to the same. */
  lemma TakeBoundCommutes<P>(s: State<P>, p1: P, p2: P, q: P)
    requires p1 in s.blocks && p2 in s.blocks && q in s.blocks
    ensures Bound(Take(s, q), p1, p2) == Take(Bound(s, p1, p2), q)
  {
    var t := Take(s, q);
    BoundPointwise(s, p1, p2);
    BoundPointwise(t, p1, p2);
    var b := s.(blocks := map p | p in s.blocks :: BoundBlock(s, p1, p2, p));
    var m := map p | p in t.blocks :: BoundBlock(t, p1, p2, p);
    forall p | p in m ensures m[p] == Take(b, q).blocks[p] { TakenBoundBlock(s, b, p1, p2, q, p); }
    TakenBound(s, t, b, Take(b, q), m);
  }

  lemma TakenAmple<P>(s: State<P>, p1: P, p2: P, q: P)
    requires Ample(s, p1, p2) && q in s.blocks
    ensures Ample(Take(s, q), p1, p2)
  {
  }

  lemma TakenUnboundBlock<P>(s: State<P>, b: State<P>, p1: P, p2: P, q: P, p: P)
    requires p1 in s.blocks && p2 in s.blocks && q in s.blocks && p in s.blocks
    requires b.blocks.Keys == s.blocks.Keys && b.blocks[p] == UnboundBlock(s, p1, p2, p)
    ensures UnboundBlock(Take(s, q), p1, p2, p) == Take(b, q).blocks[p]
  {
    TakePointwise(s, q, p);
    TakePointwise(s, q, p1);
    TakePointwise(s, q, p2);
    TakePointwise(b, q, p);
  }

  /** A lookup before an unbind and one after it come to the same. */
  lemma TakeUnboundCommutes<P>(s: State<P>, p1: P, p2: P, q: P)
    requires Ample(s, p1, p2) && q in s.blocks
    ensures Unbound(Take(s, q), p1, p2) == Take(Unbound(s, p1, p2), q)
  {
    var t := Take(s, q);
    TakenAmple(s, p1, p2, q);
    UnboundPointwise(s, p1, p2);
    UnboundPointwise(t, p1, p2);
    var b := s.(blocks := map p | p in s.blocks :: UnboundBlock(s, p1, p2, p));
    var m := map p | p in t.blocks :: UnboundBlock(t, p1, p2, p);
    forall p | p in m ensures m[p] == Take(b, q).blocks[p] { TakenUnboundBlock(s, b, p1, p2, q, p); }
    TakenBound(s, t, b, Take(b, q), m);
  }

  lemma HoldBoth<P>(s: State<P>, p1: P, p2: P)
    requires Inv(s) && Registered(s, p1) && Registered(s, p2)
    ensures var t := Take(Take(s, p1), p2);
            Inv(t) && SameGraph(s, t) && t.held == s.held + multiset{p1} + multiset{p2} && Registered(t, p1)
                && Registered(t, p2)
  {
    TakeKeepsInv(s, p1);
    TakeKeepsInv(Take(s, p1), p2);
  }

  /** Putting a reference back neither repairs nor breaks graph and counts. */
  lemma ReleaseReflects<P>(s: State<P>, p: P)
    requires p in s.blocks && p in s.held
    ensures Graph(Release(s, p)) ==> Graph(s)
    ensures Counting(Release(s, p)) ==> Counting(s)
  {
    var t := Release(s, p);
    ReleaseEffect(s, p);
    assert SameGraph(t, s);
    if Graph(t) { SameGraphKeeps(t, s); }
    if Counting(t) { SameGraphCounts(t, s); }
  }

  lemma ReleaseBothHeld<P>(s: State<P>, p1: P, p2: P, h: multiset<P>)
    requires p1 in s.blocks && p2 in s.blocks && s.held == h + multiset{p1} + multiset{p2}
    ensures p1 in s.held && p2 in Release(s, p1).held && Release(Release(s, p1), p2).held == h
  {
    assert Release(s, p1).held == h + multiset{p2};
  }

  lemma ReleaseBothKeeps<P>(s: State<P>, p1: P, p2: P, h: multiset<P>)
    requires Inv(s) && p1 in s.blocks && p2 in s.blocks && s.held == h + multiset{p1} + multiset{p2}
    ensures Inv(Release(Release(s, p1), p2))
  {
    ReleaseBothHeld(s, p1, p2, h);
    ReleaseKeepsInv(s, p1);
    ReleaseKeepsInv(Release(s, p1), p2);
  }

  lemma ReleaseBothReflects<P>(s: State<P>, p1: P, p2: P, h: multiset<P>)
    requires !(Graph(s) && Counting(s)) && p1 in s.blocks && p2 in s.blocks && s.held == h + multiset{p1} + multiset{p2}
    ensures !Inv(Release(Release(s, p1), p2))
  {
    ReleaseBothHeld(s, p1, p2, h);
    ReleaseReflects(s, p1);
    ReleaseReflects(Release(s, p1), p2);
  }

  // ---------- Two-block commands ----------

  /** The condition under which a two-block command keeps the invariant. */
  ghost predicate SafePair<P>(s: State<P>, op: PairOp, p1: P, p2: P)
    requires p1 in s.blocks && p2 in s.blocks
  {
    match op
    case DoReplace(drop) =>
      || p1 == p2 || s.blocks[p2].refcnt > 1
      || (s.held[p1] == 0 && ((s.blocks[p1].ftype == s.blocks[p2].ftype && !drop) || BoundPorts(s.blocks[p1]) == 0))
    case DoUnsubscribe =>
      || s.blocks[p2].notifiers == []
      || Count(s.blocks[p2].notifiers, s.blocks[p1].idp) > Bindings(s.blocks[p2], s.blocks[p1].idp)
    case _ => true
  }

  /** The same condition once the command holds both blocks. */
  ghost predicate SafeHeld<P>(s: State<P>, op: PairOp, p1: P, p2: P)
    requires p1 in s.blocks && p2 in s.blocks
  {
    match op
    case DoReplace(drop) =>
      || s.blocks[p2].refcnt > 2
      || (s.held[p1] == 1 && ((s.blocks[p1].ftype == s.blocks[p2].ftype && !drop) || BoundPorts(s.blocks[p1]) == 0))
    case _ => SafePair(s, op, p1, p2)
  }

  /** A command on two blocks holds one more reference on each. */
  ghost predicate BothHeld<P>(s: State<P>, p1: P, p2: P) {
    && Registered(s, p1) && Registered(s, p2) && p1 in s.held && p2 in s.held
    && (p1 == p2 ==> s.held[p1] >= 2)
  }

  lemma DropHeld<P>(s: State<P>, p: P)
    requires p in s.blocks
    ensures DropRef(s, p).held == s.held && DropRef(s, p).kept == s.kept
  {
  }

  lemma SubscribeHeld<P>(s: State<P>, us: P, remote: P)
    requires us in s.blocks && remote in s.blocks
    ensures Subscribe(s, us, remote).held == s.held && Subscribe(s, us, remote).kept == s.kept
  {
  }

  lemma UnsubscribeHeld<P>(s: State<P>, us: P, remote: P)
    requires us in s.blocks && remote in s.blocks
    ensures Unsubscribe(s, us, remote).held == s.held && Unsubscribe(s, us, remote).kept == s.kept
  {
  }

  lemma UnboundHeld<P>(s: State<P>, p1: P, p2: P)
    requires p1 in s.blocks && p2 in s.blocks
    ensures Unbound(s, p1, p2).held == s.held && Unbound(s, p1, p2).kept == s.kept
  {
    var t := SetPort(SetPort(s, p1, Egress, IDP_UNKNOWN, 0), p2, Ingress, IDP_UNKNOWN, 0);
    UnsubscribeHeld(t, p1, p2);
    var u := Unsubscribe(t, p1, p2);
    UnsubscribeHeld(u, p2, p1);
    var w := Unsubscribe(u, p2, p1);
    DropHeld(w, p2);
    DropHeld(DropRef(w, p2), p1);
  }

  lemma UnbindHeld<P>(s: State<P>, p1: P, p2: P)
    requires p1 in s.blocks && p2 in s.blocks
    ensures Core(s, DoUnbind, p1, p2).0.held == s.held && Core(s, DoUnbind, p1, p2).0.kept == s.kept
  {
    UnboundHeld(s, p1, p2);
    DropHeld(SetPort(s, p1, Egress, IDP_UNKNOWN, 0), p1);
  }

  lemma ReplacedHeld<P>(s: State<P>, p1: P, p2: P, migrate: bool)
    requires p1 in s.blocks && p2 in s.blocks
    ensures Replaced(s, p1, p2, migrate).held == s.held && Replaced(s, p1, p2, migrate).kept == s.kept
  {
  }

  /** The work of a two-block command takes and gives back no references of its own. */
  lemma CoreHeld<P>(s: State<P>, op: PairOp, p1: P, p2: P)
    requires p1 in s.blocks && p2 in s.blocks
    ensures Core(s, op, p1, p2).0.held == s.held && Core(s, op, p1, p2).0.kept == s.kept
  {
    match op
    case DoBind => BoundPointwise(s, p1, p2);
    case DoUnbind => UnbindHeld(s, p1, p2);
    case DoReplace(drop) => ReplacedHeld(s, p1, p2, s.blocks[p1].ftype == s.blocks[p2].ftype && !drop);
    case DoSubscribe => SubscribeHeld(s, p2, p1);
    case DoUnsubscribe => UnsubscribeHeld(s, p2, p1);
  }

  /** Ports are symmetric, so an unbind either finds both ends bound to each other or changes nothing. */
  lemma BoundBothWays<P>(s: State<P>, p1: P, p2: P)
    requires Registry(s) && Symmetry(s) && Registered(s, p1) && Registered(s, p2)
             && Port(s.blocks[p1], Egress) == s.blocks[p2].idp
    ensures AreBound(s, p1, p2)
  {
    assert PointsBack(s, s.blocks[p1].idp, Egress);
  }

  lemma UnbindIs<P>(s: State<P>, p1: P, p2: P)
    requires Registry(s) && Symmetry(s) && Registered(s, p1) && Registered(s, p2)
    ensures Core(s, DoUnbind, p1, p2) == if AreBound(s, p1, p2) then (Unbound(s, p1, p2), 0) else (s, -EBUSY)
  {
    if Port(s.blocks[p1], Egress) == s.blocks[p2].idp { BoundBothWays(s, p1, p2); }
  }

  lemma BindSafe<P>(s: State<P>, p1: P, p2: P, u: State<P>)
    requires Inv(s) && Registered(s, p1) && Registered(s, p2)
    requires u == if CanBind(s, p1, p2) then Bound(s, p1, p2) else s
    ensures Inv(u)
  {
    if CanBind(s, p1, p2) { BoundKeepsInv(s, p1, p2); }
  }

  lemma UnbindSafe<P>(s: State<P>, p1: P, p2: P, u: State<P>)
    requires Inv(s) && Registered(s, p1) && Registered(s, p2)
    requires u == if AreBound(s, p1, p2) then Unbound(s, p1, p2) else s
    ensures Inv(u)
  {
    if AreBound(s, p1, p2) { UnboundKeepsInv(s, p1, p2); }
  }

  lemma ReplaceSafe<P>(s: State<P>, p1: P, p2: P, migrate: bool, u: State<P>)
    requires Inv(s) && BothHeld(s, p1, p2) && s.blocks[p2].refcnt <= 2 && u == Replaced(s, p1, p2, migrate)
    requires s.held[p1] == 1 && (migrate || BoundPorts(s.blocks[p1]) == 0)
    ensures Inv(u)
  {
    PositiveOwed(s, p2);
    TestIsolates(s, p2);
    ReplacedKeepsInvIff(s, p1, p2, migrate);
  }

  lemma ReplaceUnsafe<P>(s: State<P>, p1: P, p2: P, migrate: bool, u: State<P>)
    requires Inv(s) && BothHeld(s, p1, p2) && s.blocks[p2].refcnt <= 2 && u == Replaced(s, p1, p2, migrate)
    requires !(s.held[p1] == 1 && (migrate || BoundPorts(s.blocks[p1]) == 0))
    ensures !(Graph(u) && Counting(u))
  {
    PositiveOwed(s, p2);
    TestIsolates(s, p2);
    ReplacedKeepsInvIff(s, p1, p2, migrate);
  }

  lemma UnsubscribeSafe<P>(s: State<P>, us: P, remote: P, u: State<P>)
    requires Inv(s) && Registered(s, us) && Registered(s, remote) && u == Unsubscribe(s, us, remote)
    requires s.blocks[us].notifiers != [] ==>
             Count(s.blocks[us].notifiers, s.blocks[remote].idp) > Bindings(s.blocks[us], s.blocks[remote].idp)
    ensures Inv(u)
  {
    if s.blocks[us].notifiers == [] { assert u == s; } else { UnsubscribeSpare(s, us, remote); }
  }

  lemma UnsubscribeUnsafe<P>(s: State<P>, us: P, remote: P, u: State<P>)
    requires Inv(s) && Registered(s, us) && Registered(s, remote) && u == Unsubscribe(s, us, remote)
    requires s.blocks[us].notifiers != []
             && Count(s.blocks[us].notifiers, s.blocks[remote].idp) <= Bindings(s.blocks[us], s.blocks[remote].idp)
    ensures !(Graph(u) && Counting(u))
  {
    UnsubscribeBreaks(s, us, remote);
  }

  lemma CoreKeeps<P>(s: State<P>, op: PairOp, p1: P, p2: P, u: State<P>)
    requires Inv(s) && BothHeld(s, p1, p2) && u == Core(s, op, p1, p2).0 && SafeHeld(s, op, p1, p2)
    ensures Inv(u)
  {
    match op
    case DoBind => BindSafe(s, p1, p2, u);
    case DoUnbind =>
      UnbindIs(s, p1, p2);
      UnbindSafe(s, p1, p2, u);
    case DoReplace(drop) =>
      if s.blocks[p2].refcnt <= 2 { ReplaceSafe(s, p1, p2, s.blocks[p1].ftype == s.blocks[p2].ftype && !drop, u); }
    case DoSubscribe => SubscribeKeepsInv(s, p2, p1);
    case DoUnsubscribe => UnsubscribeSafe(s, p2, p1, u);
  }

  lemma CoreBreaks<P>(s: State<P>, op: PairOp, p1: P, p2: P, u: State<P>)
    requires Inv(s) && BothHeld(s, p1, p2) && u == Core(s, op, p1, p2).0 && !SafeHeld(s, op, p1, p2)
    ensures !(Graph(u) && Counting(u))
  {
    if op.DoReplace? {
      ReplaceUnsafe(s, p1, p2, s.blocks[p1].ftype == s.blocks[p2].ftype && !op.drop, u);
    } else {
      UnsubscribeUnsafe(s, p2, p1, u);
    }
  }

  lemma SafeWhileHeld<P>(s: State<P>, op: PairOp, p1: P, p2: P)
    requires Counting(s) && Registered(s, p1) && Registered(s, p2)
    ensures SafeHeld(Take(Take(s, p1), p2), op, p1, p2) <==> SafePair(s, op, p1, p2)
  {
    PositiveOwed(s, p2);
  }

  lemma FoundRegistered<P>(s: State<P>, n: Name)
    requires Registry(s) && Found(s, n)
    ensures Registered(s, Ref(s, n))
  {
  }

  /** A replace needs blocks with a factory. */
  ghost predicate Fit<P>(s: State<P>, op: PairOp, p: P)
    requires p in s.blocks
  {
    op.DoReplace? ==> HasFactory(s, p)
  }

  /** Both blocks are there, and fit. */
  ghost predicate BothFit<P>(s: State<P>, op: PairOp, n1: Name, n2: Name) {
    Found(s, n1) && Found(s, n2) && Fit(s, op, Ref(s, n1)) && Fit(s, op, Ref(s, n2))
  }

  /** The condition of a two-block command, by name. */
  ghost predicate SafeNamed<P>(s: State<P>, op: PairOp, n1: Name, n2: Name) {
    BothFit(s, op, n1, n2) ==> SafePair(s, op, Ref(s, n1), Ref(s, n2))
  }

  /** The block, if any, on which a two-block command keeps a reference: a replace does so on the first
      block it finds without a factory. */
  ghost function Unreturned<P>(s: State<P>, op: PairOp, n1: Name, n2: Name): multiset<P> {
    if Found(s, n1) && !Fit(s, op, Ref(s, n1)) then multiset{Ref(s, n1)}
    else if Found(s, n1) && Found(s, n2) && !Fit(s, op, Ref(s, n2)) then multiset{Ref(s, n2)}
    else multiset{}
  }

  lemma PairFound<P>(s: State<P>, op: PairOp, n1: Name, n2: Name)
    requires BothFit(s, op, n1, n2)
    ensures var p1, p2 := Ref(s, n1), Ref(s, n2); var r := Core(Take(Take(s, p1), p2), op, p1, p2);
            Pair(s, op, n1, n2) == (Release(Release(r.0, p1), p2), r.1)
  {
  }

  lemma PairNotFound<P>(s: State<P>, op: PairOp, n1: Name, n2: Name)
    requires Registry(s) && Counting(s) && !(Found(s, n1) && Found(s, n2)) && Unreturned(s, op, n1, n2) == multiset{}
    ensures Pair(s, op, n1, n2) == (s, -EINVAL)
  {
    if Found(s, n1) {
      PositiveCount(s, Ref(s, n1));
      TakeReleaseCancel(s, Ref(s, n1));
    }
  }

  /** What is left of a replace that met a block without a factory: one reference more on it. */
  lemma PairUnfit<P>(s: State<P>, op: PairOp, n1: Name, n2: Name, p: P)
    requires Registry(s) && Counting(s) && Unreturned(s, op, n1, n2) == multiset{p}
    ensures p in s.blocks && Registered(s, p) && !HasFactory(s, p)
    ensures Pair(s, op, n1, n2) == (Keep(Take(s, p), p), -EINVAL)
  {
    var p1 := Ref(s, n1);
    assert p in Unreturned(s, op, n1, n2);
    FoundRegistered(s, n1);
    if !Fit(s, op, p1) {
      assert p == p1;
    } else {
      FoundRegistered(s, n2);
      PositiveCount(s, p1);
      TakeCommutes(s, p1, p);
      TakeReleaseCancel(Take(s, p), p1);
    }
  }

  lemma PairOutcome<P>(s: State<P>, op: PairOp, p1: P, p2: P)
    requires Inv(s) && Registered(s, p1) && Registered(s, p2)
    ensures var t := Release(Release(Core(Take(Take(s, p1), p2), op, p1, p2).0, p1), p2);
            t.held == s.held && (Inv(t) <==> SafePair(s, op, p1, p2))
  {
    var t := Take(Take(s, p1), p2);
    HoldBoth(s, p1, p2);
    var u := Core(t, op, p1, p2).0;
    CoreHeld(t, op, p1, p2);
    SafeWhileHeld(s, op, p1, p2);
    ReleaseBothHeld(u, p1, p2, s.held);
    if SafePair(s, op, p1, p2) {
      CoreKeeps(t, op, p1, p2, u);
      ReleaseBothKeeps(u, p1, p2, s.held);
    } else {
      CoreBreaks(t, op, p1, p2, u);
      ReleaseBothReflects(u, p1, p2, s.held);
    }
  }

  /** A two-block command keeps the invariant exactly when it is safe. It gives back every reference it took
      but those on a block without a factory that a replace met, and those nobody ever gives back. */
  lemma PairKeepsInvIff<P>(s: State<P>, op: PairOp, n1: Name, n2: Name)
    requires Inv(s)
    ensures Inv(Pair(s, op, n1, n2).0) <==> SafeNamed(s, op, n1, n2)
    ensures Pair(s, op, n1, n2).0.held == s.held + Unreturned(s, op, n1, n2)
    ensures Pair(s, op, n1, n2).0.kept == s.kept + Unreturned(s, op, n1, n2)
  {
    if BothFit(s, op, n1, n2) {
      PairFound(s, op, n1, n2);
      FoundRegistered(s, n1);
      FoundRegistered(s, n2);
      PairOutcome(s, op, Ref(s, n1), Ref(s, n2));
      CoreHeld(Take(Take(s, Ref(s, n1)), Ref(s, n2)), op, Ref(s, n1), Ref(s, n2));
    } else if Unreturned(s, op, n1, n2) == multiset{} {
      PairNotFound(s, op, n1, n2);
    } else {
      PairUnfitKeeps(s, op, n1, n2, if !Fit(s, op, Ref(s, n1)) then Ref(s, n1) else Ref(s, n2));
    }
  }

  lemma KeepInv<P>(s: State<P>, p: P)
    requires Inv(s)
    ensures Inv(Keep(s, p))
  {
    var t := Keep(s, p);
    assert SameGraph(s, t);
    SameGraphKeeps(s, t);
    SameGraphCounts(s, t);
  }

  lemma PairUnfitKeeps<P>(s: State<P>, op: PairOp, n1: Name, n2: Name, p: P)
    requires Inv(s) && Unreturned(s, op, n1, n2) == multiset{p}
    ensures Inv(Pair(s, op, n1, n2).0)
    ensures Pair(s, op, n1, n2).0.held == s.held + multiset{p} && Pair(s, op, n1, n2).0.kept == s.kept + multiset{p}
  {
    PairUnfit(s, op, n1, n2, p);
    TakeKeepsInv(s, p);
    KeepInv(Take(s, p), p);
  }

  /** A replace keeps a reference for good if and only if the first block it finds, or the second once it has
      passed the first, has no factory; and then exactly one, on that block. */
  lemma ReplaceKeepsReferenceIff<P>(s: State<P>, drop: bool, n1: Name, n2: Name)
    requires Inv(s)
    ensures var t := Pair(s, DoReplace(drop), n1, n2).0;
            && (t.kept != s.kept <==>
                  Found(s, n1) && (!HasFactory(s, Ref(s, n1)) || (Found(s, n2) && !HasFactory(s, Ref(s, n2)))))
            && (t.kept != s.kept ==>
                  exists p | p in s.blocks && !HasFactory(s, p) :: t == Keep(Take(s, p), p))
  {
    var op := DoReplace(drop);
    PairKeepsInvIff(s, op, n1, n2);
    if Unreturned(s, op, n1, n2) != multiset{} {
      var p := if !Fit(s, op, Ref(s, n1)) then Ref(s, n1) else Ref(s, n2);
      PairUnfit(s, op, n1, n2, p);
      assert Pair(s, op, n1, n2).0.kept[p] == s.kept[p] + 1;
    }
  }

  lemma SubscribeCoreIs<P>(s: State<P>, p1: P, p2: P)
    requires p1 in s.blocks && p2 in s.blocks
    ensures Core(s, DoSubscribe, p1, p2) == (Subscribe(s, p2, p1), 0)
  {
  }

  lemma UnsubscribeCoreIs<P>(s: State<P>, p1: P, p2: P)
    requires p1 in s.blocks && p2 in s.blocks
    ensures Core(s, DoUnsubscribe, p1, p2) == (Unsubscribe(s, p2, p1), 0)
  {
  }

  lemma ReplaceCoreIs<P>(s: State<P>, p1: P, p2: P, drop: bool)
    requires p1 in s.blocks && p2 in s.blocks
    ensures Core(s, DoReplace(drop), p1, p2) ==
              if s.blocks[p2].refcnt > 2 then (s, -EBUSY)
              else (Replaced(s, p1, p2, s.blocks[p1].ftype == s.blocks[p2].ftype && !drop), 0)
  {
  }

  // ---------- Remove and add ----------

  lemma RemoveKeepsInv<P>(s: State<P>, n: Name)
    requires Inv(s)
    ensures Inv(Remove(s, n).0) && Remove(s, n).0.held == s.held && Remove(s, n).0.kept == s.kept
  {
    if Found(s, n) {
      var p := Ref(s, n);
      FoundRegistered(s, n);
      PositiveCount(s, p);
      RemoveIs(s, n, p);
      if s.blocks[p].refcnt == 1 && HasFactory(s, p) {
        TakeKeepsInv(s, p);
        RemovedKeepsInv(s, Take(s, p), p);
      }
    }
  }

  lemma RemoveIs<P>(s: State<P>, n: Name, p: P)
    requires Found(s, n) && p == Ref(s, n) && s.blocks[p].refcnt > 0
    ensures Remove(s, n) == if !HasFactory(s, p) then (s, -EINVAL)
                            else if s.blocks[p].refcnt > 1 then (s, -EBUSY)
                            else (Release(Unregister(Take(s, p), p), p), 0)
  {
    TakeReleaseCancel(s, p);
  }

  lemma RemovedKeepsInv<P>(s: State<P>, t: State<P>, p: P)
    requires Inv(t) && Registered(t, p) && t.held == s.held + multiset{p} && t.blocks[p].refcnt <= 2
    ensures Inv(Release(Unregister(t, p), p)) && Release(Unregister(t, p), p).held == s.held
  {
    UnregisterKeepsInv(t, p);
    ReleaseKeepsInv(Unregister(t, p), p);
  }

  /** t is s with a new block b registered as the object p. */
  ghost predicate Added<P>(s: State<P>, t: State<P>, p: P, b: Block<P>) {
    && p !in s.blocks && b.idp == s.counter + 1 == t.counter < IDP_SPACE && b.name !in s.idpmap
    && t.cpus == s.cpus && t.fblmap == s.fblmap[b.idp := p] && t.idpmap == s.idpmap[b.name := b.idp]
       && t.blocks == s.blocks[p := b]
    && t.held == s.held && t.dead == s.dead && b.notifiers == [] && b.refcnt == 1
    && b.ports == seq(s.cpus, _ => NO_PORTS)
  }

  lemma AddedNames<P>(s: State<P>, t: State<P>, p: P, b: Block<P>)
    requires Registry(s) && Namespace(s) && Replicas(s) && Added(s, t, p, b)
    ensures Registry(t) && Namespace(t) && Replicas(t)
  {
    forall i | i in t.fblmap && Live(t, i) ensures BlockAt(t, i).name in t.idpmap && t.idpmap[BlockAt(t, i).name] == i {
      if i != b.idp { assert Live(s, i) && BlockAt(s, i).name in s.idpmap; }
    }
    forall n | n in t.idpmap ensures Live(t, t.idpmap[n]) && BlockAt(t, t.idpmap[n]).name == n {
      if n != b.name { assert Live(s, s.idpmap[n]) && BlockAt(s, s.idpmap[n]).name == n; }
    }
  }

  lemma AddedSymmetry<P>(s: State<P>, t: State<P>, p: P, b: Block<P>)
    requires Registry(s) && Replicas(s) && Symmetry(s) && Added(s, t, p, b)
    ensures Symmetry(t)
  {
    forall i | i in t.fblmap && Live(t, i) ensures PointsBack(t, i, Egress) && PointsBack(t, i, Ingress) {
      if i != b.idp { assert Live(s, i) && PointsBack(s, i, Egress) && PointsBack(s, i, Ingress); }
    }
  }

  lemma AddedLists<P>(s: State<P>, t: State<P>, p: P, b: Block<P>)
    requires Registry(s) && Replicas(s) && Symmetry(s) && Notifiers(s) && Subscribed(s) && Added(s, t, p, b)
    ensures Notifiers(t) && Subscribed(t)
  {
    forall i | i in t.fblmap && Live(t, i) ensures OwnList(BlockAt(t, i).notifiers, t.fblmap[i], t.fblmap.Keys) {
      if i != b.idp { assert Live(s, i) && OwnList(BlockAt(s, i).notifiers, s.fblmap[i], s.fblmap.Keys); }
    }
    forall i, j | i in t.fblmap && Live(t, i) && j in t.fblmap
      ensures Count(BlockAt(t, i).notifiers, j) >= Bindings(BlockAt(t, i), j)
    {
      if i != b.idp {
        assert Live(s, i) && PointsBack(s, i, Egress) && PointsBack(s, i, Ingress);
        if j != b.idp { assert Count(BlockAt(s, i).notifiers, j) >= Bindings(BlockAt(s, i), j); }
      }
    }
  }

  lemma {:induction false} ForeignCount<P>(l: seq<Notifier<P>>, p: P, idps: set<Idp>, i: Idp)
    requires OwnList(l, p, idps) && i !in idps
    ensures Count(l, i) == 0
  {
    if l == [] {
    } else {
      assert OwnList(l[1..], p, idps);
      ForeignCount(l[1..], p, idps, i);
    }
  }

  lemma AddedOwes<P>(s: State<P>, t: State<P>, p: P, b: Block<P>, q: P)
    requires Registry(s) && Replicas(s) && Notifiers(s) && Added(s, t, p, b) && q in t.blocks
    ensures Owed(t, q) == if q == p then 1 else Owed(s, q)
  {
    var i := t.blocks[q].idp;
    SameRefs(s, t, i, s.counter);
    assert RefsUpTo(t, i, t.counter) == RefsUpTo(s, i, s.counter) + Contribution(t, b.idp, i);
    if q == p {
      forall m: nat | 1 <= m <= s.counter ensures Contribution(s, m, i) == 0 {
        if Live(s, m) { ForeignCount(BlockAt(s, m).notifiers, s.fblmap[m], s.fblmap.Keys, i); }
      }
      NoRefs(s, i, s.counter);
    }
  }

  lemma {:induction false} NoRefs<P>(s: State<P>, i: Idp, n: nat)
    requires forall m: nat | 1 <= m <= n :: Contribution(s, m, i) == 0
    ensures RefsUpTo(s, i, n) == 0
  {
    if n == 0 {
    } else {
      NoRefs(s, i, n - 1);
    }
  }

  lemma AddedCounts<P>(s: State<P>, t: State<P>, p: P, b: Block<P>)
    requires Registry(s) && Replicas(s) && Notifiers(s) && Counting(s) && FreedOnce(s) && Added(s, t, p, b)
    ensures Counting(t) && FreedOnce(t)
  {
    forall q | q in t.blocks ensures t.blocks[q].refcnt == Owed(t, q) + t.held[q] { AddedOwes(s, t, p, b, q); }
  }

  lemma AddedKeepsInv<P>(s: State<P>, t: State<P>, p: P, b: Block<P>)
    requires Inv(s) && Added(s, t, p, b)
    ensures Inv(t)
  {
    AddedNames(s, t, p, b);
    AddedSymmetry(s, t, p, b);
    AddedLists(s, t, p, b);
    AddedCounts(s, t, p, b);
  }

  /** A name that is registered already once cut to the length names are stored with. */
  ghost predicate NameClash<P>(s: State<P>, n: Name) {
    !Found(s, n) && Truncate(n) in s.idpmap
  }

  lemma RegisterIs<P>(s: State<P>, n: Name, ftype: Option<string>, p: P, others: nat)
    requires Registry(s) && p !in s.blocks && s.counter + 1 < IDP_SPACE
    ensures var t := Register(s, n, ftype, p, others).0;
            && t.held == s.held && t.kept == s.kept
            && if Truncate(n) in s.idpmap then t.blocks == s.blocks && t.fblmap == s.fblmap[s.counter + 1 := p]
               else p in t.blocks && Added(s, t, p, t.blocks[p])
  {
    var i := s.counter + 1;
    assert i !in s.fblmap && i % IDP_SPACE == i;
  }

  /** Registering a new object keeps the invariant unless the stored form of its name is taken: then the
      registry keeps an entry for an object that no longer exists. */
  lemma RegisterKeepsInvIff<P>(s: State<P>, n: Name, ftype: Option<string>, p: P, others: nat, t: State<P>)
    requires Inv(s) && p !in s.blocks && s.counter + 1 < IDP_SPACE && t == Register(s, n, ftype, p, others).0
    ensures Inv(t) <==> Truncate(n) !in s.idpmap
    ensures t.held == s.held && t.kept == s.kept
  {
    RegisterIs(s, n, ftype, p, others);
    if Truncate(n) in s.idpmap {
      assert s.counter + 1 in t.fblmap && t.fblmap[s.counter + 1] !in t.blocks;
    } else {
      AddedKeepsInv(s, t, p, t.blocks[p]);
    }
  }

  /** Adding a block keeps the invariant unless the name is new but its stored form is not. */
  lemma AddKeepsInvIff<P>(s: State<P>, n: Name, ftype: string, known: bool, p: P, others: nat, t: State<P>)
    requires Inv(s) && p !in s.blocks && s.counter + 1 < IDP_SPACE && t == Add(s, n, ftype, known, p, others).0
    ensures Inv(t) <==> !(known && NameClash(s, n))
    ensures t.held == s.held && t.kept == s.kept
  {
    if Found(s, n) || !known {
      assert t == s;
    } else {
      RegisterKeepsInvIff(s, n, Some(ftype), p, others, t);
    }
  }

  // ---------- Runs ----------

  /** What can happen: a command, the vlink layer registering a block without a factory, a packet
      traversal looking a block up by idp, or one putting a block back. */
  datatype Event<P> =
    | AddBlock(name: Name, ftype: string, known: bool, obj: P, others: nat)
    | AddLink(name: Name, obj: P, others: nat)
    | RemoveBlock(name: Name)
    | OnPair(op: PairOp, name1: Name, name2: Name)
    | Enter(idp: Idp)
    | Leave(obj: P)

  ghost function Step<P>(s: State<P>, e: Event<P>): State<P> {
    match e
    case AddBlock(n, ftype, known, p, others) => Add(s, n, ftype, known, p, others).0
    case AddLink(n, p, others) => Register(s, n, None, p, others).0
    case RemoveBlock(n) => Remove(s, n).0
    case OnPair(op, n1, n2) => Pair(s, op, n1, n2).0
    case Enter(i) => if Live(s, i) then Take(s, s.fblmap[i]) else s
    case Leave(p) => if p in s.blocks then Release(s, p) else s
  }

  /** New objects are new, idps have not run out, and packets put back only references they hold. */
  ghost predicate Possible<P>(s: State<P>, e: Event<P>) {
    match e
    case AddBlock(_, _, _, p, _) => p !in s.blocks && s.counter + 1 < IDP_SPACE
    case AddLink(_, p, _) => p !in s.blocks && s.counter + 1 < IDP_SPACE
    case Leave(p) => s.kept[p] < s.held[p]
    case _ => true
  }

  /** What a caller has to respect for the invariant to survive. */
  ghost predicate Safe<P>(s: State<P>, e: Event<P>) {
    match e
    case AddBlock(n, _, known, _, _) => !(known && NameClash(s, n))
    case AddLink(n, _, _) => Truncate(n) !in s.idpmap
    case OnPair(op, n1, n2) => SafeNamed(s, op, n1, n2)
    case _ => true
  }

  /** One step keeps the invariant exactly when it is safe. */
  lemma StepKeepsInvIff<P>(s: State<P>, e: Event<P>)
    requires Inv(s) && Possible(s, e)
    ensures Inv(Step(s, e)) <==> Safe(s, e)
  {
    match e
    case AddBlock(n, ftype, known, p, others) => AddKeepsInvIff(s, n, ftype, known, p, others, Step(s, e));
    case AddLink(n, p, others) => RegisterKeepsInvIff(s, n, None, p, others, Step(s, e));
    case RemoveBlock(n) => RemoveKeepsInv(s, n);
    case OnPair(op, n1, n2) => PairKeepsInvIff(s, op, n1, n2);
    case Enter(i) => if Live(s, i) { TakeKeepsInv(s, s.fblmap[i]); }
    case Leave(p) => ReleaseKeepsInv(s, p);
  }

  ghost function Run<P>(s: State<P>, es: seq<Event<P>>): State<P>
    decreases |es|
  {
    if es == [] then s else Run(Step(s, es[0]), es[1..])
  }

  ghost predicate SafeRun<P>(s: State<P>, es: seq<Event<P>>)
    decreases |es|
  {
    es != [] ==> Possible(s, es[0]) && Safe(s, es[0]) && SafeRun(Step(s, es[0]), es[1..])
  }

  ghost predicate Initial<P>(s: State<P>) {
    s.cpus > 0 && s == State(s.cpus, map[], map[], map[], 0, multiset{}, multiset{}, multiset{})
  }

  lemma {:induction false} RunKeepsInv<P>(s: State<P>, es: seq<Event<P>>)
    requires Inv(s) && SafeRun(s, es)
    ensures Inv(Run(s, es))
    decreases |es|
  {
    if es == [] {
    } else {
      StepKeepsInvIff(s, es[0]);
      RunKeepsInv(Step(s, es[0]), es[1..]);
    }
  }

  /** Every state that safe commands and packet traversals reach satisfies the invariant. */
  lemma ReachableInv<P>(s: State<P>, es: seq<Event<P>>)
    requires Initial(s) && SafeRun(s, es)
    ensures Inv(Run(s, es))
  {
    RunKeepsInv(s, es);
  }

  lemma RefusedCore<P>(s: State<P>, t: State<P>, p1: P, p2: P, drop: bool)
    requires p1 in s.blocks && p2 in s.blocks && t == Take(Take(s, p1), p2) && s.blocks[p2].refcnt > 1
    ensures Core(t, DoReplace(drop), p1, p2) == (t, -EBUSY)
  {
    TakePointwise(s, p1, p2);
    TakePointwise(Take(s, p1), p2, p2);
    ReplaceCoreIs(t, p1, p2, drop);
  }

  lemma ReplaceRefused<P>(s: State<P>, n1: Name, n2: Name, drop: bool)
    requires BothFit(s, DoReplace(drop), n1, n2) && s.blocks[Ref(s, n1)].refcnt > 0 && s.blocks[Ref(s, n2)].refcnt > 1
    ensures Pair(s, DoReplace(drop), n1, n2) == (s, -EBUSY)
  {
    var p1, p2 := Ref(s, n1), Ref(s, n2);
    PairFound(s, DoReplace(drop), n1, n2);
    TakeTwiceReleaseTwice(s, p1, p2);
    RefusedCore(s, Take(Take(s, p1), p2), p1, p2, drop);
  }

  lemma BoundCountAboveOne<P>(s: State<P>, p: P)
    requires Counting(s) && Registered(s, p) && BoundPorts(s.blocks[p]) > 0
    ensures s.blocks[p].refcnt > 1
  {
  }

  lemma BoundStays<P>(s: State<P>, n: Name, other: Name, drop: bool)
    requires Registry(s) && Counting(s) && Found(s, n) && Found(s, other) && BoundPorts(s.blocks[Ref(s, n)]) > 0
    ensures Remove(s, n) == (s, if HasFactory(s, Ref(s, n)) then -EBUSY else -EINVAL)
    ensures BothFit(s, DoReplace(drop), other, n) ==> Pair(s, DoReplace(drop), other, n) == (s, -EBUSY)
  {
    var p, q := Ref(s, n), Ref(s, other);
    FoundRegistered(s, n);
    FoundRegistered(s, other);
    PositiveCount(s, q);
    BoundCountAboveOne(s, p);
    RemoveIs(s, n, p);
    if BothFit(s, DoReplace(drop), other, n) { ReplaceRefused(s, other, n, drop); }
  }

  lemma UnfitOnlyCounts<P>(s: State<P>, op: PairOp, n1: Name, n2: Name)
    requires Registry(s) && Counting(s) && Found(s, n1) && Found(s, n2) && !BothFit(s, op, n1, n2)
    ensures Pair(s, op, n1, n2).1 == -EINVAL && SameGraph(s, Pair(s, op, n1, n2).0)
  {
    var p := if !Fit(s, op, Ref(s, n1)) then Ref(s, n1) else Ref(s, n2);
    PairUnfit(s, op, n1, n2, p);
    TakeCounts(s, p);
  }

  /** In every safe run a bound block cannot be removed, nor used up as the replacement of another: the
      command is refused and at most a reference count changes. */
  lemma BoundBlockStays<P>(s: State<P>, es: seq<Event<P>>, t: State<P>, n: Name, other: Name, drop: bool)
    requires Initial(s) && SafeRun(s, es) && t == Run(s, es)
    requires Found(t, n) && Found(t, other) && BoundPorts(t.blocks[Ref(t, n)]) > 0
    ensures Remove(t, n) == (t, if HasFactory(t, Ref(t, n)) then -EBUSY else -EINVAL)
    ensures var (u, ret) := Pair(t, DoReplace(drop), other, n);
            if BothFit(t, DoReplace(drop), other, n) then u == t && ret == -EBUSY else SameGraph(t, u) && ret == -EINVAL
  {
    ReachableInv(s, es);
    BoundStays(t, n, other, drop);
    if !BothFit(t, DoReplace(drop), other, n) { UnfitOnlyCounts(t, DoReplace(drop), other, n); }
  }

  // ---------- References that are never given back ----------

  /** Nobody gives back what is kept. */
  ghost predicate KeptHeld<P>(s: State<P>) {
    s.kept <= s.held
  }

  lemma MoreKept<P>(s: State<P>, t: State<P>, u: multiset<P>)
    requires KeptHeld(s) && t.held == s.held + u && t.kept == s.kept + u
    ensures KeptHeld(t) && s.kept <= t.kept
  {
  }

  lemma LeaveKept<P>(s: State<P>, p: P)
    requires KeptHeld(s) && s.kept[p] < s.held[p] && p in s.blocks
    ensures KeptHeld(Release(s, p)) && Release(s, p).kept == s.kept
  {
  }

  lemma StepKept<P>(s: State<P>, e: Event<P>, t: State<P>)
    requires Inv(s) && Possible(s, e) && KeptHeld(s) && t == Step(s, e)
    ensures s.kept <= t.kept && KeptHeld(t)
  {
    if e.OnPair? {
      PairKeepsInvIff(s, e.op, e.name1, e.name2);
      MoreKept(s, t, Unreturned(s, e.op, e.name1, e.name2));
    } else if e.Leave? {
      LeaveKept(s, e.obj);
    } else {
      OtherStepKept(s, e, t);
    }
  }

  lemma OtherStepKept<P>(s: State<P>, e: Event<P>, t: State<P>)
    requires Inv(s) && Possible(s, e) && KeptHeld(s) && t == Step(s, e) && !e.OnPair? && !e.Leave?
    ensures s.kept <= t.kept && KeptHeld(t)
  {
    match e
    case AddBlock(n, ftype, known, p, others) => AddKeepsInvIff(s, n, ftype, known, p, others, t);
    case AddLink(n, p, others) => RegisterKeepsInvIff(s, n, None, p, others, t);
    case RemoveBlock(n) => RemoveKeepsInv(s, n);
    case Enter(i) =>
  }

  lemma {:induction false} RunKept<P>(s: State<P>, es: seq<Event<P>>)
    requires Inv(s) && SafeRun(s, es) && KeptHeld(s)
    ensures s.kept <= Run(s, es).kept && KeptHeld(Run(s, es))
    decreases |es|
  {
    if es == [] {
    } else {
      StepKeepsInvIff(s, es[0]);
      StepKept(s, es[0], Step(s, es[0]));
      RunKept(Step(s, es[0]), es[1..]);
    }
  }

  lemma {:induction false} RunSplits<P>(s: State<P>, es: seq<Event<P>>, more: seq<Event<P>>)
    requires SafeRun(s, es + more)
    ensures SafeRun(s, es) && SafeRun(Run(s, es), more) && Run(s, es + more) == Run(Run(s, es), more)
    decreases |es|
  {
    if es == [] {
      assert es + more == more;
    } else {
      assert (es + more)[1..] == es[1..] + more;
      RunSplits(Step(s, es[0]), es[1..], more);
    }
  }

  /** In every safe run a block on which a replace has kept a reference stays for good: whatever happens
      afterwards, its count never comes down to what was kept on it before, and it is never freed. */
  lemma KeptForGood<P>(s: State<P>, es: seq<Event<P>>, more: seq<Event<P>>, p: P)
    requires Initial(s) && SafeRun(s, es + more) && p in Run(s, es).kept
    ensures var t := Run(s, es + more); p in t.blocks && t.blocks[p].refcnt >= Run(s, es).kept[p] && p !in t.dead
  {
    var t := Run(s, es + more);
    RunSplits(s, es, more);
    ReachableInv(s, es);
    RunKept(s, es);
    ReachableInv(s, es + more);
    RunKept(Run(s, es), more);
    assert Run(s, es).kept[p] <= t.kept[p] <= t.held[p];
    assert p in t.held && t.blocks[p].refcnt == Owed(t, p) + t.held[p];
  }

  // ---------- Bind and unbind as commands ----------

  lemma BoundWhileHeld<P>(s: State<P>, p1: P, p2: P)
    requires p1 in s.blocks && p2 in s.blocks
    ensures Bound(Take(Take(s, p1), p2), p1, p2) == Take(Take(Bound(s, p1, p2), p1), p2)
  {
    TakeBoundCommutes(s, p1, p2, p1);
    TakeBoundCommutes(Take(s, p1), p1, p2, p2);
  }

  lemma BoundLookup<P>(s: State<P>, p1: P, p2: P)
    requires p1 in s.blocks && p2 in s.blocks && s.blocks[p1].refcnt > 0 && s.blocks[p2].refcnt > 0
    ensures var t := Bound(s, p1, p2);
            && t.fblmap == s.fblmap && t.idpmap == s.idpmap && t.blocks[p1].refcnt > 0 && t.blocks[p2].refcnt > 0
            && t.blocks[p1].idp == s.blocks[p1].idp && t.blocks[p2].idp == s.blocks[p2].idp
  {
    BoundPointwise(s, p1, p2);
  }

  /** A bind either binds the two blocks or, refused by one of them, changes nothing at all. */
  lemma BindCommand<P>(s: State<P>, n1: Name, n2: Name)
    requires Registry(s) && Counting(s) && Found(s, n1) && Found(s, n2)
    ensures var p1, p2 := Ref(s, n1), Ref(s, n2);
            Pair(s, DoBind, n1, n2) == if CanBind(s, p1, p2) then (Bound(s, p1, p2), 0) else (s, -EBUSY)
  {
    var p1, p2 := Ref(s, n1), Ref(s, n2);
    var t := Take(Take(s, p1), p2);
    FoundRegistered(s, n1);
    FoundRegistered(s, n2);
    PositiveCount(s, p1);
    PositiveCount(s, p2);
    PairFound(s, DoBind, n1, n2);
    TakeTwiceReleaseTwice(s, p1, p2);
    BindCore(t, p1, p2);
    HoldingPorts(s, p1, p2);
    if CanBind(s, p1, p2) {
      BoundWhileHeld(s, p1, p2);
      BoundLookup(s, p1, p2);
      TakeTwiceReleaseTwice(Bound(s, p1, p2), p1, p2);
    }
  }

  lemma BindCore<P>(s: State<P>, p1: P, p2: P)
    requires Registered(s, p1) && Registered(s, p2)
    ensures Core(s, DoBind, p1, p2) == if CanBind(s, p1, p2) then (Bound(s, p1, p2), 0) else (s, -EBUSY)
  {
  }

  lemma HoldingPorts<P>(s: State<P>, p1: P, p2: P)
    requires p1 in s.blocks && p2 in s.blocks
    ensures var t := Take(Take(s, p1), p2);
            && CanBind(t, p1, p2) == CanBind(s, p1, p2) && AreBound(t, p1, p2) == AreBound(s, p1, p2)
            && Registered(t, p1) == Registered(s, p1) && Registered(t, p2) == Registered(s, p2)
  {
  }

  lemma BoundAreBound<P>(s: State<P>, p1: P, p2: P)
    requires Replicas(s) && CanBind(s, p1, p2)
    ensures AreBound(Bound(s, p1, p2), p1, p2)
  {
    BoundRewired(s, p1, p2);
  }

  lemma UnbindCore<P>(s: State<P>, p1: P, p2: P)
    requires AreBound(s, p1, p2)
    ensures Core(s, DoUnbind, p1, p2) == (Unbound(s, p1, p2), 0)
  {
  }

  /** Binding two blocks by name and unbinding them again restores the whole state: ports on every
      CPU, both lists, every reference count. */
  lemma UnbindCommandUndoesBind<P>(s: State<P>, n1: Name, n2: Name)
    requires Registry(s) && Replicas(s) && Counting(s) && Found(s, n1) && Found(s, n2)
             && CanBind(s, Ref(s, n1), Ref(s, n2))
    ensures Pair(Pair(s, DoBind, n1, n2).0, DoUnbind, n1, n2) == (s, 0)
  {
    var p1, p2 := Ref(s, n1), Ref(s, n2);
    PositiveCount(s, p1);
    PositiveCount(s, p2);
    BindCommand(s, n1, n2);
    BoundLookup(s, p1, p2);
    PairFound(Bound(s, p1, p2), DoUnbind, n1, n2);
    BoundAreBound(s, p1, p2);
    HoldingPorts(Bound(s, p1, p2), p1, p2);
    UnbindCore(Take(Take(Bound(s, p1, p2), p1), p2), p1, p2);
    BoundWhileHeld(s, p1, p2);
    HeldUnbindUndoesBind(s, p1, p2);
    TakeTwiceReleaseTwice(s, p1, p2);
  }

  lemma HeldUnbindUndoesBind<P>(s: State<P>, p1: P, p2: P)
    requires Replicas(s) && CanBind(s, p1, p2) && s.blocks[p1].refcnt > 0 && s.blocks[p2].refcnt > 0
    ensures var t := Take(Take(s, p1), p2); Unbound(Bound(t, p1, p2), p1, p2) == t
  {
    var t := Take(Take(s, p1), p2);
    HoldingPorts(s, p1, p2);
    TakeReplicas(s, p1);
    TakeReplicas(Take(s, p1), p2);
    UnbindUndoesBind(t, p1, p2);
  }

  lemma TakeReplicas<P>(s: State<P>, p: P)
    requires Replicas(s) && p in s.blocks
    ensures Replicas(Take(s, p))
    ensures forall q | q in s.blocks :: Take(s, p).blocks[q].refcnt >= s.blocks[q].refcnt
  {
    forall q | q in s.blocks ensures SameOnAllCpus(Take(s, p).blocks[q].ports, s.cpus) {
      assert SameOnAllCpus(s.blocks[q].ports, s.cpus);
    }
  }

  lemma UnboundWhileHeld<P>(s: State<P>, p1: P, p2: P)
    requires Ample(s, p1, p2)
    ensures var u := Unbound(s, p1, p2);
            && u.blocks[p1].refcnt > 0 && u.blocks[p2].refcnt > 0
            && Unbound(Take(Take(s, p1), p2), p1, p2) == Take(Take(u, p1), p2)
  {
    TakeUnboundCommutes(s, p1, p2, p1);
    TakenAmple(s, p1, p2, p1);
    TakeUnboundCommutes(Take(s, p1), p1, p2, p2);
    UnboundPointwise(s, p1, p2);
  }

  /** An unbind by name takes the binding apart exactly when the two are bound to each other; otherwise
      it changes nothing, so no block is ever left half unbound. */
  lemma UnbindCommand<P>(s: State<P>, n1: Name, n2: Name)
    requires Inv(s) && Found(s, n1) && Found(s, n2)
    ensures var p1, p2 := Ref(s, n1), Ref(s, n2);
            Pair(s, DoUnbind, n1, n2) == if AreBound(s, p1, p2) then (Unbound(s, p1, p2), 0) else (s, -EBUSY)
  {
    var p1, p2 := Ref(s, n1), Ref(s, n2);
    FoundRegistered(s, n1);
    FoundRegistered(s, n2);
    PairFound(s, DoUnbind, n1, n2);
    HoldBoth(s, p1, p2);
    HoldingPorts(s, p1, p2);
    UnbindIs(Take(Take(s, p1), p2), p1, p2);
    if AreBound(s, p1, p2) {
      BoundAmple(s, p1, p2);
      UnboundWhileHeld(s, p1, p2);
      TakeTwiceReleaseTwice(Unbound(s, p1, p2), p1, p2);
    } else {
      PositiveCount(s, p1);
      PositiveCount(s, p2);
      TakeTwiceReleaseTwice(s, p1, p2);
    }
  }

  // ---------- Replace as a command ----------

  /** Seen through every idp and every name but the given-up ones, t is s: same ports on every CPU,
      same notifiers with self pointing to the block now in place, same subscribers, same count. */
  ghost predicate SameThroughIds<P>(s: State<P>, t: State<P>, i2: Idp, n2: Name) {
    && t.fblmap.Keys == s.fblmap.Keys - {i2} && t.idpmap == s.idpmap - {n2}
    && (forall i | i in t.fblmap :: Live(s, i) && Live(t, i) && SameBlock(BlockAt(s, i), BlockAt(t, i), t.fblmap[i]))
  }

  ghost predicate SameBlock<P>(b: Block<P>, c: Block<P>, owner: P) {
    && c.name == b.name && c.idp == b.idp && c.ports == b.ports && c.others == b.others && c.refcnt == b.refcnt
    && c.notifiers == Reown(b.notifiers, owner)
  }

  lemma OwnReown<P>(l: seq<Notifier<P>>, p: P, idps: set<Idp>)
    requires OwnList(l, p, idps)
    ensures Reown(l, p) == l
  {
  }

  /** What is left of a replace once the command has put its two references back. */
  lemma ReplacedReleased<P>(s: State<P>, u: State<P>, t: State<P>, p1: P, p2: P)
    requires p1 in s.blocks && p2 in s.blocks && p1 != p2 && u == Take(Take(s, p1), p2) && s.blocks[p2].refcnt == 1
    requires s.blocks[p1].refcnt > 0 && HasFactory(s, p1) && t == Release(Release(Replaced(u, p1, p2, true), p1), p2)
    ensures t.fblmap == (s.fblmap - {s.blocks[p2].idp})[s.blocks[p1].idp := p2]
            && t.idpmap == s.idpmap - {s.blocks[p2].name}
    ensures t.dead == s.dead + multiset{p1} && t.blocks.Keys == s.blocks.Keys && t.blocks[p1].refcnt == 0
    ensures forall q | q in s.blocks && q != p1 && q != p2 :: t.blocks[q] == s.blocks[q]
    ensures SameBlock(s.blocks[p1], t.blocks[p2], p2) && t.held == s.held
  {
    var r := Replaced(u, p1, p2, true);
    assert r.blocks[p1].refcnt == 1 && r.dead == s.dead && r.blocks[p2].refcnt == s.blocks[p1].refcnt + 1;
    var w := Release(r, p1);
    assert w.blocks[p1].refcnt == 0 && w.dead == s.dead + multiset{p1} && w.blocks[p2] == r.blocks[p2];
    assert w.fblmap == r.fblmap && w.idpmap == r.idpmap;
  }

  /** t is s after a transparent replace: everything reached by an idp or a name other than the
      replacement's own is as before, and only the old object died, once. */
  ghost predicate Transparent<P>(s: State<P>, t: State<P>, n1: Name, n2: Name)
    requires Found(s, n1) && Found(s, n2)
  {
    && SameThroughIds(s, t, s.idpmap[n2], n2)
    && Found(t, n1) && Ref(t, n1) == Ref(s, n2)
    && t.dead == s.dead + multiset{Ref(s, n1)} && t.held == s.held
  }

  lemma TransparentAfter<P>(s: State<P>, t: State<P>, n1: Name, n2: Name, p1: P, p2: P)
    requires Registry(s) && Namespace(s) && Notifiers(s) && Found(s, n1) && Found(s, n2) && p1 == Ref(s, n1)
             && p2 == Ref(s, n2) && p1 != p2
    requires t.fblmap == (s.fblmap - {s.blocks[p2].idp})[s.blocks[p1].idp := p2]
             && t.idpmap == s.idpmap - {s.blocks[p2].name}
    requires t.dead == s.dead + multiset{p1} && t.held == s.held && t.blocks.Keys == s.blocks.Keys
    requires forall q | q in s.blocks && q != p1 && q != p2 :: t.blocks[q] == s.blocks[q]
    requires SameBlock(s.blocks[p1], t.blocks[p2], p2)
    ensures Transparent(s, t, n1, n2)
  {
    assert BlockAt(s, s.idpmap[n2]).name == n2 && BlockAt(s, s.idpmap[n1]).name == n1;
    forall i | i in t.fblmap ensures Live(s, i) && Live(t, i) && SameBlock(BlockAt(s, i), BlockAt(t, i), t.fblmap[i]) {
      ThroughIds(s, t, p1, p2, i);
    }
  }

  /** A same-type replace without drop is transparent. */
  lemma ReplaceTransparent<P>(s: State<P>, n1: Name, n2: Name)
    requires Registry(s) && Namespace(s) && Notifiers(s) && Counting(s)
    requires Found(s, n1) && Found(s, n2) && Ref(s, n1) != Ref(s, n2)
    requires s.blocks[Ref(s, n1)].ftype == s.blocks[Ref(s, n2)].ftype && HasFactory(s, Ref(s, n1))
    requires s.blocks[Ref(s, n2)].refcnt == 1
    ensures Pair(s, DoReplace(false), n1, n2).1 == 0
    ensures Transparent(s, Pair(s, DoReplace(false), n1, n2).0, n1, n2)
  {
    var p1, p2 := Ref(s, n1), Ref(s, n2);
    FoundRegistered(s, n1);
    PositiveCount(s, p1);
    PairFound(s, DoReplace(false), n1, n2);
    var u := Take(Take(s, p1), p2);
    ReplaceCore(s, u, p1, p2);
    var t := Release(Release(Replaced(u, p1, p2, true), p1), p2);
    ReplacedReleased(s, u, t, p1, p2);
    TransparentAfter(s, t, n1, n2, p1, p2);
  }

  lemma ReplaceCore<P>(s: State<P>, u: State<P>, p1: P, p2: P)
    requires p1 in s.blocks && p2 in s.blocks && p1 != p2 && u == Take(Take(s, p1), p2)
    requires s.blocks[p2].refcnt == 1 && s.blocks[p1].ftype == s.blocks[p2].ftype
    ensures Core(u, DoReplace(false), p1, p2) == (Replaced(u, p1, p2, true), 0)
  {
  }

  lemma ThroughIds<P>(s: State<P>, t: State<P>, p1: P, p2: P, i: Idp)
    requires Registry(s) && Notifiers(s) && Registered(s, p1) && Registered(s, p2) && p1 != p2 && i in t.fblmap
    requires t.fblmap == (s.fblmap - {s.blocks[p2].idp})[s.blocks[p1].idp := p2] && t.blocks.Keys == s.blocks.Keys
    requires forall q | q in s.blocks && q != p1 && q != p2 :: t.blocks[q] == s.blocks[q]
    requires SameBlock(s.blocks[p1], t.blocks[p2], p2)
    ensures Live(s, i) && Live(t, i) && SameBlock(BlockAt(s, i), BlockAt(t, i), t.fblmap[i])
  {
    if i != s.blocks[p1].idp {
      assert Live(s, i) && s.fblmap[i] != p1 && s.fblmap[i] != p2;
      OwnReown(BlockAt(s, i).notifiers, s.fblmap[i], s.fblmap.Keys);
    }
  }

  // ---------- What a reader of a reachable state can rely on ----------

  lemma EndsAgree<P>(s: State<P>, a: Idp, b: Idp, c: nat)
    requires Registry(s) && Replicas(s) && Symmetry(s) && a in s.fblmap && b in s.fblmap && c < s.cpus
    ensures Live(s, a) && Live(s, b) && |BlockAt(s, a).ports| == s.cpus && |BlockAt(s, b).ports| == s.cpus
    ensures BlockAt(s, a).ports[c].egress == b <==> BlockAt(s, b).ports[c].ingress == a
    ensures BlockAt(s, a).ports[c].egress == IDP_UNKNOWN || BlockAt(s, a).ports[c].egress in s.fblmap
    ensures BlockAt(s, a).ports[c].ingress == IDP_UNKNOWN || BlockAt(s, a).ports[c].ingress in s.fblmap
  {
    assert SameOnAllCpus(s.blocks[s.fblmap[a]].ports, s.cpus) && SameOnAllCpus(s.blocks[s.fblmap[b]].ports, s.cpus);
    assert PointsBack(s, a, Egress) && PointsBack(s, a, Ingress) && PointsBack(s, b, Egress)
        && PointsBack(s, b, Ingress);
  }

  /** In every safe run and on every CPU, a's egress port is b exactly when b's ingress port is a, and
      no port dangles. */
  lemma PortsAgree<P>(s: State<P>, es: seq<Event<P>>, t: State<P>, a: Idp, b: Idp, c: nat)
    requires Initial(s) && SafeRun(s, es) && t == Run(s, es) && a in t.fblmap && b in t.fblmap && c < t.cpus
    ensures Live(t, a) && Live(t, b) && |BlockAt(t, a).ports| == t.cpus && |BlockAt(t, b).ports| == t.cpus
    ensures BlockAt(t, a).ports[c].egress == b <==> BlockAt(t, b).ports[c].ingress == a
    ensures BlockAt(t, a).ports[c].egress == IDP_UNKNOWN || BlockAt(t, a).ports[c].egress in t.fblmap
    ensures BlockAt(t, a).ports[c].ingress == IDP_UNKNOWN || BlockAt(t, a).ports[c].ingress in t.fblmap
  {
    ReachableInv(s, es);
    EndsAgree(t, a, b, c);
  }

  /** After every safe run a registered block's count is one for the registry, one per bound port, one
      per notifier it owns, one per notifier naming it, one per traversal inside it; an object out
      of the registry is freed exactly when the last traversal has left it, and none is freed twice. */
  lemma CountsExplained<P>(s: State<P>, es: seq<Event<P>>, t: State<P>, p: P)
    requires Initial(s) && SafeRun(s, es) && t == Run(s, es) && p in t.blocks
    ensures Registered(t, p) ==>
              && t.blocks[p].refcnt == 1 + BoundPorts(t.blocks[p]) + |t.blocks[p].notifiers|
                                       + RefsUpTo(t, t.blocks[p].idp, t.counter) + t.held[p]
              && p !in t.dead
    ensures !Registered(t, p) ==>
              t.blocks[p].refcnt == t.held[p] && (t.held[p] == 0 && HasFactory(t, p) <==> t.dead[p] == 1)
    ensures t.dead[p] <= 1
  {
    ReachableInv(s, es);
    assert t.blocks[p].refcnt == Owed(t, p) + t.held[p];
  }
}
