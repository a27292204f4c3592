/** What each control command comes to, written out: its answer, the blocks it changes and how, and what it
    leaves alone. */
module FblockEffects {
  import opened Common
  import opened FblockGraph
  import opened FblockInvariant
  import opened FblockCommands
  import opened FblockRuns

  // ---------- Add ----------

  /** The new block: of the given type, under its name cut to 15 characters, on every CPU unbound, held by
      the registry alone. */
  ghost predicate NewBlock<P>(b: Block<P>, n: Name, ftype: Option<string>, cpus: nat, others: nat, i: Idp) {
    && b.name == (if |n| <= 15 then n else n[..15]) && b.ftype == ftype && b.others == others && b.idp == i
    && b.notifiers == [] && b.refcnt == 1
    && |b.ports| == cpus && forall c | 0 <= c < cpus :: b.ports[c].ingress == 0 && b.ports[c].egress == 0
  }

  lemma RegisterEffect<P>(s: State<P>, n: Name, ftype: Option<string>, p: P, others: nat)
    requires Registry(s) && s.counter + 1 < IDP_SPACE && p !in s.blocks
    ensures var (t, ret) := Register(s, n, ftype, p, others);
            var i, name := s.counter + 1, if |n| <= 15 then n else n[..15];
            && i !in s.fblmap && t.counter == i && t.fblmap == s.fblmap[i := p]
            && t == s.(counter := i, fblmap := t.fblmap, idpmap := t.idpmap, blocks := t.blocks)
            && if name in s.idpmap then ret == -ENOMEM && t.idpmap == s.idpmap && t.blocks == s.blocks
               else
                 && ret == 0 && t.idpmap == s.idpmap[name := i] && t.blocks.Keys == s.blocks.Keys + {p}
                 && (forall q | q in s.blocks :: t.blocks[q] == s.blocks[q])
                 && NewBlock(t.blocks[p], n, ftype, s.cpus, others, i)
  {
    assert (s.counter + 1) % IDP_SPACE == s.counter + 1;
  }

  /** An add answers -EINVAL for a name that is there, -ENOMEM for a type without a factory or a name whose
      stored form is taken, and else leaves the new block behind under its name, and nothing else changed. */
  lemma AddEffect<P>(s: State<P>, n: Name, ftype: string, known: bool, p: P, others: nat)
    requires Registry(s) && s.counter + 1 < IDP_SPACE && p !in s.blocks
    ensures var (t, ret) := Add(s, n, ftype, known, p, others);
            var name := if |n| <= 15 then n else n[..15];
            if Found(s, n) then t == s && ret == -EINVAL
            else if !known then t == s && ret == -ENOMEM
            else if name in s.idpmap then ret == -ENOMEM && t.idpmap == s.idpmap && t.blocks == s.blocks
            else
              && ret == 0 && Found(t, name) && Ref(t, name) == p
              && NewBlock(t.blocks[p], n, Some(ftype), s.cpus, others, t.blocks[p].idp) && t.blocks[p].idp !in s.fblmap
              && t.blocks.Keys == s.blocks.Keys + {p} && (forall q | q in s.blocks :: t.blocks[q] == s.blocks[q])
              && t.idpmap == s.idpmap[name := t.blocks[p].idp] && t.fblmap == s.fblmap[t.blocks[p].idp := p]
              && t.dead == s.dead && t.held == s.held && t.kept == s.kept
  {
    if !Found(s, n) && known { RegisterEffect(s, n, Some(ftype), p, others); }
  }

  // ---------- Remove ----------

  lemma CountOne<P>(s: State<P>, p: P)
    requires Inv(s) && Registered(s, p)
    ensures s.blocks[p].refcnt >= 1 && (s.blocks[p].refcnt == 1 <==> Isolated(s, p) && p !in s.held)
  {
    PositiveOwed(s, p);
    if s.blocks[p].refcnt == 1 { TestIsolates(s, p); }
    if Isolated(s, p) { IsolatedOwed(s, p); }
  }

  lemma FoundName<P>(s: State<P>, n: Name, p: P)
    requires Inv(s) && Found(s, n) && p == Ref(s, n)
    ensures Registered(s, p) && s.blocks[p].name == n
  {
    FoundRegistered(s, n);
    assert Live(s, s.idpmap[n]) && BlockAt(s, s.idpmap[n]).name == n;
  }

  lemma RemovedIs<P>(s: State<P>, p: P, t: State<P>)
    requires p in s.blocks && s.blocks[p].refcnt == 1 && HasFactory(s, p) && t == Release(Unregister(Take(s, p), p), p)
    ensures var b := s.blocks[p];
            && t == s.(blocks := t.blocks, fblmap := s.fblmap - {b.idp}, idpmap := s.idpmap - {b.name},
                       dead := s.dead + multiset{p})
            && t.blocks == s.blocks[p := b.(refcnt := 0)]
  {
    var u := Unregister(Take(s, p), p);
    assert u.blocks[p].refcnt == 1 && u.dead == s.dead;
    assert (s.held + multiset{p}) - multiset{p} == s.held;
    assert t.blocks == s.blocks[p := s.blocks[p].(refcnt := 0)];
  }

  /** A remove takes a block away exactly when it has a factory, nothing is bound to it, nobody listens to it
      or is listened to by it, and no packet is inside; then it is out of registry and namespace and freed,
      and nothing else changes. Otherwise nothing changes at all. */
  lemma RemoveEffect<P>(s: State<P>, n: Name)
    requires Inv(s)
    ensures var (t, ret) := Remove(s, n);
            if !Found(s, n) || s.blocks[Ref(s, n)].ftype.None? then t == s && ret == -EINVAL
            else
              var p := Ref(s, n);
              if Isolated(s, p) && p !in s.held then
                && ret == 0 && t.blocks == s.blocks[p := s.blocks[p].(refcnt := 0)]
                && t == s.(blocks := t.blocks, fblmap := s.fblmap - {s.blocks[p].idp}, idpmap := s.idpmap - {n},
                           dead := s.dead + multiset{p})
              else t == s && ret == -EBUSY
  {
    if Found(s, n) {
      var p := Ref(s, n);
      FoundName(s, n, p);
      CountOne(s, p);
      RemoveIs(s, n, p);
      if s.blocks[p].refcnt == 1 && HasFactory(s, p) { RemovedIs(s, p, Remove(s, n).0); }
    }
  }

  // ---------- Blocks that are not there ----------

  /** A command on two blocks answers -EINVAL if one of them is not there, or is to be replaced or to replace
      and has no factory; nothing changes then but for the reference a replace keeps on such a block. */
  lemma MissingEffect<P>(s: State<P>, op: PairOp, n1: Name, n2: Name)
    requires Inv(s)
    ensures var (t, ret) := Pair(s, op, n1, n2);
            if Found(s, n1) && op.DoReplace? && s.blocks[Ref(s, n1)].ftype.None? then
              ret == -EINVAL && t == Keep(Take(s, Ref(s, n1)), Ref(s, n1))
            else if !Found(s, n1) || !Found(s, n2) then t == s && ret == -EINVAL
            else if op.DoReplace? && s.blocks[Ref(s, n2)].ftype.None? then
              ret == -EINVAL && t == Keep(Take(s, Ref(s, n2)), Ref(s, n2))
            else ret != -EINVAL
  {
    if Found(s, n1) && !Fit(s, op, Ref(s, n1)) {
      PairUnfit(s, op, n1, n2, Ref(s, n1));
    } else if !Found(s, n1) || !Found(s, n2) {
      PairNotFound(s, op, n1, n2);
    } else if !Fit(s, op, Ref(s, n2)) {
      PairUnfit(s, op, n1, n2, Ref(s, n2));
    } else {
      PairFound(s, op, n1, n2);
      CoreCode(Take(Take(s, Ref(s, n1)), Ref(s, n2)), op, Ref(s, n1), Ref(s, n2));
    }
  }

  lemma CoreCode<P>(s: State<P>, op: PairOp, p1: P, p2: P)
    requires p1 in s.blocks && p2 in s.blocks
    ensures Core(s, op, p1, p2).1 in {0, -EBUSY}
  {
  }

  // ---------- Bind and unbind ----------

  /** A block's port is i on every CPU. */
  ghost predicate OnAllCpus<P>(b: Block<P>, d: Dir, i: Idp) {
    forall c | 0 <= c < |b.ports| :: (if d.Egress? then b.ports[c].egress else b.ports[c].ingress) == i
  }

  /** The ports out and in are set on every CPU, or are as they were. */
  ghost predicate PortsSet<P>(b: Block<P>, b': Block<P>, out: Option<Idp>, into: Option<Idp>) {
    && |b'.ports| == |b.ports|
    && forall c | 0 <= c < |b.ports| ::
         && b'.ports[c].egress == (if out.Some? then out.value else b.ports[c].egress)
         && b'.ports[c].ingress == (if into.Some? then into.value else b.ports[c].ingress)
  }

  /** So many for each of the two that the block is. */
  function Each<P(==)>(q: P, p1: P, p2: P, k: int): int {
    (if q == p1 then k else 0) + (if q == p2 then k else 0)
  }

  /** Every block has its ports set if it is the first or the second, its list changed as given, and k
      references more for each of the two that it is; nothing else changes. */
  ghost predicate EndsSet<P>(s: State<P>, t: State<P>, p1: P, p2: P, out: Idp, into: Idp, k: int) {
    && t == s.(blocks := t.blocks) && t.blocks.Keys == s.blocks.Keys
    && forall q | q in s.blocks && q in t.blocks ::
         EndSet(s.blocks[q], t.blocks[q], q == p1, q == p2, out, into, Each(q, p1, p2, k))
  }

  ghost predicate EndSet<P>(b: Block<P>, b': Block<P>, first: bool, second: bool, out: Idp, into: Idp, k: int) {
    && PortsSet(b, b', if first then Some(out) else None, if second then Some(into) else None)
    && b' == b.(ports := b'.ports, notifiers := b'.notifiers, refcnt := b.refcnt + k)
  }

  lemma PortOnAll<P>(s: State<P>, p: P, d: Dir, i: Idp)
    requires Replicas(s) && p in s.blocks && s.cpus > 0
    ensures Port(s.blocks[p], d) == i <==> OnAllCpus(s.blocks[p], d, i)
  {
    assert SameOnAllCpus(s.blocks[p].ports, s.cpus);
  }

  lemma SetAllSets(ports: seq<Ports>, d: Dir, i: Idp)
    ensures |SetAll(ports, d, i)| == |ports|
    ensures forall c | 0 <= c < |ports| ::
              SetAll(ports, d, i)[c] == if d.Egress? then Ports(ports[c].ingress, i) else Ports(i, ports[c].egress)
  {
  }

  lemma BothPortsSet<P>(b: Block<P>, b': Block<P>, first: bool, second: bool, out: Idp, into: Idp)
    requires var e := if first then SetAll(b.ports, Egress, out) else b.ports;
             b'.ports == if second then SetAll(e, Ingress, into) else e
    ensures PortsSet(b, b', if first then Some(out) else None, if second then Some(into) else None)
  {
    var e := if first then SetAll(b.ports, Egress, out) else b.ports;
    SetAllSets(b.ports, Egress, out);
    SetAllSets(e, Ingress, into);
  }

  lemma BoundEnd<P>(s: State<P>, p1: P, p2: P, q: P)
    requires p1 in s.blocks && p2 in s.blocks && q in s.blocks
    ensures EndSet(s.blocks[q], BoundBlock(s, p1, p2, q), q == p1, q == p2, s.blocks[p2].idp, s.blocks[p1].idp,
                   Each(q, p1, p2, 3))
  {
    BothPortsSet(s.blocks[q], BoundBlock(s, p1, p2, q), q == p1, q == p2, s.blocks[p2].idp, s.blocks[p1].idp);
  }

  lemma BoundEnds<P>(s: State<P>, p1: P, p2: P, t: State<P>)
    requires p1 in s.blocks && p2 in s.blocks && t == Bound(s, p1, p2)
    ensures EndsSet(s, t, p1, p2, s.blocks[p2].idp, s.blocks[p1].idp, 3)
    ensures forall q | q in s.blocks :: t.blocks[q] == BoundBlock(s, p1, p2, q)
  {
    BoundPointwise(s, p1, p2);
    forall q | q in s.blocks ensures t.blocks[q] == BoundBlock(s, p1, p2, q) { BoundEnd(s, p1, p2, q); }
    forall q | q in s.blocks
      ensures EndSet(s.blocks[q], t.blocks[q], q == p1, q == p2, s.blocks[p2].idp, s.blocks[p1].idp, Each(q, p1, p2, 3))
    {
      BoundEnd(s, p1, p2, q);
    }
  }

  /** A bind succeeds exactly when the first block's egress port and the second one's ingress port are unbound
      on every CPU. Then they lead to each other on every CPU, each block has one notifier more for the other
      and three references more, and nothing else changes. Otherwise nothing changes at all. */
  lemma BindEffect<P>(s: State<P>, n1: Name, n2: Name, p1: P, p2: P)
    requires Inv(s) && Found(s, n1) && p1 == Ref(s, n1) && Found(s, n2) && p2 == Ref(s, n2)
    ensures var (t, ret) := Pair(s, DoBind, n1, n2); var i1, i2 := s.blocks[p1].idp, s.blocks[p2].idp;
            if OnAllCpus(s.blocks[p1], Egress, 0) && OnAllCpus(s.blocks[p2], Ingress, 0) then
              && ret == 0 && EndsSet(s, t, p1, p2, i2, i1, 3)
              && forall q | q in s.blocks ::
                   t.blocks[q].notifiers == (if q == p2 then [Notifier(p2, i1)] else [])
                                            + ((if q == p1 then [Notifier(p1, i2)] else []) + s.blocks[q].notifiers)
            else t == s && ret == -EBUSY
  {
    FoundRegistered(s, n1);
    FoundRegistered(s, n2);
    PortOnAll(s, p1, Egress, 0);
    PortOnAll(s, p2, Ingress, 0);
    BindCommand(s, n1, n2);
    BoundEnds(s, p1, p2, Bound(s, p1, p2));
  }

  /** The list without its first entry for the idp. */
  ghost predicate WithoutOne<P>(l: seq<Notifier<P>>, l': seq<Notifier<P>>, i: Idp) {
    exists k | 0 <= k < |l| ::
      l[k].remote == i && l' == l[..k] + l[k + 1..] && forall j | 0 <= j < k :: l[j].remote != i
  }

  /** Removing the first entry for an idp leaves all others in their order, or all if there is none. */
  lemma {:induction false} RemoveFirstIs<P>(l: seq<Notifier<P>>, i: Idp)
    ensures if exists k | 0 <= k < |l| :: l[k].remote == i then WithoutOne(l, RemoveFirst(l, i), i)
            else RemoveFirst(l, i) == l
  {
    if l == [] {
    } else if l[0].remote == i {
      assert RemoveFirst(l, i) == l[..0] + l[0 + 1..];
    } else {
      var m := l[1..];
      RemoveFirstIs(m, i);
      if k :| 0 <= k < |l| && l[k].remote == i {
        assert m[k - 1].remote == i;
        var j :| 0 <= j < |m| && m[j].remote == i && RemoveFirst(m, i) == m[..j] + m[j + 1..]
                 && forall h | 0 <= h < j :: m[h].remote != i;
        RemoveLater(l, i, j);
      } else {
        assert forall k | 0 <= k < |m| :: m[k] == l[k + 1];
      }
    }
  }

  lemma RemoveLater<P>(l: seq<Notifier<P>>, i: Idp, j: nat)
    requires l != [] && l[0].remote != i && j < |l| - 1 && l[j + 1].remote == i
    requires RemoveFirst(l[1..], i) == l[1..][..j] + l[1..][j + 1..] && forall h | 0 <= h < j :: l[1..][h].remote != i
    ensures WithoutOne(l, RemoveFirst(l, i), i)
  {
    assert [l[0]] + (l[1..][..j] + l[1..][j + 1..]) == l[..j + 1] + l[j + 1 + 1..];
    forall h | 0 <= h < j + 1 ensures l[h].remote != i {
      if h > 0 { assert l[1..][h - 1] == l[h]; }
    }
  }

  /** What an unbind leaves of a list. */
  ghost function ListUnbound<P>(l: seq<Notifier<P>>, first: bool, second: bool, i1: Idp, i2: Idp): seq<Notifier<P>> {
    var m := if first then RemoveFirst(l, i2) else l;
    if second then RemoveFirst(m, i1) else m
  }

  lemma UnboundEnd<P>(s: State<P>, p1: P, p2: P, q: P)
    requires p1 in s.blocks && p2 in s.blocks && q in s.blocks
    ensures EndSet(s.blocks[q], UnboundBlock(s, p1, p2, q), q == p1, q == p2, 0, 0, Each(q, p1, p2, -3))
  {
    BothPortsSet(s.blocks[q], UnboundBlock(s, p1, p2, q), q == p1, q == p2, 0, 0);
  }

  lemma UnboundEnds<P>(s: State<P>, p1: P, p2: P, t: State<P>)
    requires Ample(s, p1, p2) && t == Unbound(s, p1, p2)
    ensures EndsSet(s, t, p1, p2, 0, 0, -3)
    ensures forall q | q in s.blocks :: t.blocks[q] == UnboundBlock(s, p1, p2, q)
  {
    UnboundPointwise(s, p1, p2);
    UnboundEndsAs(s, p1, p2, t);
  }

  lemma UnboundEndsAs<P>(s: State<P>, p1: P, p2: P, t: State<P>)
    requires p1 in s.blocks && p2 in s.blocks
    requires t == s.(blocks := map p | p in s.blocks :: UnboundBlock(s, p1, p2, p))
    ensures EndsSet(s, t, p1, p2, 0, 0, -3)
    ensures forall q | q in s.blocks :: t.blocks[q] == UnboundBlock(s, p1, p2, q)
  {
    forall q | q in s.blocks ensures EndSet(s.blocks[q], t.blocks[q], q == p1, q == p2, 0, 0, Each(q, p1, p2, -3)) {
      UnboundEnd(s, p1, p2, q);
    }
  }

  /** An unbind succeeds exactly when the two ports lead to each other on every CPU. Then they are unbound on
      every CPU, each block has its first notifier for the other and three references less, and nothing else
      changes. Otherwise nothing changes at all. */
  lemma UnbindEffect<P>(s: State<P>, n1: Name, n2: Name, p1: P, p2: P)
    requires Inv(s) && Found(s, n1) && p1 == Ref(s, n1) && Found(s, n2) && p2 == Ref(s, n2)
    ensures var (t, ret) := Pair(s, DoUnbind, n1, n2); var i1, i2 := s.blocks[p1].idp, s.blocks[p2].idp;
            if OnAllCpus(s.blocks[p1], Egress, i2) && OnAllCpus(s.blocks[p2], Ingress, i1) then
              && ret == 0 && EndsSet(s, t, p1, p2, 0, 0, -3)
              && forall q | q in s.blocks ::
                   t.blocks[q].notifiers == ListUnbound(s.blocks[q].notifiers, q == p1, q == p2, i1, i2)
            else t == s && ret == -EBUSY
  {
    FoundRegistered(s, n1);
    FoundRegistered(s, n2);
    PortOnAll(s, p1, Egress, s.blocks[p2].idp);
    PortOnAll(s, p2, Ingress, s.blocks[p1].idp);
    UnbindCommand(s, n1, n2);
    if AreBound(s, p1, p2) {
      BoundAmple(s, p1, p2);
      UnboundEnds(s, p1, p2, Unbound(s, p1, p2));
    }
  }

  // ---------- Subscriptions ----------

  lemma TakenBoth<P>(s: State<P>, p1: P, p2: P, u: State<P>)
    requires p1 in s.blocks && p2 in s.blocks && u == Take(Take(s, p1), p2)
    ensures u == s.(blocks := u.blocks, held := s.held + multiset{p1} + multiset{p2}) && u.blocks.Keys == s.blocks.Keys
    ensures forall q | q in s.blocks ::
              u.blocks[q] == s.blocks[q].(refcnt := s.blocks[q].refcnt + Each(q, p1, p2, 1))
  {
  }

  /** w is v with a reference to p put back. */
  ghost predicate PutAs<P>(v: State<P>, w: State<P>, p: P) {
    && w == v.(blocks := w.blocks, held := v.held - multiset{p}, dead := w.dead) && w.blocks.Keys == v.blocks.Keys
    && (forall q | q in v.blocks && q in w.blocks ::
          w.blocks[q] == v.blocks[q].(refcnt := v.blocks[q].refcnt - if q == p then 1 else 0))
    && (p in w.blocks ==>
          w.dead == v.dead + if w.blocks[p].refcnt == 0 && w.blocks[p].ftype.Some? then multiset{p} else multiset{})
  }

  lemma PutOne<P>(v: State<P>, p: P, w: State<P>)
    requires p in v.blocks && w == Release(v, p)
    ensures PutAs(v, w, p)
  {
  }

  /** w is v with a reference to each of the two put back; the first block may be freed by that. */
  ghost predicate BothPutAs<P>(v: State<P>, w: State<P>, p1: P, p2: P)
    requires p1 in v.blocks
  {
    && w == v.(blocks := w.blocks, held := v.held - multiset{p1} - multiset{p2}, dead := w.dead)
    && w.blocks.Keys == v.blocks.Keys
    && (forall q | q in v.blocks && q in w.blocks ::
          w.blocks[q] == v.blocks[q].(refcnt := v.blocks[q].refcnt - Each(q, p1, p2, 1)))
    && w.dead == v.dead + if w.blocks[p1].refcnt == 0 && v.blocks[p1].ftype.Some? then multiset{p1} else multiset{}
  }

  lemma PutTwice<P>(v: State<P>, r: State<P>, w: State<P>, p1: P, p2: P)
    requires p1 in v.blocks && p2 in v.blocks && PutAs(v, r, p1) && PutAs(r, w, p2)
    requires v.blocks[p1].refcnt >= 1 && v.blocks[p2].refcnt >= 2
    ensures BothPutAs(v, w, p1, p2)
  {
    assert r.dead + multiset{} == r.dead && v.dead + multiset{} == v.dead;
  }

  lemma PutBoth<P>(v: State<P>, p1: P, p2: P, w: State<P>)
    requires p1 in v.blocks && p2 in v.blocks && w == Release(Release(v, p1), p2)
    requires v.blocks[p1].refcnt >= 1 && v.blocks[p2].refcnt >= 2
    ensures BothPutAs(v, w, p1, p2)
  {
    PutOne(v, p1, Release(v, p1));
    PutOne(Release(v, p1), p2, w);
    PutTwice(v, Release(v, p1), w, p1, p2);
  }

  lemma HeldBack<P>(h: multiset<P>, p1: P, p2: P)
    ensures (h + multiset{p1} + multiset{p2}) - multiset{p1} - multiset{p2} == h
  {
  }

  /** Every block has its list, if it is the second, changed as given, and k references more for each of the
      two that it is; nothing else changes but what is freed by that. */
  ghost predicate ListSet<P>(s: State<P>, t: State<P>, p1: P, p2: P, l: seq<Notifier<P>>, k: int) {
    && t == s.(blocks := t.blocks, dead := t.dead) && t.blocks.Keys == s.blocks.Keys
    && forall q | q in s.blocks && q in t.blocks ::
         t.blocks[q] == s.blocks[q].(notifiers := if q == p2 then l else s.blocks[q].notifiers,
                                     refcnt := s.blocks[q].refcnt + Each(q, p1, p2, k))
  }

  lemma PutBothLists<P>(s: State<P>, u: State<P>, v: State<P>, p1: P, p2: P, l: seq<Notifier<P>>, k: int, w: State<P>)
    requires p1 in s.blocks && p2 in s.blocks && u == Take(Take(s, p1), p2) && ListSet(u, v, p1, p2, l, k)
    requires v.dead == u.dead && w == Release(Release(v, p1), p2)
    requires v.blocks[p1].refcnt >= 1 && v.blocks[p2].refcnt >= 2
    ensures ListSet(s, w, p1, p2, l, k)
    ensures w.dead == s.dead + if w.blocks[p1].refcnt == 0 && s.blocks[p1].ftype.Some? then multiset{p1} else multiset{}
  {
    TakenBoth(s, p1, p2, u);
    PutBoth(v, p1, p2, w);
    HeldBack(s.held, p1, p2);
    ListsPutBack(s, u, v, p1, p2, l, k, w);
  }

  lemma ListsPutBack<P>(s: State<P>, u: State<P>, v: State<P>, p1: P, p2: P, l: seq<Notifier<P>>, k: int, w: State<P>)
    requires p1 in s.blocks && p2 in s.blocks && p1 in v.blocks
    requires ListSet(u, v, p1, p2, l, k) && BothPutAs(v, w, p1, p2)
    requires u == s.(blocks := u.blocks, held := u.held) && u.blocks.Keys == s.blocks.Keys && w.held == s.held
    requires forall q | q in s.blocks :: u.blocks[q] == s.blocks[q].(refcnt := s.blocks[q].refcnt + Each(q, p1, p2, 1))
    ensures ListSet(s, w, p1, p2, l, k)
  {
  }

  lemma SubscribedLists<P>(u: State<P>, p1: P, p2: P, v: State<P>)
    requires p1 in u.blocks && p2 in u.blocks && v == Subscribe(u, p2, p1)
    ensures ListSet(u, v, p1, p2, [Notifier(p2, u.blocks[p1].idp)] + u.blocks[p2].notifiers, 1) && v.dead == u.dead
  {
  }

  /** A subscription by name always succeeds: the second block has an entry for the first at the head of its
      list, each has a reference more, and nothing else changes. */
  lemma SubscribeEffect<P>(s: State<P>, n1: Name, n2: Name, p1: P, p2: P)
    requires Inv(s) && Found(s, n1) && p1 == Ref(s, n1) && Found(s, n2) && p2 == Ref(s, n2)
    ensures var (t, ret) := Pair(s, DoSubscribe, n1, n2);
            && ret == 0 && t.dead == s.dead
            && ListSet(s, t, p1, p2, [Notifier(p2, s.blocks[p1].idp)] + s.blocks[p2].notifiers, 1)
  {
    var u := Take(Take(s, p1), p2);
    var v := Subscribe(u, p2, p1);
    Counted(s, n1, p1);
    Counted(s, n2, p2);
    TakenBoth(s, p1, p2, u);
    SubscribedLists(u, p1, p2, v);
    SubscribeCoreIs(u, p1, p2);
    PairFound(s, DoSubscribe, n1, n2);
    PutBothLists(s, u, v, p1, p2, [Notifier(p2, s.blocks[p1].idp)] + s.blocks[p2].notifiers, 1,
                 Release(Release(v, p1), p2));
  }

  lemma Counted<P>(s: State<P>, n: Name, p: P)
    requires Inv(s) && Found(s, n) && p == Ref(s, n)
    ensures s.blocks[p].refcnt >= 1 + |s.blocks[p].notifiers|
  {
    FoundRegistered(s, n);
    assert s.blocks[p].refcnt == Owed(s, p) + s.held[p];
  }

  lemma UnsubscribedLists<P>(u: State<P>, p1: P, p2: P, v: State<P>)
    requires p1 in u.blocks && p2 in u.blocks && v == Unsubscribe(u, p2, p1) && u.blocks[p2].notifiers != []
    requires u.blocks[p1].refcnt >= 2 && u.blocks[p2].refcnt >= 3
    ensures ListSet(u, v, p1, p2, RemoveFirst(u.blocks[p2].notifiers, u.blocks[p1].idp), -1) && v.dead == u.dead
  {
    UnsubscribePointwise(u, p2, p1);
  }

  /** An unsubscription by name always answers 0. Unless the second block's list is empty it loses its first
      entry for the first block, if it has one, and each block a reference all the same. */
  lemma UnsubscribeEffect<P>(s: State<P>, n1: Name, n2: Name, p1: P, p2: P)
    requires Inv(s) && Found(s, n1) && p1 == Ref(s, n1) && Found(s, n2) && p2 == Ref(s, n2)
    ensures var (t, ret) := Pair(s, DoUnsubscribe, n1, n2);
            && ret == 0 && (s.blocks[p2].notifiers == [] ==> t == s)
            && (s.blocks[p2].notifiers != [] ==>
                  && ListSet(s, t, p1, p2, RemoveFirst(s.blocks[p2].notifiers, s.blocks[p1].idp), -1)
                  && t.dead == s.dead + if t.blocks[p1].refcnt == 0 && s.blocks[p1].ftype.Some? then multiset{p1}
                                        else multiset{})
  {
    var u := Take(Take(s, p1), p2);
    Counted(s, n1, p1);
    Counted(s, n2, p2);
    TakenBoth(s, p1, p2, u);
    UnsubscribeCoreIs(u, p1, p2);
    PairFound(s, DoUnsubscribe, n1, n2);
    if s.blocks[p2].notifiers == [] {
      TakeTwiceReleaseTwice(s, p1, p2);
    } else {
      var v := Unsubscribe(u, p2, p1);
      UnsubscribedLists(u, p1, p2, v);
      PutBothLists(s, u, v, p1, p2, RemoveFirst(s.blocks[p2].notifiers, s.blocks[p1].idp), -1,
                   Release(Release(v, p1), p2));
    }
  }

  // ---------- Replace ----------

  /** The second block stands where the first stood: under its name and idp, with its subscribers, its notifiers
      in their order, and its references; the first is out of the registry and freed. */
  ghost predicate Succeeded<P>(s: State<P>, t: State<P>, p1: P, p2: P, moved: bool)
    requires p1 in s.blocks && p2 in s.blocks
  {
    var b1, b2 := s.blocks[p1], s.blocks[p2];
    && t == s.(blocks := t.blocks, fblmap := (s.fblmap - {b2.idp})[b1.idp := p2], idpmap := s.idpmap - {b2.name},
               dead := s.dead + multiset{p1})
    && t.blocks.Keys == s.blocks.Keys && (forall q | q in s.blocks && q != p1 && q != p2 :: t.blocks[q] == s.blocks[q])
    && var b := t.blocks[p2];
       && b == Block(b1.name, b2.ftype, if moved then b1.ports else b2.ports, b.notifiers, b1.others, b1.refcnt, b1.idp)
       && |b.notifiers| == |b1.notifiers|
       && (forall k | 0 <= k < |b1.notifiers| :: b.notifiers[k] == Notifier(p2, b1.notifiers[k].remote))
       && t.blocks[p1].refcnt == 0 && t.blocks[p1].others == b2.others
       && t.blocks[p1].ports == if moved then b2.ports else b1.ports
  }

  /** r is u with the two blocks exchanged, both held by the command. */
  ghost predicate ExchangedAs<P>(u: State<P>, r: State<P>, p1: P, p2: P, moved: bool) {
    && p1 in u.blocks && p2 in u.blocks && r.blocks.Keys == u.blocks.Keys
    && var b1, b2 := u.blocks[p1], u.blocks[p2];
       && r == u.(blocks := r.blocks, fblmap := (u.fblmap - {b2.idp})[b1.idp := p2], idpmap := u.idpmap - {b2.name})
       && (forall q | q in u.blocks && q != p1 && q != p2 :: r.blocks[q] == u.blocks[q])
       && r.blocks[p2] == Block(b1.name, b2.ftype, if moved then b1.ports else b2.ports, Reown(b1.notifiers, p2),
                                b1.others, b1.refcnt, b1.idp)
       && r.blocks[p1].refcnt == b2.refcnt - 1 && r.blocks[p1].others == b2.others
       && r.blocks[p1].ftype == b1.ftype && r.blocks[p1].ports == if moved then b2.ports else b1.ports
  }

  lemma ReplacedParts<P>(u: State<P>, p1: P, p2: P, moved: bool, r: State<P>)
    requires p1 in u.blocks && p2 in u.blocks && p1 != p2 && r == Replaced(u, p1, p2, moved) && u.blocks[p2].refcnt > 1
    ensures ExchangedAs(u, r, p1, p2, moved)
  {
  }

  lemma ReplaceSucceeds<P>(s: State<P>, u: State<P>, p1: P, p2: P, moved: bool, r: State<P>, t: State<P>)
    requires p1 in s.blocks && p2 in s.blocks && p1 != p2 && s.blocks[p2].refcnt == 1 && s.blocks[p1].refcnt >= 1
    requires HasFactory(s, p1) && u == Take(Take(s, p1), p2) && r == Replaced(u, p1, p2, moved)
    requires t == Release(Release(r, p1), p2)
    ensures Succeeded(s, t, p1, p2, moved)
  {
    TakenBoth(s, p1, p2, u);
    ReplacedParts(u, p1, p2, moved, r);
    PutBoth(r, p1, p2, t);
    HeldBack(s.held, p1, p2);
    ReplacePutBack(s, u, p1, p2, moved, r, t);
  }

  lemma ReplacePutBack<P>(s: State<P>, u: State<P>, p1: P, p2: P, moved: bool, r: State<P>, t: State<P>)
    requires p1 in s.blocks && p2 in s.blocks && p1 != p2 && s.blocks[p2].refcnt == 1 && HasFactory(s, p1)
    requires u == s.(blocks := u.blocks, held := u.held) && u.blocks.Keys == s.blocks.Keys
    requires forall q | q in s.blocks :: u.blocks[q] == s.blocks[q].(refcnt := s.blocks[q].refcnt + Each(q, p1, p2, 1))
    requires ExchangedAs(u, r, p1, p2, moved) && BothPutAs(r, t, p1, p2) && t.held == s.held
    ensures Succeeded(s, t, p1, p2, moved)
  {
  }

  /** A replace of one block by another, both with factories, succeeds exactly when they are two, nothing is
      bound to the replacement or listens to it or is listened to by it, and no packet is inside it. Then it
      stands where the old one stood, with its ports if both are of one type and they are not to be dropped.
      Otherwise nothing changes at all. */
  lemma ReplaceEffect<P>(s: State<P>, drop: bool, n1: Name, n2: Name, p1: P, p2: P)
    requires Inv(s) && BothFit(s, DoReplace(drop), n1, n2) && p1 == Ref(s, n1) && p2 == Ref(s, n2)
    ensures var (t, ret) := Pair(s, DoReplace(drop), n1, n2);
            if p1 != p2 && Isolated(s, p2) && p2 !in s.held then
              ret == 0 && Succeeded(s, t, p1, p2, s.blocks[p1].ftype == s.blocks[p2].ftype && !drop)
            else t == s && ret == -EBUSY
  {
    FoundRegistered(s, n1);
    FoundRegistered(s, n2);
    CountOne(s, p1);
    CountOne(s, p2);
    var u := Take(Take(s, p1), p2);
    TakenBoth(s, p1, p2, u);
    PairFound(s, DoReplace(drop), n1, n2);
    ReplaceCoreIs(u, p1, p2, drop);
    if u.blocks[p2].refcnt > 2 {
      TakeTwiceReleaseTwice(s, p1, p2);
    } else {
      var moved := s.blocks[p1].ftype == s.blocks[p2].ftype && !drop;
      ReplaceSucceeds(s, u, p1, p2, moved, Replaced(u, p1, p2, moved), Pair(s, DoReplace(drop), n1, n2).0);
    }
  }

  // ---------- What holds in every safe run ----------

  /** In every safe run registry and namespace agree: each name leads to the block of that name, and each
      registered block is found by its name and by its idp. */
  lemma NamesAgree<P>(s: State<P>, es: seq<Event<P>>, t: State<P>)
    requires Initial(s) && SafeRun(s, es) && t == Run(s, es)
    ensures forall n | n in t.idpmap :: Found(t, n) && t.blocks[Ref(t, n)].name == n
    ensures forall i | i in t.fblmap :: Live(t, i) && BlockAt(t, i).idp == i && 1 <= i <= t.counter
    ensures forall i | i in t.fblmap && Live(t, i) ::
              BlockAt(t, i).name in t.idpmap && t.idpmap[BlockAt(t, i).name] == i
  {
    ReachableInv(s, es);
  }

  /** In every safe run each entry of a block's list is its own and names a registered block, and for each of
      its ports that leads to another block it has an entry. */
  lemma ListsExplained<P>(s: State<P>, es: seq<Event<P>>, t: State<P>, i: Idp)
    requires Initial(s) && SafeRun(s, es) && t == Run(s, es) && i in t.fblmap && Live(t, i)
    ensures forall k | 0 <= k < |BlockAt(t, i).notifiers| ::
              BlockAt(t, i).notifiers[k].self == t.fblmap[i] && BlockAt(t, i).notifiers[k].remote in t.fblmap
    ensures forall d | Port(BlockAt(t, i), d) != IDP_UNKNOWN ::
              exists k | 0 <= k < |BlockAt(t, i).notifiers| ::
                BlockAt(t, i).notifiers[k].remote == Port(BlockAt(t, i), d)
  {
    ReachableInv(s, es);
    var l := BlockAt(t, i).notifiers;
    assert OwnList(l, t.fblmap[i], t.fblmap.Keys);
    forall d | Port(BlockAt(t, i), d) != IDP_UNKNOWN
      ensures exists k | 0 <= k < |l| :: l[k].remote == Port(BlockAt(t, i), d)
    {
      var j := Port(BlockAt(t, i), d);
      assert PointsBack(t, i, Egress) && PointsBack(t, i, Ingress);
      assert Count(l, j) >= Bindings(BlockAt(t, i), j);
      CountedThere(l, j);
    }
  }

  lemma {:induction false} CountedThere<P>(l: seq<Notifier<P>>, j: Idp)
    requires Count(l, j) > 0
    ensures exists k | 0 <= k < |l| :: l[k].remote == j
  {
    if l[0].remote != j {
      CountedThere(l[1..], j);
      var k :| 0 <= k < |l[1..]| && l[1..][k].remote == j;
      assert l[k + 1].remote == j;
    }
  }
}
