/** The control commands, each run step by step on the block objects and proved to do to the graph
    exactly what the command of the value model does. */
module FblockUser {
  import opened Common
  import opened FblockGraph
  import opened FblockInvariant
  import opened FblockCommands
  import opened FblockRuns
  import opened FblockEffects
  import opened FblockStack

  /** What the commands rely on between them; part of the invariant. */
  ghost predicate Settled<P>(s: State<P>) {
    && NoDangling(s) && Replicas(s)
    && forall i | i in s.fblmap && s.fblmap[i] in s.blocks :: s.blocks[s.fblmap[i]].refcnt > 0
  }

  lemma InvSettles<P>(s: State<P>)
    requires Registry(s) && Replicas(s) && Counting(s)
    ensures Settled(s)
  {
    forall i | i in s.fblmap && s.fblmap[i] in s.blocks ensures s.blocks[s.fblmap[i]].refcnt > 0 {
      PositiveCount(s, s.fblmap[i]);
    }
  }

  lemma TakeSettled<P>(s: State<P>, p: P)
    requires Settled(s) && p in s.blocks
    ensures Settled(Take(s, p)) && Take(s, p).fblmap == s.fblmap && Take(s, p).idpmap == s.idpmap
    ensures forall q | q in s.blocks :: Take(s, p).blocks[q].refcnt == s.blocks[q].refcnt + if p == q then 1 else 0
    ensures forall q | q in s.blocks :: Take(s, p).blocks[q].ftype == s.blocks[q].ftype
  {
    TakeReplicas(s, p);
  }

  lemma BothTaken<P>(s: State<P>, n1: Name, n2: Name, p1: P, p2: P)
    requires Settled(s) && Found(s, n1) && p1 == Ref(s, n1) && Found(s, n2) && p2 == Ref(s, n2)
    ensures var t := Take(Take(s, p1), p2); Replicas(t) && t.blocks[p1].refcnt > 0 && t.blocks[p2].refcnt > 0
    ensures p1 == p2 ==> Take(Take(s, p1), p2).blocks[p2].refcnt > 2
  {
    TakeSettled(s, p1);
    TakeSettled(Take(s, p1), p2);
  }

  /** Look both names up, or put back what was taken. */
  method SearchBoth(st: Stack, n1: Name, n2: Name) returns (fb1: Fblock?, fb2: Fblock?)
    requires st.Valid() && Settled(st.graph)
    modifies st.blocks`refcnt, st`graph, st`dead
    ensures st.Valid()
    ensures if Found(old(st.graph), n1) && Found(old(st.graph), n2) then
              && fb1 == Ref(old(st.graph), n1) && fb2 == Ref(old(st.graph), n2)
              && st.graph == Take(Take(old(st.graph), fb1), fb2)
            else fb1 == null && st.graph == old(st.graph)
  {
    ghost var s := st.graph;
    fb2 := null;
    fb1 := st.SearchByName(n1);
    if fb1 == null { return; }
    TakeSettled(s, fb1);
    fb2 := st.SearchByName(n2);
    if fb2 == null {
      st.PutBack(fb1);
      TakeReleaseCancel(s, fb1);
      fb1 := null;
    }
  }

  method UserBind(st: Stack, n1: Name, n2: Name) returns (ret: int)
    requires st.Valid() && Settled(st.graph)
    modifies st.Repr()
    ensures st.Valid() && (st.graph, ret) == Pair(old(st.graph), DoBind, n1, n2)
  {
    ghost var s := st.graph;
    var fb1, fb2 := SearchBoth(st, n1, n2);
    if fb1 == null {
      NotFound(s, DoBind, n1, n2);
      return -EINVAL;
    }
    BothTaken(s, n1, n2, fb1, fb2);
    var panicked;
    ret, panicked := st.Bind(fb1, fb2);
    BindCoreIs(Take(Take(s, fb1), fb2), fb1, fb2);
    st.PutBack(fb1);
    st.PutBack(fb2);
    PairFound(s, DoBind, n1, n2);
  }

  method UserUnbind(st: Stack, n1: Name, n2: Name) returns (ret: int)
    requires st.Valid() && Settled(st.graph)
    modifies st.Repr()
    ensures st.Valid() && (st.graph, ret) == Pair(old(st.graph), DoUnbind, n1, n2)
  {
    ghost var s := st.graph;
    var fb1, fb2 := SearchBoth(st, n1, n2);
    if fb1 == null {
      NotFound(s, DoUnbind, n1, n2);
      return -EINVAL;
    }
    BothTaken(s, n1, n2, fb1, fb2);
    ret := st.Unbind(fb1, fb2);
    st.PutBack(fb1);
    st.PutBack(fb2);
    PairFound(s, DoUnbind, n1, n2);
  }

  /** The first block is the remote one, the second wishes to be notified. */
  method UserSubscribe(st: Stack, n1: Name, n2: Name) returns (ret: int)
    requires st.Valid() && Settled(st.graph)
    modifies st.Repr()
    ensures st.Valid() && (st.graph, ret) == Pair(old(st.graph), DoSubscribe, n1, n2)
  {
    ghost var s := st.graph;
    var fb1, fb2 := SearchBoth(st, n1, n2);
    if fb1 == null {
      NotFound(s, DoSubscribe, n1, n2);
      return -EINVAL;
    }
    st.SubscribeTo(fb2, fb1);
    SubscribeCoreIs(Take(Take(s, fb1), fb2), fb1, fb2);
    st.PutBack(fb1);
    st.PutBack(fb2);
    PairFound(s, DoSubscribe, n1, n2);
    ret := 0;
  }

  method UserUnsubscribe(st: Stack, n1: Name, n2: Name) returns (ret: int)
    requires st.Valid() && Settled(st.graph)
    modifies st.Repr()
    ensures st.Valid() && (st.graph, ret) == Pair(old(st.graph), DoUnsubscribe, n1, n2)
  {
    ghost var s := st.graph;
    var fb1, fb2 := SearchBoth(st, n1, n2);
    if fb1 == null {
      NotFound(s, DoUnsubscribe, n1, n2);
      return -EINVAL;
    }
    var found := st.UnsubscribeFrom(fb2, fb1);
    UnsubscribeCoreIs(Take(Take(s, fb1), fb2), fb1, fb2);
    st.PutBack(fb1);
    st.PutBack(fb2);
    PairFound(s, DoUnsubscribe, n1, n2);
    ret := 0;
  }

  method UserRemove(st: Stack, n: Name) returns (ret: int)
    requires st.Valid() && Settled(st.graph)
    modifies st.Repr()
    ensures st.Valid() && (st.graph, ret) == Remove(old(st.graph), n)
  {
    var fb := st.SearchByName(n);
    if fb == null { return -EINVAL; }
    assert st.Represents(fb);
    if fb.ftype.None? {
      st.PutBack(fb);
      return -EINVAL;
    }
    if fb.refcnt > 2 {
      st.PutBack(fb);
      return -EBUSY;
    }
    st.UnregisterNamespace(fb);
    st.PutBack(fb);
    ret := 0;
  }

  /** Look up two blocks for a replace. Where one of them has no factory, the reference taken on it stays. */
  method SearchFit(st: Stack, n1: Name, n2: Name, ghost op: PairOp) returns (fb1: Fblock?, fb2: Fblock?)
    requires st.Valid() && Settled(st.graph) && op.DoReplace?
    modifies st.blocks`refcnt, st`graph, st`dead
    ensures st.Valid()
    ensures if BothFit(old(st.graph), op, n1, n2) then
              && fb1 == Ref(old(st.graph), n1) && fb2 == Ref(old(st.graph), n2)
              && st.graph == Take(Take(old(st.graph), fb1), fb2)
            else fb1 == null && (st.graph, -EINVAL) == Pair(old(st.graph), op, n1, n2)
  {
    ghost var s := st.graph;
    fb2 := null;
    fb1 := st.SearchByName(n1);
    if fb1 == null { return; }
    TakeSettled(s, fb1);
    assert st.Represents(fb1);
    if fb1.ftype.None? {
      st.Retain(fb1);
      FirstKeepsReference(s, op, n1, n2);
      fb1 := null;
      return;
    }
    fb2 := SearchOther(st, fb1, n2);
    SecondKeepsReference(s, op, n1, n2);
    if fb2 == null { fb1 := null; }
  }

  /** The second lookup of a replace, with the first block held. */
  method SearchOther(st: Stack, fb1: Fblock, n2: Name) returns (fb2: Fblock?)
    requires st.Valid() && Settled(st.graph) && fb1 in st.blocks
    modifies st.blocks`refcnt, st`graph, st`dead
    ensures st.Valid()
    ensures (fb2, st.graph) == OtherFound(old(st.graph), fb1, n2)
  {
    ghost var t := st.graph;
    fb2 := st.SearchByName(n2);
    if fb2 == null {
      st.PutBack(fb1);
      return;
    }
    TakeSettled(t, fb2);
    assert st.Represents(fb2);
    if fb2.ftype.None? {
      st.PutBack(fb1);
      st.Retain(fb2);
      fb2 := null;
    }
  }

  /** The second block of a replace and the state after its lookup, with the first block held in t. */
  ghost function OtherFound(t: State<Fblock>, fb1: Fblock, n2: Name): (Fblock?, State<Fblock>)
    requires fb1 in t.blocks
  {
    if !Found(t, n2) then (null, Release(t, fb1))
    else if !HasFactory(t, Ref(t, n2)) then (null, Keep(Release(Take(t, Ref(t, n2)), fb1), Ref(t, n2)))
    else (Ref(t, n2), Take(t, Ref(t, n2)))
  }

  lemma FirstKeepsReference<P>(s: State<P>, op: PairOp, n1: Name, n2: Name)
    requires op.DoReplace? && Found(s, n1) && !HasFactory(s, Ref(s, n1))
    ensures !BothFit(s, op, n1, n2) && Pair(s, op, n1, n2) == (Keep(Take(s, Ref(s, n1)), Ref(s, n1)), -EINVAL)
  {
  }

  lemma SecondKeepsReference(s: State<Fblock>, op: PairOp, n1: Name, n2: Name)
    requires op.DoReplace? && Found(s, n1) && HasFactory(s, Ref(s, n1))
    ensures var p1 := Ref(s, n1); var r := OtherFound(Take(s, p1), p1, n2);
            if BothFit(s, op, n1, n2) then r == (Ref(s, n2), Take(Take(s, p1), Ref(s, n2)))
            else r.0 == null && Pair(s, op, n1, n2) == (r.1, -EINVAL)
  {
  }

  /** The second block takes the place of the first. */
  method UserReplace(st: Stack, n1: Name, n2: Name, drop: bool) returns (ret: int)
    requires st.Valid() && Settled(st.graph)
    modifies st.Repr()
    ensures st.Valid() && (st.graph, ret) == Pair(old(st.graph), DoReplace(drop), n1, n2)
  {
    ghost var s := st.graph;
    var fb1, fb2 := SearchFit(st, n1, n2, DoReplace(drop));
    if fb1 == null { return -EINVAL; }
    BothTaken(s, n1, n2, fb1, fb2);
    ghost var t := st.graph;
    assert st.Represents(fb2);
    if fb2.refcnt > 2 {
      ret := -EBUSY;
    } else {
      ret := TakeOver(st, fb1, fb2, drop);
    }
    ReplaceCoreIs(t, fb1, fb2, drop);
    st.PutBack(fb1);
    st.PutBack(fb2);
    PairFound(s, DoReplace(drop), n1, n2);
  }

  lemma SameIdp<P>(s: State<P>, p: P)
    requires p in s.blocks
    ensures Modify(s, p, s.blocks[p].(idp := s.blocks[p].idp)) == s
  {
    assert s.blocks[p := s.blocks[p]] == s.blocks;
  }

  /** The replacement itself, with both blocks held. */
  method TakeOver(st: Stack, fb1: Fblock, fb2: Fblock, drop: bool) returns (ret: int)
    requires st.Valid() && fb1 in st.blocks && fb2 in st.blocks && fb1 != fb2
    requires st.graph.blocks[fb1].refcnt > 0 && st.graph.blocks[fb2].refcnt > 0
    modifies st, fb1, fb2
    ensures st.Valid() && st.blocks == old(st.blocks) && ret == 0
    ensures st.graph == Replaced(old(st.graph), fb1, fb2,
                                 old(st.graph).blocks[fb1].ftype == old(st.graph).blocks[fb2].ftype && !drop)
  {
    ghost var s := st.graph;
    assert st.Represents(fb1) && st.Represents(fb2);
    ghost var migrate := fb1.ftype == fb2.ftype && !drop;
    st.UnregisterNamespaceNoRcu(fb2);
    if fb1.ftype == fb2.ftype && !drop {
      st.MigrateP(fb2, fb1);
    }
    ghost var m := st.graph;
    assert m == MaybeMigrated(s, fb1, fb2, migrate);
    st.MigrateR(fb2, fb1);
    ghost var r := st.graph;
    st.UnregisterFblock(fb1);
    ReplaceSteps(s, fb1, fb2, migrate, r, st.graph);
    assert st.Represents(fb2);
    SameIdp(st.graph, fb2);
    ret := st.RegisterFblock(fb2, fb2.idp);
  }

  /** Build and register a block of a type; `known` tells whether the type has a factory. */
  method UserAdd(st: Stack, n: Name, ftype: string, known: bool, others: nat) returns (ret: int, ghost built: Fblock?)
    requires st.Valid() && Settled(st.graph)
    modifies st.Repr()
    ensures st.Valid()
    ensures built == null ==> (Found(old(st.graph), n) || !known) && st.graph == old(st.graph)
    ensures built == null ==> ret == if Found(old(st.graph), n) then -EINVAL else -ENOMEM
    ensures built != null ==> fresh(built) && (st.graph, ret) == Add(old(st.graph), n, ftype, known, built, others)
  {
    ghost var s := st.graph;
    built := null;
    var fb := st.SearchByName(n);
    if fb != null {
      st.PutBack(fb);
      TakeReleaseCancel(s, fb);
      return -EINVAL, null;
    }
    if !known { return -ENOMEM, null; }
    ret, built := BuildObject(st, n, ftype, others);
  }

  /** The factory builds a block and registers it. */
  method BuildObject(st: Stack, n: Name, ftype: string, others: nat) returns (ret: int, ghost built: Fblock)
    requires st.Valid()
    modifies st
    ensures st.Valid() && fresh(built) && (st.graph, ret) == Register(old(st.graph), n, Some(ftype), built, others)
  {
    ghost var s := st.graph;
    var fb := new Fblock(n, Some(ftype), st.cpus, others);
    ret := st.RegisterNamespace(fb);
    built := fb;
    RegistrationIs(s, n, Some(ftype), fb, others);
    if ret != 0 { ret := -ENOMEM; }
  }

  lemma RegistrationIs<P>(s: State<P>, n: Name, ftype: Option<string>, p: P, others: nat)
    ensures var b := Block(Truncate(n), ftype, seq(s.cpus, _ => NO_PORTS), [], others, 1, (s.counter + 1) % IDP_SPACE);
            var r := Registration(s, p, b);
            Register(s, n, ftype, p, others) == (r.0, if r.1 == 0 then 0 else -ENOMEM)
  {
  }

  lemma NotFound<P>(s: State<P>, op: PairOp, n1: Name, n2: Name)
    requires Settled(s) && !(Found(s, n1) && Found(s, n2)) && !op.DoReplace?
    ensures Pair(s, op, n1, n2) == (s, -EINVAL)
  {
    if Found(s, n1) { TakeReleaseCancel(s, Ref(s, n1)); }
  }

  lemma BindCoreIs<P>(s: State<P>, p1: P, p2: P)
    requires p1 in s.blocks && p2 in s.blocks
    ensures Core(s, DoBind, p1, p2) == if FreePorts(s, p1, p2) then (Bound(s, p1, p2), 0) else (s, -EBUSY)
  {
  }

  // ---------- Messages ----------

  datatype Message =
    | AddMsg(name: Name, ftype: string)
    | SetMsg(name: Name, option: string)
    | RemoveMsg(name: Name)
    | TupleMsg(op: PairOp, name1: Name, name2: Name)
    | UnknownMsg

  /** An option is a key and a value; `handled` is what the block's own handler says to it. */
  method UserSet(st: Stack, n: Name, option: string, handled: int) returns (ret: int)
    requires st.Valid() && Settled(st.graph)
    modifies st.Repr()
    ensures st.Valid() && st.graph == old(st.graph)
    ensures ret == if Found(old(st.graph), n) && '=' in option then handled else -EINVAL
  {
    ghost var s := st.graph;
    var fb := st.SearchByName(n);
    if fb == null { return -EINVAL; }
    ret := if '=' in option then handled else -EINVAL;
    st.PutBack(fb);
    TakeReleaseCancel(s, fb);
  }

  /** The commands on two blocks. */
  method UserTuple(st: Stack, op: PairOp, n1: Name, n2: Name) returns (ret: int)
    requires st.Valid() && Settled(st.graph)
    modifies st.Repr()
    ensures st.Valid() && (st.graph, ret) == Pair(old(st.graph), op, n1, n2)
  {
    match op
    case DoBind => ret := UserBind(st, n1, n2);
    case DoUnbind => ret := UserUnbind(st, n1, n2);
    case DoSubscribe => ret := UserSubscribe(st, n1, n2);
    case DoUnsubscribe => ret := UserUnsubscribe(st, n1, n2);
    case DoReplace(drop) => ret := UserReplace(st, n1, n2, drop);
  }

  /** What a message other than an add does to the graph, and its answer. */
  ghost function Answer<P>(s: State<P>, m: Message, handled: int): (State<P>, int)
    requires !m.AddMsg?
  {
    match m
    case SetMsg(n, option) => (s, if Found(s, n) && '=' in option then handled else -EINVAL)
    case RemoveMsg(n) => Remove(s, n)
    case TupleMsg(op, n1, n2) => Pair(s, op, n1, n2)
    case UnknownMsg => (s, -ENOENT)
  }

  /** Whether a message leaves the invariant intact. */
  ghost predicate SafeMessage<P>(s: State<P>, m: Message, known: bool) {
    match m
    case AddMsg(n, _) => !(known && NameClash(s, n))
    case TupleMsg(op, n1, n2) => SafeNamed(s, op, n1, n2)
    case _ => true
  }

  lemma AnswerKeepsInvIff<P>(s: State<P>, m: Message, handled: int, known: bool, t: State<P>)
    requires Inv(s) && !m.AddMsg? && t == Answer(s, m, handled).0
    ensures Inv(t) <==> SafeMessage(s, m, known)
  {
    match m
    case RemoveMsg(n) => StepKeepsInvIff(s, RemoveBlock(n));
    case TupleMsg(op, n1, n2) => StepKeepsInvIff(s, OnPair(op, n1, n2));
    case _ =>
  }

  method Serve(st: Stack, m: Message, handled: int) returns (ret: int)
    requires st.Valid() && Settled(st.graph) && !m.AddMsg?
    modifies st.Repr()
    ensures st.Valid() && (st.graph, ret) == Answer(old(st.graph), m, handled)
  {
    match m
    case SetMsg(n, option) => ret := UserSet(st, n, option, handled);
    case RemoveMsg(n) => ret := UserRemove(st, n);
    case TupleMsg(op, n1, n2) => ret := UserTuple(st, op, n1, n2);
    case UnknownMsg => ret := -ENOENT;
  }

  /** Serve one control message on a graph that satisfies the invariant: a message has its effect and
      answer, and afterwards the invariant holds again exactly when the message was safe. */
  method UserRcv(st: Stack, m: Message, known: bool, others: nat, handled: int) returns (ret: int, ghost built: Fblock?)
    requires st.Valid() && Inv(st.graph) && (m.AddMsg? ==> st.graph.counter + 1 < IDP_SPACE)
    modifies st.Repr()
    ensures st.Valid() && (Inv(st.graph) <==> SafeMessage(old(st.graph), m, known))
    ensures !m.AddMsg? ==> (st.graph, ret) == Answer(old(st.graph), m, handled)
    ensures m.AddMsg? && built == null ==> (Found(old(st.graph), m.name) || !known) && st.graph == old(st.graph)
    ensures m.AddMsg? && built == null ==> ret == if Found(old(st.graph), m.name) then -EINVAL else -ENOMEM
    ensures m.AddMsg? && built != null ==>
              fresh(built) && (st.graph, ret) == Add(old(st.graph), m.name, m.ftype, known, built, others)
    ensures m.AddMsg? && ret == 0 ==>
              && built != null && built in st.blocks
              && NewBlock(st.graph.blocks[built], m.name, Some(m.ftype), st.cpus, others, st.graph.blocks[built].idp)
    ensures m.UnknownMsg? ==> st.graph == old(st.graph) && ret == -ENOENT
  {
    ghost var s := st.graph;
    InvSettles(s);
    if m.AddMsg? {
      ret, built := UserAdd(st, m.name, m.ftype, known, others);
      if built != null {
        AddKeepsInvIff(s, m.name, m.ftype, known, built, others, st.graph);
        AddEffect(s, m.name, m.ftype, known, built, others);
      }
    } else {
      built := null;
      ret := Serve(st, m, handled);
      AnswerKeepsInvIff(s, m, handled, known, st.graph);
    }
  }
}
