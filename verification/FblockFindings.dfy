/** Short runs from an empty stack after which one more command breaks the invariant: each shows
    that a condition of a safe step cannot be dropped. */
module FblockFindings {
  import opened Common
  import opened FblockGraph
  import opened FblockInvariant
  import opened FblockCommands
  import opened FblockRuns
  import opened FblockSteps

  const EMPTY: State<nat> := State(1, map[], map[], map[], 0, multiset{}, multiset{}, multiset{})

  const ADD_A: Event<nat> := AddBlock("a", "dummy", true, 1, 1)
  const ADD_B: Event<nat> := AddBlock("b", "dummy", true, 2, 2)
  const ADD_C: Event<nat> := AddBlock("c", "dummy", true, 3, 3)

  /** The state after a safe run from the empty stack. */
  ghost predicate After(es: seq<Event<nat>>, s: State<nat>) {
    SafeRun(EMPTY, es) && Run(EMPTY, es) == s
  }

  lemma {:induction false} RunExtends<P>(s: State<P>, es: seq<Event<P>>, e: Event<P>)
    requires SafeRun(s, es) && Possible(Run(s, es), e) && Safe(Run(s, es), e)
    ensures SafeRun(s, es + [e]) && Run(s, es + [e]) == Step(Run(s, es), e)
    decreases |es|
  {
    if es == [] {
      assert es + [e] == [e];
    } else {
      assert (es + [e])[1..] == es[1..] + [e];
      RunExtends(Step(s, es[0]), es[1..], e);
    }
  }

  lemma AfterStep(es: seq<Event<nat>>, s: State<nat>, e: Event<nat>, es': seq<Event<nat>>)
    requires After(es, s) && Possible(s, e) && Safe(s, e) && es' == es + [e]
    ensures After(es', Step(s, e))
  {
    RunExtends(EMPTY, es, e);
  }

  lemma AfterInv(es: seq<Event<nat>>, s: State<nat>)
    requires After(es, s)
    ensures Inv(s)
  {
    ReachableInv(EMPTY, es);
  }

  lemma BreaksInv(es: seq<Event<nat>>, s: State<nat>, e: Event<nat>, t: State<nat>)
    requires After(es, s) && Possible(s, e) && !Safe(s, e) && t == Step(s, e)
    ensures !Inv(t)
  {
    AfterInv(es, s);
    StepKeepsInvIff(s, e);
  }

  // ---------- Blocks that were only added ----------

  ghost function FreshBlock(n: Name, p: Idp): Block<nat> {
    Block(n, Some("dummy"), [NO_PORTS], [], p, 1, p)
  }

  /** The blocks with the given names were added, in this order, and nothing else happened. */
  ghost predicate Added(s: State<nat>, names: seq<Name>) {
    && s.cpus == 1 && s.counter == |names| && s.dead == s.held == s.kept == multiset{}
    && (forall i :: i in s.fblmap <==> 1 <= i <= |names|) && (forall i | i in s.fblmap :: s.fblmap[i] == i)
    && (forall n :: n in s.idpmap <==> n in names)
    && (forall i :: i in s.blocks <==> 1 <= i <= |names|)
    && (forall k | 0 <= k < |names| :: names[k] in s.idpmap && s.idpmap[names[k]] == k + 1)
    && (forall i | 1 <= i <= |names| && i in s.blocks :: s.blocks[i] == FreshBlock(names[i - 1], i))
  }

  lemma AddStep(s: State<nat>, names: seq<Name>, n: Name, p: Idp, t: State<nat>)
    requires Added(s, names) && n !in names && |n| < FBNAMSIZ && p == |names| + 1 < IDP_SPACE
    requires t == Step(s, AddBlock(n, "dummy", true, p, p))
    ensures Possible(s, AddBlock(n, "dummy", true, p, p)) && Safe(s, AddBlock(n, "dummy", true, p, p))
    ensures Added(t, names + [n])
  {
    AddedNext(s, names, n, p);
    AddedMore(s, names, n, p, t);
  }

  lemma AddedMore(s: State<nat>, names: seq<Name>, n: Name, p: Idp, t: State<nat>)
    requires Added(s, names) && n !in names && p == |names| + 1
    requires t == s.(counter := p, fblmap := s.fblmap[p := p], idpmap := s.idpmap[n := p],
                     blocks := s.blocks[p := FreshBlock(n, p)])
    ensures Added(t, names + [n])
  {
  }

  lemma AddedNext(s: State<nat>, names: seq<Name>, n: Name, p: Idp)
    requires Added(s, names) && n !in names && |n| < FBNAMSIZ && p == |names| + 1 < IDP_SPACE
    ensures Add(s, n, "dummy", true, p, p).0
         == s.(counter := p, fblmap := s.fblmap[p := p], idpmap := s.idpmap[n := p],
               blocks := s.blocks[p := FreshBlock(n, p)])
  {
    assert seq(1, _ => NO_PORTS) == [NO_PORTS];
  }

  lemma AddRun(es: seq<Event<nat>>, s: State<nat>, names: seq<Name>, n: Name, p: Idp, es': seq<Event<nat>>,
               names': seq<Name>)
    requires After(es, s) && Added(s, names) && n !in names && |n| < FBNAMSIZ && p == |names| + 1 < IDP_SPACE
    requires es' == es + [AddBlock(n, "dummy", true, p, p)] && names' == names + [n]
    ensures SafeRun(EMPTY, es') && Added(Run(EMPTY, es'), names')
  {
    AddStep(s, names, n, p, Step(s, AddBlock(n, "dummy", true, p, p)));
    AfterStep(es, s, AddBlock(n, "dummy", true, p, p), es');
  }

  lemma EmptyRun(es: seq<Event<nat>>)
    requires es == []
    ensures After(es, EMPTY) && Added(EMPTY, [])
  {
  }

  lemma OneBlock(es: seq<Event<nat>>, n: Name)
    requires es == [AddBlock(n, "dummy", true, 1, 1)] && |n| < FBNAMSIZ
    ensures SafeRun(EMPTY, es) && Added(Run(EMPTY, es), [n])
  {
    EmptyRun([]);
    AddRun([], EMPTY, [], n, 1, es, [n]);
  }

  lemma TwoBlocks(es: seq<Event<nat>>, names: seq<Name>)
    requires es == [ADD_A, ADD_B] && names == ["a", "b"]
    ensures SafeRun(EMPTY, es) && Added(Run(EMPTY, es), names)
  {
    var one := es[..1];
    OneBlock(one, "a");
    assert "b" !in ["a"];
    AddRun(one, Run(EMPTY, one), ["a"], "b", 2, es, names);
  }

  lemma ThreeBlocks(es: seq<Event<nat>>, names: seq<Name>)
    requires es == [ADD_A, ADD_B, ADD_C] && names == ["a", "b", "c"]
    ensures SafeRun(EMPTY, es) && Added(Run(EMPTY, es), names)
  {
    var two := es[..2];
    TwoBlocks(two, names[..2]);
    assert "c" != "a" && "c" != "b";
    AddRun(two, Run(EMPTY, two), names[..2], "c", 3, es, names);
  }

  /** An added block by its name. */
  lemma AddedFound(s: State<nat>, names: seq<Name>, i: Idp)
    requires Added(s, names) && 1 <= i <= |names|
    ensures Found(s, names[i - 1]) && Ref(s, names[i - 1]) == i && s.blocks[i] == FreshBlock(names[i - 1], i)
            && Live(s, i)
  {
  }

  lemma AddedAB(s: State<nat>, names: seq<Name>)
    requires Added(s, names) && |names| >= 2 && names[0] == "a" && names[1] == "b"
    ensures Found(s, "a") && Ref(s, "a") == 1 && s.blocks[1] == FreshBlock("a", 1) && Live(s, 1) && s.fblmap[1] == 1
    ensures Found(s, "b") && Ref(s, "b") == 2 && s.blocks[2] == FreshBlock("b", 2)
  {
    AddedFound(s, names, 1);
    AddedFound(s, names, 2);
  }

  // ---------- A packet inside the block that is replaced ----------

  lemma EnterMakesUnsafe(s: State<nat>, t: State<nat>)
    requires Added(s, ["a", "b"]) && t == Step(s, Enter(1))
    ensures !Safe(t, OnPair(DoReplace(false), "a", "b"))
  {
    AddedAB(s, ["a", "b"]);
  }

  /** A packet is inside the block that is replaced by another of the same type: the counts are
      wrong afterwards. */
  lemma ReplaceUnderTraversal(es: seq<Event<nat>>, s: State<nat>, t: State<nat>)
    requires es == [ADD_A, ADD_B, Enter(1)] && s == Run(EMPTY, es) && t == Step(s, OnPair(DoReplace(false), "a", "b"))
    ensures SafeRun(EMPTY, es) && !Inv(t)
  {
    var two := es[..2];
    TwoBlocks(two, ["a", "b"]);
    AfterStep(two, Run(EMPTY, two), Enter(1), es);
    EnterMakesUnsafe(Run(EMPTY, two), s);
    BreaksInv(es, s, OnPair(DoReplace(false), "a", "b"), t);
  }

  // ---------- Names that are too long ----------

  const SHORT_NAME := "123456789012345"
  /** What a reader of the message's 16-byte name field sees when all 16 letters are used: the name runs
      on into the type field behind it. */
  const LONG_NAME := SHORT_NAME + "6" + "dummy"

  lemma LongUnsafe(s: State<nat>)
    requires Added(s, [SHORT_NAME])
    ensures Possible(s, AddBlock(LONG_NAME, "dummy", true, 2, 2)) && !Safe(s, AddBlock(LONG_NAME, "dummy", true, 2, 2))
  {
    assert |SHORT_NAME| == 15 && |LONG_NAME| == 21 && Truncate(LONG_NAME) == SHORT_NAME && LONG_NAME != SHORT_NAME;
    assert SHORT_NAME in [SHORT_NAME] && LONG_NAME !in [SHORT_NAME];
  }

  /** A name of 16 letters, and with it a message without a terminator, whose first 15 letters are
      taken: the add fails and leaves an entry in the registry that leads to no object. */
  lemma LongNameDangles(es: seq<Event<nat>>, s: State<nat>, t: State<nat>)
    requires es == [AddBlock(SHORT_NAME, "dummy", true, 1, 1)] && s == Run(EMPTY, es)
    requires t == Step(s, AddBlock(LONG_NAME, "dummy", true, 2, 2))
    ensures SafeRun(EMPTY, es) && !Inv(t)
  {
    OneBlock(es, SHORT_NAME);
    LongUnsafe(s);
    BreaksInv(es, s, AddBlock(LONG_NAME, "dummy", true, 2, 2), t);
  }

  // ---------- Subscriptions ----------

  /** What a subscription leaves behind in the subscriber's list. */
  lemma SubscribeLists<P>(s: State<P>, p1: P, p2: P, w: State<P>)
    requires p1 in s.blocks && p2 in s.blocks && s.held == multiset{}
    requires w == Release(Release(Subscribe(Take(Take(s, p1), p2), p2, p1), p1), p2)
    ensures w.fblmap == s.fblmap && w.idpmap == s.idpmap && w.blocks.Keys == s.blocks.Keys
    ensures w.blocks[p2].notifiers == [Notifier(p2, s.blocks[p1].idp)] + s.blocks[p2].notifiers
    ensures w.blocks[p2].ports == s.blocks[p2].ports && w.blocks[p2].idp == s.blocks[p2].idp
  {
    TakeCounts(s, p1);
    TakeCounts(Take(s, p1), p2);
    var u := Take(Take(s, p1), p2);
    SubscribeRelists(u, p2, p1);
    var v := Subscribe(u, p2, p1);
    ReleaseEffect(v, p1);
    ReleaseEffect(Release(v, p1), p2);
  }

  lemma SubscribePair<P>(s: State<P>, n1: Name, n2: Name, p1: P, p2: P)
    requires Found(s, n1) && Found(s, n2) && p1 == Ref(s, n1) && p2 == Ref(s, n2)
    ensures Pair(s, DoSubscribe, n1, n2).0 == Release(Release(Subscribe(Take(Take(s, p1), p2), p2, p1), p1), p2)
  {
    SubscribeCoreIs(Take(Take(s, p1), p2), p1, p2);
    PairFound(s, DoSubscribe, n1, n2);
  }

  /** b has one notifier, for a. */
  ghost predicate Listening(s: State<nat>) {
    && Found(s, "b") && Ref(s, "b") == 2 && s.blocks[2].idp == 2 && s.blocks[2].notifiers == [Notifier(2, 1)]
  }

  lemma SubscribeListens(s: State<nat>, t: State<nat>)
    requires Added(s, ["a", "b"]) && t == Pair(s, DoSubscribe, "a", "b").0
    ensures Listening(t)
  {
    AddedAB(s, ["a", "b"]);
    SubscribePair(s, "a", "b", 1, 2);
    SubscribeLists(s, 1, 2, t);
  }

  lemma UnsubscribeUnsafe(s: State<nat>)
    requires Listening(s)
    ensures !Safe(s, OnPair(DoUnsubscribe, "b", "b"))
  {
    assert Count([Notifier(2, 1)], 2) == 0;
  }

  /** b listens to a; unsubscribing b from itself finds nothing but drops references all the same. */
  lemma UnsubscribeMissing(es: seq<Event<nat>>, s: State<nat>, t: State<nat>)
    requires es == [ADD_A, ADD_B, OnPair(DoSubscribe, "a", "b")] && s == Run(EMPTY, es)
    requires t == Step(s, OnPair(DoUnsubscribe, "b", "b"))
    ensures SafeRun(EMPTY, es) && !Inv(t)
  {
    var two := es[..2];
    TwoBlocks(two, ["a", "b"]);
    AfterStep(two, Run(EMPTY, two), OnPair(DoSubscribe, "a", "b"), es);
    SubscribeListens(Run(EMPTY, two), s);
    UnsubscribeUnsafe(s);
    BreaksInv(es, s, OnPair(DoUnsubscribe, "b", "b"), t);
  }

  // ---------- Blocks bound to each other ----------

  /** a's egress port leads to b, which has one notifier for a; c is not in use. */
  ghost predicate Coupled(s: State<nat>) {
    && Found(s, "a") && Ref(s, "a") == 1 && Found(s, "b") && Ref(s, "b") == 2 && Found(s, "c") && Ref(s, "c") == 3
    && HasFactory(s, 1) && HasFactory(s, 3) && s.held == multiset{}
    && s.blocks[1].idp == 1 && s.blocks[2].idp == 2 && s.blocks[3].refcnt == 1
    && BoundPorts(s.blocks[1]) == 1 && s.blocks[2].notifiers == [Notifier(2, 1)] && Bindings(s.blocks[2], 1) == 1
  }

  lemma BoundCouples(s: State<nat>, t: State<nat>)
    requires Found(s, "a") && Ref(s, "a") == 1 && s.blocks[1] == FreshBlock("a", 1)
    requires Found(s, "b") && Ref(s, "b") == 2 && s.blocks[2] == FreshBlock("b", 2)
    requires Found(s, "c") && Ref(s, "c") == 3 && s.blocks[3] == FreshBlock("c", 3)
    requires s.held == multiset{} && t == Bound(s, 1, 2)
    ensures Coupled(t)
  {
    BoundPointwise(s, 1, 2);
    assert t.blocks[1] == BoundBlock(s, 1, 2, 1) && t.blocks[2] == BoundBlock(s, 1, 2, 2)
        && t.blocks[3] == BoundBlock(s, 1, 2, 3);
  }

  lemma BindIs<P>(s: State<P>, n1: Name, n2: Name, p1: P, p2: P, t: State<P>)
    requires Inv(s) && Found(s, n1) && p1 == Ref(s, n1) && Found(s, n2) && p2 == Ref(s, n2)
             && t == Pair(s, DoBind, n1, n2).0
    requires CanBind(s, p1, p2)
    ensures t == Bound(s, p1, p2)
  {
    BindCommand(s, n1, n2);
  }

  lemma BindAfter(es: seq<Event<nat>>, s: State<nat>, n1: Name, n2: Name, p1: nat, p2: nat, t: State<nat>)
    requires After(es, s) && t == Pair(s, DoBind, n1, n2).0 && CanBind(s, p1, p2)
    requires Found(s, n1) && p1 == Ref(s, n1) && Found(s, n2) && p2 == Ref(s, n2)
    ensures t == Bound(s, p1, p2)
  {
    AfterInv(es, s);
    BindIs(s, n1, n2, p1, p2, t);
  }

  lemma CanBindFresh(s: State<nat>, p1: nat, p2: nat)
    requires Registered(s, p1) && Registered(s, p2) && s.blocks[p1].ports == [NO_PORTS]
             && s.blocks[p2].ports == [NO_PORTS]
    ensures CanBind(s, p1, p2)
  {
  }

  lemma BindsAB(es: seq<Event<nat>>, s: State<nat>, names: seq<Name>, t: State<nat>)
    requires After(es, s) && Added(s, names) && |names| >= 2 && names[0] == "a" && names[1] == "b"
    requires t == Pair(s, DoBind, names[0], names[1]).0
    ensures 1 in s.blocks && 2 in s.blocks && t == Bound(s, 1, 2)
  {
    AddedAB(s, names);
    CanBindFresh(s, 1, 2);
    BindAfter(es, s, names[0], names[1], 1, 2, t);
  }

  lemma BindCouples(s: State<nat>, names: seq<Name>, t: State<nat>)
    requires Added(s, names) && names == ["a", "b", "c"] && 1 in s.blocks && 2 in s.blocks && t == Bound(s, 1, 2)
    ensures Coupled(t)
  {
    AddedAB(s, names);
    AddedFound(s, names, 3);
    BoundCouples(s, t);
  }

  lemma BoundRun(es: seq<Event<nat>>, s: State<nat>)
    requires es == [ADD_A, ADD_B, ADD_C, OnPair(DoBind, "a", "b")] && s == Run(EMPTY, es)
    ensures SafeRun(EMPTY, es) && Coupled(s)
  {
    var three, names := es[..3], ["a", "b", "c"];
    var u := Run(EMPTY, three);
    ThreeBlocks(three, names);
    AfterStep(three, u, OnPair(DoBind, "a", "b"), es);
    BindsAB(three, u, names, s);
    BindCouples(u, names, s);
  }

  lemma DropUnsafe(s: State<nat>)
    requires Coupled(s)
    ensures !Safe(s, OnPair(DoReplace(true), "a", "c"))
  {
  }

  lemma TakesBindingUnsafe(s: State<nat>)
    requires Coupled(s)
    ensures !Safe(s, OnPair(DoUnsubscribe, "a", "b"))
  {
    assert Count([Notifier(2, 1)], 1) == 1;
  }

  /** a is bound to b and replaced by c with its private data dropped: c takes over a's references but
      not its ports. */
  lemma ReplaceDropsPorts(es: seq<Event<nat>>, s: State<nat>, t: State<nat>)
    requires es == [ADD_A, ADD_B, ADD_C, OnPair(DoBind, "a", "b")] && s == Run(EMPTY, es)
    requires t == Step(s, OnPair(DoReplace(true), "a", "c"))
    ensures SafeRun(EMPTY, es) && !Inv(t)
  {
    BoundRun(es, s);
    DropUnsafe(s);
    BreaksInv(es, s, OnPair(DoReplace(true), "a", "c"), t);
  }

  /** a is bound to b and b is unsubscribed from a: the entry taken is the binding's own. */
  lemma UnsubscribeTakesBinding(es: seq<Event<nat>>, s: State<nat>, t: State<nat>)
    requires es == [ADD_A, ADD_B, ADD_C, OnPair(DoBind, "a", "b")] && s == Run(EMPTY, es)
    requires t == Step(s, OnPair(DoUnsubscribe, "a", "b"))
    ensures SafeRun(EMPTY, es) && !Inv(t)
  {
    BoundRun(es, s);
    TakesBindingUnsafe(s);
    BreaksInv(es, s, OnPair(DoUnsubscribe, "a", "b"), t);
  }

  // ---------- A packet between test and exchange ----------

  lemma RaceInAdded(es: seq<Event<nat>>, s: State<nat>)
    requires After(es, s) && Added(s, ["a", "b"])
    ensures Safe(s, OnPair(DoReplace(false), "a", "b"))
    ensures CanDoAll(World(s, NoJob), RaceSteps(false, "a", "b", 1))
    ensures !Inv(DoAll(World(s, NoJob), RaceSteps(false, "a", "b", 1)).s)
  {
    AfterInv(es, s);
    AddedAB(s, ["a", "b"]);
    ReplaceRace(s, false, "a", "b", 1, 2);
  }

  /** Two blocks added, nobody inside: a replace of a by b is safe, and breaks the invariant once a
      packet enters a between its test and its exchange. */
  lemma ReplaceRaceHappens(es: seq<Event<nat>>, s: State<nat>)
    requires es == [ADD_A, ADD_B] && s == Run(EMPTY, es)
    ensures SafeRun(EMPTY, es) && Safe(s, OnPair(DoReplace(false), "a", "b"))
    ensures CanDoAll(World(s, NoJob), RaceSteps(false, "a", "b", 1))
    ensures !Inv(DoAll(World(s, NoJob), RaceSteps(false, "a", "b", 1)).s)
  {
    TwoBlocks(es, ["a", "b"]);
    RaceInAdded(es, s);
  }
}
