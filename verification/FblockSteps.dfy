/** The control commands in their separate accesses, with packets entering and leaving blocks between
    any two of them. One command is in progress at a time. */
module FblockSteps {
  import opened Common
  import opened FblockGraph
  import opened FblockInvariant
  import opened FblockCommands
  import opened FblockRuns

  /** Where the command in progress stands. */
  datatype Job<P> =
    | NoJob
    | OneFound(op: PairOp, p1: P, n2: Name)    // the first block is looked up
    | BothFound(op: PairOp, p1: P, p2: P)      // and the second
    | MayReplace(drop: bool, p1: P, p2: P)     // the replacement's count passed the test
    | Apart2(drop: bool, p1: P, p2: P)         // the replacement is out of registry and namespace
    | PortsDone(moved: bool, p1: P, p2: P)     // the two exchanged their private data, if they had to
    | RestDone(moved: bool, p1: P, p2: P)      // and the rest: lists, subscribers, counts
    | Vacant(moved: bool, p1: P, p2: P)        // the old block is out of the registry
    | PutTwo(p1: P, p2: P)                     // the work is done
    | PutOne(p1: P)
    | OneForRemoval(p1: P)                     // the block to remove is looked up
    | MayRemove(p1: P)                         // its count passed the test

  datatype World<P> = World(s: State<P>, job: Job<P>)

  datatype Access<P> =
    | New(name: Name, ftype: string, known: bool, obj: P, others: nat)
    | NewLink(name: Name, obj: P, others: nat)
    | FindFirst(op: PairOp, name1: Name, name2: Name)
    | FindSecond
    | TestReplace
    | Withdraw
    | MovePorts
    | MoveRest
    | Vacate
    | Occupy
    | Work
    | PutFirst
    | PutLast
    | FindDoomed(name: Name)
    | TestRemove
    | Unlist
    | Pass(idp: Idp)       // a packet looks a block up
    | Quit(obj: P)         // and puts it back

  predicate InExchange<P>(j: Job<P>) {
    j.Apart2? || j.PortsDone? || j.RestDone? || j.Vacant?
  }

  predicate TwoBlocks<P>(j: Job<P>) {
    j.BothFound? || j.MayReplace? || j.PutTwo? || InExchange(j)
  }

  /** The references the command in progress holds. */
  function JobRefs<P(==)>(j: Job<P>): multiset<P> {
    if j.NoJob? then multiset{} else if TwoBlocks(j) then multiset{j.p1} + multiset{j.p2} else multiset{j.p1}
  }

  /** The objects the command in progress works on exist. */
  predicate JobBlocks<P(==)>(s: State<P>, j: Job<P>) {
    (!j.NoJob? ==> j.p1 in s.blocks) && (TwoBlocks(j) ==> j.p2 in s.blocks)
  }

  /** The access is the next one of the command in progress, or a packet's own. */
  ghost predicate CanDo<P>(w: World<P>, a: Access<P>) {
    && JobBlocks(w.s, w.job)
    && match a
       case New(_, _, _, p, _) => w.job.NoJob? && p !in w.s.blocks && w.s.counter + 1 < IDP_SPACE
       case NewLink(_, p, _) => w.job.NoJob? && p !in w.s.blocks && w.s.counter + 1 < IDP_SPACE
       case FindFirst(_, _, _) => w.job.NoJob?
       case FindDoomed(_) => w.job.NoJob?
       case FindSecond => w.job.OneFound?
       case TestReplace => w.job.BothFound? && w.job.op.DoReplace?
       case Work => w.job.BothFound? && !w.job.op.DoReplace?
       case Withdraw => w.job.MayReplace?
       case MovePorts => w.job.Apart2?
       case MoveRest => w.job.PortsDone?
       case Vacate => w.job.RestDone?
       case Occupy => w.job.Vacant?
       case PutFirst => w.job.PutTwo?
       case PutLast => w.job.PutOne?
       case TestRemove => w.job.OneForRemoval?
       case Unlist => w.job.MayRemove?
       case Pass(_) => true
       case Quit(p) => p in w.s.blocks && JobRefs(w.job)[p] + w.s.kept[p] < w.s.held[p]
  }

  ghost predicate SameType<P>(s: State<P>, p1: P, p2: P)
    requires p1 in s.blocks && p2 in s.blocks
  {
    s.blocks[p1].ftype == s.blocks[p2].ftype
  }

  /** The first lookup of a two-block command. */
  ghost function First<P>(s: State<P>, op: PairOp, p: P, n2: Name): World<P>
    requires p in s.blocks
  {
    if Fit(s, op, p) then World(Take(s, p), OneFound(op, p, n2)) else World(Keep(Take(s, p), p), NoJob)
  }

  /** The second. */
  ghost function Second<P>(s: State<P>, op: PairOp, p1: P, p: P): World<P>
    requires p in s.blocks
  {
    if Fit(s, op, p) then World(Take(s, p), BothFound(op, p1, p)) else World(Keep(Take(s, p), p), PutOne(p1))
  }

  ghost function Do<P>(w: World<P>, a: Access<P>): World<P>
    requires CanDo(w, a)
  {
    var s, j := w.s, w.job;
    match a
    case New(n, ftype, known, p, others) => World(Add(s, n, ftype, known, p, others).0, NoJob)
    case NewLink(n, p, others) => World(Register(s, n, None, p, others).0, NoJob)
    case FindFirst(op, n1, n2) => if Found(s, n1) then First(s, op, Ref(s, n1), n2) else w
    case FindSecond => if Found(s, j.n2) then Second(s, j.op, j.p1, Ref(s, j.n2)) else World(s, PutOne(j.p1))
    case TestReplace =>
      World(s, if s.blocks[j.p2].refcnt > 2 then PutTwo(j.p1, j.p2) else MayReplace(j.op.drop, j.p1, j.p2))
    case Withdraw => World(Withdrawn(s, j.p2), Apart2(j.drop, j.p1, j.p2))
    case MovePorts =>
      var moved := SameType(s, j.p1, j.p2) && !j.drop;
      World(if moved then PortsSwapped(s, j.p2, j.p1) else s, PortsDone(moved, j.p1, j.p2))
    case MoveRest => World(RestSwapped(s, j.p2, j.p1), RestDone(j.moved, j.p1, j.p2))
    case Vacate => World(Vacated(s, j.p1), Vacant(j.moved, j.p1, j.p2))
    case Occupy => World(Occupied(s, j.p2), PutTwo(j.p1, j.p2))
    case Work => World(Core(s, j.op, j.p1, j.p2).0, PutTwo(j.p1, j.p2))
    case PutFirst => World(Release(s, j.p1), PutOne(j.p2))
    case PutLast => World(Release(s, j.p1), NoJob)
    case FindDoomed(n) =>
      if !Found(s, n) then w
      else World(Take(s, Ref(s, n)), if HasFactory(s, Ref(s, n)) then OneForRemoval(Ref(s, n)) else PutOne(Ref(s, n)))
    case TestRemove => World(s, if s.blocks[j.p1].refcnt > 2 then PutOne(j.p1) else MayRemove(j.p1))
    case Unlist => World(Unregister(s, j.p1), PutOne(j.p1))
    case Pass(i) => World(if Live(s, i) then Take(s, s.fblmap[i]) else s, j)
    case Quit(p) => World(Release(s, p), j)
  }

  // ---------- What holds between any two accesses ----------

  /** The replacement back in registry and namespace. */
  ghost function Readmitted<P>(s: State<P>, p: P): State<P>
    requires p in s.blocks
  {
    s.(fblmap := s.fblmap[s.blocks[p].idp := p], idpmap := s.idpmap[s.blocks[p].name := s.blocks[p].idp])
  }

  /** The state without the exchange in progress: as if it had not begun, up to the exchange of the counts,
      and as if it were complete from there on. */
  ghost function Whole<P>(s: State<P>, j: Job<P>): State<P>
    requires JobBlocks(s, j)
  {
    match j
    case Apart2(_, _, p2) => Readmitted(s, p2)
    case PortsDone(moved, p1, p2) => Readmitted(if moved then PortsSwapped(s, p2, p1) else s, p2)
    case RestDone(_, p1, p2) => Occupied(Vacated(s, p1), p2)
    case Vacant(_, _, p2) => Occupied(s, p2)
    case _ => s
  }

  /** What the command in progress knows about its blocks. */
  ghost predicate JobKnows<P>(s: State<P>, j: Job<P>) {
    match j
    case OneFound(_, p1, _) => Registered(s, p1)
    case BothFound(_, p1, p2) => Registered(s, p1) && Registered(s, p2)
    case MayReplace(_, p1, p2) => Registered(s, p1) && Isolated(s, p2) && p1 != p2
    case Apart2(_, p1, p2) => Registered(s, p1) && Isolated(s, p2) && p1 != p2
    case PortsDone(_, p1, p2) => Registered(s, p1) && Isolated(s, p2) && p1 != p2
    case RestDone(_, p1, p2) => Registered(s, p2) && !Registered(s, p1) && p1 != p2
    case Vacant(_, p1, p2) => Registered(s, p2) && !Registered(s, p1) && p1 != p2
    case OneForRemoval(p1) => Registered(s, p1)
    case MayRemove(p1) => Isolated(s, p1)
    case _ => true
  }

  /** How the state differs from the whole one during an exchange. */
  ghost predicate Partial<P>(s: State<P>, j: Job<P>)
    requires JobBlocks(s, j)
  {
    match j
    case Apart2(_, _, p2) => s.blocks[p2].idp !in s.fblmap && s.blocks[p2].name !in s.idpmap
    case PortsDone(moved, p1, p2) =>
      && s.blocks[p2].idp !in s.fblmap && s.blocks[p2].name !in s.idpmap
      && (moved ==> BoundPorts(s.blocks[p1]) == 0)
    case RestDone(moved, p1, p2) =>
      && s.blocks[p2].idp == s.blocks[p1].idp && s.blocks[p1].idp in s.fblmap && s.fblmap[s.blocks[p1].idp] == p1
      && (moved ==> BoundPorts(s.blocks[p1]) == 0)
    case Vacant(_, p1, p2) => s.blocks[p2].idp == s.blocks[p1].idp && s.blocks[p2].idp !in s.fblmap
    case _ => true
  }

  /** u is the whole state, and what the command in progress knows holds there. */
  ghost predicate JobAs<P>(s: State<P>, j: Job<P>, u: State<P>) {
    JobBlocks(s, j) && JobRefs(j) + s.kept <= s.held && Partial(s, j) && u == Whole(s, j) && JobKnows(u, j)
  }

  /** The whole state satisfies the invariant, and the command's knowledge is right. */
  ghost predicate Kept<P>(w: World<P>) {
    JobBlocks(w.s, w.job) && JobAs(w.s, w.job, Whole(w.s, w.job)) && Inv(Whole(w.s, w.job))
  }

  lemma AsKept<P>(s: State<P>, j: Job<P>, u: State<P>)
    requires JobAs(s, j, u)
    ensures Kept(World(s, j)) <==> Inv(u)
  {
  }

  lemma KeptAs<P>(w: World<P>)
    requires Kept(w)
    ensures JobBlocks(w.s, w.job) && JobAs(w.s, w.job, Whole(w.s, w.job)) && Inv(Whole(w.s, w.job))
    ensures !InExchange(w.job) ==> Whole(w.s, w.job) == w.s
  {
  }

  /** The condition under which an access keeps the invariant. */
  ghost predicate SafeAccess<P>(w: World<P>, a: Access<P>)
    requires CanDo(w, a)
  {
    match a
    case New(n, _, known, _, _) => !(known && NameClash(w.s, n))
    case NewLink(n, _, _) => Truncate(n) !in w.s.idpmap
    case MoveRest =>
      && w.s.held[w.job.p1] == w.s.held[w.job.p2]
      && (w.job.moved || BoundPorts(w.s.blocks[w.job.p1]) == 0)
    case Work => SafePair(w.s, w.job.op, w.job.p1, w.job.p2)
    case _ => true
  }

  // ---------- Packets come and go ----------

  lemma TakeAlive<P>(s: State<P>, p: P)
    requires Inv(s) && p in s.blocks && s.blocks[p].refcnt > 0
    ensures Inv(Take(s, p)) && SameGraph(s, Take(s, p))
  {
    TakeCounts(s, p);
    TakeFrees(s, p);
    SameGraphKeeps(s, Take(s, p));
  }

  /** A state with another count for p, and other references held and frees done. */
  ghost function Recounted<P>(s: State<P>, p: P, r: int, h: multiset<P>, d: multiset<P>): State<P>
    requires p in s.blocks
  {
    s.(blocks := s.blocks[p := s.blocks[p].(refcnt := r)], held := h, dead := d)
  }

  /** The free that dropping a reference to the block causes. */
  ghost function Last<P>(b: Block<P>, p: P): multiset<P> {
    if b.refcnt == 1 && b.ftype.Some? then multiset{p} else multiset{}
  }

  lemma TakeIs<P>(s: State<P>, p: P)
    requires p in s.blocks
    ensures Take(s, p) == Recounted(s, p, s.blocks[p].refcnt + 1, s.held + multiset{p}, s.dead)
  {
  }

  lemma ReleaseIs<P>(s: State<P>, p: P)
    requires p in s.blocks
    ensures Release(s, p) == Recounted(s, p, s.blocks[p].refcnt - 1, s.held - multiset{p},
                                       s.dead + Last(s.blocks[p], p))
  {
  }

  lemma VacatedIs<P>(s: State<P>, p: P)
    requires p in s.blocks
    ensures Vacated(s, p) == Recounted(s, p, s.blocks[p].refcnt - 1, s.held, s.dead + Last(s.blocks[p], p))
                             .(fblmap := s.fblmap - {s.blocks[p].idp})
  {
  }

  lemma RecountedSwap<P>(s: State<P>, p1: P, p2: P, p: P, r: int, h: multiset<P>, d: multiset<P>)
    requires p1 in s.blocks && p2 in s.blocks && p in s.blocks && p1 != p2
    ensures PortsSwapped(Recounted(s, p, r, h, d), p2, p1) == Recounted(PortsSwapped(s, p2, p1), p, r, h, d)
    ensures PortsSwapped(s, p2, p1).blocks[p] == s.blocks[p].(ports := PortsSwapped(s, p2, p1).blocks[p].ports)
  {
    assert PortsSwapped(Recounted(s, p, r, h, d), p2, p1).blocks
        == Recounted(PortsSwapped(s, p2, p1), p, r, h, d).blocks;
  }

  lemma RecountedBack<P>(s: State<P>, q: P, p: P, r: int, h: multiset<P>, d: multiset<P>)
    requires q in s.blocks && p in s.blocks
    ensures Readmitted(Recounted(s, p, r, h, d), q) == Recounted(Readmitted(s, q), p, r, h, d)
    ensures Occupied(Recounted(s, p, r, h, d), q) == Recounted(Occupied(s, q), p, r, h, d)
  {
  }

  /** Up to the vacating, a change of counts and the rest of an exchange come to the same in either order. */
  lemma RecountedWhole<P>(s: State<P>, j: Job<P>, p: P, r: int, h: multiset<P>, d: multiset<P>)
    requires JobBlocks(s, j) && p in s.blocks && InExchange(j) && !j.RestDone? && j.p1 != j.p2
    ensures p in Whole(s, j).blocks && Whole(Recounted(s, p, r, h, d), j) == Recounted(Whole(s, j), p, r, h, d)
    ensures Whole(s, j).blocks[p].refcnt == s.blocks[p].refcnt && Last(Whole(s, j).blocks[p], p) == Last(s.blocks[p], p)
    ensures Whole(s, j).held == s.held && Whole(s, j).dead == s.dead
  {
    if j.PortsDone? && j.moved {
      RecountedSwapBack(s, j.p1, j.p2, p, r, h, d);
    } else if j.Vacant? {
      RecountedBack(s, j.p2, p, r, h, d);
    } else {
      RecountedBack(s, j.p2, p, r, h, d);
      assert Whole(s, j) == Readmitted(s, j.p2);
    }
  }

  lemma RecountedSwapBack<P>(s: State<P>, p1: P, p2: P, p: P, r: int, h: multiset<P>, d: multiset<P>)
    requires p1 in s.blocks && p2 in s.blocks && p in s.blocks && p1 != p2
    ensures var u := Readmitted(PortsSwapped(s, p2, p1), p2);
            && Readmitted(PortsSwapped(Recounted(s, p, r, h, d), p2, p1), p2) == Recounted(u, p, r, h, d)
            && u.blocks[p].refcnt == s.blocks[p].refcnt && u.blocks[p].ftype == s.blocks[p].ftype
  {
    RecountedSwap(s, p1, p2, p, r, h, d);
    RecountedBack(PortsSwapped(s, p2, p1), p2, p, r, h, d);
  }

  lemma CountsCommute<P>(m: map<P, Block<P>>, p: P, q: P, a: int, b: int)
    requires p in m && q in m && p != q
    ensures m[p := m[p].(refcnt := a)][q := m[q].(refcnt := b)] == m[q := m[q].(refcnt := b)][p := m[p].(refcnt := a)]
  {
  }

  lemma SumsCommute<P>(a: multiset<P>, b: multiset<P>, c: multiset<P>)
    ensures (a + b) + c == (a + c) + b
  {
  }

  lemma TakeVacated<P>(s: State<P>, p1: P, p: P)
    requires p1 in s.blocks && p in s.blocks && s.blocks[p1].refcnt > 1
    ensures Vacated(Take(s, p), p1) == Take(Vacated(s, p1), p)
  {
    TakeIs(s, p);
    VacatedIs(s, p1);
    VacatedIs(Take(s, p), p1);
    TakeIs(Vacated(s, p1), p);
    if p != p1 { CountsCommute(s.blocks, p, p1, s.blocks[p].refcnt + 1, s.blocks[p1].refcnt - 1); }
  }

  lemma ReleaseVacatedOther<P>(s: State<P>, p1: P, p: P)
    requires p1 in s.blocks && p in s.blocks && p != p1
    ensures Vacated(Release(s, p), p1) == Release(Vacated(s, p1), p)
  {
    ReleaseIs(s, p);
    VacatedIs(s, p1);
    VacatedIs(Release(s, p), p1);
    ReleaseIs(Vacated(s, p1), p);
    CountsCommute(s.blocks, p, p1, s.blocks[p].refcnt - 1, s.blocks[p1].refcnt - 1);
    SumsCommute(s.dead, Last(s.blocks[p], p), Last(s.blocks[p1], p1));
  }

  lemma ReleaseVacated<P>(s: State<P>, p1: P, p: P)
    requires p1 in s.blocks && p in s.blocks
    ensures Vacated(Release(s, p), p1) == Release(Vacated(s, p1), p)
  {
    if p != p1 {
      ReleaseVacatedOther(s, p1, p);
    } else {
      ReleaseIs(s, p);
      VacatedIs(s, p1);
      VacatedIs(Release(s, p), p1);
      ReleaseIs(Vacated(s, p1), p);
    }
  }

  lemma TakeOccupied<P>(v: State<P>, q: P, p: P)
    requires q in v.blocks && p in v.blocks
    ensures Occupied(Take(v, p), q) == Take(Occupied(v, q), p)
  {
    TakeIs(v, p);
    TakeIs(Occupied(v, q), p);
    RecountedBack(v, q, p, v.blocks[p].refcnt + 1, v.held + multiset{p}, v.dead);
  }

  /** A packet's lookup and the rest of an exchange come to the same in either order. */
  lemma TakeWhole<P>(s: State<P>, j: Job<P>, p: P)
    requires JobBlocks(s, j) && p in s.blocks && InExchange(j) && j.p1 != j.p2
             && (j.RestDone? ==> s.blocks[j.p1].refcnt > 1)
    ensures p in Whole(s, j).blocks && Whole(Take(s, p), j) == Take(Whole(s, j), p)
  {
    if j.RestDone? {
      TakeVacated(s, j.p1, p);
      TakeOccupied(Vacated(s, j.p1), j.p2, p);
    } else {
      RecountedWhole(s, j, p, s.blocks[p].refcnt + 1, s.held + multiset{p}, s.dead);
      TakeIs(s, p);
      TakeIs(Whole(s, j), p);
    }
  }

  lemma ReleaseOccupied<P>(v: State<P>, q: P, p: P)
    requires q in v.blocks && p in v.blocks
    ensures Occupied(Release(v, p), q) == Release(Occupied(v, q), p)
  {
    ReleaseIs(v, p);
    ReleaseIs(Occupied(v, q), p);
    RecountedBack(v, q, p, v.blocks[p].refcnt - 1, v.held - multiset{p}, v.dead + Last(v.blocks[p], p));
  }

  lemma ReleaseWhole<P>(s: State<P>, j: Job<P>, p: P)
    requires JobBlocks(s, j) && p in s.blocks && InExchange(j) && j.p1 != j.p2
    ensures p in Whole(s, j).blocks && Whole(Release(s, p), j) == Release(Whole(s, j), p)
  {
    if j.RestDone? { ReleaseRestDone(s, j, p); } else { ReleaseBefore(s, j, p); }
  }

  lemma ReleaseRestDone<P>(s: State<P>, j: Job<P>, p: P)
    requires JobBlocks(s, j) && p in s.blocks && j.RestDone?
    ensures p in Whole(s, j).blocks && Whole(Release(s, p), j) == Release(Whole(s, j), p)
  {
    ReleaseVacated(s, j.p1, p);
    ReleaseOccupied(Vacated(s, j.p1), j.p2, p);
  }

  lemma ReleaseBefore<P>(s: State<P>, j: Job<P>, p: P)
    requires JobBlocks(s, j) && p in s.blocks && InExchange(j) && !j.RestDone? && j.p1 != j.p2
    ensures p in Whole(s, j).blocks && Whole(Release(s, p), j) == Release(Whole(s, j), p)
  {
    RecountedWhole(s, j, p, s.blocks[p].refcnt - 1, s.held - multiset{p}, s.dead + Last(s.blocks[p], p));
    ReleaseIs(s, p);
    ReleaseIs(Whole(s, j), p);
  }

  lemma SameGraphIsolated<P>(s: State<P>, t: State<P>, p: P)
    requires SameGraph(s, t) && Isolated(s, p)
    ensures Isolated(t, p)
  {
    forall i | i in t.fblmap && Live(t, i) ensures Apart(BlockAt(t, i), t.blocks[p].idp) {
      assert Apart(BlockAt(s, i), s.blocks[p].idp);
    }
  }

  /** Reference counts alone do not matter to a job. */
  lemma SameGraphKnows<P>(s: State<P>, t: State<P>, j: Job<P>)
    requires SameGraph(s, t) && JobKnows(s, j)
    ensures JobKnows(t, j)
  {
    if j.MayReplace? || j.Apart2? || j.PortsDone? {
      SameGraphIsolated(s, t, j.p2);
    } else if j.MayRemove? {
      SameGraphIsolated(s, t, j.p1);
    }
  }

  lemma SameGraphPartial<P>(s: State<P>, t: State<P>, j: Job<P>)
    requires SameGraph(s, t) && JobBlocks(s, j) && Partial(s, j)
    ensures JobBlocks(t, j) && Partial(t, j)
  {
  }

  lemma WholeBlocks<P>(s: State<P>, j: Job<P>)
    requires JobBlocks(s, j)
    ensures Whole(s, j).blocks.Keys == s.blocks.Keys && Whole(s, j).held == s.held && Whole(s, j).kept == s.kept
    ensures j.RestDone? && j.p1 != j.p2 ==> Whole(s, j).blocks[j.p1].refcnt == s.blocks[j.p1].refcnt - 1
  {
  }

  /** The command's own references. */
  lemma HeldByJob<P>(s: State<P>, j: Job<P>)
    requires JobRefs(j) + s.kept <= s.held && !j.NoJob?
    ensures j.p1 in s.held && (TwoBlocks(j) ==> j.p2 in s.held && (j.p1 == j.p2 ==> s.held[j.p1] >= 2))
  {
    assert (JobRefs(j) + s.kept)[j.p1] <= s.held[j.p1];
    if TwoBlocks(j) { assert (JobRefs(j) + s.kept)[j.p2] <= s.held[j.p2]; }
  }

  lemma LookupSame<P>(s: State<P>, j: Job<P>, i: Idp)
    requires JobBlocks(s, j) && Partial(s, j) && (InExchange(j) ==> j.p1 != j.p2) && Live(s, i)
    requires !(j.RestDone? && s.fblmap[i] == j.p1)
    ensures i in Whole(s, j).fblmap && Whole(s, j).fblmap[i] == s.fblmap[i]
  {
  }

  /** What a lookup finds is alive in the whole state. */
  lemma LookupAlive<P>(s: State<P>, j: Job<P>, u: State<P>, i: Idp)
    requires JobAs(s, j, u) && Registry(u) && Counting(u) && Live(s, i)
    ensures s.fblmap[i] in u.blocks && u.blocks[s.fblmap[i]].refcnt > 0
  {
    WholeBlocks(s, j);
    if j.RestDone? && s.fblmap[i] == j.p1 {
      HeldByJob(s, j);
      PositiveCount(u, j.p1);
    } else {
      LookupSame(s, j, i);
      PositiveCount(u, s.fblmap[i]);
    }
  }

  /** A change of counts that commutes with the rest of the exchange keeps what the command knows. */
  lemma SameGraphJob<P>(s: State<P>, j: Job<P>, u: State<P>, t: State<P>, v: State<P>)
    requires JobAs(s, j, u) && SameGraph(s, t) && SameGraph(u, v) && JobRefs(j) + t.kept <= t.held
    requires JobBlocks(t, j) && v == Whole(t, j)
    ensures JobAs(t, j, v)
  {
    SameGraphKnows(u, v, j);
    SameGraphPartial(s, t, j);
  }

  lemma TakeSame<P>(s: State<P>, p: P)
    requires p in s.blocks
    ensures SameGraph(s, Take(s, p))
  {
  }

  lemma TakenJob<P>(s: State<P>, j: Job<P>, u: State<P>, p: P)
    requires JobAs(s, j, u) && p in s.blocks && (j.RestDone? ==> s.blocks[j.p1].refcnt > 1)
    ensures p in u.blocks && JobAs(Take(s, p), j, Take(u, p))
  {
    if InExchange(j) { TakeWhole(s, j, p); }
    TakeSame(s, p);
    TakeSame(u, p);
    SameGraphJob(s, j, u, Take(s, p), Take(u, p));
  }

  lemma VacatingCount<P>(s: State<P>, j: Job<P>, u: State<P>)
    requires JobAs(s, j, u) && Counting(u) && j.RestDone?
    ensures s.blocks[j.p1].refcnt > 1
  {
    WholeBlocks(s, j);
    HeldByJob(s, j);
    PositiveCount(u, j.p1);
  }

  lemma PassJob<P>(s: State<P>, j: Job<P>, u: State<P>, i: Idp, p: P)
    requires JobAs(s, j, u) && Inv(u) && Live(s, i) && p == s.fblmap[i]
    ensures p in u.blocks && JobAs(Take(s, p), j, Take(u, p)) && Inv(Take(u, p))
  {
    LookupAlive(s, j, u, i);
    if j.RestDone? { VacatingCount(s, j, u); }
    TakenJob(s, j, u, p);
    TakeAlive(u, p);
  }

  lemma ReleaseLeaves<P>(s: State<P>, r: multiset<P>, p: P)
    requires p in s.blocks && r + s.kept <= s.held && r[p] + s.kept[p] < s.held[p]
    ensures p in s.held && r + Release(s, p).kept <= Release(s, p).held
  {
    forall q ensures (r + s.kept)[q] <= Release(s, p).held[q] {
      assert (r + s.kept)[q] <= s.held[q];
    }
  }

  lemma ReleasedJob<P>(s: State<P>, j: Job<P>, u: State<P>, p: P)
    requires JobAs(s, j, u) && p in s.blocks && p in s.held && p in u.held
             && JobRefs(j) + Release(s, p).kept <= Release(s, p).held
    ensures p in u.blocks && JobAs(Release(s, p), j, Release(u, p))
  {
    if InExchange(j) { ReleaseWhole(s, j, p); }
    ReleaseEffect(s, p);
    ReleaseEffect(u, p);
    SameGraphJob(s, j, u, Release(s, p), Release(u, p));
  }

  // ---------- Lookups and tests ----------

  /** Outside an exchange the state is the whole one. */
  lemma PlainJob<P>(s: State<P>, j: Job<P>)
    requires !InExchange(j)
    ensures JobAs(s, j, s) <==> JobBlocks(s, j) && JobRefs(j) + s.kept <= s.held && JobKnows(s, j)
  {
  }

  lemma FirstJob<P>(s: State<P>, p: P, j: Job<P>)
    requires Registered(s, p) && s.kept <= s.held && (j.OneFound? || j.OneForRemoval? || j.PutOne?) && j.p1 == p
    ensures JobAs(Take(s, p), j, Take(s, p))
  {
    PlainJob(Take(s, p), j);
  }

  lemma SecondJob<P>(s: State<P>, op: PairOp, p1: P, p: P)
    requires Registered(s, p1) && Registered(s, p) && multiset{p1} + s.kept <= s.held
    ensures JobAs(Take(s, p), BothFound(op, p1, p), Take(s, p))
  {
    PlainJob(Take(s, p), BothFound(op, p1, p));
  }

  lemma KeptJob<P>(s: State<P>, j: Job<P>, p: P, t: State<P>)
    requires p in s.blocks && (j.NoJob? || j.PutOne?) && JobBlocks(s, j) && JobRefs(j) + s.kept <= s.held
             && t == Keep(Take(s, p), p)
    ensures JobAs(t, j, t)
  {
    PlainJob(t, j);
  }

  lemma FoundInv<P>(s: State<P>, n: Name, p: P)
    requires Inv(s) && Found(s, n) && p == Ref(s, n)
    ensures Registered(s, p) && Inv(Take(s, p)) && Inv(Keep(Take(s, p), p))
  {
    FoundRegistered(s, n);
    TakeKeepsInv(s, p);
    KeepInv(Take(s, p), p);
  }

  lemma FirstKept<P>(s: State<P>, op: PairOp, n1: Name, n2: Name, p: P)
    requires Inv(s) && s.kept <= s.held && Found(s, n1) && p == Ref(s, n1)
    ensures Kept(First(s, op, p, n2))
  {
    var t := Take(s, p);
    FoundInv(s, n1, p);
    if Fit(s, op, p) {
      FirstJob(s, p, OneFound(op, p, n2));
      AsKept(t, OneFound(op, p, n2), t);
    } else {
      KeptJob(s, NoJob, p, Keep(t, p));
      AsKept(Keep(t, p), NoJob, Keep(t, p));
    }
  }

  lemma SecondKept<P>(s: State<P>, op: PairOp, p1: P, n2: Name, p: P)
    requires Inv(s) && Registered(s, p1) && multiset{p1} + s.kept <= s.held && Found(s, n2) && p == Ref(s, n2)
    ensures Kept(Second(s, op, p1, p))
  {
    var t := Take(s, p);
    FoundInv(s, n2, p);
    if Fit(s, op, p) {
      SecondJob(s, op, p1, p);
      AsKept(t, BothFound(op, p1, p), t);
    } else {
      KeptJob(s, PutOne(p1), p, Keep(t, p));
      AsKept(Keep(t, p), PutOne(p1), Keep(t, p));
    }
  }

  lemma DoomedKept<P>(s: State<P>, n: Name, p: P, j: Job<P>)
    requires Inv(s) && s.kept <= s.held && Found(s, n) && p == Ref(s, n) && (j == OneForRemoval(p) || j == PutOne(p))
    ensures Kept(World(Take(s, p), j))
  {
    FoundInv(s, n, p);
    FirstJob(s, p, j);
    AsKept(Take(s, p), j, Take(s, p));
  }

  lemma TwoNotOne<P>(s: State<P>, p1: P, p2: P)
    requires Registry(s) && Counting(s) && Registered(s, p2) && (multiset{p1} + multiset{p2}) + s.kept <= s.held
             && s.blocks[p2].refcnt <= 2
    ensures p1 != p2 && p2 in s.held
  {
    HeldByJob(s, PutTwo(p1, p2));
    PositiveOwed(s, p2);
  }

  /** Two references on one block are too many for the test. */
  lemma TestReplaceKept<P>(s: State<P>, drop: bool, p1: P, p2: P)
    requires Inv(s) && Registered(s, p1) && Registered(s, p2) && (multiset{p1} + multiset{p2}) + s.kept <= s.held
    ensures s.blocks[p2].refcnt <= 2 ==> Kept(World(s, MayReplace(drop, p1, p2)))
    ensures Kept(World(s, PutTwo(p1, p2)))
  {
    PlainJob(s, PutTwo(p1, p2));
    AsKept(s, PutTwo(p1, p2), s);
    if s.blocks[p2].refcnt <= 2 {
      TwoNotOne(s, p1, p2);
      TestIsolates(s, p2);
      PlainJob(s, MayReplace(drop, p1, p2));
      AsKept(s, MayReplace(drop, p1, p2), s);
    }
  }

  lemma TestRemoveKept<P>(s: State<P>, p: P)
    requires Inv(s) && Registered(s, p) && multiset{p} + s.kept <= s.held
    ensures s.blocks[p].refcnt <= 2 ==> Kept(World(s, MayRemove(p)))
    ensures Kept(World(s, PutOne(p)))
  {
    PlainJob(s, PutOne(p));
    AsKept(s, PutOne(p), s);
    if s.blocks[p].refcnt <= 2 {
      HeldByJob(s, PutOne(p));
      TestIsolates(s, p);
      PlainJob(s, MayRemove(p));
      AsKept(s, MayRemove(p), s);
    }
  }

  lemma IsolatedCount<P>(s: State<P>, p: P)
    requires Registry(s) && Counting(s) && Isolated(s, p)
    ensures s.blocks[p].refcnt == s.held[p] + 1
  {
    IsolatedOwed(s, p);
  }

  lemma PutNext<P>(t: State<P>, j: Job<P>)
    requires (j.NoJob? || j.PutOne?) && JobBlocks(t, j) && JobRefs(j) + t.kept <= t.held
    ensures JobAs(t, j, t)
  {
  }

  lemma UnregisteredHeld<P>(s: State<P>, p: P)
    requires p in s.blocks
    ensures Unregister(s, p).held == s.held && Unregister(s, p).kept == s.kept
  {
  }

  /** However many packets came in since the test, the block can go. */
  lemma UnlistInv<P>(s: State<P>, p: P)
    requires Inv(s) && Isolated(s, p) && p in s.held
    ensures Inv(Unregister(s, p))
  {
    IsolatedCount(s, p);
    UnregisterKeepsInv(s, p);
  }

  lemma UnlistKept<P>(s: State<P>, p: P)
    requires Inv(s) && Isolated(s, p) && multiset{p} + s.kept <= s.held
    ensures Kept(World(Unregister(s, p), PutOne(p)))
  {
    HeldByJob(s, PutOne(p));
    UnlistInv(s, p);
    UnregisteredHeld(s, p);
    PutNext(Unregister(s, p), PutOne(p));
    AsKept(Unregister(s, p), PutOne(p), Unregister(s, p));
  }

  lemma PutKept<P>(s: State<P>, p: P, j: Job<P>)
    requires Inv(s) && (j.NoJob? || j.PutOne?) && JobBlocks(s, j) && p in s.blocks
             && (JobRefs(j) + multiset{p}) + s.kept <= s.held
    ensures Kept(World(Release(s, p), j))
  {
    PutLeaves(s, p, JobRefs(j));
    ReleaseKeepsInv(s, p);
    PutNext(Release(s, p), j);
    AsKept(Release(s, p), j, Release(s, p));
  }

  lemma PutLeaves<P>(s: State<P>, p: P, r: multiset<P>)
    requires p in s.blocks && (r + multiset{p}) + s.kept <= s.held
    ensures p in s.held && r + Release(s, p).kept <= Release(s, p).held
  {
    forall q ensures ((r + multiset{p}) + s.kept)[q] <= s.held[q] {
    }
    assert ((r + multiset{p}) + s.kept)[p] <= s.held[p];
    forall q ensures (r + s.kept)[q] <= s.held[q] {
      assert ((r + multiset{p}) + s.kept)[q] <= s.held[q];
    }
    ReleaseLeaves(s, r, p);
  }

  // ---------- The work of the other commands ----------

  lemma CoreKeepsIff<P>(s: State<P>, op: PairOp, p1: P, p2: P, u: State<P>)
    requires Inv(s) && BothHeld(s, p1, p2) && !op.DoReplace? && u == Core(s, op, p1, p2).0
    ensures Inv(u) <==> SafePair(s, op, p1, p2)
  {
    if SafePair(s, op, p1, p2) { CoreKeeps(s, op, p1, p2, u); } else { CoreBreaks(s, op, p1, p2, u); }
  }

  lemma WorkJob<P>(s: State<P>, op: PairOp, p1: P, p2: P, u: State<P>)
    requires p1 in s.blocks && p2 in s.blocks && (multiset{p1} + multiset{p2}) + s.kept <= s.held
             && u == Core(s, op, p1, p2).0
    ensures JobAs(u, PutTwo(p1, p2), u)
  {
    CoreHeld(s, op, p1, p2);
    PlainJob(u, PutTwo(p1, p2));
  }

  lemma WorkKeptIff<P>(s: State<P>, op: PairOp, p1: P, p2: P, u: State<P>)
    requires Inv(s) && Registered(s, p1) && Registered(s, p2) && (multiset{p1} + multiset{p2}) + s.kept <= s.held
    requires !op.DoReplace? && u == Core(s, op, p1, p2).0
    ensures Kept(World(u, PutTwo(p1, p2))) <==> SafePair(s, op, p1, p2)
  {
    HeldByJob(s, PutTwo(p1, p2));
    WorkJob(s, op, p1, p2, u);
    CoreKeepsIff(s, op, p1, p2, u);
    AsKept(u, PutTwo(p1, p2), u);
  }

  // ---------- The exchange, store by store ----------

  lemma MapBack<K, V>(m: map<K, V>, k: K, v: V)
    requires k in m && m[k] == v
    ensures (m - {k})[k := v] == m
  {
  }

  lemma WithdrawBack<P>(s: State<P>, p: P)
    requires Registered(s, p) && s.blocks[p].name in s.idpmap && s.idpmap[s.blocks[p].name] == s.blocks[p].idp
    ensures Readmitted(Withdrawn(s, p), p) == s
  {
    MapBack(s.fblmap, s.blocks[p].idp, p);
    MapBack(s.idpmap, s.blocks[p].name, s.blocks[p].idp);
  }

  lemma ReadmitBack<P>(s: State<P>, p: P)
    requires p in s.blocks && s.blocks[p].idp !in s.fblmap && s.blocks[p].name !in s.idpmap
    ensures Withdrawn(Readmitted(s, p), p) == s
  {
    assert s.fblmap[s.blocks[p].idp := p] - {s.blocks[p].idp} == s.fblmap;
    assert s.idpmap[s.blocks[p].name := s.blocks[p].idp] - {s.blocks[p].name} == s.idpmap;
  }

  lemma RegisteredName<P>(s: State<P>, p: P)
    requires Registry(s) && Namespace(s) && Registered(s, p)
    ensures s.blocks[p].name in s.idpmap && s.idpmap[s.blocks[p].name] == s.blocks[p].idp
  {
    assert Live(s, s.blocks[p].idp) && BlockAt(s, s.blocks[p].idp) == s.blocks[p];
  }

  lemma WithdrawJob<P>(s: State<P>, drop: bool, p1: P, p2: P)
    requires JobAs(s, MayReplace(drop, p1, p2), s) && Registry(s) && Namespace(s)
    ensures JobAs(Withdrawn(s, p2), Apart2(drop, p1, p2), s)
  {
    RegisteredName(s, p2);
    WithdrawBack(s, p2);
  }

  lemma SwapTwice<P>(s: State<P>, p: P, q: P)
    requires p in s.blocks && q in s.blocks && p != q
    ensures PortsSwapped(PortsSwapped(s, p, q), p, q) == s
  {
    assert PortsSwapped(PortsSwapped(s, p, q), p, q).blocks == s.blocks;
  }

  lemma SwapPartial<P>(s: State<P>, p1: P, p2: P)
    requires p1 in s.blocks && p2 in s.blocks && p1 != p2 && BoundPorts(s.blocks[p2]) == 0
    requires s.blocks[p2].idp !in s.fblmap && s.blocks[p2].name !in s.idpmap
    ensures Partial(PortsSwapped(s, p2, p1), PortsDone(true, p1, p2))
  {
  }

  lemma MovePortsJob<P>(s: State<P>, drop: bool, p1: P, p2: P, u: State<P>, moved: bool)
    requires JobAs(s, Apart2(drop, p1, p2), u)
    ensures JobAs(if moved then PortsSwapped(s, p2, p1) else s, PortsDone(moved, p1, p2), u)
  {
    if moved {
      SwapTwice(s, p2, p1);
      SwapPartial(s, p1, p2);
    }
  }

  /** The state before the counts are exchanged, in terms of the whole one. */
  lemma PortsDoneIs<P>(s: State<P>, moved: bool, p1: P, p2: P)
    requires p1 in s.blocks && p2 in s.blocks && p1 != p2 && s.blocks[p2].idp !in s.fblmap
             && s.blocks[p2].name !in s.idpmap
    ensures MaybeMigrated(Whole(s, PortsDone(moved, p1, p2)), p1, p2, moved) == s
  {
    if moved {
      SwapTwice(s, p2, p1);
      ReadmitBack(PortsSwapped(s, p2, p1), p2);
    } else {
      ReadmitBack(s, p2);
    }
  }

  /** From here on the exchange is bound to end as the replacement of the value model. */
  lemma RestDoneIs<P>(s: State<P>, moved: bool, p1: P, p2: P, u: State<P>)
    requires p1 in s.blocks && p2 in s.blocks && p1 != p2 && s.blocks[p2].idp !in s.fblmap
             && s.blocks[p2].name !in s.idpmap
    requires u == Whole(s, PortsDone(moved, p1, p2)) && u.blocks.Keys == s.blocks.Keys
    ensures Whole(RestSwapped(s, p2, p1), RestDone(moved, p1, p2)) == Replaced(u, p1, p2, moved)
  {
    var r := RestSwapped(s, p2, p1);
    PortsDoneIs(s, moved, p1, p2);
    ReplaceSteps(u, p1, p2, moved, r, Vacated(r, p1));
  }

  lemma RestDonePartial<P>(s: State<P>, moved: bool, p1: P, p2: P)
    requires p1 in s.blocks && p2 in s.blocks && p1 != p2 && Partial(s, PortsDone(moved, p1, p2))
    requires s.blocks[p1].idp in s.fblmap && s.fblmap[s.blocks[p1].idp] == p1
    ensures Partial(RestSwapped(s, p2, p1), RestDone(moved, p1, p2))
  {
  }

  lemma ReplacedRegistry<P>(s: State<P>, p1: P, p2: P, migrate: bool)
    requires Registered(s, p1) && Registered(s, p2) && p1 != p2 && s.blocks[p2].refcnt > 1
    ensures Registered(Replaced(s, p1, p2, migrate), p2) && !Registered(Replaced(s, p1, p2, migrate), p1)
  {
    ReplacedTakesOver(s, p1, p2, migrate);
  }

  lemma StillRegistered<P>(s: State<P>, moved: bool, p1: P, p2: P)
    requires p1 in s.blocks && p2 in s.blocks && p1 != p2 && Registered(Whole(s, PortsDone(moved, p1, p2)), p1)
    ensures s.blocks[p1].idp in s.fblmap && s.fblmap[s.blocks[p1].idp] == p1
  {
  }

  lemma MoveRestJob<P>(s: State<P>, moved: bool, p1: P, p2: P, u: State<P>)
    requires JobAs(s, PortsDone(moved, p1, p2), u) && Registry(u) && Counting(u)
    ensures p1 in u.blocks && p2 in u.blocks
    ensures JobAs(RestSwapped(s, p2, p1), RestDone(moved, p1, p2), Replaced(u, p1, p2, moved))
  {
    WholeBlocks(s, PortsDone(moved, p1, p2));
    HeldByJob(s, PortsDone(moved, p1, p2));
    IsolatedCount(u, p2);
    StillRegistered(s, moved, p1, p2);
    RestDonePartial(s, moved, p1, p2);
    RestDoneIs(s, moved, p1, p2, u);
    ReplacedRegistry(u, p1, p2, moved);
  }

  lemma SamePorts<P>(s: State<P>, p1: P, p2: P)
    requires p1 in s.blocks && p2 in s.blocks
    ensures Whole(s, PortsDone(false, p1, p2)).blocks == s.blocks
  {
  }

  /** The exchange of the counts keeps the invariant exactly when both blocks are held equally often then,
      and the ports have moved or there are none. */
  lemma MoveRestIff<P>(s: State<P>, moved: bool, p1: P, p2: P, u: State<P>)
    requires JobAs(s, PortsDone(moved, p1, p2), u) && Inv(u) && p1 in u.blocks && p2 in u.blocks
    ensures Inv(Replaced(u, p1, p2, moved)) <==> s.held[p1] == s.held[p2] && (moved || BoundPorts(s.blocks[p1]) == 0)
  {
    WholeBlocks(s, PortsDone(moved, p1, p2));
    HeldByJob(s, PortsDone(moved, p1, p2));
    ReplacedKeepsInvIff(u, p1, p2, moved);
    if !moved { SamePorts(s, p1, p2); }
  }

  lemma VacateJob<P>(s: State<P>, moved: bool, p1: P, p2: P, u: State<P>)
    requires JobAs(s, RestDone(moved, p1, p2), u)
    ensures JobAs(Vacated(s, p1), Vacant(moved, p1, p2), u)
  {
  }

  lemma OccupyJob<P>(s: State<P>, moved: bool, p1: P, p2: P, u: State<P>)
    requires JobAs(s, Vacant(moved, p1, p2), u)
    ensures Occupied(s, p2) == u && JobAs(u, PutTwo(p1, p2), u)
  {
  }

  // ---------- Any access ----------

  lemma PassKeeps<P>(w: World<P>, i: Idp)
    requires Kept(w) && CanDo(w, Pass(i))
    ensures Kept(Do(w, Pass(i)))
  {
    var s, j, u := w.s, w.job, Whole(w.s, w.job);
    KeptAs(w);
    if Live(s, i) {
      var p := s.fblmap[i];
      PassJob(s, j, u, i, p);
      AsKept(Take(s, p), j, Take(u, p));
    }
  }

  lemma QuitKeeps<P>(w: World<P>, p: P)
    requires Kept(w) && CanDo(w, Quit(p))
    ensures Kept(Do(w, Quit(p)))
  {
    var s, j, u := w.s, w.job, Whole(w.s, w.job);
    KeptAs(w);
    WholeBlocks(s, j);
    ReleaseLeaves(s, JobRefs(j), p);
    ReleasedJob(s, j, u, p);
    ReleaseKeepsInv(u, p);
    AsKept(Release(s, p), j, Release(u, p));
  }

  lemma NewHeld<P>(s: State<P>, n: Name, ftype: Option<string>, p: P, others: nat)
    ensures Register(s, n, ftype, p, others).0.held == s.held && Register(s, n, ftype, p, others).0.kept == s.kept
  {
  }

  lemma NewKeepsIff<P>(w: World<P>, n: Name, ftype: string, known: bool, p: P, others: nat)
    requires Kept(w) && CanDo(w, New(n, ftype, known, p, others))
    ensures Kept(Do(w, New(n, ftype, known, p, others))) <==> SafeAccess(w, New(n, ftype, known, p, others))
  {
    var t := Add(w.s, n, ftype, known, p, others).0;
    KeptAs(w);
    NewHeld(w.s, n, Some(ftype), p, others);
    AddKeepsInvIff(w.s, n, ftype, known, p, others, t);
    PlainJob(t, NoJob);
    AsKept(t, NoJob, t);
  }

  lemma NewLinkKeepsIff<P>(w: World<P>, n: Name, p: P, others: nat)
    requires Kept(w) && CanDo(w, NewLink(n, p, others))
    ensures Kept(Do(w, NewLink(n, p, others))) <==> SafeAccess(w, NewLink(n, p, others))
  {
    var t := Register(w.s, n, None, p, others).0;
    KeptAs(w);
    NewHeld(w.s, n, None, p, others);
    RegisterKeepsInvIff(w.s, n, None, p, others, t);
    PlainJob(t, NoJob);
    AsKept(t, NoJob, t);
  }

  lemma ExchangeKeepsIff<P>(w: World<P>, a: Access<P>)
    requires Kept(w) && CanDo(w, a) && (a.Withdraw? || a.MovePorts? || a.MoveRest? || a.Vacate? || a.Occupy?)
    ensures Kept(Do(w, a)) <==> SafeAccess(w, a)
  {
    var s, j, u := w.s, w.job, Whole(w.s, w.job);
    match a
    case Withdraw => WithdrawJob(s, j.drop, j.p1, j.p2);
    case MovePorts => MovePortsJob(s, j.drop, j.p1, j.p2, u, SameType(s, j.p1, j.p2) && !j.drop);
    case MoveRest =>
      MoveRestJob(s, j.moved, j.p1, j.p2, u);
      MoveRestIff(s, j.moved, j.p1, j.p2, u);
    case Vacate => VacateJob(s, j.moved, j.p1, j.p2, u);
    case Occupy => OccupyJob(s, j.moved, j.p1, j.p2, u);
  }

  lemma FindFirstKeeps<P>(w: World<P>, op: PairOp, n1: Name, n2: Name)
    requires Kept(w) && CanDo(w, FindFirst(op, n1, n2))
    ensures Kept(Do(w, FindFirst(op, n1, n2)))
  {
    KeptAs(w);
    if Found(w.s, n1) { FirstKept(w.s, op, n1, n2, Ref(w.s, n1)); }
  }

  lemma FindDoomedKeeps<P>(w: World<P>, n: Name)
    requires Kept(w) && CanDo(w, FindDoomed(n))
    ensures Kept(Do(w, FindDoomed(n)))
  {
    KeptAs(w);
    if Found(w.s, n) {
      var p := Ref(w.s, n);
      DoomedKept(w.s, n, p, if HasFactory(w.s, p) then OneForRemoval(p) else PutOne(p));
    }
  }

  lemma OneFoundKnows<P>(w: World<P>)
    requires Kept(w) && w.job.OneFound?
    ensures Inv(w.s) && Registered(w.s, w.job.p1) && multiset{w.job.p1} + w.s.kept <= w.s.held
  {
  }

  lemma NoSecondKept<P>(s: State<P>, p1: P)
    requires Inv(s) && p1 in s.blocks && multiset{p1} + s.kept <= s.held
    ensures Kept(World(s, PutOne(p1)))
  {
    PlainJob(s, PutOne(p1));
    AsKept(s, PutOne(p1), s);
  }

  lemma FindSecondKeeps<P>(w: World<P>)
    requires Kept(w) && CanDo(w, FindSecond)
    ensures Kept(Do(w, FindSecond))
  {
    var s, j := w.s, w.job;
    OneFoundKnows(w);
    if Found(s, j.n2) { SecondKept(s, j.op, j.p1, j.n2, Ref(s, j.n2)); } else { NoSecondKept(s, j.p1); }
  }

  lemma TestReplaceKeeps<P>(w: World<P>)
    requires Kept(w) && CanDo(w, TestReplace)
    ensures Kept(Do(w, TestReplace))
  {
    KeptAs(w);
    TestReplaceKept(w.s, w.job.op.drop, w.job.p1, w.job.p2);
  }

  lemma TestRemoveKeeps<P>(w: World<P>)
    requires Kept(w) && CanDo(w, TestRemove)
    ensures Kept(Do(w, TestRemove))
  {
    KeptAs(w);
    TestRemoveKept(w.s, w.job.p1);
  }

  lemma UnlistKeeps<P>(w: World<P>)
    requires Kept(w) && CanDo(w, Unlist)
    ensures Kept(Do(w, Unlist))
  {
    KeptAs(w);
    UnlistKept(w.s, w.job.p1);
  }

  lemma PutTwoKnows<P>(w: World<P>)
    requires Kept(w) && w.job.PutTwo?
    ensures Inv(w.s) && (multiset{w.job.p2} + multiset{w.job.p1}) + w.s.kept <= w.s.held
  {
    assert multiset{w.job.p2} + multiset{w.job.p1} == multiset{w.job.p1} + multiset{w.job.p2};
  }

  lemma PutFirstKeeps<P>(w: World<P>)
    requires Kept(w) && CanDo(w, PutFirst)
    ensures Kept(Do(w, PutFirst))
  {
    PutTwoKnows(w);
    PutKept(w.s, w.job.p1, PutOne(w.job.p2));
  }

  lemma PutLastKeeps<P>(w: World<P>)
    requires Kept(w) && CanDo(w, PutLast)
    ensures Kept(Do(w, PutLast))
  {
    var j := w.job;
    KeptAs(w);
    assert multiset{} + multiset{j.p1} == JobRefs(j);
    PutKept(w.s, j.p1, NoJob);
  }

  lemma WorkKeepsIff<P>(w: World<P>)
    requires Kept(w) && CanDo(w, Work)
    ensures Kept(Do(w, Work)) <==> SafeAccess(w, Work)
  {
    var j := w.job;
    KeptAs(w);
    WorkKeptIff(w.s, j.op, j.p1, j.p2, Core(w.s, j.op, j.p1, j.p2).0);
  }

  /** One access keeps the invariant exactly when it is safe. Packets may come and go at any time, also
      between the stores of a replace; only the exchange of the counts minds them. */
  lemma AccessKeepsIff<P>(w: World<P>, a: Access<P>)
    requires Kept(w) && CanDo(w, a)
    ensures Kept(Do(w, a)) <==> SafeAccess(w, a)
  {
    match a
    case New(n, ftype, known, p, others) => NewKeepsIff(w, n, ftype, known, p, others);
    case NewLink(n, p, others) => NewLinkKeepsIff(w, n, p, others);
    case FindFirst(op, n1, n2) => FindFirstKeeps(w, op, n1, n2);
    case FindSecond => FindSecondKeeps(w);
    case TestReplace => TestReplaceKeeps(w);
    case Work => WorkKeepsIff(w);
    case PutFirst => PutFirstKeeps(w);
    case PutLast => PutLastKeeps(w);
    case FindDoomed(n) => FindDoomedKeeps(w, n);
    case TestRemove => TestRemoveKeeps(w);
    case Unlist => UnlistKeeps(w);
    case Pass(i) => PassKeeps(w, i);
    case Quit(p) => QuitKeeps(w, p);
    case _ => ExchangeKeepsIff(w, a);
  }

  // ---------- Runs of accesses ----------

  ghost predicate SafeAccesses<P>(w: World<P>, l: seq<Access<P>>)
    decreases |l|
  {
    l != [] ==> CanDo(w, l[0]) && SafeAccess(w, l[0]) && SafeAccesses(Do(w, l[0]), l[1..])
  }

  ghost predicate CanDoAll<P>(w: World<P>, l: seq<Access<P>>)
    decreases |l|
  {
    l != [] ==> CanDo(w, l[0]) && CanDoAll(Do(w, l[0]), l[1..])
  }

  ghost function DoAll<P>(w: World<P>, l: seq<Access<P>>): World<P>
    requires CanDoAll(w, l)
    decreases |l|
  {
    if l == [] then w else DoAll(Do(w, l[0]), l[1..])
  }

  lemma {:induction false} SafeRunKeeps<P>(w: World<P>, l: seq<Access<P>>)
    requires Kept(w) && SafeAccesses(w, l)
    ensures CanDoAll(w, l) && Kept(DoAll(w, l))
    decreases |l|
  {
    if l == [] {
    } else {
      AccessKeepsIff(w, l[0]);
      SafeRunKeeps(Do(w, l[0]), l[1..]);
    }
  }

  /** In every interleaving of safe accesses of commands and packets, the state satisfies the invariant,
      during the exchange of a replace once the exchange is thought away or completed, and the command in
      progress is right about its blocks. */
  lemma InterleavedInv<P>(s: State<P>, l: seq<Access<P>>)
    requires Initial(s) && SafeAccesses(World(s, NoJob), l)
    ensures CanDoAll(World(s, NoJob), l)
    ensures var w := DoAll(World(s, NoJob), l); Kept(w) && (!InExchange(w.job) ==> Inv(w.s))
  {
    SafeRunKeeps(World(s, NoJob), l);
  }

  lemma KeptTested<P>(w: World<P>)
    requires Kept(w)
    ensures w.job.MayRemove? ==> Isolated(w.s, w.job.p1)
    ensures w.job.MayReplace? ==> Isolated(w.s, w.job.p2)
  {
    KeptAs(w);
    if w.job.MayRemove? || w.job.MayReplace? { JobTested(w.s, w.job); }
  }

  lemma JobTested<P>(s: State<P>, j: Job<P>)
    requires JobKnows(s, j) && (j.MayRemove? || j.MayReplace?)
    ensures Isolated(s, if j.MayRemove? then j.p1 else j.p2)
  {
  }

  /** So whatever packets did since its test, a block about to be taken out, or to take another's place, has no
      bound port and no notifier, and nobody points to it or names it. */
  lemma TestedStaysIsolated<P>(s: State<P>, l: seq<Access<P>>, w: World<P>)
    requires Initial(s) && SafeAccesses(World(s, NoJob), l) && CanDoAll(World(s, NoJob), l)
             && w == DoAll(World(s, NoJob), l)
    ensures w.job.MayRemove? ==> Isolated(w.s, w.job.p1)
    ensures w.job.MayReplace? ==> Isolated(w.s, w.job.p2)
  {
    InterleavedInv(s, l);
    KeptTested(w);
  }

  // ---------- What packets see during an exchange ----------

  /** The idp leads to the same block, in the same state, as once the exchange is thought away or completed. */
  ghost predicate AsInWhole<P>(s: State<P>, j: Job<P>, i: Idp)
    requires JobBlocks(s, j) && Live(s, i)
  {
    Live(Whole(s, j), i) && Whole(s, j).fblmap[i] == s.fblmap[i] && BlockAt(Whole(s, j), i) == BlockAt(s, i)
  }

  lemma OthersSeen<P>(s: State<P>, j: Job<P>, i: Idp)
    requires JobBlocks(s, j) && Partial(s, j) && InExchange(j) && j.p1 != j.p2 && Live(s, i)
    requires s.fblmap[i] != j.p1 && s.fblmap[i] != j.p2
    ensures AsInWhole(s, j, i)
  {
  }

  /** Until its ports are moved the old block is seen as before. From then on until the new one is in its
      place, a packet for the idp finds a block without bound ports or, once the old one is out of the
      registry, none at all; so it ends there. The replacement's own idp leads nowhere until then, and all other
      blocks are seen as they are. */
  lemma SeenDuringExchange<P>(w: World<P>)
    requires Kept(w) && InExchange(w.job)
    ensures var s, j := w.s, w.job; var i := s.blocks[j.p1].idp;
            && (j.Apart2? ==> Live(s, i) && s.fblmap[i] == j.p1 && BlockAt(s, i) == BlockAt(Whole(s, j), i))
            && ((j.PortsDone? || j.RestDone?) ==>
                  Live(s, i) && s.fblmap[i] == j.p1 && (j.moved ==> BoundPorts(BlockAt(s, i)) == 0))
            && (j.Vacant? ==> !Live(s, i))
            && (j.Apart2? || j.PortsDone? ==> !Live(s, s.blocks[j.p2].idp))
    ensures forall i | Live(w.s, i) && w.s.fblmap[i] != w.job.p1 && w.s.fblmap[i] != w.job.p2 ::
              AsInWhole(w.s, w.job, i)
  {
    forall i | Live(w.s, i) && w.s.fblmap[i] != w.job.p1 && w.s.fblmap[i] != w.job.p2
      ensures AsInWhole(w.s, w.job, i)
    {
      OthersSeen(w.s, w.job, i);
    }
    if w.job.PortsDone? { StillRegistered(w.s, w.job.moved, w.job.p1, w.job.p2); }
  }

  /** A packet that enters the old block between the test of a replace and the exchange of the counts makes
      that exchange unsafe. */
  lemma PassSpoilsExchange<P>(w: World<P>, v: World<P>)
    requires Kept(w) && CanDo(w, MoveRest) && SafeAccess(w, MoveRest) && v == Do(w, Pass(w.s.blocks[w.job.p1].idp))
    ensures CanDo(v, MoveRest) && !Kept(Do(v, MoveRest))
  {
    SeenDuringExchange(w);
    PassKeeps(w, w.s.blocks[w.job.p1].idp);
    ExchangeKeepsIff(v, MoveRest);
  }

  // ---------- A command on its own ----------

  /** The accesses of a whole command that nothing interrupts. */
  ghost function Script<P>(s: State<P>, e: Event<P>): seq<Access<P>> {
    match e
    case AddBlock(n, ftype, known, p, others) => [New(n, ftype, known, p, others)]
    case AddLink(n, p, others) => [NewLink(n, p, others)]
    case RemoveBlock(n) =>
      if !Found(s, n) then [FindDoomed(n)]
      else if !HasFactory(s, Ref(s, n)) then [FindDoomed(n), PutLast]
      else if s.blocks[Ref(s, n)].refcnt > 1 then [FindDoomed(n), TestRemove, PutLast]
      else [FindDoomed(n), TestRemove, Unlist, PutLast]
    case OnPair(op, n1, n2) =>
      if !Found(s, n1) || !Fit(s, op, Ref(s, n1)) then [FindFirst(op, n1, n2)]
      else if !Found(s, n2) || !Fit(s, op, Ref(s, n2)) then [FindFirst(op, n1, n2), FindSecond, PutLast]
      else [FindFirst(op, n1, n2), FindSecond] + PairScript(Take(Take(s, Ref(s, n1)), Ref(s, n2)), op, Ref(s, n2))
    case Enter(i) => [Pass(i)]
    case Leave(p) => [Quit(p)]
  }

  ghost function ExchangeScript<P>(): seq<Access<P>> {
    [Withdraw, MovePorts, MoveRest, Vacate, Occupy]
  }

  /** Its accesses once both blocks are looked up. */
  ghost function PairScript<P>(s: State<P>, op: PairOp, p2: P): seq<Access<P>>
    requires p2 in s.blocks
  {
    if !op.DoReplace? then [Work, PutFirst, PutLast]
    else if s.blocks[p2].refcnt > 2 then [TestReplace, PutFirst, PutLast]
    else [TestReplace] + (ExchangeScript() + [PutFirst, PutLast])
  }

  ghost predicate Leads<P>(w: World<P>, l: seq<Access<P>>, v: World<P>) {
    CanDoAll(w, l) && DoAll(w, l) == v
  }

  ghost predicate Next<P>(w: World<P>, a: Access<P>, v: World<P>) {
    CanDo(w, a) && Do(w, a) == v
  }

  lemma LeadsCons<P>(w: World<P>, a: Access<P>, v: World<P>, l: seq<Access<P>>, end: World<P>)
    requires Next(w, a, v) && Leads(v, l, end)
    ensures Leads(w, [a] + l, end)
  {
    assert ([a] + l)[1..] == l;
  }

  lemma OneAccess<P>(w: World<P>, a: Access<P>, v: World<P>)
    requires Next(w, a, v)
    ensures Leads(w, [a], v)
  {
    LeadsCons(w, a, v, [], v);
  }

  lemma TwoAccesses<P>(w: World<P>, a: Access<P>, v: World<P>, b: Access<P>, end: World<P>)
    requires Next(w, a, v) && Next(v, b, end)
    ensures Leads(w, [a, b], end)
  {
    OneAccess(v, b, end);
    LeadsCons(w, a, v, [b], end);
    assert [a] + [b] == [a, b];
  }

  lemma PutTwoRuns<P>(s: State<P>, p1: P, p2: P)
    requires p1 in s.blocks && p2 in s.blocks
    ensures Leads(World(s, PutTwo(p1, p2)), [PutFirst, PutLast], World(Release(Release(s, p1), p2), NoJob))
  {
    var t := Release(s, p1);
    TwoAccesses(World(s, PutTwo(p1, p2)), PutFirst, World(t, PutOne(p2)), PutLast, World(Release(t, p2), NoJob));
  }

  /** From the end of its work on, a two-block command puts its references back. */
  lemma AfterWork<P>(w: World<P>, a: Access<P>, u: State<P>, p1: P, p2: P)
    requires p1 in u.blocks && p2 in u.blocks && Next(w, a, World(u, PutTwo(p1, p2)))
    ensures Leads(w, [a, PutFirst, PutLast], World(Release(Release(u, p1), p2), NoJob))
  {
    PutTwoRuns(u, p1, p2);
    ThreeAccesses(w, a, World(u, PutTwo(p1, p2)), PutFirst, PutLast, World(Release(Release(u, p1), p2), NoJob));
  }

  lemma ThreeAccesses<P>(w: World<P>, a: Access<P>, v: World<P>, b: Access<P>, c: Access<P>, end: World<P>)
    requires Next(w, a, v) && Leads(v, [b, c], end)
    ensures Leads(w, [a, b, c], end)
  {
    LeadsCons(w, a, v, [b, c], end);
    assert [a] + [b, c] == [a, b, c];
  }

  lemma ExchangeLast<P>(s2: State<P>, s3: State<P>, s4: State<P>, moved: bool, p1: P, p2: P, u: State<P>,
                        l: seq<Access<P>>, end: World<P>)
    requires p1 in s2.blocks && p2 in s2.blocks && s3 == RestSwapped(s2, p2, p1) && s4 == Vacated(s3, p1)
             && u == Occupied(s4, p2)
    requires Leads(World(u, PutTwo(p1, p2)), l, end)
    ensures Leads(World(s2, PortsDone(moved, p1, p2)), [MoveRest] + ([Vacate] + ([Occupy] + l)), end)
  {
    LeadsCons(World(s4, Vacant(moved, p1, p2)), Occupy, World(u, PutTwo(p1, p2)), l, end);
    LeadsCons(World(s3, RestDone(moved, p1, p2)), Vacate, World(s4, Vacant(moved, p1, p2)), [Occupy] + l, end);
    LeadsCons(World(s2, PortsDone(moved, p1, p2)), MoveRest, World(s3, RestDone(moved, p1, p2)),
              [Vacate] + ([Occupy] + l), end);
  }

  lemma ExchangeFirst<P>(s: State<P>, drop: bool, p1: P, p2: P, moved: bool, l: seq<Access<P>>, end: World<P>)
    requires p1 in s.blocks && p2 in s.blocks && moved == (SameType(s, p1, p2) && !drop)
    requires Leads(World(MaybeMigrated(s, p1, p2, moved), PortsDone(moved, p1, p2)), l, end)
    ensures Leads(World(s, MayReplace(drop, p1, p2)), [Withdraw] + ([MovePorts] + l), end)
  {
    var s1 := Withdrawn(s, p2);
    LeadsCons(World(s1, Apart2(drop, p1, p2)), MovePorts,
              World(MaybeMigrated(s, p1, p2, moved), PortsDone(moved, p1, p2)), l, end);
    LeadsCons(World(s, MayReplace(drop, p1, p2)), Withdraw, World(s1, Apart2(drop, p1, p2)), [MovePorts] + l, end);
  }

  lemma ScriptParts<P>(l: seq<Access<P>>)
    ensures ExchangeScript() + l == [Withdraw] + ([MovePorts] + ([MoveRest] + ([Vacate] + ([Occupy] + l))))
  {
  }

  /** Nothing between its stores, the exchange is the replacement of the value model. */
  lemma ExchangeRuns<P>(s: State<P>, drop: bool, p1: P, p2: P, moved: bool, l: seq<Access<P>>, end: World<P>)
    requires p1 in s.blocks && p2 in s.blocks && p1 != p2 && moved == (SameType(s, p1, p2) && !drop)
    requires Leads(World(Replaced(s, p1, p2, moved), PutTwo(p1, p2)), l, end)
    ensures Leads(World(s, MayReplace(drop, p1, p2)), ExchangeScript() + l, end)
  {
    var s2 := MaybeMigrated(s, p1, p2, moved);
    var s3 := RestSwapped(s2, p2, p1);
    ReplaceSteps(s, p1, p2, moved, s3, Vacated(s3, p1));
    ExchangeLast(s2, s3, Vacated(s3, p1), moved, p1, p2, Replaced(s, p1, p2, moved), l, end);
    ExchangeFirst(s, drop, p1, p2, moved, [MoveRest] + ([Vacate] + ([Occupy] + l)), end);
    ScriptParts(l);
  }

  lemma ReplaceRuns<P>(s: State<P>, drop: bool, p1: P, p2: P, u: State<P>)
    requires p1 in s.blocks && p2 in s.blocks && p1 != p2 && s.blocks[p2].refcnt <= 2
    requires u == Replaced(s, p1, p2, SameType(s, p1, p2) && !drop)
    ensures Leads(World(s, BothFound(DoReplace(drop), p1, p2)),
                  [TestReplace] + (ExchangeScript() + [PutFirst, PutLast]),
                  World(Release(Release(u, p1), p2), NoJob))
  {
    var mid, end := World(s, MayReplace(drop, p1, p2)), World(Release(Release(u, p1), p2), NoJob);
    PutTwoRuns(u, p1, p2);
    ExchangeRuns(s, drop, p1, p2, SameType(s, p1, p2) && !drop, [PutFirst, PutLast], end);
    LeadsCons(World(s, BothFound(DoReplace(drop), p1, p2)), TestReplace, mid, ExchangeScript() + [PutFirst, PutLast],
              end);
  }

  /** The second half of a two-block command. */
  lemma PairRuns<P>(s: State<P>, op: PairOp, p1: P, p2: P, u: State<P>)
    requires p1 in s.blocks && p2 in s.blocks && u == Core(s, op, p1, p2).0
    requires op.DoReplace? && s.blocks[p2].refcnt <= 2 ==> p1 != p2
    ensures Leads(World(s, BothFound(op, p1, p2)), PairScript(s, op, p2), World(Release(Release(u, p1), p2), NoJob))
  {
    var w := World(s, BothFound(op, p1, p2));
    if !op.DoReplace? {
      AfterWork(w, Work, u, p1, p2);
    } else if s.blocks[p2].refcnt > 2 {
      AfterWork(w, TestReplace, u, p1, p2);
    } else {
      ReplaceRuns(s, op.drop, p1, p2, u);
    }
  }

  lemma FirstUnfit<P>(s: State<P>, op: PairOp, n1: Name, n2: Name, p1: P)
    requires Found(s, n1) && p1 == Ref(s, n1) && !Fit(s, op, p1)
    ensures Leads(World(s, NoJob), [FindFirst(op, n1, n2)], World(Keep(Take(s, p1), p1), NoJob))
  {
    OneAccess(World(s, NoJob), FindFirst(op, n1, n2), World(Keep(Take(s, p1), p1), NoJob));
  }

  /** The second block is missing or does not fit: whatever came of looking it up, the first is put back. */
  lemma OneMissing<P>(s: State<P>, op: PairOp, n1: Name, n2: Name, p1: P, t: State<P>, u: State<P>)
    requires Found(s, n1) && p1 == Ref(s, n1) && Fit(s, op, p1) && t == Take(s, p1) && p1 in u.blocks
    requires Next(World(t, OneFound(op, p1, n2)), FindSecond, World(u, PutOne(p1)))
    ensures Leads(World(s, NoJob), [FindFirst(op, n1, n2), FindSecond, PutLast], World(Release(u, p1), NoJob))
  {
    var end := World(Release(u, p1), NoJob);
    TwoAccesses(World(t, OneFound(op, p1, n2)), FindSecond, World(u, PutOne(p1)), PutLast, end);
    ThreeAccesses(World(s, NoJob), FindFirst(op, n1, n2), World(t, OneFound(op, p1, n2)), FindSecond, PutLast, end);
  }

  lemma SecondThere<P>(t: State<P>, op: PairOp, p1: P, n2: Name, p2: P, l: seq<Access<P>>, end: World<P>)
    requires p1 in t.blocks && Found(t, n2) && p2 == Ref(t, n2) && Fit(t, op, p2)
    requires Leads(World(Take(t, p2), BothFound(op, p1, p2)), l, end)
    ensures Leads(World(t, OneFound(op, p1, n2)), [FindSecond] + l, end)
  {
    LeadsCons(World(t, OneFound(op, p1, n2)), FindSecond, World(Take(t, p2), BothFound(op, p1, p2)), l, end);
  }

  lemma BothThere<P>(s: State<P>, op: PairOp, n1: Name, n2: Name, p1: P, p2: P, t: State<P>, l: seq<Access<P>>,
                     end: World<P>)
    requires Found(s, n1) && p1 == Ref(s, n1) && Fit(s, op, p1) && t == Take(s, p1) && Found(t, n2) && p2 == Ref(t, n2)
             && Fit(t, op, p2)
    requires Leads(World(Take(t, p2), BothFound(op, p1, p2)), l, end)
    ensures Leads(World(s, NoJob), [FindFirst(op, n1, n2), FindSecond] + l, end)
  {
    SecondThere(t, op, p1, n2, p2, l, end);
    LeadsCons(World(s, NoJob), FindFirst(op, n1, n2), World(t, OneFound(op, p1, n2)), [FindSecond] + l, end);
    assert [FindFirst(op, n1, n2)] + ([FindSecond] + l) == [FindFirst(op, n1, n2), FindSecond] + l;
  }

  lemma SecondMissing<P>(t: State<P>, op: PairOp, p1: P, n2: Name)
    requires p1 in t.blocks && !Found(t, n2)
    ensures Next(World(t, OneFound(op, p1, n2)), FindSecond, World(t, PutOne(p1)))
  {
  }

  lemma SecondUnfit<P>(t: State<P>, op: PairOp, p1: P, n2: Name, p2: P)
    requires p1 in t.blocks && Found(t, n2) && p2 == Ref(t, n2) && !Fit(t, op, p2)
    ensures Next(World(t, OneFound(op, p1, n2)), FindSecond, World(Keep(Take(t, p2), p2), PutOne(p1)))
  {
  }

  lemma SecondUnfitRuns<P>(s: State<P>, op: PairOp, n1: Name, n2: Name, p1: P, p2: P, t: State<P>)
    requires Found(s, n1) && p1 == Ref(s, n1) && Fit(s, op, p1) && t == Take(s, p1) && Found(t, n2) && p2 == Ref(t, n2)
             && !Fit(t, op, p2)
    ensures Leads(World(s, NoJob), [FindFirst(op, n1, n2), FindSecond, PutLast],
                  World(Keep(Release(Take(t, p2), p1), p2), NoJob))
  {
    var u := Keep(Take(t, p2), p2);
    SecondUnfit(t, op, p1, n2, p2);
    OneMissing(s, op, n1, n2, p1, t, u);
    KeepRelease(Take(t, p2), p2, p1);
  }

  lemma KeepRelease<P>(s: State<P>, p: P, q: P)
    requires q in s.blocks
    ensures Release(Keep(s, p), q) == Keep(Release(s, q), p)
  {
  }

  lemma PairMissing<P>(s: State<P>, op: PairOp, n1: Name, n2: Name, p1: P, t: State<P>)
    requires Found(s, n1) && p1 == Ref(s, n1) && t == Take(s, p1)
    requires !Fit(s, op, p1) || !Found(s, n2) || !Fit(s, op, Ref(s, n2))
    ensures Leads(World(s, NoJob), Script(s, OnPair(op, n1, n2)), World(Pair(s, op, n1, n2).0, NoJob))
  {
    if !Fit(s, op, p1) {
      FirstUnfit(s, op, n1, n2, p1);
    } else if !Found(t, n2) {
      SecondMissing(t, op, p1, n2);
      OneMissing(s, op, n1, n2, p1, t, t);
    } else {
      SecondUnfitRuns(s, op, n1, n2, p1, Ref(t, n2), t);
    }
  }

  lemma BothIsAccesses<P>(s: State<P>, op: PairOp, n1: Name, n2: Name, p1: P, p2: P, t: State<P>)
    requires Counting(s) && Registry(s) && BothFit(s, op, n1, n2) && p1 == Ref(s, n1) && p2 == Ref(s, n2)
             && t == Take(s, p1)
    ensures Leads(World(s, NoJob), [FindFirst(op, n1, n2), FindSecond] + PairScript(Take(t, p2), op, p2),
                  World(Pair(s, op, n1, n2).0, NoJob))
  {
    var u := Core(Take(t, p2), op, p1, p2).0;
    FoundRegistered(s, n2);
    PositiveCount(s, p2);
    TestNeedsTwo(s, p1, p2);
    PairFound(s, op, n1, n2);
    PairRuns(Take(t, p2), op, p1, p2, u);
    BothThere(s, op, n1, n2, p1, p2, t, PairScript(Take(t, p2), op, p2), World(Release(Release(u, p1), p2), NoJob));
  }

  lemma TestNeedsTwo<P>(s: State<P>, p1: P, p2: P)
    requires p1 in s.blocks && p2 in s.blocks && s.blocks[p2].refcnt > 0
    ensures Take(Take(s, p1), p2).blocks[p2].refcnt <= 2 ==> p1 != p2
  {
  }

  lemma RemoveUnfit<P>(s: State<P>, n: Name, p: P, t: State<P>)
    requires Found(s, n) && p == Ref(s, n) && t == Take(s, p) && !HasFactory(s, p)
    ensures Leads(World(s, NoJob), [FindDoomed(n), PutLast], World(Release(t, p), NoJob))
  {
    TwoAccesses(World(s, NoJob), FindDoomed(n), World(t, PutOne(p)), PutLast, World(Release(t, p), NoJob));
  }

  lemma RemoveRefused<P>(s: State<P>, n: Name, p: P, t: State<P>)
    requires Found(s, n) && p == Ref(s, n) && t == Take(s, p) && HasFactory(s, p) && t.blocks[p].refcnt > 2
    ensures Leads(World(s, NoJob), [FindDoomed(n), TestRemove, PutLast], World(Release(t, p), NoJob))
  {
    var end := World(Release(t, p), NoJob);
    TwoAccesses(World(t, OneForRemoval(p)), TestRemove, World(t, PutOne(p)), PutLast, end);
    ThreeAccesses(World(s, NoJob), FindDoomed(n), World(t, OneForRemoval(p)), TestRemove, PutLast, end);
  }

  lemma UnlistRuns<P>(t: State<P>, p: P, u: State<P>)
    requires p in t.blocks && u == Unregister(t, p)
    ensures Leads(World(t, MayRemove(p)), [Unlist, PutLast], World(Release(u, p), NoJob))
  {
    TwoAccesses(World(t, MayRemove(p)), Unlist, World(u, PutOne(p)), PutLast, World(Release(u, p), NoJob));
  }

  lemma TestedGoes<P>(t: State<P>, p: P, u: State<P>)
    requires p in t.blocks && t.blocks[p].refcnt <= 2 && u == Unregister(t, p)
    ensures Leads(World(t, OneForRemoval(p)), [TestRemove, Unlist, PutLast], World(Release(u, p), NoJob))
  {
    UnlistRuns(t, p, u);
    ThreeAccesses(World(t, OneForRemoval(p)), TestRemove, World(t, MayRemove(p)), Unlist, PutLast,
                  World(Release(u, p), NoJob));
  }

  lemma RemoveDone<P>(s: State<P>, n: Name, p: P, t: State<P>)
    requires Found(s, n) && p == Ref(s, n) && t == Take(s, p) && HasFactory(s, p) && t.blocks[p].refcnt <= 2
    ensures Leads(World(s, NoJob), [FindDoomed(n), TestRemove, Unlist, PutLast],
                  World(Release(Unregister(t, p), p), NoJob))
  {
    var u := Unregister(t, p);
    TestedGoes(t, p, u);
    LeadsCons(World(s, NoJob), FindDoomed(n), World(t, OneForRemoval(p)), [TestRemove, Unlist, PutLast],
              World(Release(u, p), NoJob));
    assert [Access<P>.FindDoomed(n)] + [TestRemove, Unlist, PutLast] == [FindDoomed(n), TestRemove, Unlist, PutLast];
  }

  lemma RemoveIsAccesses<P>(s: State<P>, n: Name, p: P, t: State<P>)
    requires Found(s, n) && p == Ref(s, n) && t == Take(s, p)
    ensures Leads(World(s, NoJob), Script(s, RemoveBlock(n)), World(Remove(s, n).0, NoJob))
  {
    if !HasFactory(s, p) {
      RemoveUnfit(s, n, p, t);
    } else if t.blocks[p].refcnt > 2 {
      RemoveRefused(s, n, p, t);
    } else {
      RemoveDone(s, n, p, t);
    }
  }

  /** Run on its own, a command's accesses do what the command as a whole does. */
  lemma CommandIsAccesses<P>(s: State<P>, e: Event<P>)
    requires Counting(s) && Registry(s) && Possible(s, e) && (e.Leave? ==> e.obj in s.blocks)
    ensures Leads(World(s, NoJob), Script(s, e), World(Step(s, e), NoJob))
  {
    match e
    case OnPair(op, n1, n2) =>
      if Found(s, n1) { PairIsAccesses(s, op, n1, n2, Ref(s, n1)); } else { NoFirst(s, op, n1, n2); }
    case RemoveBlock(n) =>
      if Found(s, n) { RemoveIsAccesses(s, n, Ref(s, n), Take(s, Ref(s, n))); } else { NoneToRemove(s, n); }
    case _ => SingleAccess(s, e);
  }

  lemma PairIsAccesses<P>(s: State<P>, op: PairOp, n1: Name, n2: Name, p1: P)
    requires Counting(s) && Registry(s) && Found(s, n1) && p1 == Ref(s, n1)
    ensures Leads(World(s, NoJob), Script(s, OnPair(op, n1, n2)), World(Pair(s, op, n1, n2).0, NoJob))
  {
    if BothFit(s, op, n1, n2) {
      BothIsAccesses(s, op, n1, n2, p1, Ref(s, n2), Take(s, p1));
    } else {
      PairMissing(s, op, n1, n2, p1, Take(s, p1));
    }
  }

  lemma NoFirst<P>(s: State<P>, op: PairOp, n1: Name, n2: Name)
    requires !Found(s, n1)
    ensures Leads(World(s, NoJob), [FindFirst(op, n1, n2)], World(s, NoJob))
  {
    OneAccess(World(s, NoJob), FindFirst(op, n1, n2), World(s, NoJob));
  }

  lemma NoneToRemove<P>(s: State<P>, n: Name)
    requires !Found(s, n)
    ensures Leads(World(s, NoJob), [FindDoomed(n)], World(s, NoJob))
  {
    OneAccess(World(s, NoJob), FindDoomed(n), World(s, NoJob));
  }

  lemma SingleAccess<P>(s: State<P>, e: Event<P>)
    requires Possible(s, e) && (e.Leave? ==> e.obj in s.blocks) && !e.OnPair? && !e.RemoveBlock?
    ensures Leads(World(s, NoJob), Script(s, e), World(Step(s, e), NoJob))
  {
    match e
    case AddBlock(n, ftype, known, p, others) => AddAccess(s, n, ftype, known, p, others);
    case AddLink(n, p, others) => LinkAccess(s, n, p, others);
    case Enter(i) => OneAccess(World(s, NoJob), Pass(i), World(Step(s, e), NoJob));
    case Leave(p) => OneAccess(World(s, NoJob), Quit(p), World(Step(s, e), NoJob));
  }

  lemma AddAccess<P>(s: State<P>, n: Name, ftype: string, known: bool, p: P, others: nat)
    requires p !in s.blocks && s.counter + 1 < IDP_SPACE
    ensures Leads(World(s, NoJob), [New(n, ftype, known, p, others)],
                  World(Add(s, n, ftype, known, p, others).0, NoJob))
  {
    OneAccess(World(s, NoJob), New(n, ftype, known, p, others), World(Add(s, n, ftype, known, p, others).0, NoJob));
  }

  lemma LinkAccess<P>(s: State<P>, n: Name, p: P, others: nat)
    requires p !in s.blocks && s.counter + 1 < IDP_SPACE
    ensures Leads(World(s, NoJob), [NewLink(n, p, others)], World(Register(s, n, None, p, others).0, NoJob))
  {
    OneAccess(World(s, NoJob), NewLink(n, p, others), World(Register(s, n, None, p, others).0, NoJob));
  }

  // ---------- A packet during a replace ----------

  lemma TestPasses<P>(s: State<P>, t: State<P>, drop: bool, p1: P, p2: P)
    requires Inv(s) && KeptHeld(s) && Registered(s, p1) && Registered(s, p2) && p1 != p2
    requires t == Take(Take(s, p1), p2) && s.blocks[p2].refcnt == 1
    ensures Kept(World(t, MayReplace(drop, p1, p2))) && Registered(t, p1)
  {
    HoldBoth(s, p1, p2);
    BothHeldKept(s, t, p1, p2);
    TakenCount(s, p1, p2);
    TestReplaceKept(t, drop, p1, p2);
  }

  lemma TakenCount<P>(s: State<P>, p1: P, p2: P)
    requires p1 in s.blocks && p2 in s.blocks && p1 != p2
    ensures Take(Take(s, p1), p2).blocks[p2].refcnt == s.blocks[p2].refcnt + 1
    ensures Take(Take(s, p1), p2).held[p2] == s.held[p2] + 1 && Take(Take(s, p1), p2).held[p1] == s.held[p1] + 1
  {
  }

  lemma BothHeldKept<P>(s: State<P>, t: State<P>, p1: P, p2: P)
    requires KeptHeld(s) && t.held == s.held + multiset{p1} + multiset{p2} && t.kept == s.kept
    ensures (multiset{p1} + multiset{p2}) + t.kept <= t.held
  {
  }

  /** A replace with a packet into the old block between its test and its exchange. */
  ghost function RaceSteps<P>(drop: bool, n1: Name, n2: Name, i: Idp): seq<Access<P>> {
    [FindFirst(DoReplace(drop), n1, n2), FindSecond] + ([TestReplace] + ([Pass(i)] + ExchangeScript()))
  }

  lemma RaceRuns<P>(s: State<P>, t: State<P>, drop: bool, n1: Name, n2: Name, p1: P, p2: P, u: State<P>, end: World<P>)
    requires BothFit(s, DoReplace(drop), n1, n2) && p1 == Ref(s, n1) && p2 == Ref(s, n2)
    requires t == Take(Take(s, p1), p2) && t.blocks[p2].refcnt <= 2 && Live(t, s.blocks[p1].idp)
             && t.fblmap[s.blocks[p1].idp] == p1
    requires u == Take(t, p1) && Leads(World(u, MayReplace(drop, p1, p2)), ExchangeScript(), end)
    ensures Leads(World(s, NoJob), RaceSteps(drop, n1, n2, s.blocks[p1].idp), end)
  {
    var mid, i := World(t, MayReplace(drop, p1, p2)), s.blocks[p1].idp;
    LeadsCons(mid, Pass(i), World(u, MayReplace(drop, p1, p2)), ExchangeScript(), end);
    LeadsCons(World(t, BothFound(DoReplace(drop), p1, p2)), TestReplace, mid, [Pass(i)] + ExchangeScript(), end);
    BothThere(s, DoReplace(drop), n1, n2, p1, p2, Take(s, p1), [TestReplace] + ([Pass(i)] + ExchangeScript()), end);
  }

  lemma RaceLeads<P>(s: State<P>, t: State<P>, u: State<P>, drop: bool, n1: Name, n2: Name, p1: P, p2: P, moved: bool)
    requires BothFit(s, DoReplace(drop), n1, n2) && p1 == Ref(s, n1) && p2 == Ref(s, n2) && p1 != p2
    requires t == Take(Take(s, p1), p2) && t.blocks[p2].refcnt <= 2 && Registered(s, p1)
    requires u == Take(t, p1) && moved == (SameType(u, p1, p2) && !drop)
    ensures Leads(World(s, NoJob), RaceSteps(drop, n1, n2, s.blocks[p1].idp),
                  World(Replaced(u, p1, p2, moved), PutTwo(p1, p2)))
  {
    var end := World(Replaced(u, p1, p2, moved), PutTwo(p1, p2));
    ExchangeRuns(u, drop, p1, p2, moved, [], end);
    assert ExchangeScript<P>() + [] == ExchangeScript();
    RaceRuns(s, t, drop, n1, n2, p1, p2, u, end);
  }

  lemma RaceBreaks<P>(t: State<P>, u: State<P>, drop: bool, p1: P, p2: P, moved: bool)
    requires Kept(World(t, MayReplace(drop, p1, p2))) && t.held[p1] == t.held[p2] && u == Take(t, p1)
    ensures !Inv(Replaced(u, p1, p2, moved))
  {
    TakeKeepsInv(t, p1);
    SameGraphIsolated(t, u, p2);
    HeldByJob(t, MayReplace(drop, p1, p2));
    ReplacedKeepsInvIff(u, p1, p2, moved);
  }

  lemma SafeHeldOnce<P>(s: State<P>, drop: bool, p1: P, p2: P, t: State<P>)
    requires Counting(s) && Registered(s, p2) && p1 in s.blocks && p1 != p2 && s.blocks[p2].refcnt == 1
    requires SafePair(s, DoReplace(drop), p1, p2) && t == Take(Take(s, p1), p2)
    ensures t.held[p1] == t.held[p2] && t.blocks[p2].refcnt == 2
  {
    PositiveOwed(s, p2);
    TakenCount(s, p1, p2);
  }

  /** Every replace that would be safe as a whole breaks the invariant when a packet enters the block
      being replaced after the replacement's count was tested. */
  lemma ReplaceRace<P>(s: State<P>, drop: bool, n1: Name, n2: Name, p1: P, p2: P)
    requires Inv(s) && KeptHeld(s) && BothFit(s, DoReplace(drop), n1, n2) && p1 == Ref(s, n1) && p2 == Ref(s, n2)
             && p1 != p2
    requires s.blocks[p2].refcnt == 1 && Safe(s, OnPair(DoReplace(drop), n1, n2))
    ensures CanDoAll(World(s, NoJob), RaceSteps(drop, n1, n2, s.blocks[p1].idp))
    ensures !Inv(DoAll(World(s, NoJob), RaceSteps(drop, n1, n2, s.blocks[p1].idp)).s)
  {
    FoundRegistered(s, n1);
    FoundRegistered(s, n2);
    var t := Take(Take(s, p1), p2);
    var u := Take(t, p1);
    var moved := SameType(u, p1, p2) && !drop;
    TestPasses(s, t, drop, p1, p2);
    SafeHeldOnce(s, drop, p1, p2, t);
    RaceBreaks(t, u, drop, p1, p2, moved);
    RaceLeads(s, t, u, drop, n1, n2, p1, p2, moved);
  }
}
