/** The packet engines of all CPUs as one machine of small steps. Calls nest on a CPU when they
    interrupt each other, CPUs interleave freely, and a CPU's timer may serve another's backlog. */
module EngineMachine {
  import opened Common
  import opened FblockGraph

  const MISS_LIMIT := 150

  /** A packet: its identity, the next block written into it, and its direction. */
  datatype Packet = Packet(id: nat, next: Idp, dir: Dir)

  /** Where a call of the engine stands. */
  datatype Frame =
    | Start(pkt: Packet)             // the active flag has not been read
    | Ready(pkt: Packet)             // it was clear
    | Walk(pkt: Packet)              // about to read the packet's next block
    | Calling(pkt: Packet)           // inside that block's receive function
    | Draining                       // the packet is gone; about to look at the backlog
    | Closing                        // the backlog was empty; about to clear the flag
    | Timer(disc: nat, stage: nat)   // a timer handler for some CPU's backlog

  /** The calls in progress on a CPU, the running one on top. */
  datatype Stack = Idle | Push(top: Frame, below: Stack)

  /** One CPU: its flag, its backlog and the calls in progress on it. For the record: every packet
      queued so far, every packet that left the queue, and for each packet queued whether the call at
      work had by then found the queue empty. */
  datatype Cpu = Cpu(active: bool, queue: seq<Packet>, stack: Stack, arrived: seq<Packet>, left: seq<Packet>,
                     late: seq<bool>)

  /** Some call has found the backlog empty and is about to clear the flag. */
  predicate ClosingIn(st: Stack) {
    st.Push? && (st.top.Closing? || ClosingIn(st.below))
  }

  /** `zero` are the packets that entered without a next block; `bug` is set where the timer found
      no packet although its tests passed. */
  datatype State = State(cpus: seq<Cpu>, nextId: nat, freed: multiset<nat>, handed: multiset<nat>, lost: multiset<nat>,
                         zero: set<nat>, bug: bool)

  datatype Step =
    | Arrive(cpu: nat, next: Idp, dir: Dir)
    | Check(cpu: nat)
    | SetActive(cpu: nat)
    | Look(cpu: nat, registered: bool)
    | Copy(cpu: nat, port: Idp)
    | Forward(cpu: nat, next: Idp, dir: Dir)
    | Drop(cpu: nat)
    | HandOver(cpu: nat)
    | Dequeue(cpu: nat)
    | SetInactive(cpu: nat)
    | TimerStart(cpu: nat, disc: nat)
    | TimerTest(cpu: nat)
    | TimerDequeue(cpu: nat)

  /** The frame must be there; a block sends a packet or a copy on only to a block. */
  ghost predicate Enabled(s: State, a: Step) {
    && a.cpu < |s.cpus|
    && var st := s.cpus[a.cpu].stack;
       match a
       case Arrive(_, _, _) => true
       case TimerStart(_, disc) => disc < |s.cpus|
       case Check(_) => st.Push? && st.top.Start?
       case SetActive(_) => st.Push? && st.top.Ready?
       case Look(_, _) => st.Push? && st.top.Walk?
       case Copy(_, port) => st.Push? && st.top.Calling? && port != IDP_UNKNOWN
       case Forward(_, next, _) => st.Push? && st.top.Calling? && next != IDP_UNKNOWN
       case Drop(_) => st.Push? && st.top.Calling?
       case HandOver(_) => st.Push? && st.top.Calling?
       case Dequeue(_) => st.Push? && st.top.Draining?
       case SetInactive(_) => st.Push? && st.top.Closing?
       case TimerTest(_) => st.Push? && st.top.Timer? && st.top.stage < 3 && st.top.disc < |s.cpus|
       case TimerDequeue(_) => st.Push? && st.top.Timer? && st.top.stage == 3 && st.top.disc < |s.cpus|
  }

  function Enqueue(u: Cpu, p: Packet): Cpu {
    u.(queue := u.queue + [p], arrived := u.arrived + [p], late := u.late + [ClosingIn(u.stack)])
  }

  function TakeFirst(u: Cpu): Cpu
    requires u.queue != []
  {
    u.(queue := u.queue[1..], left := u.left + [u.queue[0]])
  }

  function WithCpu(s: State, c: nat, u: Cpu): State
    requires c < |s.cpus|
  {
    s.(cpus := s.cpus[c := u])
  }

  /** The running call of a CPU moves on to another frame. */
  function Goto(u: Cpu, f: Frame): Cpu
    requires u.stack.Push?
  {
    u.(stack := Push(f, u.stack.below))
  }

  function Return(u: Cpu): Cpu
    requires u.stack.Push?
  {
    u.(stack := u.stack.below)
  }

  ghost function Apply(s: State, a: Step): State
    requires Enabled(s, a)
  {
    var c, u := a.cpu, s.cpus[a.cpu];
    match a
    case Arrive(_, next, dir) =>
      WithCpu(s, c, u.(stack := Push(Start(Packet(s.nextId, next, dir)), u.stack)))
        .(nextId := s.nextId + 1, zero := if next == IDP_UNKNOWN then s.zero + {s.nextId} else s.zero)
    case Check(_) =>
      if u.active then WithCpu(s, c, Enqueue(Return(u), u.stack.top.pkt))
      else WithCpu(s, c, Goto(u, Ready(u.stack.top.pkt)))
    case SetActive(_) => WithCpu(s, c, Goto(u, Walk(u.stack.top.pkt)).(active := true))
    case Look(_, registered) =>
      if u.stack.top.pkt.next == IDP_UNKNOWN then
        WithCpu(s, c, Goto(u, Draining)).(lost := s.lost + multiset{u.stack.top.pkt.id})
      else if !registered then WithCpu(s, c, Goto(u, Draining)).(freed := s.freed + multiset{u.stack.top.pkt.id})
      else WithCpu(s, c, Goto(u, Calling(u.stack.top.pkt)))
    case Copy(_, port) =>
      WithCpu(s, c, Enqueue(u, Packet(s.nextId, port, u.stack.top.pkt.dir))).(nextId := s.nextId + 1)
    case Forward(_, next, dir) => WithCpu(s, c, Goto(u, Walk(Packet(u.stack.top.pkt.id, next, dir))))
    case Drop(_) => WithCpu(s, c, Goto(u, Draining)).(freed := s.freed + multiset{u.stack.top.pkt.id})
    case HandOver(_) => WithCpu(s, c, Goto(u, Draining)).(handed := s.handed + multiset{u.stack.top.pkt.id})
    case Dequeue(_) =>
      if u.queue == [] then WithCpu(s, c, Goto(u, Closing)) else WithCpu(s, c, Goto(TakeFirst(u), Walk(u.queue[0])))
    case SetInactive(_) => WithCpu(s, c, Return(u).(active := false))
    case TimerStart(_, disc) => WithCpu(s, c, u.(stack := Push(Timer(disc, 0), u.stack)))
    case TimerTest(_) =>
      WithCpu(s, c, if TestFails(s, c, u.stack.top) then Return(u)
                    else Goto(u, Timer(u.stack.top.disc, u.stack.top.stage + 1)))
    case TimerDequeue(_) =>
      var d := u.stack.top.disc;
      if s.cpus[d].queue == [] then WithCpu(s, c, Return(u)).(bug := true)
      else
        var t := WithCpu(s, d, TakeFirst(s.cpus[d]));
        WithCpu(t, c, Goto(t.cpus[c], Start(s.cpus[d].queue[0])))
  }

  /** The timer's tests, in order: the engine is at work; its backlog is empty; it is another CPU's
      and not long enough. */
  ghost predicate TestFails(s: State, c: nat, f: Frame)
    requires f.Timer? && f.disc < |s.cpus|
  {
    var u := s.cpus[f.disc];
    if f.stage == 0 then u.active else if f.stage == 1 then u.queue == [] else f.disc != c && |u.queue| <= MISS_LIMIT
  }

  // ---------- Where the packets are ----------

  /** Frames that have the packet in hand. */
  predicate Holds(f: Frame, id: nat) {
    (f.Start? || f.Ready? || f.Walk? || f.Calling?) && f.pkt.id == id
  }

  function InStack(st: Stack, id: nat): nat {
    if st.Idle? then 0 else (if Holds(st.top, id) then 1 else 0) + InStack(st.below, id)
  }

  function InQueue(q: seq<Packet>, id: nat): nat {
    if q == [] then 0 else (if q[0].id == id then 1 else 0) + InQueue(q[1..], id)
  }

  function InCpu(u: Cpu, id: nat): nat {
    InStack(u.stack, id) + InQueue(u.queue, id)
  }

  function InCpus(cpus: seq<Cpu>, id: nat): nat {
    if cpus == [] then 0 else InCpus(cpus[..|cpus| - 1], id) + InCpu(cpus[|cpus| - 1], id)
  }

  /** In how many places a packet is: calls in progress, queues, freed, handed over, lost. */
  function Places(s: State, id: nat): nat {
    InCpus(s.cpus, id) + s.freed[id] + s.handed[id] + s.lost[id]
  }

  /** Each packet that entered and each copy made is in exactly one place. */
  ghost predicate Conserved(s: State) {
    forall id: nat :: Places(s, id) == if id < s.nextId then 1 else 0
  }

  lemma {:induction false} InCpusUpdate(cpus: seq<Cpu>, c: nat, u: Cpu, id: nat)
    requires c < |cpus|
    ensures InCpus(cpus[c := u], id) + InCpu(cpus[c], id) == InCpus(cpus, id) + InCpu(u, id)
  {
    var n := |cpus| - 1;
    if c < n {
      InCpusUpdate(cpus[..n], c, u, id);
      assert cpus[c := u][..n] == cpus[..n][c := u];
    } else {
      assert cpus[c := u][..n] == cpus[..n];
    }
  }

  lemma {:induction false} InQueueAppend(q: seq<Packet>, p: Packet, id: nat)
    ensures InQueue(q + [p], id) == InQueue(q, id) + if p.id == id then 1 else 0
  {
    if q == [] {
      assert q + [p] == [p];
    } else {
      InQueueAppend(q[1..], p, id);
      assert (q + [p])[1..] == q[1..] + [p];
    }
  }

  lemma EnqueueAdds(u: Cpu, p: Packet, id: nat)
    ensures InCpu(Enqueue(u, p), id) == InCpu(u, id) + if p.id == id then 1 else 0
  {
    InQueueAppend(u.queue, p, id);
  }

  lemma TakeFirstRemoves(u: Cpu, id: nat)
    requires u.queue != []
    ensures InCpu(TakeFirst(u), id) + (if u.queue[0].id == id then 1 else 0) == InCpu(u, id)
  {
  }

  lemma GotoMoves(u: Cpu, f: Frame, id: nat)
    requires u.stack.Push?
    ensures InCpu(Goto(u, f), id) + (if Holds(u.stack.top, id) then 1 else 0)
         == InCpu(u, id) + if Holds(f, id) then 1 else 0
    ensures InCpu(Return(u), id) + (if Holds(u.stack.top, id) then 1 else 0) == InCpu(u, id)
  {
  }

  lemma PushAdds(u: Cpu, f: Frame, id: nat)
    ensures InCpu(u.(stack := Push(f, u.stack)), id) == InCpu(u, id) + if Holds(f, id) then 1 else 0
  {
  }

  /** What a step changes in a packet's count of places, first on the CPU it runs on. */
  lemma CpuStep(s: State, t: State, c: nat, u: Cpu, id: nat)
    requires c < |s.cpus| && t.cpus == s.cpus[c := u]
    ensures InCpus(t.cpus, id) + InCpu(s.cpus[c], id) == InCpus(s.cpus, id) + InCpu(u, id)
  {
    InCpusUpdate(s.cpus, c, u, id);
  }

  /** The counting law of a step: packets stay in one place, new ones come to be in one. */
  ghost predicate Counts(s: State, t: State, id: nat) {
    Places(t, id) == Places(s, id) + if s.nextId <= id < t.nextId then 1 else 0
  }

  lemma EntryCounts(s: State, a: Step, id: nat)
    requires Enabled(s, a) && (a.Arrive? || a.TimerStart? || a.Copy? || a.Check?)
    ensures Counts(s, Apply(s, a), id)
  {
    var t, c, u := Apply(s, a), a.cpu, s.cpus[a.cpu];
    CpuStep(s, t, c, t.cpus[c], id);
    match a
    case Arrive(_, next, dir) => PushAdds(u, Start(Packet(s.nextId, next, dir)), id);
    case TimerStart(_, disc) => PushAdds(u, Timer(disc, 0), id);
    case Copy(_, port) => EnqueueAdds(u, Packet(s.nextId, port, u.stack.top.pkt.dir), id);
    case Check(_) =>
      GotoMoves(u, Ready(u.stack.top.pkt), id);
      EnqueueAdds(Return(u), u.stack.top.pkt, id);
  }

  lemma WalkCounts(s: State, a: Step, id: nat)
    requires Enabled(s, a) && (a.SetActive? || a.Look? || a.Forward?)
    ensures Counts(s, Apply(s, a), id)
  {
    var t, c, u := Apply(s, a), a.cpu, s.cpus[a.cpu];
    CpuStep(s, t, c, t.cpus[c], id);
    GotoMoves(u, t.cpus[c].stack.top, id);
  }

  lemma ExitCounts(s: State, a: Step, id: nat)
    requires Enabled(s, a) && (a.Drop? || a.HandOver? || a.Dequeue? || a.SetInactive? || a.TimerTest?)
    ensures Counts(s, Apply(s, a), id)
  {
    var t, c, u := Apply(s, a), a.cpu, s.cpus[a.cpu];
    CpuStep(s, t, c, t.cpus[c], id);
    if a.Dequeue? && u.queue != [] {
      TakeFirstRemoves(u, id);
      GotoMoves(TakeFirst(u), Walk(u.queue[0]), id);
    } else {
      GotoMoves(u, if t.cpus[c].stack.Push? then t.cpus[c].stack.top else Draining, id);
    }
  }

  lemma TimerConservesAt(s: State, a: Step, id: nat)
    requires Enabled(s, a) && a.TimerDequeue?
    ensures Places(Apply(s, a), id) == Places(s, id)
  {
    var t, c := Apply(s, a), a.cpu;
    var d := s.cpus[c].stack.top.disc;
    if s.cpus[d].queue == [] {
      CpuStep(s, t, c, t.cpus[c], id);
      GotoMoves(s.cpus[c], Draining, id);
    } else {
      var m := WithCpu(s, d, TakeFirst(s.cpus[d]));
      CpuStep(s, m, d, m.cpus[d], id);
      TakeFirstRemoves(s.cpus[d], id);
      CpuStep(m, t, c, t.cpus[c], id);
      GotoMoves(m.cpus[c], Start(s.cpus[d].queue[0]), id);
    }
  }

  lemma StepConserves(s: State, a: Step)
    requires Conserved(s) && Enabled(s, a)
    ensures Conserved(Apply(s, a))
  {
    var t := Apply(s, a);
    assert s.nextId <= t.nextId;
    forall id: nat ensures Places(t, id) == if id < t.nextId then 1 else 0 {
      match a
      case TimerDequeue(_) => TimerConservesAt(s, a, id);
      case Arrive(_, _, _) => EntryCounts(s, a, id);
      case TimerStart(_, _) => EntryCounts(s, a, id);
      case Copy(_, _) => EntryCounts(s, a, id);
      case Check(_) => EntryCounts(s, a, id);
      case SetActive(_) => WalkCounts(s, a, id);
      case Look(_, _) => WalkCounts(s, a, id);
      case Forward(_, _, _) => WalkCounts(s, a, id);
      case _ => ExitCounts(s, a, id);
    }
  }

  // ---------- One traversal per CPU, first in first out ----------

  /** The call is at work: it has set the active flag and not yet cleared it. */
  predicate Engaged(f: Frame) {
    f.Walk? || f.Calling? || f.Draining? || f.Closing?
  }

  function Engagements(st: Stack): nat {
    if st.Idle? then 0 else (if Engaged(st.top) then 1 else 0) + Engagements(st.below)
  }

  /** A call that found the flag clear, or is at work, has none at work below it. */
  predicate Proper(st: Stack) {
    st.Push? ==> Proper(st.below) && (st.top.Ready? || Engaged(st.top) ==> Engagements(st.below) == 0)
  }

  /** A packet without a next block is one that entered without. */
  predicate Addressed(p: Packet, zero: set<nat>) {
    p.next == IDP_UNKNOWN ==> p.id in zero
  }

  predicate FrameAddressed(f: Frame, zero: set<nat>) {
    match f
    case Start(p) => Addressed(p, zero)
    case Ready(p) => Addressed(p, zero)
    case Walk(p) => Addressed(p, zero)
    case _ => true
  }

  predicate StackAddressed(st: Stack, zero: set<nat>) {
    st.Push? ==> FrameAddressed(st.top, zero) && StackAddressed(st.below, zero)
  }

  ghost predicate QueueAddressed(q: seq<Packet>, zero: set<nat>) {
    forall k | 0 <= k < |q| :: Addressed(q[k], zero)
  }

  /** What waits while no call is at work, or the call at work is closing, was queued too late for a
      call to see it. */
  ghost predicate LateOk(u: Cpu) {
    && |u.late| == |u.arrived|
    && (!u.active || ClosingIn(u.stack) ==> forall k | |u.left| <= k < |u.late| :: u.late[k])
  }

  ghost predicate CpuOk(u: Cpu, zero: set<nat>) {
    && Proper(u.stack) && u.active == (Engagements(u.stack) > 0)
    && u.arrived == u.left + u.queue && LateOk(u)
    && StackAddressed(u.stack, zero) && QueueAddressed(u.queue, zero)
  }

  ghost predicate Orderly(s: State) {
    && (forall c {:trigger CpuOk(s.cpus[c], s.zero)} | 0 <= c < |s.cpus| :: CpuOk(s.cpus[c], s.zero))
    && (forall id | id in s.lost :: id in s.zero)
  }

  lemma {:induction false} AtMostOneEngaged(st: Stack)
    requires Proper(st)
    ensures Engagements(st) <= 1
  {
    if st.Idle? {
    } else {
      AtMostOneEngaged(st.below);
    }
  }

  lemma {:induction false} AddressedGrows(st: Stack, zero: set<nat>, more: set<nat>)
    requires StackAddressed(st, zero) && zero <= more
    ensures StackAddressed(st, more)
  {
    if st.Idle? {
    } else {
      AddressedGrows(st.below, zero, more);
    }
  }

  lemma CpuOkGrows(u: Cpu, zero: set<nat>, more: set<nat>)
    requires CpuOk(u, zero) && zero <= more
    ensures CpuOk(u, more)
  {
    AddressedGrows(u.stack, zero, more);
  }

  lemma {:induction false} NoneClosing(st: Stack)
    requires Engagements(st) == 0
    ensures !ClosingIn(st)
  {
    if st.Idle? {
    } else {
      NoneClosing(st.below);
    }
  }

  lemma EnqueueOk(u: Cpu, p: Packet, zero: set<nat>)
    requires CpuOk(u, zero) && Addressed(p, zero) && u.active
    ensures CpuOk(Enqueue(u, p), zero)
  {
    assert u.left + (u.queue + [p]) == (u.left + u.queue) + [p];
  }

  lemma TakeFirstOk(u: Cpu, zero: set<nat>)
    requires CpuOk(u, zero) && u.queue != []
    ensures CpuOk(TakeFirst(u), zero) && Addressed(u.queue[0], zero)
  {
    assert u.queue == [u.queue[0]] + u.queue[1..];
    assert (u.left + [u.queue[0]]) + u.queue[1..] == u.left + u.queue;
  }

  /** The running call moves on; it is at work afterwards exactly when it was before. */
  lemma GotoOk(u: Cpu, f: Frame, zero: set<nat>)
    requires CpuOk(u, zero) && u.stack.Push? && FrameAddressed(f, zero)
    requires Engaged(f) == Engaged(u.stack.top) && (f.Ready? ==> !u.active) && (f.Closing? ==> u.queue == [])
    ensures CpuOk(Goto(u, f), zero)
  {
    if Engaged(f) { NoneClosing(u.stack.below); }
  }

  lemma ReturnOk(u: Cpu, zero: set<nat>)
    requires CpuOk(u, zero) && u.stack.Push? && !Engaged(u.stack.top)
    ensures CpuOk(Return(u), zero)
  {
  }

  lemma QueueStepCpuOk(s: State, a: Step)
    requires Orderly(s) && Enabled(s, a) && (a.Arrive? || a.Check? || a.Copy? || a.Dequeue?)
    ensures CpuOk(Apply(s, a).cpus[a.cpu], Apply(s, a).zero)
  {
    var t, u := Apply(s, a), s.cpus[a.cpu];
    assert CpuOk(u, s.zero);
    match a
    case Arrive(_, next, dir) => CpuOkGrows(u, s.zero, t.zero);
    case Check(_) =>
      if u.active {
        ReturnOk(u, s.zero);
        EnqueueOk(Return(u), u.stack.top.pkt, s.zero);
      }
    case Copy(_, port) => EnqueueOk(u, Packet(s.nextId, port, u.stack.top.pkt.dir), s.zero);
    case Dequeue(_) => if u.queue == [] {
      GotoOk(u, Closing, s.zero);
    } else {
      TakeFirstOk(u, s.zero);
      GotoOk(TakeFirst(u), Walk(u.queue[0]), s.zero);
    }
  }

  lemma WalkStepCpuOk(s: State, a: Step)
    requires Orderly(s) && Enabled(s, a) && (a.Look? || a.Forward? || a.Drop? || a.HandOver?)
    ensures CpuOk(Apply(s, a).cpus[a.cpu], s.zero)
  {
    var u := s.cpus[a.cpu];
    assert CpuOk(u, s.zero);
    GotoOk(u, Apply(s, a).cpus[a.cpu].stack.top, s.zero);
  }

  lemma FlagStepCpuOk(s: State, a: Step)
    requires Orderly(s) && Enabled(s, a) && (a.SetActive? || a.SetInactive? || a.TimerStart? || a.TimerTest?)
    ensures CpuOk(Apply(s, a).cpus[a.cpu], s.zero)
  {
    var u := s.cpus[a.cpu];
    assert CpuOk(u, s.zero);
    if a.SetActive? || a.SetInactive? { NoneClosing(u.stack.below); }
  }

  lemma StepOrderly(s: State, a: Step)
    requires Orderly(s) && Enabled(s, a)
    ensures Orderly(Apply(s, a))
  {
    var t := Apply(s, a);
    forall c | 0 <= c < |t.cpus| ensures CpuOk(t.cpus[c], t.zero) {
      assert CpuOk(s.cpus[c], s.zero);
      if a.TimerDequeue? {
        TimerCpuOk(s, a, c);
      } else if c != a.cpu {
        CpuOkGrows(s.cpus[c], s.zero, t.zero);
      } else if a.Arrive? || a.Check? || a.Copy? || a.Dequeue? {
        QueueStepCpuOk(s, a);
      } else if a.Look? || a.Forward? || a.Drop? || a.HandOver? {
        WalkStepCpuOk(s, a);
      } else {
        FlagStepCpuOk(s, a);
      }
    }
    LostEnteredSo(s, a);
  }

  /** A packet is lost only where it entered without a next block. */
  lemma LostEnteredSo(s: State, a: Step)
    requires Orderly(s) && Enabled(s, a)
    ensures forall id | id in Apply(s, a).lost :: id in Apply(s, a).zero
  {
    assert CpuOk(s.cpus[a.cpu], s.zero);
  }

  lemma TimerCpuOk(s: State, a: Step, c: nat)
    requires Orderly(s) && Enabled(s, a) && a.TimerDequeue? && c < |s.cpus|
    ensures CpuOk(Apply(s, a).cpus[c], s.zero)
  {
    var d := s.cpus[a.cpu].stack.top.disc;
    assert CpuOk(s.cpus[a.cpu], s.zero) && CpuOk(s.cpus[d], s.zero) && CpuOk(s.cpus[c], s.zero);
    if s.cpus[d].queue != [] {
      TakeFirstOk(s.cpus[d], s.zero);
      var m := WithCpu(s, d, TakeFirst(s.cpus[d]));
      GotoOk(m.cpus[a.cpu], Start(s.cpus[d].queue[0]), s.zero);
    }
  }

  // ---------- Runs ----------

  ghost function Run(s: State, steps: seq<Step>): State
    requires CanRun(s, steps)
    decreases |steps|
  {
    if steps == [] then s else Run(Apply(s, steps[0]), steps[1..])
  }

  ghost predicate CanRun(s: State, steps: seq<Step>)
    decreases |steps|
  {
    steps != [] ==> Enabled(s, steps[0]) && CanRun(Apply(s, steps[0]), steps[1..])
  }

  ghost predicate Initial(s: State) {
    && (forall c | 0 <= c < |s.cpus| :: s.cpus[c] == Cpu(false, [], Idle, [], [], []))
    && s.nextId == 0 && s.freed == multiset{} && s.handed == multiset{} && s.lost == multiset{} && s.zero == {}
       && !s.bug
  }

  lemma {:induction false} NothingInside(cpus: seq<Cpu>, id: nat)
    requires forall c | 0 <= c < |cpus| :: cpus[c] == Cpu(false, [], Idle, [], [], [])
    ensures InCpus(cpus, id) == 0
  {
    if cpus == [] {
    } else {
      NothingInside(cpus[..|cpus| - 1], id);
    }
  }

  lemma {:induction false} RunInv(s: State, steps: seq<Step>)
    requires Conserved(s) && Orderly(s) && CanRun(s, steps)
    ensures Conserved(Run(s, steps)) && Orderly(Run(s, steps))
    decreases |steps|
  {
    if steps == [] {
    } else {
      StepConserves(s, steps[0]);
      StepOrderly(s, steps[0]);
      RunInv(Apply(s, steps[0]), steps[1..]);
    }
  }

  /** In every interleaving of all CPUs, interrupts and timers, each packet and each copy is in one
      place, and every CPU's engine is in order. */
  lemma EveryRun(s: State, steps: seq<Step>)
    requires Initial(s) && CanRun(s, steps)
    ensures Conserved(Run(s, steps)) && Orderly(Run(s, steps))
  {
    forall id: nat ensures Places(s, id) == if id < s.nextId then 1 else 0 { NothingInside(s.cpus, id); }
    RunInv(s, steps);
  }

  /** In every run a packet that entered with a next block, or a copy, is never lost: it is inside,
      freed or handed over, and only one of these. */
  lemma NeverLost(s: State, steps: seq<Step>, id: nat)
    requires Initial(s) && CanRun(s, steps) && id < Run(s, steps).nextId && id !in Run(s, steps).zero
    ensures var t := Run(s, steps); InCpus(t.cpus, id) + t.freed[id] + t.handed[id] == 1
  {
    EveryRun(s, steps);
    var t := Run(s, steps);
    assert Places(t, id) == 1 && id !in t.lost;
  }

  /** In every run at most one packet is in traversal on a CPU, and the flag says whether there is
      one. */
  lemma OneTraversal(s: State, steps: seq<Step>, c: nat)
    requires Initial(s) && CanRun(s, steps) && c < |Run(s, steps).cpus|
    ensures var u := Run(s, steps).cpus[c]; Engagements(u.stack) == if u.active then 1 else 0
  {
    EveryRun(s, steps);
    var t := Run(s, steps);
    assert CpuOk(t.cpus[c], t.zero);
    AtMostOneEngaged(t.cpus[c].stack);
  }

  lemma {:induction false} InSomeCpu(cpus: seq<Cpu>, c: nat, id: nat)
    requires c < |cpus|
    ensures InCpus(cpus, id) >= InCpu(cpus[c], id)
  {
    if c == |cpus| - 1 {
    } else {
      InSomeCpu(cpus[..|cpus| - 1], c, id);
    }
  }

  /** In every run the engine never reads a packet that was freed, handed over or queued: what the
      running call has in hand is nowhere else. */
  lemma InHandOnly(s: State, steps: seq<Step>, c: nat)
    requires Initial(s) && CanRun(s, steps) && c < |Run(s, steps).cpus|
    requires var st := Run(s, steps).cpus[c].stack; st.Push? && (st.top.Walk? || st.top.Calling?)
    ensures var t := Run(s, steps); var id := t.cpus[c].stack.top.pkt.id;
            t.freed[id] == 0 && t.handed[id] == 0 && t.lost[id] == 0 && InQueue(t.cpus[c].queue, id) == 0
                && InCpus(t.cpus, id) == 1
  {
    EveryRun(s, steps);
    var t := Run(s, steps);
    var id := t.cpus[c].stack.top.pkt.id;
    InSomeCpu(t.cpus, c, id);
    assert Places(t, id) <= 1;
  }

  lemma {:induction false} RunSplits(s: State, steps: seq<Step>, more: seq<Step>)
    requires CanRun(s, steps + more)
    ensures CanRun(s, steps) && CanRun(Run(s, steps), more) && Run(s, steps + more) == Run(Run(s, steps), more)
    decreases |steps|
  {
    if steps == [] {
      assert steps + more == more;
    } else {
      assert (steps + more)[1..] == steps[1..] + more;
      RunSplits(Apply(s, steps[0]), steps[1..], more);
    }
  }

  lemma {:induction false} RunJoins(s: State, steps: seq<Step>, more: seq<Step>)
    requires CanRun(s, steps) && CanRun(Run(s, steps), more)
    ensures CanRun(s, steps + more) && Run(s, steps + more) == Run(Run(s, steps), more)
    decreases |steps|
  {
    if steps == [] {
      assert steps + more == more;
    } else {
      assert (steps + more)[1..] == steps[1..] + more;
      RunJoins(Apply(s, steps[0]), steps[1..], more);
    }
  }

  /** One CPU's records only grow. */
  ghost predicate Grown(u: Cpu, v: Cpu) {
    u.arrived <= v.arrived && u.left <= v.left && u.late <= v.late
  }

  lemma {:induction false} RunGrows(s: State, steps: seq<Step>, c: nat)
    requires CanRun(s, steps) && c < |s.cpus|
    ensures |Run(s, steps).cpus| == |s.cpus| && Grown(s.cpus[c], Run(s, steps).cpus[c])
    decreases |steps|
  {
    if steps == [] {
    } else {
      StepGrows(s, steps[0], c);
      RunGrows(Apply(s, steps[0]), steps[1..], c);
    }
  }

  lemma TimerStepGrows(s: State, a: Step, c: nat)
    requires Enabled(s, a) && a.TimerDequeue? && c < |s.cpus|
    ensures |Apply(s, a).cpus| == |s.cpus| && Grown(s.cpus[c], Apply(s, a).cpus[c])
  {
    var d := s.cpus[a.cpu].stack.top.disc;
    if s.cpus[d].queue != [] { assert Grown(s.cpus[d], TakeFirst(s.cpus[d])); }
  }

  lemma OwnStepGrows(s: State, a: Step)
    requires Enabled(s, a) && !a.TimerDequeue?
    ensures Apply(s, a).cpus == s.cpus[a.cpu := Apply(s, a).cpus[a.cpu]]
            && Grown(s.cpus[a.cpu], Apply(s, a).cpus[a.cpu])
  {
    var u := s.cpus[a.cpu];
    if a.Copy? || a.Check? {
      assert Grown(u, Enqueue(u, u.stack.top.pkt));
    } else if a.Dequeue? && u.queue != [] {
      assert Grown(u, TakeFirst(u));
    } else {
      var v := Apply(s, a).cpus[a.cpu];
      assert v.arrived == u.arrived && v.left == u.left && v.late == u.late;
    }
  }

  lemma StepGrows(s: State, a: Step, c: nat)
    requires Enabled(s, a) && c < |s.cpus|
    ensures |Apply(s, a).cpus| == |s.cpus| && Grown(s.cpus[c], Apply(s, a).cpus[c])
  {
    if a.TimerDequeue? { TimerStepGrows(s, a, c); } else { OwnStepGrows(s, a); }
  }

  /** First in, first out: whenever the k-th packet to leave a backlog has left it, in whatever run and
      however much later, it is the k-th packet that was queued there, with the direction and next
      block it was queued with. */
  lemma FirstInFirstOut(s: State, steps: seq<Step>, more: seq<Step>, c: nat, k: nat)
    requires Initial(s) && CanRun(s, steps + more) && c < |s.cpus|
    requires CanRun(s, steps) && |Run(s, steps).cpus| == |s.cpus| && k < |Run(s, steps).cpus[c].arrived|
    requires |Run(s, steps + more).cpus| == |s.cpus| && k < |Run(s, steps + more).cpus[c].left|
    ensures Run(s, steps + more).cpus[c].left[k] == Run(s, steps).cpus[c].arrived[k]
  {
    RunSplits(s, steps, more);
    RunGrows(Run(s, steps), more, c);
    EveryRun(s, steps + more);
    var t := Run(s, steps + more);
    assert CpuOk(t.cpus[c], t.zero);
  }
}
