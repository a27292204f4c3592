/** What packets carry through the machine: in every run each packet has, wherever it is, the next block
    and the direction it was last sent with, and it leaves the way the last step on it says. */
module EngineTrace {
  import opened Common
  import FblockGraph
  import opened EngineMachine

  // ---------- What is queued and what is taken up ----------

  /** In every run a call at work that finds packets waiting walks the oldest, as it was queued. */
  lemma DequeueWalksOldest(s: State, steps: seq<Step>, c: nat)
    requires Initial(s) && CanRun(s, steps) && Enabled(Run(s, steps), Dequeue(c)) && Run(s, steps).cpus[c].queue != []
    ensures var t := Run(s, steps); var u := t.cpus[c];
            && |u.left| < |u.arrived|
            && Apply(t, Dequeue(c)).cpus[c].stack == Push(Walk(u.arrived[|u.left|]), u.stack.below)
  {
    EveryRun(s, steps);
    var t := Run(s, steps);
    assert CpuOk(t.cpus[c], t.zero);
  }

  /** In every run a call on a CPU at work queues the packet it came with, behind all others, and ends. */
  lemma CheckQueuesOwn(s: State, steps: seq<Step>, c: nat)
    requires Initial(s) && CanRun(s, steps) && Enabled(Run(s, steps), Check(c)) && Run(s, steps).cpus[c].active
    ensures var t := Run(s, steps); var u, v := t.cpus[c], Apply(t, Check(c)).cpus[c];
            && v.arrived == u.arrived + [u.stack.top.pkt] && v.stack == u.stack.below
            && v.queue == u.queue + [u.stack.top.pkt]
  {
  }

  /** In every run a copy is queued for the given port in the direction of the packet it was made of. */
  lemma CopyQueuesDirection(s: State, steps: seq<Step>, c: nat, port: Idp)
    requires Initial(s) && CanRun(s, steps) && Enabled(Run(s, steps), Copy(c, port))
    ensures var t := Run(s, steps); var u, v := t.cpus[c], Apply(t, Copy(c, port)).cpus[c];
            && v.arrived == u.arrived + [Packet(t.nextId, port, u.stack.top.pkt.dir)] && v.stack == u.stack
            && v.queue == u.queue + [Packet(t.nextId, port, u.stack.top.pkt.dir)]
  {
  }

  // ---------- What was sent ----------

  /** The block and the direction each packet was last sent to and in. */
  type Sent = map<nat, (Idp, FblockGraph.Dir)>

  ghost predicate InHand(s: State, a: Step)
    requires Enabled(s, a)
  {
    a.Copy? || a.Forward? || a.Drop? || a.HandOver? || a.Look?
  }

  /** The packet a step works on. */
  ghost function Hand(s: State, a: Step): nat
    requires Enabled(s, a) && InHand(s, a)
  {
    s.cpus[a.cpu].stack.top.pkt.id
  }

  /** What a step adds to the record: a packet enters, is forwarded, or a copy of one is made. */
  ghost function Note(s: State, a: Step, sent: Sent): Sent
    requires Enabled(s, a)
  {
    match a
    case Arrive(_, next, dir) => sent[s.nextId := (next, dir)]
    case Copy(_, port) => if Hand(s, a) in sent then sent[s.nextId := (port, sent[Hand(s, a)].1)] else sent
    case Forward(_, next, dir) => sent[Hand(s, a) := (next, dir)]
    case _ => sent
  }

  ghost function Record(s: State, steps: seq<Step>, sent: Sent): Sent
    requires CanRun(s, steps)
    decreases |steps|
  {
    if steps == [] then sent else Record(Apply(s, steps[0]), steps[1..], Note(s, steps[0], sent))
  }

  ghost predicate AsSent(p: Packet, sent: Sent) {
    p.id in sent && sent[p.id] == (p.next, p.dir)
  }

  ghost predicate FrameAsSent(f: Frame, sent: Sent) {
    f.Start? || f.Ready? || f.Walk? || f.Calling? ==> AsSent(f.pkt, sent)
  }

  ghost predicate StackAsSent(st: Stack, sent: Sent) {
    st.Push? ==> FrameAsSent(st.top, sent) && StackAsSent(st.below, sent)
  }

  ghost predicate QueueAsSent(q: seq<Packet>, sent: Sent) {
    forall k | 0 <= k < |q| :: AsSent(q[k], sent)
  }

  ghost predicate CpuAsSent(u: Cpu, sent: Sent) {
    StackAsSent(u.stack, sent) && QueueAsSent(u.queue, sent)
  }

  ghost predicate AllAsSent(s: State, sent: Sent) {
    forall c {:trigger CpuAsSent(s.cpus[c], sent)} | 0 <= c < |s.cpus| :: CpuAsSent(s.cpus[c], sent)
  }

  // ---------- A packet that is not there does not matter ----------

  lemma {:induction false} StackElsewhere(st: Stack, sent: Sent, id: nat, x: (Idp, FblockGraph.Dir))
    requires StackAsSent(st, sent) && InStack(st, id) == 0
    ensures StackAsSent(st, sent[id := x])
  {
    if st.Idle? {
    } else {
      StackElsewhere(st.below, sent, id, x);
    }
  }

  lemma {:induction false} QueueElsewhere(q: seq<Packet>, sent: Sent, id: nat, x: (Idp, FblockGraph.Dir))
    requires QueueAsSent(q, sent) && InQueue(q, id) == 0
    ensures QueueAsSent(q, sent[id := x])
  {
    if q == [] {
    } else {
      QueueElsewhere(q[1..], sent, id, x);
      forall k | 0 <= k < |q| ensures AsSent(q[k], sent[id := x]) {
        if k > 0 { assert q[k] == q[1..][k - 1]; }
      }
    }
  }

  lemma CpuElsewhere(u: Cpu, sent: Sent, id: nat, x: (Idp, FblockGraph.Dir))
    requires CpuAsSent(u, sent) && InCpu(u, id) == 0
    ensures CpuAsSent(u, sent[id := x])
  {
    StackElsewhere(u.stack, sent, id, x);
    QueueElsewhere(u.queue, sent, id, x);
  }

  lemma {:induction false} InTwoCpus(cpus: seq<Cpu>, c: nat, d: nat, id: nat)
    requires c < |cpus| && d < |cpus| && c != d
    ensures InCpus(cpus, id) >= InCpu(cpus[c], id) + InCpu(cpus[d], id)
  {
    var n := |cpus| - 1;
    if c == n {
      InSomeCpu(cpus[..n], d, id);
    } else if d == n {
      InSomeCpu(cpus[..n], c, id);
    } else {
      InTwoCpus(cpus[..n], c, d, id);
    }
  }

  /** A packet in hand on one CPU is on no other, and only once there. */
  lemma HandAlone(s: State, c: nat, id: nat, d: nat)
    requires Conserved(s) && c < |s.cpus| && d < |s.cpus| && s.cpus[c].stack.Push? && Holds(s.cpus[c].stack.top, id)
    ensures d != c ==> InCpu(s.cpus[d], id) == 0
    ensures InStack(s.cpus[c].stack.below, id) == 0 && InQueue(s.cpus[c].queue, id) == 0
  {
    assert Places(s, id) <= 1;
    InSomeCpu(s.cpus, c, id);
    if d != c { InTwoCpus(s.cpus, c, d, id); }
  }

  lemma NewNowhere(s: State, d: nat)
    requires Conserved(s) && d < |s.cpus|
    ensures InCpu(s.cpus[d], s.nextId) == 0
  {
    assert Places(s, s.nextId) == 0;
    InSomeCpu(s.cpus, d, s.nextId);
  }

  // ---------- Every step ----------

  lemma QueueGrows(q: seq<Packet>, p: Packet, sent: Sent)
    requires QueueAsSent(q, sent) && AsSent(p, sent)
    ensures QueueAsSent(q + [p], sent)
  {
  }

  lemma ArriveAsSent(s: State, a: Step, sent: Sent, d: nat)
    requires Conserved(s) && AllAsSent(s, sent) && Enabled(s, a) && a.Arrive? && d < |s.cpus|
    ensures CpuAsSent(Apply(s, a).cpus[d], Note(s, a, sent))
  {
    assert CpuAsSent(s.cpus[d], sent);
    NewNowhere(s, d);
    CpuElsewhere(s.cpus[d], sent, s.nextId, (a.next, a.dir));
  }

  lemma CopyAsSent(s: State, a: Step, sent: Sent, d: nat)
    requires Conserved(s) && AllAsSent(s, sent) && Enabled(s, a) && a.Copy? && d < |s.cpus|
    ensures CpuAsSent(Apply(s, a).cpus[d], Note(s, a, sent))
  {
    var u := s.cpus[a.cpu];
    assert CpuAsSent(s.cpus[d], sent) && CpuAsSent(u, sent);
    assert AsSent(u.stack.top.pkt, sent);
    NewNowhere(s, d);
    CpuElsewhere(s.cpus[d], sent, s.nextId, (a.port, u.stack.top.pkt.dir));
    if d == a.cpu { QueueGrows(u.queue, Packet(s.nextId, a.port, u.stack.top.pkt.dir), Note(s, a, sent)); }
  }

  lemma ForwardAsSent(s: State, a: Step, sent: Sent, d: nat)
    requires Conserved(s) && AllAsSent(s, sent) && Enabled(s, a) && a.Forward? && d < |s.cpus|
    ensures CpuAsSent(Apply(s, a).cpus[d], Note(s, a, sent))
  {
    var id := Hand(s, a);
    assert CpuAsSent(s.cpus[d], sent);
    HandAlone(s, a.cpu, id, d);
    if d == a.cpu {
      StackElsewhere(s.cpus[d].stack.below, sent, id, (a.next, a.dir));
      QueueElsewhere(s.cpus[d].queue, sent, id, (a.next, a.dir));
    } else {
      CpuElsewhere(s.cpus[d], sent, id, (a.next, a.dir));
    }
  }

  lemma TimerAsSent(s: State, a: Step, sent: Sent, d: nat)
    requires AllAsSent(s, sent) && Enabled(s, a) && a.TimerDequeue? && d < |s.cpus|
    ensures CpuAsSent(Apply(s, a).cpus[d], sent)
  {
    var e := s.cpus[a.cpu].stack.top.disc;
    assert CpuAsSent(s.cpus[d], sent) && CpuAsSent(s.cpus[e], sent) && CpuAsSent(s.cpus[a.cpu], sent);
    if s.cpus[e].queue != [] { assert AsSent(s.cpus[e].queue[0], sent); }
  }

  lemma CheckAsSent(s: State, a: Step, sent: Sent)
    requires AllAsSent(s, sent) && Enabled(s, a) && a.Check?
    ensures CpuAsSent(Apply(s, a).cpus[a.cpu], sent)
  {
    var u := s.cpus[a.cpu];
    assert CpuAsSent(u, sent);
    QueueGrows(u.queue, u.stack.top.pkt, sent);
  }

  lemma OwnAsSent(s: State, a: Step, sent: Sent)
    requires AllAsSent(s, sent) && Enabled(s, a)
    requires !a.Arrive? && !a.Copy? && !a.Forward? && !a.Check? && !a.TimerDequeue?
    ensures CpuAsSent(Apply(s, a).cpus[a.cpu], sent)
  {
    var u := s.cpus[a.cpu];
    assert CpuAsSent(u, sent);
    if a.Dequeue? && u.queue != [] { assert AsSent(u.queue[0], sent); }
  }

  lemma OtherUntouched(s: State, a: Step, d: nat)
    requires Enabled(s, a) && !a.TimerDequeue? && d < |s.cpus| && d != a.cpu
    ensures Apply(s, a).cpus[d] == s.cpus[d]
  {
  }

  lemma StepAsSent(s: State, a: Step, sent: Sent)
    requires Conserved(s) && AllAsSent(s, sent) && Enabled(s, a)
    ensures AllAsSent(Apply(s, a), Note(s, a, sent))
  {
    StepLength(s, a);
    forall d | 0 <= d < |Apply(s, a).cpus| ensures CpuAsSent(Apply(s, a).cpus[d], Note(s, a, sent)) {
      if a.Arrive? {
        ArriveAsSent(s, a, sent, d);
      } else if a.Copy? {
        CopyAsSent(s, a, sent, d);
      } else if a.Forward? {
        ForwardAsSent(s, a, sent, d);
      } else if a.TimerDequeue? {
        TimerAsSent(s, a, sent, d);
      } else if d != a.cpu {
        OtherUntouched(s, a, d);
        assert CpuAsSent(s.cpus[d], sent);
      } else if a.Check? {
        CheckAsSent(s, a, sent);
      } else {
        OwnAsSent(s, a, sent);
      }
    }
  }

  lemma StepLength(s: State, a: Step)
    requires Enabled(s, a)
    ensures |Apply(s, a).cpus| == |s.cpus|
  {
    StepGrows(s, a, a.cpu);
  }

  lemma {:induction false} RunAsSent(s: State, steps: seq<Step>, sent: Sent)
    requires Conserved(s) && AllAsSent(s, sent) && CanRun(s, steps)
    ensures AllAsSent(Run(s, steps), Record(s, steps, sent))
    decreases |steps|
  {
    if steps == [] {
    } else {
      StepConserves(s, steps[0]);
      StepAsSent(s, steps[0], sent);
      RunAsSent(Apply(s, steps[0]), steps[1..], Note(s, steps[0], sent));
    }
  }

  /** In every run every packet, queued or in hand on any CPU, has the next block and the direction it was
      last sent with; a copy has the direction of the packet it was made of. */
  lemma CarriedAlong(s: State, steps: seq<Step>)
    requires Initial(s) && CanRun(s, steps)
    ensures AllAsSent(Run(s, steps), Record(s, steps, map[]))
  {
    EveryRun(s, []);
    assert Run(s, []) == s;
    RunAsSent(s, steps, map[]);
  }

  // ---------- How packets leave ----------

  /** The packets that left in a run: those handed over by their block, those freed because a block dropped
      them or the next block was not there, and those lost because none was set. */
  datatype Gone = Gone(handed: multiset<nat>, freed: multiset<nat>, lost: multiset<nat>)

  /** The packets that entered in a run without a next block. */
  ghost function EnteredWithout(s: State, steps: seq<Step>): set<nat>
    requires CanRun(s, steps)
    decreases |steps|
  {
    if steps == [] then {}
    else
      (if steps[0].Arrive? && steps[0].next == IDP_UNKNOWN then {s.nextId} else {})
      + EnteredWithout(Apply(s, steps[0]), steps[1..])
  }

  ghost function Leaves(s: State, a: Step): Gone
    requires Enabled(s, a)
  {
    var none := Gone(multiset{}, multiset{}, multiset{});
    if a.HandOver? then none.(handed := multiset{Hand(s, a)})
    else if a.Drop? then none.(freed := multiset{Hand(s, a)})
    else if a.Look? && s.cpus[a.cpu].stack.top.pkt.next == IDP_UNKNOWN then none.(lost := multiset{Hand(s, a)})
    else if a.Look? && !a.registered then none.(freed := multiset{Hand(s, a)})
    else none
  }

  ghost function LeftIn(s: State, steps: seq<Step>): Gone
    requires CanRun(s, steps)
    decreases |steps|
  {
    if steps == [] then Gone(multiset{}, multiset{}, multiset{})
    else
      var g, h := Leaves(s, steps[0]), LeftIn(Apply(s, steps[0]), steps[1..]);
      Gone(g.handed + h.handed, g.freed + h.freed, g.lost + h.lost)
  }

  lemma StaysInside(s: State, a: Step)
    requires Enabled(s, a) && !a.HandOver? && !a.Drop? && !a.Look?
    ensures var t := Apply(s, a); t.handed == s.handed && t.freed == s.freed && t.lost == s.lost
  {
  }

  lemma StepLeaves(s: State, a: Step)
    requires Enabled(s, a)
    ensures var t, g := Apply(s, a), Leaves(s, a);
            t.handed == s.handed + g.handed && t.freed == s.freed + g.freed && t.lost == s.lost + g.lost
  {
    if !a.HandOver? && !a.Drop? && !a.Look? { StaysInside(s, a); }
  }

  lemma StepZero(s: State, a: Step)
    requires Enabled(s, a)
    ensures Apply(s, a).zero == s.zero + if a.Arrive? && a.next == IDP_UNKNOWN then {s.nextId} else {}
  {
  }

  /** In every run the packets handed over, freed and lost are those of the steps that did so to the packet
      in hand, and those without a next block are those that entered so. */
  lemma {:induction false} FatesExplained(s: State, steps: seq<Step>)
    requires CanRun(s, steps)
    ensures var t, g := Run(s, steps), LeftIn(s, steps);
            t.handed == s.handed + g.handed && t.freed == s.freed + g.freed && t.lost == s.lost + g.lost
    ensures Run(s, steps).zero == s.zero + EnteredWithout(s, steps)
    decreases |steps|
  {
    if steps == [] {
    } else {
      StepLeaves(s, steps[0]);
      StepZero(s, steps[0]);
      FatesExplained(Apply(s, steps[0]), steps[1..]);
    }
  }

  // ---------- Going on ----------

  /** The timers in progress are for existing CPUs and within their tests. */
  predicate TimersOk(st: Stack, n: nat) {
    st.Push? ==> TimersOk(st.below, n) && (st.top.Timer? ==> st.top.disc < n && st.top.stage <= 3)
  }

  ghost predicate AllTimersOk(s: State) {
    forall c {:trigger s.cpus[c]} | 0 <= c < |s.cpus| :: TimersOk(s.cpus[c].stack, |s.cpus|)
  }

  lemma StepTimersOk(s: State, a: Step)
    requires AllTimersOk(s) && Enabled(s, a)
    ensures AllTimersOk(Apply(s, a))
  {
    StepLength(s, a);
    forall c | 0 <= c < |Apply(s, a).cpus| ensures TimersOk(Apply(s, a).cpus[c].stack, |s.cpus|) {
      assert TimersOk(s.cpus[c].stack, |s.cpus|) && TimersOk(s.cpus[a.cpu].stack, |s.cpus|);
      if a.TimerDequeue? {
        TimerStack(s, a, c);
      } else if c != a.cpu {
        OtherUntouched(s, a, c);
      }
    }
  }

  lemma TimerStack(s: State, a: Step, c: nat)
    requires Enabled(s, a) && a.TimerDequeue? && c < |s.cpus|
    ensures c < |Apply(s, a).cpus|
    ensures var st := Apply(s, a).cpus[c].stack;
            if c != a.cpu then st == s.cpus[c].stack
            else st == s.cpus[c].stack.below || (st.Push? && st.top.Start? && st.below == s.cpus[c].stack.below)
  {
  }

  lemma {:induction false} RunTimersOk(s: State, steps: seq<Step>)
    requires AllTimersOk(s) && CanRun(s, steps)
    ensures AllTimersOk(Run(s, steps))
    decreases |steps|
  {
    if steps == [] {
    } else {
      StepTimersOk(s, steps[0]);
      RunTimersOk(Apply(s, steps[0]), steps[1..]);
    }
  }

  /** In every run a call in progress can go on: each frame has its step, and a block may do with the packet
      in hand whatever it likes. */
  lemma NeverStuck(s: State, steps: seq<Step>, c: nat)
    requires Initial(s) && CanRun(s, steps) && c < |Run(s, steps).cpus| && Run(s, steps).cpus[c].stack.Push?
    ensures var t := Run(s, steps);
            match t.cpus[c].stack.top
            case Start(_) => Enabled(t, Check(c))
            case Ready(_) => Enabled(t, SetActive(c))
            case Walk(_) => Enabled(t, Look(c, true)) && Enabled(t, Look(c, false))
            case Calling(_) =>
              Enabled(t, Drop(c)) && Enabled(t, HandOver(c)) && MaySend(t, c)
            case Draining => Enabled(t, Dequeue(c))
            case Closing => Enabled(t, SetInactive(c))
            case Timer(_, k) => if k == 3 then Enabled(t, TimerDequeue(c)) else Enabled(t, TimerTest(c))
  {
    RunTimersOk(s, steps);
    var t := Run(s, steps);
    assert TimersOk(t.cpus[c].stack, |t.cpus|);
    GoesOn(t, c);
  }

  /** The call on this CPU may forward its packet to any block in any direction, and copy it to any. */
  ghost predicate MaySend(t: State, c: nat) {
    && (forall i, d | i != IDP_UNKNOWN :: Enabled(t, Forward(c, i, d)))
    && (forall i | i != IDP_UNKNOWN :: Enabled(t, Copy(c, i)))
  }

  lemma GoesOn(t: State, c: nat)
    requires c < |t.cpus| && t.cpus[c].stack.Push? && TimersOk(t.cpus[c].stack, |t.cpus|)
    ensures match t.cpus[c].stack.top
            case Start(_) => Enabled(t, Check(c))
            case Ready(_) => Enabled(t, SetActive(c))
            case Walk(_) => Enabled(t, Look(c, true)) && Enabled(t, Look(c, false))
            case Calling(_) => Enabled(t, Drop(c)) && Enabled(t, HandOver(c)) && MaySend(t, c)
            case Draining => Enabled(t, Dequeue(c))
            case Closing => Enabled(t, SetInactive(c))
            case Timer(_, k) => if k == 3 then Enabled(t, TimerDequeue(c)) else Enabled(t, TimerTest(c))
  {
  }
}
