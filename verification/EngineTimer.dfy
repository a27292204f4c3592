/** What the timer is for and where it fails: packets left behind on an idle CPU, and the check that
    the timer makes for a packet it has already seen. */
module EngineTimer {
  import opened EngineMachine
  import FblockGraph

  // ---------- Packets left behind ----------

  /** A step queues a packet: on this CPU, coming in while it is at work or as a copy. */
  ghost predicate Queues(a: Step, c: nat) {
    a.cpu == c && (a.Check? || a.Copy?)
  }

  lemma QueueStep(s: State, a: Step, c: nat)
    requires Enabled(s, a) && c < |s.cpus|
    ensures c < |Apply(s, a).cpus|
    ensures var u, v := s.cpus[c], Apply(s, a).cpus[c];
            || (v.arrived == u.arrived && v.late == u.late)
            || (|v.arrived| == |u.arrived| + 1 && Queues(a, c) && v.late == u.late + [ClosingIn(u.stack)])
  {
    if a.TimerDequeue? {
      TimerKeepsRecords(s, a, c);
    } else if c != a.cpu {
      OwnStepGrows(s, a);
    } else {
      OwnRecords(s, a);
    }
  }

  lemma TimerKeepsRecords(s: State, a: Step, c: nat)
    requires Enabled(s, a) && a.TimerDequeue? && c < |s.cpus|
    ensures c < |Apply(s, a).cpus|
    ensures Apply(s, a).cpus[c].arrived == s.cpus[c].arrived && Apply(s, a).cpus[c].late == s.cpus[c].late
  {
  }

  lemma OwnRecords(s: State, a: Step)
    requires Enabled(s, a) && !a.TimerDequeue?
    ensures a.cpu < |Apply(s, a).cpus|
    ensures var u, v := s.cpus[a.cpu], Apply(s, a).cpus[a.cpu];
            || (v.arrived == u.arrived && v.late == u.late)
            || (|v.arrived| == |u.arrived| + 1 && (a.Check? || a.Copy?) && v.late == u.late + [ClosingIn(u.stack)])
  {
    if !a.Check? && !a.Copy? { NothingQueued(s, a); }
  }

  lemma NothingQueued(s: State, a: Step)
    requires Enabled(s, a) && !a.TimerDequeue? && !a.Check? && !a.Copy?
    ensures Apply(s, a).cpus[a.cpu].arrived == s.cpus[a.cpu].arrived
    ensures Apply(s, a).cpus[a.cpu].late == s.cpus[a.cpu].late
  {
  }

  lemma LastStep(s: State, steps: seq<Step>, m: nat)
    requires CanRun(s, steps) && m == |steps| - 1
    ensures CanRun(s, steps[..m]) && Enabled(Run(s, steps[..m]), steps[m])
    ensures Run(s, steps) == Apply(Run(s, steps[..m]), steps[m])
  {
    assert steps == steps[..m] + [steps[m]];
    RunSplits(s, steps[..m], [steps[m]]);
    assert [steps[m]][1..] == [];
  }

  /** The step that queued the k-th packet of a CPU, and what was noted then. */
  lemma {:induction false} QueuedWhen(s: State, steps: seq<Step>, c: nat, k: nat) returns (n: nat)
    requires Initial(s) && CanRun(s, steps) && c < |s.cpus| && |Run(s, steps).cpus| == |s.cpus|
    requires k < |Run(s, steps).cpus[c].arrived|
    ensures n < |steps| && CanRun(s, steps[..n]) && |Run(s, steps[..n]).cpus| == |s.cpus|
    ensures |Run(s, steps[..n]).cpus[c].arrived| == k && Queues(steps[n], c)
    ensures k < |Run(s, steps).cpus[c].late|
    ensures Run(s, steps).cpus[c].late[k] == ClosingIn(Run(s, steps[..n]).cpus[c].stack)
    decreases |steps|
  {
    if steps == [] {
      assert false;
    } else {
      var m := |steps| - 1;
      LastStep(s, steps, m);
      RunGrows(s, steps[..m], c);
      EveryRun(s, steps[..m]);
      var r := Run(s, steps[..m]);
      assert CpuOk(r.cpus[c], r.zero);
      QueueStep(r, steps[m], c);
      if k < |r.cpus[c].arrived| {
        n := QueuedWhen(s, steps[..m], c, k);
        assert steps[..m][..n] == steps[..n];
      } else {
        n := m;
      }
    }
  }

  /** In every run a packet waits on a CPU where no call is at work only if, when it was queued, the call then
      at work there had found the queue empty and was about to close. */
  lemma LeftBehindWereLate(s: State, steps: seq<Step>, c: nat, k: nat) returns (n: nat)
    requires Initial(s) && CanRun(s, steps) && c < |s.cpus| && |Run(s, steps).cpus| == |s.cpus|
    requires !Run(s, steps).cpus[c].active && k < |Run(s, steps).cpus[c].queue|
    ensures n < |steps| && CanRun(s, steps[..n]) && |Run(s, steps[..n]).cpus| == |s.cpus|
    ensures Queues(steps[n], c) && |Run(s, steps[..n]).cpus[c].arrived| == |Run(s, steps).cpus[c].left| + k
    ensures ClosingIn(Run(s, steps[..n]).cpus[c].stack)
  {
    EveryRun(s, steps);
    var t := Run(s, steps);
    assert CpuOk(t.cpus[c], t.zero);
    n := QueuedWhen(s, steps, c, |t.cpus[c].left| + k);
  }

  ghost function At(s: State, c: nat, st: Stack): State
    requires c < |s.cpus|
  {
    WithCpu(s, c, s.cpus[c].(stack := st))
  }

  /** t is reached from s by the steps. */
  ghost predicate Leads(s: State, steps: seq<Step>, t: State) {
    CanRun(s, steps) && Run(s, steps) == t
  }

  lemma LeadsCons(s: State, a: Step, steps: seq<Step>, t: State)
    requires Enabled(s, a) && Leads(Apply(s, a), steps, t)
    ensures Leads(s, [a] + steps, t)
  {
    assert ([a] + steps)[1..] == steps;
  }

  lemma LeadsJoin(s: State, steps: seq<Step>, t: State, more: seq<Step>, u: State)
    requires Leads(s, steps, t) && Leads(t, more, u)
    ensures Leads(s, steps + more, u)
  {
    RunJoins(s, steps, more);
  }

  lemma OneTest(s: State, c: nat, d: nat, k: nat, st: Stack)
    requires c < |s.cpus| && d < |s.cpus| && k < 3 && !TestFails(s, c, Timer(d, k))
    ensures var here := At(s, c, Push(Timer(d, k), st));
            Enabled(here, TimerTest(c)) && Apply(here, TimerTest(c)) == At(s, c, Push(Timer(d, k + 1), st))
  {
    var here := At(s, c, Push(Timer(d, k), st));
    assert here.cpus[d].active == s.cpus[d].active && here.cpus[d].queue == s.cpus[d].queue;
    assert !TestFails(here, c, Timer(d, k));
    assert Apply(here, TimerTest(c)).cpus == At(s, c, Push(Timer(d, k + 1), st)).cpus;
  }

  /** The steps of a timer handler up to its dequeue. */
  function TimerRun(c: nat, d: nat): seq<Step> {
    [TimerStart(c, d), TimerTest(c), TimerTest(c), TimerTest(c)]
  }

  /** On an idle CPU with packets waiting the timer passes its tests. */
  lemma TimerPasses(s: State, c: nat, d: nat)
    requires c < |s.cpus| && d < |s.cpus| && !s.cpus[d].active && s.cpus[d].queue != []
             && (d == c || |s.cpus[d].queue| > MISS_LIMIT)
    ensures Leads(s, TimerRun(c, d), At(s, c, Push(Timer(d, 3), s.cpus[c].stack)))
  {
    var st := s.cpus[c].stack;
    var end := At(s, c, Push(Timer(d, 3), st));
    OneTest(s, c, d, 2, st);
    LeadsCons(At(s, c, Push(Timer(d, 2), st)), TimerTest(c), [], end);
    OneTest(s, c, d, 1, st);
    LeadsCons(At(s, c, Push(Timer(d, 1), st)), TimerTest(c), [TimerTest(c)], end);
    OneTest(s, c, d, 0, st);
    LeadsCons(At(s, c, Push(Timer(d, 0), st)), TimerTest(c), [TimerTest(c), TimerTest(c)], end);
    LeadsCons(s, TimerStart(c, d), [TimerTest(c), TimerTest(c), TimerTest(c)], end);
  }

  /** A timer that runs undisturbed takes the oldest packet left behind: always on the packet's own CPU,
      on another one when more than 150 are waiting. */
  lemma TimerServes(s: State, c: nat, d: nat)
    requires c < |s.cpus| && d < |s.cpus| && !s.cpus[d].active && s.cpus[d].queue != []
             && (d == c || |s.cpus[d].queue| > MISS_LIMIT)
    ensures CanRun(s, TimerRun(c, d) + [TimerDequeue(c)])
    ensures var t := Run(s, TimerRun(c, d) + [TimerDequeue(c)]);
            && |t.cpus| == |s.cpus| && t.cpus[c].stack == Push(Start(s.cpus[d].queue[0]), s.cpus[c].stack)
            && t.cpus[d].queue == s.cpus[d].queue[1..] && t.bug == s.bug
  {
    var mid := At(s, c, Push(Timer(d, 3), s.cpus[c].stack));
    TimerPasses(s, c, d);
    LeadsCons(mid, TimerDequeue(c), [], Apply(mid, TimerDequeue(c)));
    LeadsJoin(s, TimerRun(c, d), mid, [TimerDequeue(c)], Apply(mid, TimerDequeue(c)));
  }

  /** The state once the timer handler running on CPU c, undisturbed, has ended or taken a packet; below are
      the calls it interrupted. */
  ghost function TimerEnd(s: State, c: nat, below: Stack): State
    requires c < |s.cpus| && s.cpus[c].stack.Push? && s.cpus[c].stack.below == below
    requires var f := s.cpus[c].stack.top; f.Timer? && f.stage <= 3 && f.disc < |s.cpus|
    decreases 3 - s.cpus[c].stack.top.stage
  {
    if s.cpus[c].stack.top.stage == 3 then Apply(s, TimerDequeue(c))
    else
      var t := Apply(s, TimerTest(c));
      if t.cpus[c].stack == below then t else TimerEnd(t, c, below)
  }

  /** The reasons for which a timer on CPU c leaves the backlog of CPU d alone, in the order of its tests. */
  ghost predicate LeavesAlone(s: State, c: nat, d: nat, k: nat)
    requires d < |s.cpus|
  {
    if k == 0 then s.cpus[d].active
    else if k == 1 then s.cpus[d].queue == []
    else d != c && |s.cpus[d].queue| <= 150
  }

  lemma TestStep(s: State, c: nat, d: nat, k: nat, below: Stack, u: State)
    requires c < |s.cpus| && d < |s.cpus| && k < 3 && s.cpus[c].stack == below
    requires u == At(s, c, Push(Timer(d, k), below))
    ensures Apply(u, TimerTest(c)) == if LeavesAlone(s, c, d, k) then s else At(s, c, Push(Timer(d, k + 1), below))
  {
    assert s.cpus[c := u.cpus[c].(stack := below)] == s.cpus;
  }

  /** The handler at its k-th test ends there, or goes on. */
  lemma TimerEnds(s: State, c: nat, d: nat, k: nat, below: Stack, u: State, v: State)
    requires c < |s.cpus| && d < |s.cpus| && k < 3 && s.cpus[c].stack == below
    requires u == At(s, c, Push(Timer(d, k), below)) && v == At(s, c, Push(Timer(d, k + 1), below))
    ensures TimerEnd(u, c, below) == if LeavesAlone(s, c, d, k) then s else TimerEnd(v, c, below)
  {
    TestStep(s, c, d, k, below, u);
  }

  /** Past its tests, with packets waiting, it takes the oldest. */
  lemma TimerTakes(s: State, c: nat, d: nat, below: Stack, v: State)
    requires c < |s.cpus| && d < |s.cpus| && s.cpus[c].stack == below && v == At(s, c, Push(Timer(d, 3), below))
    requires s.cpus[d].queue != []
    ensures var t, q := TimerEnd(v, c, below), s.cpus[d].queue;
            && |t.cpus| == |s.cpus| && t.cpus[d].queue == q[1..]
            && t.cpus[c].stack == Push(Start(q[0]), below) && t.bug == s.bug
  {
  }

  /** A timer that runs undisturbed takes a packet if and only if the CPU it is for is idle, packets wait
      there, and it is its own or more than 150 wait; it is the oldest, and otherwise nothing changes. */
  lemma TimerTakesIff(s: State, c: nat, d: nat)
    requires c < |s.cpus| && d < |s.cpus|
    ensures var t, q := TimerEnd(Apply(s, TimerStart(c, d)), c, s.cpus[c].stack), s.cpus[d].queue;
            if !s.cpus[d].active && q != [] && (d == c || |q| > 150) then
              && |t.cpus| == |s.cpus| && t.cpus[d].queue == q[1..]
              && t.cpus[c].stack == Push(Start(q[0]), s.cpus[c].stack) && t.bug == s.bug
            else t == s
  {
    var below := s.cpus[c].stack;
    var u0, u1 := At(s, c, Push(Timer(d, 0), below)), At(s, c, Push(Timer(d, 1), below));
    var u2, u3 := At(s, c, Push(Timer(d, 2), below)), At(s, c, Push(Timer(d, 3), below));
    TimerEnds(s, c, d, 0, below, u0, u1);
    TimerEnds(s, c, d, 1, below, u1, u2);
    TimerEnds(s, c, d, 2, below, u2, u3);
    if s.cpus[d].queue != [] { TimerTakes(s, c, d, below, u3); }
  }

  // ---------- When the timer finds nothing ----------

  /** The packets a step takes off the backlog of CPU d: none or one. */
  ghost function Takes(s: State, a: Step, d: nat): nat
    requires Enabled(s, a) && d < |s.cpus|
  {
    if ((a.Dequeue? && a.cpu == d) || (a.TimerDequeue? && s.cpus[a.cpu].stack.top.disc == d))
        && s.cpus[d].queue != [] then 1 else 0
  }

  /** The packets a step puts onto it. */
  ghost function Puts(s: State, a: Step, d: nat): nat
    requires Enabled(s, a) && d < |s.cpus|
  {
    if a.cpu == d && (a.Copy? || (a.Check? && s.cpus[d].active)) then 1 else 0
  }

  ghost function Taken(s: State, steps: seq<Step>, d: nat): nat
    requires CanRun(s, steps) && d < |s.cpus|
    decreases |steps|
  {
    if steps == [] then 0 else Takes(s, steps[0], d) + Taken(Apply(s, steps[0]), steps[1..], d)
  }

  ghost function Put(s: State, steps: seq<Step>, d: nat): nat
    requires CanRun(s, steps) && d < |s.cpus|
    decreases |steps|
  {
    if steps == [] then 0 else Puts(s, steps[0], d) + Put(Apply(s, steps[0]), steps[1..], d)
  }

  lemma OwnQueue(s: State, a: Step)
    requires Enabled(s, a) && !a.TimerDequeue?
    ensures |Apply(s, a).cpus[a.cpu].queue| + Takes(s, a, a.cpu) == |s.cpus[a.cpu].queue| + Puts(s, a, a.cpu)
  {
  }

  lemma TimerQueue(s: State, a: Step, d: nat)
    requires Enabled(s, a) && a.TimerDequeue? && d < |s.cpus|
    ensures |Apply(s, a).cpus| == |s.cpus|
    ensures |Apply(s, a).cpus[d].queue| + Takes(s, a, d) == |s.cpus[d].queue|
  {
  }

  lemma StepQueue(s: State, a: Step, d: nat)
    requires Enabled(s, a) && d < |s.cpus|
    ensures |Apply(s, a).cpus| == |s.cpus|
    ensures |Apply(s, a).cpus[d].queue| + Takes(s, a, d) == |s.cpus[d].queue| + Puts(s, a, d)
  {
    if a.TimerDequeue? {
      TimerQueue(s, a, d);
    } else {
      OwnStepGrows(s, a);
      OwnQueue(s, a);
    }
  }

  lemma {:induction false} RunQueue(s: State, steps: seq<Step>, d: nat)
    requires CanRun(s, steps) && d < |s.cpus|
    ensures |Run(s, steps).cpus| == |s.cpus|
    ensures |Run(s, steps).cpus[d].queue| + Taken(s, steps, d) == |s.cpus[d].queue| + Put(s, steps, d)
    decreases |steps|
  {
    if steps == [] {
    } else {
      StepQueue(s, steps[0], d);
      RunQueue(Apply(s, steps[0]), steps[1..], d);
    }
  }

  /** On CPU c a timer handler for the backlog of CPU d is running, at the given stage. */
  ghost predicate TimerAt(s: State, c: nat, d: nat, stage: nat) {
    c < |s.cpus| && d < |s.cpus| && s.cpus[c].stack.Push? && s.cpus[c].stack.top == Timer(d, stage)
  }

  /** From any state: a timer that finds the backlog non-empty and later goes to take a packet finds
      none if and only if the steps in between took all that was there and all that came. Where they
      took nothing it finds one. */
  lemma TimerFindsNothingIff(s: State, steps: seq<Step>, c: nat, d: nat)
    requires TimerAt(s, c, d, 1) && !TestFails(s, c, Timer(d, 1))
    requires CanRun(s, [TimerTest(c)] + steps) && TimerAt(Run(s, [TimerTest(c)] + steps), c, d, 3)
    ensures var t := Run(s, [TimerTest(c)] + steps);
            && Enabled(t, TimerDequeue(c)) && |s.cpus[d].queue| > 0
            && (Apply(t, TimerDequeue(c)).bug <==>
                  t.bug || Taken(s, [TimerTest(c)] + steps, d) == |s.cpus[d].queue| + Put(s, [TimerTest(c)] + steps, d))
            && (Taken(s, [TimerTest(c)] + steps, d) == 0 ==> Apply(t, TimerDequeue(c)).bug == t.bug)
  {
    RunQueue(s, [TimerTest(c)] + steps, d);
  }

  // ---------- A run in which it finds nothing ----------

  /** Nothing happened but on CPU d. */
  ghost predicate Elsewhere(s: State, t: State, d: nat) {
    |t.cpus| == |s.cpus| && t.bug == s.bug && forall e | 0 <= e < |s.cpus| && e != d :: t.cpus[e] == s.cpus[e]
  }

  /** The packets waiting on CPU d, its flag and its calls. */
  ghost predicate Stands(s: State, d: nat, active: bool, waiting: nat, st: Stack) {
    d < |s.cpus| && s.cpus[d].active == active && |s.cpus[d].queue| == waiting && s.cpus[d].stack == st
  }

  /** t is reached from s by steps on CPU d, which then stands as given. */
  ghost predicate Turns(s: State, steps: seq<Step>, t: State, d: nat, active: bool, waiting: nat, st: Stack) {
    Leads(s, steps, t) && Elsewhere(s, t, d) && Stands(t, d, active, waiting, st)
  }

  lemma TurnsJoin(s: State, steps: seq<Step>, t: State, more: seq<Step>, u: State, d: nat, active: bool, waiting: nat,
                  st: Stack)
    requires Leads(s, steps, t) && Elsewhere(s, t, d) && Turns(t, more, u, d, active, waiting, st)
    ensures Turns(s, steps + more, u, d, active, waiting, st)
  {
    LeadsJoin(s, steps, t, more, u);
  }

  lemma TwoSteps(s: State, a: Step, b: Step, t: State)
    requires Enabled(s, a) && Enabled(Apply(s, a), b) && t == Apply(Apply(s, a), b)
    ensures Leads(s, [a, b], t)
  {
    LeadsCons(Apply(s, a), b, [], t);
    LeadsCons(s, a, [b], t);
    assert [a] + [b] == [a, b];
  }

  /** A packet for an unregistered block enters an idle CPU and is freed. */
  function EntrySteps(d: nat): seq<Step> {
    [Arrive(d, 7, FblockGraph.Ingress), Check(d)] + [SetActive(d), Look(d, false)]
  }

  lemma EntryRun(s: State, d: nat, n: nat, st: Stack) returns (t: State)
    requires Stands(s, d, false, n, st)
    ensures Turns(s, EntrySteps(d), t, d, true, n, Push(Draining, st))
  {
    var m := Apply(Apply(s, Arrive(d, 7, FblockGraph.Ingress)), Check(d));
    TwoSteps(s, Arrive(d, 7, FblockGraph.Ingress), Check(d), m);
    t := Apply(Apply(m, SetActive(d)), Look(d, false));
    TwoSteps(m, SetActive(d), Look(d, false), t);
    LeadsJoin(s, [Arrive(d, 7, FblockGraph.Ingress), Check(d)], m, [SetActive(d), Look(d, false)], t);
  }

  lemma OneStep(s: State, a: Step, t: State)
    requires Enabled(s, a) && t == Apply(s, a)
    ensures Leads(s, [a], t)
  {
    LeadsCons(s, a, [], t);
    assert [a] + [] == [a];
  }

  lemma FindsEmpty(s: State, d: nat, st: Stack) returns (t: State)
    requires Stands(s, d, true, 0, Push(Draining, st))
    ensures Turns(s, [Dequeue(d)], t, d, true, 0, Push(Closing, st))
  {
    t := Apply(s, Dequeue(d));
    OneStep(s, Dequeue(d), t);
  }

  lemma ClearsFlag(s: State, d: nat, n: nat, st: Stack) returns (t: State)
    requires Stands(s, d, true, n, Push(Closing, st))
    ensures Turns(s, [SetInactive(d)], t, d, false, n, st)
  {
    t := Apply(s, SetInactive(d));
    OneStep(s, SetInactive(d), t);
  }

  /** n packets come in while a call is at work. */
  function Arrivals(d: nat, n: nat): seq<Step> {
    if n == 0 then [] else Arrivals(d, n - 1) + [Arrive(d, 7, FblockGraph.Ingress), Check(d)]
  }

  lemma OneArrival(s: State, d: nat, n: nat, st: Stack) returns (t: State)
    requires Stands(s, d, true, n, st)
    ensures Turns(s, [Arrive(d, 7, FblockGraph.Ingress), Check(d)], t, d, true, n + 1, st)
  {
    t := Apply(Apply(s, Arrive(d, 7, FblockGraph.Ingress)), Check(d));
    TwoSteps(s, Arrive(d, 7, FblockGraph.Ingress), Check(d), t);
  }

  lemma {:induction false} ArrivalsRun(s: State, d: nat, n: nat, st: Stack) returns (t: State)
    requires Stands(s, d, true, 0, st)
    ensures Turns(s, Arrivals(d, n), t, d, true, n, st)
    decreases n
  {
    if n == 0 {
      t := s;
    } else {
      var m := ArrivalsRun(s, d, n - 1, st);
      t := OneArrival(m, d, n - 1, st);
      TurnsJoin(s, Arrivals(d, n - 1), m, [Arrive(d, 7, FblockGraph.Ingress), Check(d)], t, d, true, n, st);
    }
  }

  /** The call at work takes n packets, which find no block and are freed. */
  function Drains(d: nat, n: nat): seq<Step> {
    if n == 0 then [] else [Dequeue(d), Look(d, false)] + Drains(d, n - 1)
  }

  lemma OneDrain(s: State, d: nat, n: nat, st: Stack) returns (t: State)
    requires n > 0 && Stands(s, d, true, n, Push(Draining, st))
    ensures Turns(s, [Dequeue(d), Look(d, false)], t, d, true, n - 1, Push(Draining, st))
  {
    t := Apply(Apply(s, Dequeue(d)), Look(d, false));
    TwoSteps(s, Dequeue(d), Look(d, false), t);
  }

  lemma {:induction false} DrainsRun(s: State, d: nat, n: nat, st: Stack) returns (t: State)
    requires Stands(s, d, true, n, Push(Draining, st))
    ensures Turns(s, Drains(d, n), t, d, true, 0, Push(Draining, st))
    decreases n
  {
    if n == 0 {
      t := s;
    } else {
      var m := OneDrain(s, d, n, st);
      t := DrainsRun(m, d, n - 1, st);
      TurnsJoin(s, [Dequeue(d), Look(d, false)], m, Drains(d, n - 1), t, d, true, 0, Push(Draining, st));
    }
  }

  /** A call on d finds its backlog empty; n packets come in before it clears the flag. */
  function FillSteps(d: nat, n: nat): seq<Step> {
    EntrySteps(d) + [Dequeue(d)] + Arrivals(d, n) + [SetInactive(d)]
  }

  lemma FillRun(s: State, d: nat, n: nat, st: Stack) returns (t: State)
    requires Stands(s, d, false, 0, st)
    ensures Turns(s, FillSteps(d, n), t, d, false, n, st)
  {
    var s1 := EntryRun(s, d, 0, st);
    var s2 := FindsEmpty(s1, d, st);
    TurnsJoin(s, EntrySteps(d), s1, [Dequeue(d)], s2, d, true, 0, Push(Closing, st));
    var s3 := ArrivalsRun(s2, d, n, Push(Closing, st));
    TurnsJoin(s, EntrySteps(d) + [Dequeue(d)], s2, Arrivals(d, n), s3, d, true, n, Push(Closing, st));
    t := ClearsFlag(s3, d, n, st);
    TurnsJoin(s, EntrySteps(d) + [Dequeue(d)] + Arrivals(d, n), s3, [SetInactive(d)], t, d, false, n, st);
  }

  /** Another call on d drains the backlog and clears the flag. */
  function EmptySteps(d: nat, n: nat): seq<Step> {
    EntrySteps(d) + Drains(d, n) + [Dequeue(d)] + [SetInactive(d)]
  }

  lemma EmptyRun(s: State, d: nat, n: nat, st: Stack) returns (t: State)
    requires Stands(s, d, false, n, st)
    ensures Turns(s, EmptySteps(d, n), t, d, false, 0, st)
  {
    var s1 := EntryRun(s, d, n, st);
    var s2 := DrainsRun(s1, d, n, st);
    TurnsJoin(s, EntrySteps(d), s1, Drains(d, n), s2, d, true, 0, Push(Draining, st));
    var s3 := FindsEmpty(s2, d, st);
    TurnsJoin(s, EntrySteps(d) + Drains(d, n), s2, [Dequeue(d)], s3, d, true, 0, Push(Closing, st));
    t := ClearsFlag(s3, d, 0, st);
    TurnsJoin(s, EntrySteps(d) + Drains(d, n) + [Dequeue(d)], s3, [SetInactive(d)], t, d, false, 0, st);
  }

  /** n packets are left behind on d; the timer for d runs on c and passes its tests; a call on d drains the
      backlog; the timer goes on. */
  function BugSteps(c: nat, d: nat, n: nat): seq<Step> {
    FillSteps(d, n) + TimerRun(c, d) + EmptySteps(d, n) + [TimerDequeue(c)]
  }

  lemma TimerWaits(s: State, c: nat, d: nat, n: nat, st: Stack, t: State)
    requires c != d && c < |s.cpus| && Stands(s, d, false, n, st) && t == At(s, c, Push(Timer(d, 3), s.cpus[c].stack))
    ensures Stands(t, d, false, n, st) && TimerAt(t, c, d, 3) && t.bug == s.bug
  {
  }

  /** For every n above 150 the timer's check fails in a run of two CPUs from the initial state, in which no
      call interrupts a timer. */
  lemma TimerCheckFails(s: State, c: nat, d: nat, n: nat)
    requires Initial(s) && c < |s.cpus| && d < |s.cpus| && c != d && n > MISS_LIMIT
    ensures CanRun(s, BugSteps(c, d, n)) && Run(s, BugSteps(c, d, n)).bug
  {
    var s1 := FillRun(s, d, n, Idle);
    TimerPasses(s1, c, d);
    var s2 := At(s1, c, Push(Timer(d, 3), s1.cpus[c].stack));
    TimerWaits(s1, c, d, n, Idle, s2);
    LeadsJoin(s, FillSteps(d, n), s1, TimerRun(c, d), s2);
    var s3 := EmptyRun(s2, d, n, Idle);
    LeadsJoin(s, FillSteps(d, n) + TimerRun(c, d), s2, EmptySteps(d, n), s3);
    var s4 := Apply(s3, TimerDequeue(c));
    OneStep(s3, TimerDequeue(c), s4);
    LeadsJoin(s, FillSteps(d, n) + TimerRun(c, d) + EmptySteps(d, n), s3, [TimerDequeue(c)], s4);
  }

  // ---------- Runs in which it always finds one ----------

  /** The timer handlers in progress that have found the backlog of d non-empty. */
  function Waiters(st: Stack, d: nat): nat {
    if st.Idle? then 0
    else (if st.top.Timer? && st.top.disc == d && st.top.stage >= 2 then 1 else 0) + Waiters(st.below, d)
  }

  function AllWaiters(cpus: seq<Cpu>, d: nat): nat {
    if cpus == [] then 0 else AllWaiters(cpus[..|cpus| - 1], d) + Waiters(cpus[|cpus| - 1].stack, d)
  }

  /** The step takes a packet that a timer handler other than the one taking it has seen. */
  ghost predicate Disturbs(s: State, a: Step)
    requires Enabled(s, a)
  {
    || (a.Dequeue? && s.cpus[a.cpu].queue != [] && AllWaiters(s.cpus, a.cpu) > 0)
    || (a.TimerDequeue? && AllWaiters(s.cpus, s.cpus[a.cpu].stack.top.disc) > 1)
  }

  ghost predicate Undisturbed(s: State, steps: seq<Step>)
    requires CanRun(s, steps)
    decreases |steps|
  {
    steps != [] ==> !Disturbs(s, steps[0]) && Undisturbed(Apply(s, steps[0]), steps[1..])
  }

  ghost predicate Found(s: State) {
    !s.bug && forall d | 0 <= d < |s.cpus| && AllWaiters(s.cpus, d) > 0 :: s.cpus[d].queue != []
  }

  lemma {:induction false} AllWaitersUpdate(cpus: seq<Cpu>, c: nat, u: Cpu, d: nat)
    requires c < |cpus|
    ensures AllWaiters(cpus[c := u], d) + Waiters(cpus[c].stack, d) == AllWaiters(cpus, d) + Waiters(u.stack, d)
  {
    var n := |cpus| - 1;
    if c == n {
      assert cpus[c := u][..n] == cpus[..n];
    } else {
      AllWaitersUpdate(cpus[..n], c, u, d);
      assert cpus[c := u][..n] == cpus[..n][c := u];
    }
  }

  lemma OwnWaiters(s: State, a: Step, d: nat)
    requires Enabled(s, a) && !a.TimerDequeue? && d < |s.cpus|
    ensures Waiters(Apply(s, a).cpus[a.cpu].stack, d) > Waiters(s.cpus[a.cpu].stack, d) ==>
              s.cpus[d].queue != [] && !a.Dequeue?
  {
  }

  /** Only a test that found packets makes a waiter. */
  lemma StepWaiters(s: State, a: Step, d: nat)
    requires Enabled(s, a) && !a.TimerDequeue? && d < |s.cpus|
    ensures AllWaiters(Apply(s, a).cpus, d) > AllWaiters(s.cpus, d) ==> s.cpus[d].queue != [] && !a.Dequeue?
  {
    OwnStepGrows(s, a);
    OwnWaiters(s, a, d);
    AllWaitersUpdate(s.cpus, a.cpu, Apply(s, a).cpus[a.cpu], d);
  }

  lemma TimerDequeueWaiters(s: State, a: Step, d: nat)
    requires Enabled(s, a) && a.TimerDequeue? && d < |s.cpus| && s.cpus[s.cpus[a.cpu].stack.top.disc].queue != []
    ensures AllWaiters(Apply(s, a).cpus, d)
         == AllWaiters(s.cpus, d) - if d == s.cpus[a.cpu].stack.top.disc then 1 else 0
  {
    var e := s.cpus[a.cpu].stack.top.disc;
    var t := WithCpu(s, e, TakeFirst(s.cpus[e]));
    AllWaitersUpdate(s.cpus, e, TakeFirst(s.cpus[e]), d);
    AllWaitersUpdate(t.cpus, a.cpu, Apply(s, a).cpus[a.cpu], d);
  }

  lemma {:induction false} SomeWaiter(cpus: seq<Cpu>, c: nat, d: nat)
    requires c < |cpus|
    ensures AllWaiters(cpus, d) >= Waiters(cpus[c].stack, d)
  {
    if c == |cpus| - 1 {
    } else {
      SomeWaiter(cpus[..|cpus| - 1], c, d);
    }
  }

  lemma StepFound(s: State, a: Step)
    requires Found(s) && Enabled(s, a) && !Disturbs(s, a)
    ensures Found(Apply(s, a))
  {
    var t := Apply(s, a);
    if a.TimerDequeue? { SomeWaiter(s.cpus, a.cpu, s.cpus[a.cpu].stack.top.disc); }
    forall d | 0 <= d < |t.cpus| && AllWaiters(t.cpus, d) > 0 ensures t.cpus[d].queue != [] {
      StepQueue(s, a, d);
      if a.TimerDequeue? { TimerDequeueWaiters(s, a, d); } else { StepWaiters(s, a, d); }
    }
  }

  lemma {:induction false} RunFound(s: State, steps: seq<Step>)
    requires Found(s) && CanRun(s, steps) && Undisturbed(s, steps)
    ensures Found(Run(s, steps))
    decreases |steps|
  {
    if steps == [] {
    } else {
      StepFound(s, steps[0]);
      RunFound(Apply(s, steps[0]), steps[1..]);
    }
  }

  /** In every run in which no packet a timer has seen is taken by another, the timer's check holds. */
  lemma TimerCheckHolds(s: State, steps: seq<Step>)
    requires Initial(s) && CanRun(s, steps) && Undisturbed(s, steps)
    ensures !Run(s, steps).bug
  {
    forall d | 0 <= d < |s.cpus| ensures AllWaiters(s.cpus, d) == 0 { NoWaiters(s.cpus, d); }
    RunFound(s, steps);
  }

  lemma {:induction false} NoWaiters(cpus: seq<Cpu>, d: nat)
    requires forall c | 0 <= c < |cpus| :: cpus[c].stack.Idle?
    ensures AllWaiters(cpus, d) == 0
  {
    if cpus == [] {
    } else {
      NoWaiters(cpus[..|cpus| - 1], d);
    }
  }
}
