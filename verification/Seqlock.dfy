/** A block reading its ports under a sequence lock while a writer rebinds them: the receive loop of
    the two-port blocks and, with a third port to read, of the tee. The sequence counter is a 32-bit
    word and wraps around. */
module Seqlock {
  import opened Common

  const WORD := 0x1_0000_0000

  /** Where the reader's loop stands. */
  datatype Pc = Begin | FirstRead | SecondRead | CloneTest | CloneRead | Retry | Done

  /** What a pass of the loop had found when it began, kept for the record: the tick, the drop mark
      and the clone port left by earlier passes, and every pair of port values since. `second` is what the
      second read of the port found in this pass; what the first found is in `dst`. */
  datatype Pass = Pass(began: nat, drop: bool, copy: Idp, seen: set<(Idp, Idp)>, second: Idp)

  /** `ticks` counts the writer's increments; the shared word shows them modulo 2^32. `writing` holds
      between the writer's two increments. `start`, `dst`, `drop` and `copy` are the reader's
      variables; only a tee reads the clone port into `copy`. */
  datatype State = State(tee: bool, ticks: nat, writing: bool, port: Idp, clone: Idp,
                         pc: Pc, start: nat, dst: Idp, drop: bool, copy: Idp, pass: Pass)

  function Word(s: State): nat {
    s.ticks % WORD
  }

  predicate InPass(s: State) {
    !s.pc.Begin? && !s.pc.Done?
  }

  datatype Step =
    | WriteBegin
    | WritePort(idp: Idp)
    | WriteClone(idp: Idp)
    | WriteEnd
    | ReadBegin
    | ReadPort
    | TestPort
    | TestClone
    | ReadClone
    | ReadRetry

  predicate Enabled(s: State, a: Step) {
    match a
    case WriteBegin => !s.writing
    case WritePort(_) => s.writing
    case WriteClone(_) => s.writing
    case WriteEnd => s.writing
    case ReadBegin => s.pc.Begin? && Word(s) % 2 == 0
    case ReadPort => s.pc.FirstRead?
    case TestPort => s.pc.SecondRead?
    case TestClone => s.pc.CloneTest?
    case ReadClone => s.pc.CloneRead?
    case ReadRetry => s.pc.Retry?
  }

  /** A pass in progress takes note of what the ports now lead to. */
  function Noted(s: State): State {
    if InPass(s) then s.(pass := s.pass.(seen := s.pass.seen + {(s.port, s.clone)})) else s
  }

  function Apply(s: State, a: Step): State {
    match a
    case WriteBegin => s.(ticks := s.ticks + 1, writing := true)
    case WritePort(i) => Noted(s.(port := i))
    case WriteClone(i) => Noted(s.(clone := i))
    case WriteEnd => s.(ticks := s.ticks + 1, writing := false)
    case ReadBegin => s.(pc := FirstRead, start := Word(s),
                         pass := Pass(s.ticks, s.drop, s.copy, {(s.port, s.clone)}, IDP_UNKNOWN))
    case ReadPort => s.(pc := SecondRead, dst := s.port)
    case TestPort =>
      s.(pc := if s.tee then CloneTest else Retry, drop := s.drop || s.port == IDP_UNKNOWN,
         pass := s.pass.(second := s.port))
    case TestClone => s.(pc := if s.clone != IDP_UNKNOWN then CloneRead else Retry)
    case ReadClone => s.(pc := Retry, copy := s.clone)
    case ReadRetry => s.(pc := if Word(s) != s.start then Begin else Done)
  }

  ghost predicate Initial(s: State) {
    s == State(s.tee, 0, false, s.port, s.clone, Begin, 0, IDP_UNKNOWN, false, IDP_UNKNOWN,
               Pass(0, false, IDP_UNKNOWN, {}, IDP_UNKNOWN))
  }

  // ---------- What every step keeps ----------

  /** While no tick has gone by since the pass began, the ports have had one value each, and the
      reader's variables are what those values and the earlier passes make them. */
  ghost predicate Settled(s: State) {
    && s.pass.seen == {(s.port, s.clone)}
    && (!s.pc.FirstRead? ==> s.dst == s.port)
    && (s.pc.CloneTest? || s.pc.CloneRead? || s.pc.Retry? ==> s.pass.second == s.port)
    && (s.pc.CloneRead? ==> s.clone != IDP_UNKNOWN)
    && (s.pc.Retry? ==> s.copy == if s.tee && s.clone != IDP_UNKNOWN then s.clone else s.pass.copy)
  }

  /** The writer is between increments exactly at odd ticks, and a pass begins at an even one. */
  ghost predicate Inv(s: State) {
    && s.writing == (s.ticks % 2 == 1)
    && (InPass(s) ==>
          && s.pass.began <= s.ticks && s.pass.began % 2 == 0 && s.start == s.pass.began % WORD
          && (if s.pc.FirstRead? || s.pc.SecondRead? then s.drop == s.pass.drop
              else s.drop <==> s.pass.drop || s.pass.second == IDP_UNKNOWN)
          && (!s.pc.Retry? ==> s.copy == s.pass.copy) && (s.pc.CloneTest? || s.pc.CloneRead? ==> s.tee)
          && (s.ticks == s.pass.began ==> Settled(s)))
  }

  lemma EvenWord(n: nat)
    ensures (n % WORD) % 2 == n % 2
  {
    assert n == WORD * (n / WORD) + n % WORD;
    assert WORD == 2 * 0x8000_0000;
  }

  lemma StepKeepsInv(s: State, a: Step)
    requires Inv(s) && Enabled(s, a)
    ensures Inv(Apply(s, a))
  {
    if a.ReadBegin? { EvenWord(s.ticks); }
  }

  lemma SameWord(m: nat, n: nat)
    requires m <= n < m + WORD && m % WORD == n % WORD
    ensures m == n
  {
    assert m == WORD * (m / WORD) + m % WORD && n == WORD * (n / WORD) + n % WORD;
    assert n - m == WORD * (n / WORD - m / WORD);
  }

  // ---------- Runs ----------

  ghost predicate CanRun(s: State, steps: seq<Step>)
    decreases |steps|
  {
    steps != [] ==> Enabled(s, steps[0]) && CanRun(Apply(s, steps[0]), steps[1..])
  }

  ghost function Run(s: State, steps: seq<Step>): State
    decreases |steps|
  {
    if steps == [] then s else Run(Apply(s, steps[0]), steps[1..])
  }

  lemma {:induction false} RunKeepsInv(s: State, steps: seq<Step>)
    requires Inv(s) && CanRun(s, steps)
    ensures Inv(Run(s, steps))
    decreases |steps|
  {
    if steps == [] {
    } else {
      StepKeepsInv(s, steps[0]);
      RunKeepsInv(Apply(s, steps[0]), steps[1..]);
    }
  }

  lemma {:induction false} RunSplits(s: State, steps: seq<Step>, more: seq<Step>)
    requires CanRun(s, steps + more)
    ensures CanRun(s, steps) && CanRun(Run(s, steps), more) && Run(s, steps + more) == Run(Run(s, steps), more)
    decreases |steps|
  {
    if steps == [] {
      assert steps + more == more;
    } else {
      assert (steps + more)[1..] == steps[1..] + more;
      RunSplits(Apply(s, steps[0]), steps[1..], more);
    }
  }

  lemma {:induction false} RunJoins(s: State, steps: seq<Step>, more: seq<Step>)
    requires CanRun(s, steps) && CanRun(Run(s, steps), more)
    ensures CanRun(s, steps + more) && Run(s, steps + more) == Run(Run(s, steps), more)
    decreases |steps|
  {
    if steps == [] {
      assert steps + more == more;
    } else {
      assert (steps + more)[1..] == steps[1..] + more;
      RunJoins(Apply(s, steps[0]), steps[1..], more);
    }
  }

  /** The last step of a run. */
  lemma RunLast(s: State, steps: seq<Step>)
    requires CanRun(s, steps) && steps != []
    ensures var n := |steps| - 1;
            && CanRun(s, steps[..n]) && Enabled(Run(s, steps[..n]), steps[n])
            && Run(s, steps) == Apply(Run(s, steps[..n]), steps[n])
  {
    var n := |steps| - 1;
    assert steps == steps[..n] + [steps[n]];
    RunSplits(s, steps[..n], [steps[n]]);
    assert [steps[n]][1..] == [];
  }

  /** The run's next step ends the loop, and fewer than 2^32 increments fell into the final pass. */
  ghost predicate Ends(s: State, steps: seq<Step>) {
    && CanRun(s, steps)
    && var t := Run(s, steps); Enabled(t, ReadRetry) && Apply(t, ReadRetry).pc.Done? && t.ticks < t.pass.began + WORD
  }

  lemma EndsSettled(s: State, steps: seq<Step>)
    requires Initial(s) && Ends(s, steps)
    ensures Settled(Run(s, steps)) && Inv(Run(s, steps))
  {
    RunKeepsInv(s, steps);
    var t := Run(s, steps);
    SameWord(t.pass.began, t.ticks);
  }

  // ---------- What the loop returns ----------

  /** In every interleaving with the writer, the receive function returns success only with a next
      block that is set and that the port led to throughout the final pass of the loop. */
  lemma NetrxSuccess(s: State, steps: seq<Step>)
    requires Initial(s) && Ends(s, steps) && !Run(s, steps).drop
    ensures var t := Run(s, steps); t.dst != IDP_UNKNOWN && t.pass.seen == {(t.dst, t.clone)}
  {
    EndsSettled(s, steps);
  }

  /** The verdict of the loop is the final pass's own, or a drop marked by an earlier pass. It is the
      final pass's if and only if no earlier pass marked a drop that the final pass would not. */
  lemma VerdictExact(s: State, steps: seq<Step>)
    requires Initial(s) && Ends(s, steps)
    ensures var t := Run(s, steps);
            && t.pass.seen == {(t.dst, t.clone)}
            && (t.drop <==> t.pass.drop || t.dst == IDP_UNKNOWN)
            && ((t.drop <==> t.dst == IDP_UNKNOWN) <==> !(t.pass.drop && t.dst != IDP_UNKNOWN))
  {
    EndsSettled(s, steps);
  }

  /** A tee's copy goes to the clone port of the final pass, or, if that is unbound, to the one an
      earlier pass read. It agrees with the final pass if and only if that port is bound or no
      earlier pass read one. */
  lemma CopyExact(s: State, steps: seq<Step>)
    requires Initial(s) && Ends(s, steps) && s.tee
    ensures var t := Run(s, steps);
            && t.pass.seen == {(t.dst, t.clone)}
            && t.copy == (if t.clone != IDP_UNKNOWN then t.clone else t.pass.copy)
            && (t.copy == t.clone <==> t.clone != IDP_UNKNOWN || t.pass.copy == IDP_UNKNOWN)
  {
    EndsSettled(s, steps);
    SameTee(s, steps);
  }

  lemma {:induction false} SameTee(s: State, steps: seq<Step>)
    ensures Run(s, steps).tee == s.tee
    decreases |steps|
  {
    if steps == [] {
    } else {
      SameTee(Apply(s, steps[0]), steps[1..]);
    }
  }

  /** The k-th step of the run is a second read that found the port unbound. */
  ghost predicate FoundUnbound(s: State, steps: seq<Step>, k: nat)
    requires k < |steps|
  {
    steps[k].TestPort? && Run(s, steps[..k]).port == IDP_UNKNOWN
  }

  lemma PrefixOfPrefix(steps: seq<Step>, n: nat, k: nat)
    requires k <= n <= |steps|
    ensures steps[..n][..k] == steps[..k]
  {
  }

  /** The drop mark is set exactly when some second read so far found the port unbound. */
  lemma {:induction false} DropMeans(s: State, steps: seq<Step>)
    requires Initial(s) && CanRun(s, steps)
    ensures Run(s, steps).drop <==> exists k | 0 <= k < |steps| :: FoundUnbound(s, steps, k)
    decreases |steps|
  {
    if steps == [] {
    } else {
      var n := |steps| - 1;
      var init := steps[..n];
      RunLast(s, steps);
      DropMeans(s, init);
      forall k: nat | k < n ensures FoundUnbound(s, steps, k) <==> FoundUnbound(s, init, k) {
        PrefixOfPrefix(steps, n, k);
      }
      if Run(s, init).drop {
        var k: nat :| k < |init| && FoundUnbound(s, init, k);
        assert FoundUnbound(s, steps, k);
      } else if Run(s, steps).drop {
        assert FoundUnbound(s, steps, n);
      } else {
        forall k: nat | k < |steps| ensures !FoundUnbound(s, steps, k) {
          assert k < n ==> !FoundUnbound(s, init, k);
        }
      }
    }
  }

  /** The b-th step began the pass the run is in, or was in last. */
  ghost predicate LastBegin(steps: seq<Step>, b: nat) {
    b < |steps| && steps[b].ReadBegin? && forall k | b < k < |steps| :: !steps[k].ReadBegin?
  }

  lemma {:induction false} PassRemembers(s: State, steps: seq<Step>, b: nat)
    requires CanRun(s, steps) && LastBegin(steps, b)
    ensures Run(s, steps).pass.drop == Run(s, steps[..b]).drop && Run(s, steps).pass.copy == Run(s, steps[..b]).copy
    ensures Run(s, steps).pass.began == Run(s, steps[..b]).ticks
    decreases |steps|
  {
    var n := |steps| - 1;
    RunLast(s, steps);
    if b == n {
    } else {
      PassRemembers(s, steps[..n], b);
      PrefixOfPrefix(steps, n, b);
    }
  }

  // What the records of a pass stand for.

  /** What the two ports led to after the first k steps. */
  ghost function PortsAfter(s: State, steps: seq<Step>, k: nat): (Idp, Idp)
    requires k <= |steps|
  {
    (Run(s, steps[..k]).port, Run(s, steps[..k]).clone)
  }

  ghost predicate SeenAre(s: State, steps: seq<Step>, b: nat, seen: set<(Idp, Idp)>) {
    && (forall k | b < k <= |steps| :: PortsAfter(s, steps, k) in seen)
    && (forall x | x in seen :: exists k | b < k <= |steps| :: PortsAfter(s, steps, k) == x)
  }

  lemma SeenGrows(s: State, steps: seq<Step>, n: nat, b: nat, seen: set<(Idp, Idp)>, seen': set<(Idp, Idp)>)
    requires b < n == |steps| - 1 && SeenAre(s, steps[..n], b, seen) && seen' == seen + {PortsAfter(s, steps, n + 1)}
    ensures SeenAre(s, steps, b, seen')
  {
    var init := steps[..n];
    forall k | b < k <= n ensures PortsAfter(s, steps, k) == PortsAfter(s, init, k) { PrefixOfPrefix(steps, n, k); }
    forall x | x in seen' ensures exists k | b < k <= |steps| :: PortsAfter(s, steps, k) == x {
      if x in seen {
        var k :| b < k <= |init| && PortsAfter(s, init, k) == x;
        assert PortsAfter(s, steps, k) == x;
      } else {
        assert PortsAfter(s, steps, n + 1) == x;
      }
    }
  }

  /** The values a pass has noted are those the two ports have had since it began, neither more nor fewer. */
  lemma {:induction false} SeenMeans(s: State, steps: seq<Step>, b: nat)
    requires CanRun(s, steps) && LastBegin(steps, b) && InPass(Run(s, steps))
    ensures SeenAre(s, steps, b, Run(s, steps).pass.seen)
    decreases |steps|
  {
    var n := |steps| - 1;
    var t := Run(s, steps);
    RunLast(s, steps);
    assert steps[..n + 1] == steps;
    if b == n {
      assert PortsAfter(s, steps, n + 1) == (t.port, t.clone);
    } else {
      var r := Run(s, steps[..n]);
      SeenMeans(s, steps[..n], b);
      assert steps[..n][..n] == steps[..n];
      assert PortsAfter(s, steps[..n], n) == (r.port, r.clone);
      SeenGrows(s, steps, n, b, r.pass.seen, t.pass.seen);
    }
  }

  /** The writer's increments among the steps. */
  ghost function Increments(steps: seq<Step>): nat {
    if steps == [] then 0 else (if steps[0].WriteBegin? || steps[0].WriteEnd? then 1 else 0) + Increments(steps[1..])
  }

  lemma {:induction false} TicksCount(s: State, steps: seq<Step>)
    ensures Run(s, steps).ticks == s.ticks + Increments(steps)
    decreases |steps|
  {
    if steps == [] {
    } else {
      TicksCount(Apply(s, steps[0]), steps[1..]);
    }
  }

  /** The increments that fell into a pass are the writer's since it began. */
  lemma TicksMean(s: State, steps: seq<Step>, b: nat)
    requires CanRun(s, steps) && LastBegin(steps, b)
    ensures Run(s, steps).ticks - Run(s, steps).pass.began == Increments(steps[b..])
  {
    PassRemembers(s, steps, b);
    assert steps == steps[..b] + steps[b..];
    RunSplits(s, steps[..b], steps[b..]);
    TicksCount(Run(s, steps[..b]), steps[b..]);
  }

  /** The mark an earlier pass left is set exactly when the second read of an earlier pass found the
      port unbound. */
  lemma StaleDropIff(s: State, steps: seq<Step>, b: nat)
    requires Initial(s) && CanRun(s, steps) && LastBegin(steps, b)
    ensures Run(s, steps).pass.drop <==> exists k | 0 <= k < b :: FoundUnbound(s, steps, k)
  {
    PassRemembers(s, steps, b);
    assert steps == steps[..b] + steps[b..];
    RunSplits(s, steps[..b], steps[b..]);
    DropMeans(s, steps[..b]);
    forall k: nat | k < b ensures FoundUnbound(s, steps, k) <==> FoundUnbound(s, steps[..b], k) {
      PrefixOfPrefix(steps, b, k);
    }
  }

  /** So the verdict is the final pass's own if and only if that pass drops too or the second read of
      no earlier pass found the port unbound. */
  lemma VerdictRightIff(s: State, steps: seq<Step>, b: nat)
    requires Initial(s) && Ends(s, steps) && LastBegin(steps, b)
    ensures var t := Run(s, steps);
            (t.drop <==> t.dst == IDP_UNKNOWN) <==>
              t.dst == IDP_UNKNOWN || !exists k | 0 <= k < b :: FoundUnbound(s, steps, k)
  {
    VerdictExact(s, steps);
    StaleDropIff(s, steps, b);
  }

  /** The k-th step is the last read of the clone port, if there is one. */
  ghost predicate LastCloneRead(steps: seq<Step>, k: nat) {
    k < |steps| && steps[k].ReadClone? && forall j | k < j < |steps| :: !steps[j].ReadClone?
  }

  /** Where a copy goes is what the last read of the clone port found, in whatever pass that was. */
  lemma {:induction false} CopyMeans(s: State, steps: seq<Step>)
    requires Initial(s) && CanRun(s, steps)
    ensures (forall k | 0 <= k < |steps| :: !steps[k].ReadClone?) ==> Run(s, steps).copy == IDP_UNKNOWN
    ensures forall k: nat | LastCloneRead(steps, k) :: Run(s, steps).copy == Run(s, steps[..k]).clone
    decreases |steps|
  {
    if steps == [] {
    } else {
      var n := |steps| - 1;
      RunLast(s, steps);
      CopyMeans(s, steps[..n]);
      forall k: nat | LastCloneRead(steps, k) ensures Run(s, steps).copy == Run(s, steps[..k]).clone {
        if k < n {
          assert LastCloneRead(steps[..n], k);
          PrefixOfPrefix(steps, n, k);
        }
      }
    }
  }

  /** The clone port an earlier pass left is the one its last read found, or none if none was read. */
  lemma StaleCopyMeans(s: State, steps: seq<Step>, b: nat)
    requires Initial(s) && CanRun(s, steps) && LastBegin(steps, b)
    ensures (forall k | 0 <= k < b :: !steps[k].ReadClone?) ==> Run(s, steps).pass.copy == IDP_UNKNOWN
    ensures forall k: nat | LastCloneRead(steps[..b], k) :: Run(s, steps).pass.copy == Run(s, steps[..k]).clone
  {
    PassRemembers(s, steps, b);
    assert steps == steps[..b] + steps[b..];
    RunSplits(s, steps[..b], steps[b..]);
    CopyMeans(s, steps[..b]);
    forall k: nat | LastCloneRead(steps[..b], k) ensures Run(s, steps).pass.copy == Run(s, steps[..k]).clone {
      PrefixOfPrefix(steps, b, k);
    }
  }

  // ---------- The bound on increments is needed ----------

  /** The run's next step ends the loop, however many increments fell into the final pass. */
  ghost predicate EndsAnyhow(s: State, steps: seq<Step>) {
    CanRun(s, steps) && Enabled(Run(s, steps), ReadRetry) && Apply(Run(s, steps), ReadRetry).pc.Done?
  }

  /** In every run success is returned without a next block if and only if no earlier pass marked a drop
      and in the final pass the first read found the port unbound and the second found it bound. The two
      reads differ only if the increments in that pass are a multiple of 2^32, and not none. */
  lemma SuccessWithoutNextIff(s: State, steps: seq<Step>)
    requires Initial(s) && EndsAnyhow(s, steps)
    ensures var t := Run(s, steps);
            && (!t.drop && t.dst == IDP_UNKNOWN <==>
                  !t.pass.drop && t.dst == IDP_UNKNOWN && t.pass.second != IDP_UNKNOWN)
            && (t.dst != t.pass.second ==> t.ticks >= t.pass.began + WORD && (t.ticks - t.pass.began) % WORD == 0)
  {
    var t := Run(s, steps);
    RunKeepsInv(s, steps);
    WholeTurns(t.pass.began, t.ticks);
    if t.ticks < t.pass.began + WORD { EndsSettled(s, steps); }
  }

  lemma WholeTurns(m: nat, n: nat)
    requires m <= n && m % WORD == n % WORD
    ensures (n - m) % WORD == 0
  {
    assert m == WORD * (m / WORD) + m % WORD && n == WORD * (n / WORD) + n % WORD;
    assert n - m == WORD * (n / WORD - m / WORD);
  }

  /** The writer binds the port n times over. */
  function Rebinds(n: nat, i: Idp): seq<Step> {
    if n == 0 then [] else [WriteBegin, WritePort(i), WriteEnd] + Rebinds(n - 1, i)
  }

  /** t is reached from s by the steps. */
  ghost predicate Leads(s: State, steps: seq<Step>, t: State) {
    CanRun(s, steps) && Run(s, steps) == t
  }

  lemma LeadsCons(s: State, a: Step, steps: seq<Step>, t: State)
    requires Enabled(s, a) && Leads(Apply(s, a), steps, t)
    ensures Leads(s, [a] + steps, t)
  {
    assert ([a] + steps)[1..] == steps;
  }

  /** In the middle of a pass the port can be rebound any number of times. */
  lemma {:induction false} RebindsRun(s: State, n: nat, i: Idp, t: State)
    requires !s.writing && s.pc.SecondRead?
    requires t == if n == 0 then s
                  else s.(ticks := s.ticks + 2 * n, port := i, pass := s.pass.(seen := s.pass.seen + {(i, s.clone)}))
    ensures Leads(s, Rebinds(n, i), t)
    decreases n
  {
    if n == 0 {
    } else {
      var s1 := Apply(s, WriteBegin);
      var s2 := Apply(s1, WritePort(i));
      var s3 := Apply(s2, WriteEnd);
      RebindsRun(s3, n - 1, i, t);
      var rest := Rebinds(n - 1, i);
      LeadsCons(s2, WriteEnd, rest, t);
      LeadsCons(s1, WritePort(i), [WriteEnd] + rest, t);
      LeadsCons(s, WriteBegin, [WritePort(i)] + ([WriteEnd] + rest), t);
      assert Rebinds(n, i) == [WriteBegin] + ([WritePort(i)] + ([WriteEnd] + rest));
    }
  }

  /** With exactly 2^32 increments in one pass the counter comes round: there is a run that ends in
      success with no next block set. */
  lemma WrapAroundFails(s: State, i: Idp)
    requires Initial(s) && !s.tee && s.port == IDP_UNKNOWN && i != IDP_UNKNOWN
    ensures var steps := [ReadBegin, ReadPort] + Rebinds(0x8000_0000, i) + [TestPort, ReadRetry];
            && CanRun(s, steps)
            && var d := Run(s, steps); d.pc.Done? && !d.drop && d.dst == IDP_UNKNOWN && d.ticks == d.pass.began + WORD
  {
    var r := Apply(Apply(s, ReadBegin), ReadPort);
    var t := r.(ticks := r.ticks + WORD, port := i, pass := r.pass.(seen := r.pass.seen + {(i, r.clone)}));
    LeadsCons(Apply(s, ReadBegin), ReadPort, [], r);
    LeadsCons(s, ReadBegin, [ReadPort], r);
    RebindsRun(r, 0x8000_0000, i, t);
    var u := Apply(t, TestPort);
    LeadsCons(u, ReadRetry, [], Apply(u, ReadRetry));
    LeadsCons(t, TestPort, [ReadRetry], Apply(u, ReadRetry));
    assert [ReadBegin] + [ReadPort] == [ReadBegin, ReadPort] && [TestPort] + [ReadRetry] == [TestPort, ReadRetry];
    RunJoins(s, [ReadBegin, ReadPort], Rebinds(0x8000_0000, i));
    RunJoins(s, [ReadBegin, ReadPort] + Rebinds(0x8000_0000, i), [TestPort, ReadRetry]);
  }

  // ---------- What earlier passes leave behind ----------

  /** A drop noted in a pass that is then repeated stays: there is a run that drops the packet
      although the port was bound all through the final pass. */
  lemma StaleDrop(s: State, i: Idp)
    requires Initial(s) && !s.tee && s.port == IDP_UNKNOWN && i != IDP_UNKNOWN
    ensures exists steps ::
              Ends(s, steps) && var t := Run(s, steps); t.drop && t.dst == i && t.pass.seen == {(i, s.clone)}
  {
    var s3 := Apply(Apply(Apply(s, ReadBegin), ReadPort), TestPort);
    var s6 := Apply(Apply(Apply(s3, WriteBegin), WritePort(i)), WriteEnd);
    var s7 := Apply(s6, ReadRetry);
    assert s7.pc.Begin? && s7.drop && s7.port == i && s7.ticks == 2;
    var t := Apply(Apply(Apply(s7, ReadBegin), ReadPort), TestPort);
    ThreeSteps(s, ReadBegin, ReadPort, TestPort, [], s3);
    ThreeSteps(s3, WriteBegin, WritePort(i), WriteEnd, [], s6);
    ThreeSteps(s7, ReadBegin, ReadPort, TestPort, [], t);
    LeadsCons(s6, ReadRetry, [ReadBegin, ReadPort, TestPort] + [], t);
    RunJoins(s3, [WriteBegin, WritePort(i), WriteEnd] + [], [ReadRetry] + ([ReadBegin, ReadPort, TestPort] + []));
    var rest := [WriteBegin, WritePort(i), WriteEnd] + [] + ([ReadRetry] + ([ReadBegin, ReadPort, TestPort] + []));
    RunJoins(s, [ReadBegin, ReadPort, TestPort] + [], rest);
    assert Ends(s, [ReadBegin, ReadPort, TestPort] + [] + rest);
  }

  lemma ThreeSteps(s: State, a: Step, b: Step, c: Step, rest: seq<Step>, t: State)
    requires Enabled(s, a) && Enabled(Apply(s, a), b) && Enabled(Apply(Apply(s, a), b), c)
    requires Leads(Apply(Apply(Apply(s, a), b), c), rest, t)
    ensures Leads(s, [a, b, c] + rest, t)
  {
    LeadsCons(Apply(Apply(s, a), b), c, rest, t);
    LeadsCons(Apply(s, a), b, [c] + rest, t);
    LeadsCons(s, a, [b] + ([c] + rest), t);
    assert [a, b, c] + rest == [a] + ([b] + ([c] + rest));
  }

  /** So does a clone port: there is a run of a tee that sends a copy to a port unbound all through
      the final pass. */
  lemma StaleClone(s: State)
    requires Initial(s) && s.tee && s.clone != IDP_UNKNOWN
    ensures exists steps ::
              Ends(s, steps) && var t := Run(s, steps); t.copy == s.clone && t.pass.seen == {(s.port, IDP_UNKNOWN)}
  {
    var s3 := Apply(Apply(Apply(s, ReadBegin), ReadPort), TestPort);
    var s6 := Apply(Apply(Apply(s3, TestClone), ReadClone), WriteBegin);
    var s9 := Apply(Apply(Apply(s6, WriteClone(IDP_UNKNOWN)), WriteEnd), ReadRetry);
    assert s9.pc.Begin? && s9.copy == s.clone && s9.clone == IDP_UNKNOWN && s9.ticks == 2;
    var s12 := Apply(Apply(Apply(s9, ReadBegin), ReadPort), TestPort);
    var t := Apply(s12, TestClone);
    LeadsCons(s12, TestClone, [], t);
    var r4 := [TestClone] + [];
    ThreeSteps(s9, ReadBegin, ReadPort, TestPort, r4, t);
    var r3 := [ReadBegin, ReadPort, TestPort] + r4;
    ThreeSteps(s6, WriteClone(IDP_UNKNOWN), WriteEnd, ReadRetry, r3, t);
    var r2 := [WriteClone(IDP_UNKNOWN), WriteEnd, ReadRetry] + r3;
    ThreeSteps(s3, TestClone, ReadClone, WriteBegin, r2, t);
    var r1 := [TestClone, ReadClone, WriteBegin] + r2;
    ThreeSteps(s, ReadBegin, ReadPort, TestPort, r1, t);
    assert Ends(s, [ReadBegin, ReadPort, TestPort] + r1);
  }
}
