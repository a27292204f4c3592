/** What the packet engine is meant to do, packet by packet: the blocks a packet visits, how its
    traversal ends, the copies it leaves behind, and how much work all of that is. */
module EngineModel {
  import opened Common
  import opened FblockGraph

  /** Blocks by what they do with a packet. A two-port block sends it on through the port of its
      direction; a tee also sends a copy to a third port; a sink takes it out of the engine. */
  datatype Kind = TwoPort(ports: Ports) | Tee(ports: Ports, clone: Idp) | Sink

  type Config = map<Idp, Kind>

  datatype Packet = Packet(data: nat, next: Idp, dir: Dir)

  /** How a traversal ends: never begun because no next block was set; freed by the engine because
      the next block is not registered; freed by a block with an unbound port; handed over. */
  datatype End = Lost | NoBlock | Dropped | HandedOver

  const PPE_DROPPED := 1
  const PPE_ERROR := 2

  function CodeOf(e: End): int {
    if e.Lost? || e.NoBlock? then PPE_ERROR else PPE_DROPPED
  }

  /** A rank for each block in each direction. */
  type Ranks = map<(Idp, Dir), nat>

  ghost function Rank(rank: Ranks, i: Idp, d: Dir): nat {
    if (i, d) in rank then rank[(i, d)] else 0
  }

  /** In each direction every step leads to a block of lower rank. */
  ghost predicate Acyclic(c: Config, rank: Ranks) {
    forall i, d {:trigger Lower(c, rank, d, i, PortOf(c[i].ports, d))} | i in c && !c[i].Sink? ::
      Lower(c, rank, d, i, PortOf(c[i].ports, d)) && (c[i].Tee? ==> Lower(c, rank, d, i, c[i].clone))
  }

  ghost predicate Lower(c: Config, rank: Ranks, d: Dir, i: Idp, j: Idp) {
    j in c ==> Rank(rank, j, d) < Rank(rank, i, d)
  }

  /** No block takes the packet any further. */
  predicate Stuck(c: Config, i: Idp) {
    i == IDP_UNKNOWN || i !in c
  }

  ghost function Measure(c: Config, rank: Ranks, d: Dir, i: Idp): nat {
    if i in c then Rank(rank, i, d) + 1 else 0
  }

  /** The blocks visited by a packet with next block i. */
  ghost function Path(c: Config, rank: Ranks, d: Dir, i: Idp): seq<Idp>
    requires Acyclic(c, rank)
    decreases Measure(c, rank, d, i)
  {
    if Stuck(c, i) then [] else if c[i].Sink? then [i]
    else
      assert Lower(c, rank, d, i, PortOf(c[i].ports, d));
      [i] + Path(c, rank, d, PortOf(c[i].ports, d))
  }

  ghost function EndOf(c: Config, rank: Ranks, d: Dir, i: Idp): End
    requires Acyclic(c, rank)
    decreases Measure(c, rank, d, i)
  {
    if i == IDP_UNKNOWN then Lost
    else if i !in c then NoBlock
    else if c[i].Sink? then HandedOver
    else
      assert Lower(c, rank, d, i, PortOf(c[i].ports, d));
      if PortOf(c[i].ports, d) == IDP_UNKNOWN then Dropped else EndOf(c, rank, d, PortOf(c[i].ports, d))
  }

  predicate Copies(k: Kind) {
    k.Tee? && k.clone != IDP_UNKNOWN
  }

  /** How many copies a packet's visits try to make. */
  ghost function Attempts(c: Config, rank: Ranks, d: Dir, i: Idp): nat
    requires Acyclic(c, rank)
    decreases Measure(c, rank, d, i)
  {
    if Stuck(c, i) || c[i].Sink? then 0
    else
      assert Lower(c, rank, d, i, PortOf(c[i].ports, d));
      (if Copies(c[i]) then 1 else 0) + Attempts(c, rank, d, PortOf(c[i].ports, d))
  }

  /** The copies a packet leaves behind, in order; `failing` are the attempts that find no memory
      and n is the number of the first attempt. */
  ghost function Spawned(c: Config, rank: Ranks, failing: set<nat>, p: Packet, n: nat): seq<Packet>
    requires Acyclic(c, rank)
    decreases Measure(c, rank, p.dir, p.next)
  {
    if Stuck(c, p.next) || c[p.next].Sink? then []
    else
      var k := c[p.next];
      assert Lower(c, rank, p.dir, p.next, PortOf(k.ports, p.dir));
      var rest := p.(next := PortOf(k.ports, p.dir));
      if Copies(k) then (if n !in failing then [p.(next := k.clone)] else []) + Spawned(c, rank, failing, rest, n + 1)
      else Spawned(c, rank, failing, rest, n)
  }

  /** The copy a block makes of a packet, if it makes one. */
  function CopyMade(k: Kind, failing: set<nat>, p: Packet, n: nat): seq<Packet> {
    if Copies(k) && n !in failing then [p.(next := k.clone)] else []
  }

  /** Part way through a traversal that started as p with attempt n: v visits and b copies have been
      made, the packet is now q and the next attempt m. */
  ghost predicate Underway(c: Config, rank: Ranks, failing: set<nat>, p: Packet, n: nat, q: Packet, m: nat, v: seq<Idp>,
                           b: seq<Packet>) {
    && p.dir == q.dir && Acyclic(c, rank)
    && v + Path(c, rank, q.dir, q.next) == Path(c, rank, p.dir, p.next)
    && b + Spawned(c, rank, failing, q, m) == Spawned(c, rank, failing, p, n)
    && m + Attempts(c, rank, q.dir, q.next) == n + Attempts(c, rank, p.dir, p.next)
  }

  lemma VisitsStep(c: Config, rank: Ranks, d: Dir, i: Idp, v: seq<Idp>, all: seq<Idp>)
    requires Acyclic(c, rank) && !Stuck(c, i) && !c[i].Sink? && v + Path(c, rank, d, i) == all
    ensures (v + [i]) + Path(c, rank, d, PortOf(c[i].ports, d)) == all
  {
    assert Lower(c, rank, d, i, PortOf(c[i].ports, d));
  }

  lemma CopiesStep(c: Config, rank: Ranks, failing: set<nat>, p: Packet, n: nat, b: seq<Packet>, all: seq<Packet>)
    requires Acyclic(c, rank) && !Stuck(c, p.next) && !c[p.next].Sink? && b + Spawned(c, rank, failing, p, n) == all
    ensures var q, m := p.(next := PortOf(c[p.next].ports, p.dir)), n + if Copies(c[p.next]) then 1 else 0;
            (b + CopyMade(c[p.next], failing, p, n)) + Spawned(c, rank, failing, q, m) == all
  {
    assert Lower(c, rank, p.dir, p.next, PortOf(c[p.next].ports, p.dir));
  }

  /** One block further. */
  lemma UnderwayStep(c: Config, rank: Ranks, failing: set<nat>, p: Packet, n: nat, q: Packet, m: nat, v: seq<Idp>,
                     b: seq<Packet>)
    requires Underway(c, rank, failing, p, n, q, m, v, b) && !Stuck(c, q.next) && !c[q.next].Sink?
    ensures var k := c[q.next]; var q' := q.(next := PortOf(k.ports, q.dir));
            && Underway(c, rank, failing, p, n, q', m + (if Copies(k) then 1 else 0), v + [q.next],
                        b + CopyMade(k, failing, q, m))
            && Measure(c, rank, q.dir, q'.next) < Measure(c, rank, q.dir, q.next)
            && EndOf(c, rank, q.dir, q.next)
               == if q'.next == IDP_UNKNOWN then Dropped else EndOf(c, rank, q.dir, q'.next)
  {
    assert Lower(c, rank, q.dir, q.next, PortOf(c[q.next].ports, q.dir));
    VisitsStep(c, rank, q.dir, q.next, v, Path(c, rank, p.dir, p.next));
    CopiesStep(c, rank, failing, q, m, b, Spawned(c, rank, failing, p, n));
  }

  /** Nothing more to visit. */
  lemma UnderwayDone(c: Config, rank: Ranks, failing: set<nat>, p: Packet, n: nat, q: Packet, m: nat, v: seq<Idp>,
                     b: seq<Packet>)
    requires Underway(c, rank, failing, p, n, q, m, v, b) && (Stuck(c, q.next) || c[q.next].Sink?)
    ensures (if Stuck(c, q.next) then v else v + [q.next]) == Path(c, rank, p.dir, p.next)
    ensures b == Spawned(c, rank, failing, p, n) && m == n + Attempts(c, rank, p.dir, p.next)
  {
  }

  /** The traversal is over: its visits, copies and attempts are all there. */
  ghost predicate Finished(c: Config, rank: Ranks, failing: set<nat>, p: Packet, n: nat, m: nat, v: seq<Idp>,
                           b: seq<Packet>)
    requires Acyclic(c, rank)
  {
    v == Path(c, rank, p.dir, p.next) && b == Spawned(c, rank, failing, p, n)
        && m == n + Attempts(c, rank, p.dir, p.next)
  }

  predicate Drops(k: Kind, d: Dir) {
    k.Sink? || PortOf(k.ports, d) == IDP_UNKNOWN
  }

  /** What one block call does to a traversal. */
  lemma AfterCall(c: Config, rank: Ranks, failing: set<nat>, p: Packet, n: nat, q: Packet, m: nat, v: seq<Idp>,
                  b: seq<Packet>)
    requires Underway(c, rank, failing, p, n, q, m, v, b) && !Stuck(c, q.next)
    ensures var k := c[q.next];
            var m', v', b' := m + (if Copies(k) then 1 else 0), v + [q.next], b + CopyMade(k, failing, q, m);
            if Drops(k, q.dir) then
              Finished(c, rank, failing, p, n, m', v', b') && CodeOf(EndOf(c, rank, q.dir, q.next)) == PPE_DROPPED
            else
              var q' := q.(next := PortOf(k.ports, q.dir));
              && Underway(c, rank, failing, p, n, q', m', v', b')
              && Measure(c, rank, q.dir, q'.next) < Measure(c, rank, q.dir, q.next)
              && EndOf(c, rank, q.dir, q'.next) == EndOf(c, rank, q.dir, q.next)
  {
    var k := c[q.next];
    if k.Sink? {
      UnderwayDone(c, rank, failing, p, n, q, m, v, b);
    } else {
      UnderwayStep(c, rank, failing, p, n, q, m, v, b);
      var q' := q.(next := PortOf(k.ports, q.dir));
      if q'.next == IDP_UNKNOWN {
        UnderwayDone(c, rank, failing, p, n, q', m + (if Copies(k) then 1 else 0), v + [q.next],
                     b + CopyMade(k, failing, q, m));
      }
    }
  }

  // ---------- Paths, ends and copies, written out ----------

  /** Where a block that is no sink sends a packet of the direction. */
  function OutOf(k: Kind, d: Dir): Idp
    requires !k.Sink?
  {
    if d.Egress? then k.ports.egress else k.ports.ingress
  }

  /** v leads from block to block, each time through the port of the direction, starting with i, and goes
      on as far as there are blocks. */
  ghost predicate FollowsPorts(c: Config, d: Dir, i: Idp, v: seq<Idp>) {
    && (v == [] <==> i == IDP_UNKNOWN || i !in c)
    && (v != [] ==> v[0] == i)
    && (forall k | 0 <= k < |v| :: v[k] in c && v[k] != IDP_UNKNOWN)
    && (forall k | 0 <= k < |v| - 1 && v[k] in c :: !c[v[k]].Sink? && v[k + 1] == OutOf(c[v[k]], d))
    && (v != [] && v[|v| - 1] in c ==>
          var k := c[v[|v| - 1]]; k.Sink? || OutOf(k, d) == IDP_UNKNOWN || OutOf(k, d) !in c)
  }

  lemma FollowsCons(c: Config, d: Dir, i: Idp, j: Idp, v: seq<Idp>, w: seq<Idp>)
    requires i in c && i != IDP_UNKNOWN && !c[i].Sink? && j == OutOf(c[i], d)
    requires FollowsPorts(c, d, j, v) && w == [i] + v
    ensures FollowsPorts(c, d, i, w)
  {
    forall k | 0 <= k < |w| - 1 && w[k] in c ensures !c[w[k]].Sink? && w[k + 1] == OutOf(c[w[k]], d) {
      if k > 0 { assert w[k] == v[k - 1] && w[k + 1] == v[k]; }
    }
    if v != [] { assert w[|w| - 1] == v[|v| - 1]; }
  }

  /** The path of a packet follows the ports to their end. */
  lemma {:induction false} PathFollowsPorts(c: Config, rank: Ranks, d: Dir, i: Idp)
    requires Acyclic(c, rank)
    ensures FollowsPorts(c, d, i, Path(c, rank, d, i))
    decreases Measure(c, rank, d, i)
  {
    if Stuck(c, i) || c[i].Sink? {
    } else {
      var j := PortOf(c[i].ports, d);
      assert Lower(c, rank, d, i, j);
      PathFollowsPorts(c, rank, d, j);
      FollowsCons(c, d, i, j, Path(c, rank, d, j), Path(c, rank, d, i));
    }
  }

  /** A packet that entered for i and has been along v has no block to go to: the last one on its way sends
      it to an idp that is not registered, or there was none to begin with. */
  ghost predicate NoBlockAhead(c: Config, d: Dir, i: Idp, v: seq<Idp>) {
    if v == [] then i == IDP_UNKNOWN || i !in c
    else
      && v[|v| - 1] in c && !c[v[|v| - 1]].Sink?
      && OutOf(c[v[|v| - 1]], d) != IDP_UNKNOWN && OutOf(c[v[|v| - 1]], d) !in c
  }

  /** How a traversal ends, and its code, by its path. */
  lemma {:induction false} CodeByPath(c: Config, rank: Ranks, d: Dir, i: Idp)
    requires Acyclic(c, rank)
    ensures var e, v := EndOf(c, rank, d, i), Path(c, rank, d, i);
            && CodeOf(e) == (if NoBlockAhead(c, d, i, v) then PPE_ERROR else PPE_DROPPED)
            && (e.Lost? <==> i == IDP_UNKNOWN)
            && (e.NoBlock? <==> i != IDP_UNKNOWN && NoBlockAhead(c, d, i, v))
            && (e.HandedOver? <==> v != [] && v[|v| - 1] in c && c[v[|v| - 1]].Sink?)
    decreases Measure(c, rank, d, i)
  {
    if Stuck(c, i) || c[i].Sink? {
    } else {
      var j := PortOf(c[i].ports, d);
      assert Lower(c, rank, d, i, j);
      CodeByPath(c, rank, d, j);
      var v := Path(c, rank, d, j);
      if v != [] { assert ([i] + v)[|v|] == v[|v| - 1]; }
    }
  }

  /** The third ports, those that are set, of the tees on a path. */
  ghost function ClonesOn(c: Config, v: seq<Idp>): seq<Idp> {
    if v == [] then []
    else if v[0] in c && c[v[0]].Tee? && c[v[0]].clone != IDP_UNKNOWN then [c[v[0]].clone] + ClonesOn(c, v[1..])
    else ClonesOn(c, v[1..])
  }

  /** A copy of the packet for each of the ports, without those whose number finds no memory. */
  ghost function CopiesFor(p: Packet, clones: seq<Idp>, failing: set<nat>, n: nat): seq<Packet>
    decreases |clones|
  {
    if clones == [] then []
    else (if n in failing then [] else [Packet(p.data, clones[0], p.dir)]) + CopiesFor(p, clones[1..], failing, n + 1)
  }

  lemma CopiesForPath(p: Packet, q: Packet, clones: seq<Idp>, failing: set<nat>, n: nat)
    requires p.data == q.data && p.dir == q.dir
    ensures CopiesFor(p, clones, failing, n) == CopiesFor(q, clones, failing, n)
    decreases |clones|
  {
  }

  /** The copies a packet leaves behind are those of the tees on its path: the same data in the same
      direction, each sent to the tee's third port. */
  lemma {:induction false} SpawnedOnPath(c: Config, rank: Ranks, failing: set<nat>, p: Packet, n: nat, clones: seq<Idp>)
    requires Acyclic(c, rank) && clones == ClonesOn(c, Path(c, rank, p.dir, p.next))
    ensures Spawned(c, rank, failing, p, n) == CopiesFor(p, clones, failing, n)
    ensures Attempts(c, rank, p.dir, p.next) == |clones|
    decreases Measure(c, rank, p.dir, p.next)
  {
    if Stuck(c, p.next) || c[p.next].Sink? {
      assert Path(c, rank, p.dir, p.next) == [] || Path(c, rank, p.dir, p.next)[1..] == [];
    } else {
      var k := c[p.next];
      var j := PortOf(k.ports, p.dir);
      assert Lower(c, rank, p.dir, p.next, j);
      var v := Path(c, rank, p.dir, j);
      assert ([p.next] + v)[1..] == v;
      var rest := ClonesOn(c, v);
      var m := n + if Copies(k) then 1 else 0;
      SpawnedOnPath(c, rank, failing, p.(next := j), m, rest);
      CopiesForPath(p, p.(next := j), rest, failing, m);
      assert Copies(k) ==> clones == [k.clone] + rest && clones[0] == k.clone && clones[1..] == rest;
      assert !Copies(k) ==> clones == rest;
    }
  }

  // ---------- Work ----------

  /** Block calls for a packet and all its copies, and theirs, when every copy finds memory. */
  ghost function Calls(c: Config, rank: Ranks, d: Dir, i: Idp): nat
    requires Acyclic(c, rank)
    decreases Measure(c, rank, d, i)
  {
    if Stuck(c, i) then 0 else if c[i].Sink? then 1
    else
      assert Lower(c, rank, d, i, PortOf(c[i].ports, d)) && (c[i].Tee? ==> Lower(c, rank, d, i, c[i].clone));
      1 + Calls(c, rank, d, PortOf(c[i].ports, d)) + (if Copies(c[i]) then Calls(c, rank, d, c[i].clone) else 0)
  }

  /** The packet and all its copies, and theirs. */
  ghost function Packets(c: Config, rank: Ranks, d: Dir, i: Idp): (n: nat)
    requires Acyclic(c, rank)
    ensures n >= 1
    decreases Measure(c, rank, d, i)
  {
    if Stuck(c, i) || c[i].Sink? then 1
    else
      assert Lower(c, rank, d, i, PortOf(c[i].ports, d)) && (c[i].Tee? ==> Lower(c, rank, d, i, c[i].clone));
      Packets(c, rank, d, PortOf(c[i].ports, d)) + (if Copies(c[i]) then Packets(c, rank, d, c[i].clone) else 0)
  }

  ghost function SumCalls(c: Config, rank: Ranks, ps: seq<Packet>): nat
    requires Acyclic(c, rank)
  {
    if ps == [] then 0 else Calls(c, rank, ps[0].dir, ps[0].next) + SumCalls(c, rank, ps[1..])
  }

  ghost function SumPackets(c: Config, rank: Ranks, ps: seq<Packet>): nat
    requires Acyclic(c, rank)
  {
    if ps == [] then 0 else Packets(c, rank, ps[0].dir, ps[0].next) + SumPackets(c, rank, ps[1..])
  }

  lemma {:induction false} SumsConcat(c: Config, rank: Ranks, ps: seq<Packet>, qs: seq<Packet>)
    requires Acyclic(c, rank)
    ensures SumCalls(c, rank, ps + qs) == SumCalls(c, rank, ps) + SumCalls(c, rank, qs)
    ensures SumPackets(c, rank, ps + qs) == SumPackets(c, rank, ps) + SumPackets(c, rank, qs)
  {
    if ps == [] {
      assert ps + qs == qs;
    } else {
      SumsConcat(c, rank, ps[1..], qs);
      assert (ps + qs)[1..] == ps[1..] + qs;
    }
  }

  /** A packet's work is its own visits and the work of the copies it leaves behind. */
  lemma {:induction false} WorkSplits(c: Config, rank: Ranks, failing: set<nat>, p: Packet, n: nat)
    requires Acyclic(c, rank)
    ensures |Path(c, rank, p.dir, p.next)| + SumCalls(c, rank, Spawned(c, rank, failing, p, n))
         <= Calls(c, rank, p.dir, p.next)
    ensures 1 + SumPackets(c, rank, Spawned(c, rank, failing, p, n)) <= Packets(c, rank, p.dir, p.next)
    ensures failing == {} ==>
              |Path(c, rank, p.dir, p.next)| + SumCalls(c, rank, Spawned(c, rank, failing, p, n))
                  == Calls(c, rank, p.dir, p.next)
    decreases Measure(c, rank, p.dir, p.next)
  {
    if Stuck(c, p.next) || c[p.next].Sink? {
    } else {
      var k := c[p.next];
      assert Lower(c, rank, p.dir, p.next, PortOf(k.ports, p.dir));
      var rest := p.(next := PortOf(k.ports, p.dir));
      if Copies(k) {
        WorkSplits(c, rank, failing, rest, n + 1);
        SumsConcat(c, rank, if n !in failing then [p.(next := k.clone)] else [],
                   Spawned(c, rank, failing, rest, n + 1));
      } else {
        WorkSplits(c, rank, failing, rest, n);
      }
    }
  }

  /** Walking the packet p replaces its work by that of its copies, at the end of the queue. */
  lemma WorkDone(c: Config, rank: Ranks, failing: set<nat>, p: Packet, n: nat, rest: seq<Packet>)
    requires Acyclic(c, rank)
    ensures SumPackets(c, rank, rest + Spawned(c, rank, failing, p, n)) < SumPackets(c, rank, [p] + rest)
    ensures SumCalls(c, rank, rest + Spawned(c, rank, failing, p, n)) + |Path(c, rank, p.dir, p.next)|
         <= SumCalls(c, rank, [p] + rest)
    ensures failing == {} ==>
              SumCalls(c, rank, rest + Spawned(c, rank, failing, p, n)) + |Path(c, rank, p.dir, p.next)|
                  == SumCalls(c, rank, [p] + rest)
  {
    WorkSplits(c, rank, failing, p, n);
    SumsConcat(c, rank, rest, Spawned(c, rank, failing, p, n));
    SumsConcat(c, rank, [p], rest);
  }

  // ---------- A whole run of the engine ----------

  /** A run of the engine: the packets walked, and what that added to visits, ends and backlog. */
  datatype Log = Log(done: seq<Packet>, visits: seq<Idp>, ends: seq<End>, copies: seq<Packet>)

  const NO_LOG := Log([], [], [], [])

  function Append(a: Log, b: Log): Log {
    Log(a.done + b.done, a.visits + b.visits, a.ends + b.ends, a.copies + b.copies)
  }

  /** The log of walking one packet. */
  ghost function LogOf(c: Config, rank: Ranks, failing: set<nat>, p: Packet, m: nat): Log
    requires Acyclic(c, rank)
  {
    Log([p], Path(c, rank, p.dir, p.next), [EndOf(c, rank, p.dir, p.next)], Spawned(c, rank, failing, p, m))
  }

  /** The log of walking packets one after the other, whatever their copies do. */
  ghost function LogOfAll(c: Config, rank: Ranks, failing: set<nat>, ps: seq<Packet>, m: nat): Log
    requires Acyclic(c, rank)
  {
    if ps == [] then NO_LOG
    else Append(LogOf(c, rank, failing, ps[0], m),
                LogOfAll(c, rank, failing, ps[1..], m + Attempts(c, rank, ps[0].dir, ps[0].next)))
  }

  /** Walk the first waiting packet, put its copies behind the others, and so on until none waits. */
  ghost function DrainAll(c: Config, rank: Ranks, failing: set<nat>, waiting: seq<Packet>, m: nat): Log
    requires Acyclic(c, rank)
    decreases SumPackets(c, rank, waiting)
  {
    if waiting == [] then NO_LOG
    else
      var p, rest := waiting[0], waiting[1..];
      assert waiting == [p] + rest;
      WorkDone(c, rank, failing, p, m, rest);
      Append(LogOf(c, rank, failing, p, m),
             DrainAll(c, rank, failing, rest + Spawned(c, rank, failing, p, m), m + Attempts(c, rank, p.dir, p.next)))
  }

  /** The definition, with the first packet and the rest named. */
  lemma DrainAllNext(c: Config, rank: Ranks, failing: set<nat>, waiting: seq<Packet>, p: Packet, rest: seq<Packet>,
                     more: seq<Packet>, m: nat)
    requires Acyclic(c, rank) && waiting != [] && p == waiting[0] && rest == waiting[1..]
             && more == Spawned(c, rank, failing, p, m)
    ensures DrainAll(c, rank, failing, waiting, m) ==
              Append(LogOf(c, rank, failing, p, m),
                     DrainAll(c, rank, failing, rest + more, m + Attempts(c, rank, p.dir, p.next)))
  {
  }

  lemma Requeue<T>(p: T, rest: seq<T>, more: seq<T>, copies: seq<T>)
    ensures [p] + ((rest + more) + copies) == ([p] + rest) + (more + copies)
  {
  }

  /** Draining walks every waiting packet and every copy made on the way exactly once, in order of
      arrival, each to its own end. */
  lemma {:induction false} DrainAllInOrder(c: Config, rank: Ranks, failing: set<nat>, waiting: seq<Packet>, m: nat)
    requires Acyclic(c, rank)
    ensures var log := DrainAll(c, rank, failing, waiting, m);
            log.done == waiting + log.copies && log == LogOfAll(c, rank, failing, log.done, m)
    decreases SumPackets(c, rank, waiting)
  {
    if waiting == [] {
    } else {
      var p, rest := waiting[0], waiting[1..];
      assert waiting == [p] + rest;
      WorkDone(c, rank, failing, p, m, rest);
      var more, m' := Spawned(c, rank, failing, p, m), m + Attempts(c, rank, p.dir, p.next);
      DrainAllNext(c, rank, failing, waiting, p, rest, more, m);
      DrainAllInOrder(c, rank, failing, rest + more, m');
      LogGrows(c, rank, failing, p, rest, more, m, DrainAll(c, rank, failing, rest + more, m'));
    }
  }

  lemma LogGrows(c: Config, rank: Ranks, failing: set<nat>, p: Packet, rest: seq<Packet>, more: seq<Packet>, m: nat,
                 log: Log)
    requires Acyclic(c, rank) && more == Spawned(c, rank, failing, p, m) && log.done == (rest + more) + log.copies
    requires log == LogOfAll(c, rank, failing, log.done, m + Attempts(c, rank, p.dir, p.next))
    ensures var all := Append(LogOf(c, rank, failing, p, m), log);
            all.done == ([p] + rest) + all.copies && all == LogOfAll(c, rank, failing, all.done, m)
  {
    Requeue(p, rest, more, log.copies);
    ConsParts(p, log.done);
    LogOfAllNext(c, rank, failing, [p] + log.done, p, log.done, m);
  }

  lemma ConsParts<T>(x: T, xs: seq<T>)
    ensures [x] + xs != [] && ([x] + xs)[0] == x && ([x] + xs)[1..] == xs
  {
  }

  lemma LogOfAllNext(c: Config, rank: Ranks, failing: set<nat>, ps: seq<Packet>, p: Packet, rest: seq<Packet>, m: nat)
    requires Acyclic(c, rank) && ps != [] && p == ps[0] && rest == ps[1..]
    ensures LogOfAll(c, rank, failing, ps, m) ==
              Append(LogOf(c, rank, failing, p, m),
                     LogOfAll(c, rank, failing, rest, m + Attempts(c, rank, p.dir, p.next)))
  {
  }

  /** The last packet walked ends as the log says last. */
  lemma {:induction false} LastEnd(c: Config, rank: Ranks, failing: set<nat>, ps: seq<Packet>, m: nat)
    requires Acyclic(c, rank) && ps != []
    ensures var ends := LogOfAll(c, rank, failing, ps, m).ends;
            ends != [] && ends[|ends| - 1] == EndOf(c, rank, ps[|ps| - 1].dir, ps[|ps| - 1].next)
    decreases |ps|
  {
    if |ps| == 1 {
    } else {
      LastEnd(c, rank, failing, ps[1..], m + Attempts(c, rank, ps[0].dir, ps[0].next));
    }
  }

  /** The code of the last packet walked, by its path. */
  lemma LastCode(c: Config, rank: Ranks, failing: set<nat>, waiting: seq<Packet>, m: nat, log: Log)
    requires Acyclic(c, rank) && waiting != [] && log == DrainAll(c, rank, failing, waiting, m)
    ensures log.done == waiting + log.copies && log.ends != []
    ensures var p := log.done[|log.done| - 1];
            CodeOf(log.ends[|log.ends| - 1])
            == if NoBlockAhead(c, p.dir, p.next, Path(c, rank, p.dir, p.next)) then PPE_ERROR else PPE_DROPPED
  {
    DrainAllInOrder(c, rank, failing, waiting, m);
    LastEnd(c, rank, failing, log.done, m);
    var p := log.done[|log.done| - 1];
    CodeByPath(c, rank, p.dir, p.next);
  }

  /** Draining takes as many block calls as the waiting packets are worth; fewer only when a copy
      found no memory. */
  lemma {:induction false} DrainAllCalls(c: Config, rank: Ranks, failing: set<nat>, waiting: seq<Packet>, m: nat)
    requires Acyclic(c, rank)
    ensures |DrainAll(c, rank, failing, waiting, m).visits| <= SumCalls(c, rank, waiting)
    ensures failing == {} ==> |DrainAll(c, rank, failing, waiting, m).visits| == SumCalls(c, rank, waiting)
    decreases SumPackets(c, rank, waiting)
  {
    if waiting == [] {
    } else {
      var p, rest := waiting[0], waiting[1..];
      assert waiting == [p] + rest;
      WorkDone(c, rank, failing, p, m, rest);
      var more, m' := Spawned(c, rank, failing, p, m), m + Attempts(c, rank, p.dir, p.next);
      DrainAllNext(c, rank, failing, waiting, p, rest, more, m);
      DrainAllCalls(c, rank, failing, rest + more, m');
    }
  }

  lemma Assoc<T>(a: seq<T>, b: seq<T>, c: seq<T>)
    ensures (a + b) + c == a + (b + c)
  {
  }

  lemma AppendAssoc(a: Log, b: Log, c: Log)
    ensures Append(Append(a, b), c) == Append(a, Append(b, c))
  {
    Assoc(a.done, b.done, c.done);
    Assoc(a.visits, b.visits, c.visits);
    Assoc(a.ends, b.ends, c.ends);
    Assoc(a.copies, b.copies, c.copies);
  }

  lemma AppendNone(log: Log)
    ensures Append(NO_LOG, log) == log == Append(log, NO_LOG)
  {
  }

  /** One packet less to drain. */
  lemma DrainAllStep(c: Config, rank: Ranks, failing: set<nat>, log: Log, waiting: seq<Packet>,
                     p: Packet, rest: seq<Packet>, more: seq<Packet>, m: nat, total: Log)
    requires Acyclic(c, rank) && waiting != [] && p == waiting[0] && rest == waiting[1..]
             && more == Spawned(c, rank, failing, p, m)
    requires total == Append(log, DrainAll(c, rank, failing, waiting, m))
    ensures SumPackets(c, rank, rest + more) < SumPackets(c, rank, waiting)
    ensures total == Append(Append(log, LogOf(c, rank, failing, p, m)),
                            DrainAll(c, rank, failing, rest + more, m + Attempts(c, rank, p.dir, p.next)))
  {
    assert waiting == [p] + rest;
    WorkDone(c, rank, failing, p, m, rest);
    DrainAllNext(c, rank, failing, waiting, p, rest, more, m);
    AppendAssoc(log, LogOf(c, rank, failing, p, m),
                DrainAll(c, rank, failing, rest + more, m + Attempts(c, rank, p.dir, p.next)));
  }

  // ---------- The bound ----------

  function Pow2(n: nat): (r: nat)
    ensures r >= 1
  {
    if n == 0 then 1 else 2 * Pow2(n - 1)
  }

  function Max(a: nat, b: nat): nat {
    if a < b then b else a
  }

  /** The number of steps on the longest way from a block, in direction d, over ports and clones. */
  ghost function Longest(c: Config, rank: Ranks, d: Dir, i: Idp): nat
    requires Acyclic(c, rank)
    decreases Measure(c, rank, d, i)
  {
    if Stuck(c, i) || c[i].Sink? then 0
    else
      assert Lower(c, rank, d, i, PortOf(c[i].ports, d)) && (c[i].Tee? ==> Lower(c, rank, d, i, c[i].clone));
      Max(Beyond(c, rank, d, i, PortOf(c[i].ports, d)), if c[i].Tee? then Beyond(c, rank, d, i, c[i].clone) else 0)
  }

  ghost function Beyond(c: Config, rank: Ranks, d: Dir, i: Idp, j: Idp): nat
    requires Acyclic(c, rank) && i in c && Lower(c, rank, d, i, j)
    decreases Measure(c, rank, d, i), 0
  {
    if Stuck(c, j) then 0 else 1 + Longest(c, rank, d, j)
  }

  /** At most 2^(r+1) - 1 block calls for a packet whose longest way has r steps. */
  lemma {:induction false} CallsBounded(c: Config, rank: Ranks, d: Dir, i: Idp)
    requires Acyclic(c, rank)
    ensures Calls(c, rank, d, i) <= Pow2(Longest(c, rank, d, i) + 1) - 1
    decreases Measure(c, rank, d, i)
  {
    if !Stuck(c, i) && !c[i].Sink? {
      var j := PortOf(c[i].ports, d);
      assert Lower(c, rank, d, i, j) && (c[i].Tee? ==> Lower(c, rank, d, i, c[i].clone));
      BranchBounded(c, rank, d, i, j);
      if c[i].Tee? { BranchBounded(c, rank, d, i, c[i].clone); }
    }
  }

  lemma {:induction false} BranchBounded(c: Config, rank: Ranks, d: Dir, i: Idp, j: Idp)
    requires Acyclic(c, rank) && i in c && Lower(c, rank, d, i, j) && !c[i].Sink? && !Stuck(c, i)
    requires j == PortOf(c[i].ports, d) || (c[i].Tee? && j == c[i].clone)
    ensures Calls(c, rank, d, j) <= Pow2(Longest(c, rank, d, i)) - 1
    decreases Measure(c, rank, d, i), 0
  {
    if !Stuck(c, j) {
      CallsBounded(c, rank, d, j);
      assert Longest(c, rank, d, i) >= 1 + Longest(c, rank, d, j);
      Pow2Grows(1 + Longest(c, rank, d, j), Longest(c, rank, d, i));
    }
  }

  lemma {:induction false} Pow2Grows(m: nat, n: nat)
    requires m <= n
    ensures Pow2(m) <= Pow2(n)
  {
    if m == n {
    } else {
      Pow2Grows(m, n - 1);
    }
  }

  /** A way from block to block, at each through the port of the direction or through a tee's third. */
  ghost predicate Way(c: Config, d: Dir, w: seq<Idp>) {
    && w != [] && (forall k | 0 <= k < |w| :: w[k] in c && w[k] != IDP_UNKNOWN)
    && (forall k | 0 <= k < |w| - 1 && w[k] in c :: Onward(c[w[k]], d, w[k + 1]))
  }

  ghost predicate Onward(k: Kind, d: Dir, j: Idp) {
    !k.Sink? && (j == OutOf(k, d) || (k.Tee? && j == k.clone))
  }

  /** No way from a block has more steps. */
  lemma {:induction false} WaysBounded(c: Config, rank: Ranks, d: Dir, w: seq<Idp>)
    requires Acyclic(c, rank) && Way(c, d, w)
    ensures |w| - 1 <= Longest(c, rank, d, w[0])
    decreases |w|
  {
    if |w| == 1 {
    } else {
      var i, v := w[0], w[1..];
      assert Onward(c[i], d, w[1]);
      assert Lower(c, rank, d, i, PortOf(c[i].ports, d)) && (c[i].Tee? ==> Lower(c, rank, d, i, c[i].clone));
      forall k | 0 <= k < |v| - 1 && v[k] in c ensures Onward(c[v[k]], d, v[k + 1]) {
        assert v[k] == w[k + 1] && v[k + 1] == w[k + 2];
      }
      WaysBounded(c, rank, d, v);
    }
  }

  /** One has as many. */
  lemma {:induction false} LongestWay(c: Config, rank: Ranks, d: Dir, i: Idp) returns (w: seq<Idp>)
    requires Acyclic(c, rank) && i in c && i != IDP_UNKNOWN
    ensures Way(c, d, w) && w[0] == i && |w| - 1 == Longest(c, rank, d, i)
    decreases Measure(c, rank, d, i)
  {
    w := [i];
    if !c[i].Sink? && Longest(c, rank, d, i) > 0 {
      var j := PortOf(c[i].ports, d);
      assert Lower(c, rank, d, i, j) && (c[i].Tee? ==> Lower(c, rank, d, i, c[i].clone));
      assert Longest(c, rank, d, i)
          == Max(Beyond(c, rank, d, i, j), if c[i].Tee? then Beyond(c, rank, d, i, c[i].clone) else 0);
      if Beyond(c, rank, d, i, j) != Longest(c, rank, d, i) { j := c[i].clone; }
      assert Beyond(c, rank, d, i, j) == 1 + Longest(c, rank, d, j);
      var v := LongestWay(c, rank, d, j);
      w := [i] + v;
      WayCons(c, d, i, v);
    }
  }

  lemma WayCons(c: Config, d: Dir, i: Idp, v: seq<Idp>)
    requires i in c && i != IDP_UNKNOWN && Way(c, d, v) && Onward(c[i], d, v[0])
    ensures Way(c, d, [i] + v)
  {
    var w := [i] + v;
    forall k | 0 <= k < |w| - 1 && w[k] in c ensures Onward(c[w[k]], d, w[k + 1]) {
      if k > 0 { assert w[k] == v[k - 1] && w[k + 1] == v[k]; }
    }
  }

  // ---------- The bound is reached ----------

  /** r tees on top of each other and of a sink, each sending the packet and its copy to the next. */
  function TeeTower(r: nat): Config {
    map i: Idp | 1 <= i <= r + 1 :: Level(i)
  }

  function Level(i: Idp): Kind {
    if i <= 1 then Sink else Tee(Ports(i - 1, i - 1), i - 1)
  }

  lemma {:induction false} TowerLevel(r: nat, rank: Ranks, d: Dir, i: Idp)
    requires (forall j: Idp, e: Dir | 1 <= j <= r + 1 :: Rank(rank, j, e) == j) && 1 <= i <= r + 1
             && Acyclic(TeeTower(r), rank)
    ensures Longest(TeeTower(r), rank, d, i) == i - 1
    ensures Calls(TeeTower(r), rank, d, i) == Pow2(i) - 1
    decreases i
  {
    var c := TeeTower(r);
    if i == 1 {
    } else {
      assert !Stuck(c, i) && c[i] == Tee(Ports(i - 1, i - 1), i - 1) && PortOf(c[i].ports, d) == i - 1;
      TowerLevel(r, rank, d, i - 1);
      assert Lower(c, rank, d, i, i - 1);
    }
  }

  /** For every r there is a graph and a packet that needs exactly 2^(r+1) - 1 block calls. */
  lemma BoundReached(r: nat, rank: Ranks, d: Dir)
    requires forall j: Idp, e: Dir | 1 <= j <= r + 1 :: Rank(rank, j, e) == j
    ensures Acyclic(TeeTower(r), rank)
    ensures Longest(TeeTower(r), rank, d, r + 1) == r
    ensures Calls(TeeTower(r), rank, d, r + 1) == Pow2(r + 1) - 1
  {
    var c := TeeTower(r);
    forall i, e | i in c && !c[i].Sink?
      ensures Lower(c, rank, e, i, PortOf(c[i].ports, e)) && (c[i].Tee? ==> Lower(c, rank, e, i, c[i].clone))
    {
      assert c[i] == Level(i) && PortOf(c[i].ports, e) == i - 1 == c[i].clone;
    }
    TowerLevel(r, rank, d, r + 1);
  }
}
