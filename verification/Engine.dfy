/** One CPU's packet engine: the active flag, the backlog queue and the loop that drains it. */
module Engine {
  import opened Common
  import opened FblockGraph
  import opened EngineModel

  class Engine {
    var active: bool
    var backlog: seq<Packet>
    /** Statistics: packets taken up and block calls made. */
    var pkts: nat
    var fblocks: nat
    /** How many copies have been tried, and which tries find no memory. */
    var attempts: nat
    const failing: set<nat>
    /** Everything ever queued and everything ever dequeued. */
    ghost var queued: seq<Packet>
    ghost var served: seq<Packet>
    /** The blocks called, and how each traversal ended. */
    ghost var visits: seq<Idp>
    ghost var ends: seq<End>

    /** First in, first out: what was dequeued and what waits is what was queued, in that order. */
    ghost predicate Fifo()
      reads this
    {
      queued == served + backlog
    }

    /** One visit per counted call, one end per counted packet. */
    ghost predicate Valid()
      reads this
    {
      Fifo() && fblocks == |visits| && pkts == |ends|
    }

    constructor (failing: set<nat>)
      ensures Valid() && !active && backlog == [] && queued == [] && visits == [] && ends == []
              && this.failing == failing
    {
      this.failing := failing;
      active, backlog, pkts, fblocks, attempts := false, [], 0, 0, 0;
      queued, served, visits, ends := [], [], [], [];
    }

    /** Append a packet to the backlog with its direction written into it. */
    method BacklogTail(skb: Packet, dir: Dir)
      requires Fifo()
      modifies `backlog, `queued
      ensures Fifo() && backlog == old(backlog) + [skb.(dir := dir)] && queued == old(queued) + [skb.(dir := dir)]
    {
      backlog := backlog + [skb.(dir := dir)];
      queued := queued + [skb.(dir := dir)];
    }

    /** Take the oldest packet off the backlog. */
    method BacklogTestReduce() returns (skb: Option<Packet>)
      requires Fifo()
      modifies `backlog, `served
      ensures Fifo()
      ensures if old(backlog) == [] then skb.None? && backlog == [] && served == old(served)
              else && skb == Some(old(backlog)[0]) && backlog == old(backlog)[1..]
                   && served == old(served) + [old(backlog)[0]]
    {
      if backlog == [] { return None; }
      skb := Some(backlog[0]);
      served := served + [backlog[0]];
      backlog := backlog[1..];
    }

    /** A block's receive function: write the next block into the packet; a tee also queues a copy,
        and it does so even when it drops the packet itself. */
    method NetRx(k: Kind, skb: Packet, dir: Dir) returns (next: Packet, dropped: bool)
      requires Fifo()
      modifies `backlog, `queued, `attempts
      ensures Fifo()
      ensures dropped <==> Drops(k, dir)
      ensures !dropped ==> next == skb.(next := PortOf(k.ports, dir))
      ensures attempts == old(attempts) + (if Copies(k) then 1 else 0)
      ensures backlog == old(backlog) + CopyMade(k, failing, skb.(dir := dir), old(attempts))
    {
      if k.Sink? { return skb, true; }
      next := skb.(next := PortOf(k.ports, dir));
      if k.Tee? && k.clone != IDP_UNKNOWN {
        var found := attempts !in failing;
        attempts := attempts + 1;
        if found { BacklogTail(next.(next := k.clone), dir); }
      }
      dropped := PortOf(k.ports, dir) == IDP_UNKNOWN;
    }

    /** Call the packet's next block and count the call. */
    method Visit(k: Kind, skb: Packet) returns (next: Packet, dropped: bool)
      requires Fifo()
      modifies `backlog, `queued, `attempts, `visits, `fblocks
      ensures Fifo() && visits == old(visits) + [skb.next] && fblocks == old(fblocks) + 1
      ensures dropped <==> Drops(k, skb.dir)
      ensures !dropped ==> next == skb.(next := PortOf(k.ports, skb.dir))
      ensures attempts == old(attempts) + (if Copies(k) then 1 else 0)
      ensures backlog == old(backlog) + CopyMade(k, failing, skb, old(attempts))
    {
      visits := visits + [skb.next];
      next, dropped := NetRx(k, skb, skb.dir);
      fblocks := fblocks + 1;
    }

    /** Walk one packet from block to block to the end of its traversal. */
    method Traverse(c: Config, skb: Packet, dir: Dir, ghost rank: Ranks) returns (ret: int)
      requires Valid() && Acyclic(c, rank)
      modifies this
      ensures Valid() && served == old(served) && active
      ensures visits == old(visits) + Path(c, rank, dir, skb.next)
      ensures ends == old(ends) + [EndOf(c, rank, dir, skb.next)] && ret == CodeOf(EndOf(c, rank, dir, skb.next))
      ensures ret == if NoBlockAhead(c, dir, skb.next, Path(c, rank, dir, skb.next)) then PPE_ERROR else PPE_DROPPED
      ensures backlog == old(backlog) + Spawned(c, rank, failing, skb.(dir := dir), old(attempts))
      ensures attempts == old(attempts) + Attempts(c, rank, dir, skb.next)
    {
      ret := PPE_ERROR;
      active := true;
      pkts := pkts + 1;
      ghost var start, end, n := skb.(dir := dir), EndOf(c, rank, dir, skb.next), attempts;
      ghost var v, b: seq<Packet> := [], [];
      var cur := skb.(dir := dir);
      while cur.next != IDP_UNKNOWN
        invariant Fifo() && fblocks == |visits| && pkts == old(pkts) + 1 && served == old(served) && active
                  && ends == old(ends)
        invariant Underway(c, rank, failing, start, n, cur, attempts, v, b) && cur.dir == dir
        invariant visits == old(visits) + v && backlog == old(backlog) + b
        invariant EndOf(c, rank, dir, cur.next) == end && ret == PPE_ERROR
        decreases Measure(c, rank, dir, cur.next)
      {
        if cur.next !in c { break; }
        AfterCall(c, rank, failing, start, n, cur, attempts, v, b);
        ghost var v', b' := v + [cur.next], b + CopyMade(c[cur.next], failing, cur, attempts);
        Assoc(old(visits), v, [cur.next]);
        Assoc(old(backlog), b, CopyMade(c[cur.next], failing, cur, attempts));
        var dropped;
        cur, dropped := Visit(c[cur.next], cur);
        v, b := v', b';
        if dropped {
          ret := PPE_DROPPED;
          break;
        }
      }
      if ret == PPE_ERROR { UnderwayDone(c, rank, failing, start, n, cur, attempts, v, b); }
      ends := ends + [end];
      CodeByPath(c, rank, dir, skb.next);
    }

    /** Walk a packet to its end and take the next one off the backlog. */
    method Serve(c: Config, skb: Packet, ghost rank: Ranks) returns (q: Option<Packet>, ret: int)
      requires Valid() && Acyclic(c, rank)
      modifies this
      ensures Valid() && Waiting(q, backlog) == old(backlog) + Spawned(c, rank, failing, skb, old(attempts))
              && (q.None? ==> backlog == [])
      ensures visits == old(visits) + Path(c, rank, skb.dir, skb.next)
      ensures ends == old(ends) + [EndOf(c, rank, skb.dir, skb.next)]
              && ret == CodeOf(EndOf(c, rank, skb.dir, skb.next))
      ensures queued == old(queued) + Spawned(c, rank, failing, skb, old(attempts))
      ensures attempts == old(attempts) + Attempts(c, rank, skb.dir, skb.next)
    {
      ret := Traverse(c, skb, skb.dir, rank);
      assert skb.(dir := skb.dir) == skb;
      Assoc(served, old(backlog), Spawned(c, rank, failing, skb, old(attempts)));
      q := BacklogTestReduce();
    }

    /** Visits, ends and queue have grown by what the log holds since they were v, e and q. */
    ghost predicate Logged(log: Log, v: seq<Idp>, e: seq<End>, q: seq<Packet>)
      reads this
    {
      visits == v + log.visits && ends == e + log.ends && queued == q + log.copies
    }

    /** Serve a packet and enter it into the log. */
    method ServeLogged(c: Config, skb: Packet, ghost rank: Ranks, ghost was: Log, ghost v: seq<Idp>, ghost e: seq<End>,
                       ghost u: seq<Packet>)
      returns (q: Option<Packet>, ret: int, ghost log: Log)
      requires Valid() && Acyclic(c, rank) && Logged(was, v, e, u)
      modifies this
      ensures Valid() && Waiting(q, backlog) == old(backlog) + Spawned(c, rank, failing, skb, old(attempts))
              && (q.None? ==> backlog == [])
      ensures log == Append(was, LogOf(c, rank, failing, skb, old(attempts))) && Logged(log, v, e, u)
      ensures log.ends != [] && ret == CodeOf(log.ends[|log.ends| - 1])
      ensures attempts == old(attempts) + Attempts(c, rank, skb.dir, skb.next)
    {
      log := Append(was, LogOf(c, rank, failing, skb, attempts));
      q, ret := Serve(c, skb, rank);
      Assoc(v, was.visits, Path(c, rank, skb.dir, skb.next));
      Assoc(e, was.ends, [EndOf(c, rank, skb.dir, skb.next)]);
      Assoc(u, was.copies, Spawned(c, rank, failing, skb, old(attempts)));
    }

    /** Serve the first of the waiting packets; what is left to drain completes the same total. */
    method ServeNext(c: Config, skb: Packet, ghost rank: Ranks, ghost was: Log, ghost total: Log,
                     ghost v: seq<Idp>, ghost e: seq<End>, ghost u: seq<Packet>)
      returns (q: Option<Packet>, ret: int, ghost log: Log)
      requires Valid() && Acyclic(c, rank) && Logged(was, v, e, u)
      requires total == Append(was, DrainAll(c, rank, failing, [skb] + backlog, attempts))
      modifies this
      ensures Valid() && (q.None? ==> backlog == []) && Logged(log, v, e, u)
      ensures total == Append(log, DrainAll(c, rank, failing, Waiting(q, backlog), attempts))
      ensures SumPackets(c, rank, Waiting(q, backlog)) < SumPackets(c, rank, [skb] + old(backlog))
      ensures log.ends != [] && ret == CodeOf(log.ends[|log.ends| - 1])
    {
      ConsParts(skb, backlog);
      DrainAllStep(c, rank, failing, was, [skb] + backlog, skb, backlog, Spawned(c, rank, failing, skb, attempts),
                   attempts, total);
      q, ret, log := ServeLogged(c, skb, rank, was, v, e, u);
    }

    /** Walk a packet, then every queued packet in turn, until the backlog is empty. */
    method Drain(c: Config, skb: Packet, ghost rank: Ranks) returns (ret: int, ghost log: Log)
      requires Valid() && Acyclic(c, rank)
      modifies this
      ensures Valid() && backlog == []
      ensures log == DrainAll(c, rank, failing, [skb] + old(backlog), old(attempts))
      ensures Logged(log, old(visits), old(ends), old(queued))
      ensures log.ends != [] && ret == CodeOf(log.ends[|log.ends| - 1])
    {
      ghost var total := DrainAll(c, rank, failing, [skb] + backlog, attempts);
      log := NO_LOG;
      AppendNone(total);
      var q := Some(skb);
      ret := 0;
      while q.Some?
        invariant Valid() && (q.None? ==> backlog == [])
        invariant Logged(log, old(visits), old(ends), old(queued))
        invariant total == Append(log, DrainAll(c, rank, failing, Waiting(q, backlog), attempts))
        invariant q.Some? || (log.ends != [] && ret == CodeOf(log.ends[|log.ends| - 1]))
        decreases SumPackets(c, rank, Waiting(q, backlog))
      {
        q, ret, log := ServeNext(c, q.value, rank, log, total, old(visits), old(ends), old(queued));
      }
      AppendNone(log);
    }

    /** Process a packet. While this CPU is at work the packet is only queued. Otherwise it and every
        packet queued meanwhile are walked to their ends, in order of arrival. */
    method ProcessPacket(c: Config, skb: Packet, dir: Dir, ghost rank: Ranks) returns (ret: int, ghost log: Log)
      requires Valid() && Acyclic(c, rank)
      modifies this
      ensures Valid()
      ensures old(active) ==>
                && ret == 0 && backlog == old(backlog) + [skb.(dir := dir)]
                && unchanged(`active, `served, `visits, `ends, `attempts)
      ensures !old(active) ==> !active && backlog == []
      ensures !old(active) ==> log == DrainAll(c, rank, failing, [skb.(dir := dir)] + old(backlog), old(attempts))
      ensures !old(active) ==> Logged(log, old(visits), old(ends), old(queued))
      ensures !old(active) ==> log.done == ([skb.(dir := dir)] + old(backlog)) + log.copies
      ensures !old(active) ==>
                var p := log.done[|log.done| - 1];
                ret == if NoBlockAhead(c, p.dir, p.next, Path(c, rank, p.dir, p.next)) then PPE_ERROR else PPE_DROPPED
      ensures !old(active) && old(backlog) == [] ==>
              fblocks - old(fblocks) <= Pow2(Longest(c, rank, dir, skb.next) + 1) - 1
    {
      log := NO_LOG;
      if active {
        BacklogTail(skb, dir);
        return 0, log;
      }
      CallsOfOnePacket(c, rank, failing, skb.(dir := dir), backlog, attempts);
      ret, log := Drain(c, skb.(dir := dir), rank);
      LastCode(c, rank, failing, [skb.(dir := dir)] + old(backlog), old(attempts), log);
      active := false;
    }
  }

  /** The packet in hand and the queue behind it. */
  ghost function Waiting(q: Option<Packet>, backlog: seq<Packet>): seq<Packet> {
    (if q.Some? then [q.value] else []) + backlog
  }

  /** On an idle CPU with an empty backlog a packet whose longest way has r steps costs at most
      2^(r+1) - 1 block calls, all its copies included. */
  lemma CallsOfOnePacket(c: Config, rank: Ranks, failing: set<nat>, p: Packet, backlog: seq<Packet>, n: nat)
    requires Acyclic(c, rank)
    ensures backlog == [] ==>
            |DrainAll(c, rank, failing, [p] + backlog, n).visits| <= Pow2(Longest(c, rank, p.dir, p.next) + 1) - 1
  {
    assert backlog == [] ==> [p] + backlog == [p];
    DrainAllCalls(c, rank, failing, [p], n);
    assert SumCalls(c, rank, [p]) == Calls(c, rank, p.dir, p.next);
    CallsBounded(c, rank, p.dir, p.next);
  }
}
