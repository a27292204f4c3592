/** The block objects and the functions that work on them in place, each proved to do to the graph
    what the value model says. */
module FblockStack {
  import opened Common
  import opened FblockGraph
  import opened FblockInvariant
  import opened FblockCommands

  /** A functional block. Its private data holds the two ports once per CPU. */
  class Fblock {
    var name: Name
    const ftype: Option<string>
    var privateData: array<Ports>
    var notifiers: seq<Notifier<Fblock>>
    var others: nat
    var refcnt: int
    var idp: Idp

    constructor (name: Name, ftype: Option<string>, cpus: nat, others: nat)
      ensures fresh(privateData) && privateData.Length == cpus
      ensures Value() == Block(Truncate(name), ftype, seq(cpus, _ => NO_PORTS), [], others, 1, IDP_UNKNOWN)
    {
      this.name := Truncate(name);
      this.ftype := ftype;
      privateData := new Ports[cpus];
      notifiers, this.others, refcnt, idp := [], others, 1, IDP_UNKNOWN;
      new;
      for c := 0 to cpus
        invariant privateData.Length == cpus && fresh(privateData)
        invariant forall k | 0 <= k < c :: privateData[k] == NO_PORTS
        invariant Value() == Block(Truncate(name), ftype, privateData[..], [], others, 1, IDP_UNKNOWN)
      {
        privateData[c] := NO_PORTS;
      }
      assert privateData[..] == seq(cpus, _ => NO_PORTS);
    }

    ghost function Value(): Block<Fblock>
      reads this, privateData
    {
      Block(name, ftype, privateData[..], notifiers, others, refcnt, idp)
    }
  }

  /** How many CPUs, from the first one on, have the port at the given value. */
  function Leading(ports: seq<Ports>, d: Dir, i: Idp): (k: nat)
    ensures k <= |ports|
  {
    if ports == [] || PortOf(ports[0], d) != i then 0 else 1 + Leading(ports[1..], d, i)
  }

  function SetPrefix(ports: seq<Ports>, k: nat, d: Dir, i: Idp): seq<Ports>
    requires k <= |ports|
  {
    SetAll(ports[..k], d, i) + ports[k..]
  }

  lemma {:induction false} LeadingUnique(ports: seq<Ports>, d: Dir, i: Idp, k: nat)
    requires k <= |ports| && (forall c | 0 <= c < k :: PortOf(ports[c], d) == i)
    requires k < |ports| ==> PortOf(ports[k], d) != i
    ensures k == Leading(ports, d, i)
  {
    if k == 0 {
    } else {
      assert forall c | 0 <= c < k - 1 :: PortOf(ports[1..][c], d) == PortOf(ports[c + 1], d);
      LeadingUnique(ports[1..], d, i, k - 1);
    }
  }

  lemma SetPrefixIs(ports: seq<Ports>, now: seq<Ports>, k: nat, d: Dir, i: Idp)
    requires k <= |ports| == |now|
    requires forall c | 0 <= c < k :: now[c] == WithPort(ports[c], d, i)
    requires forall c | k <= c < |ports| :: now[c] == ports[c]
    ensures now == SetPrefix(ports, k, d, i)
  {
  }

  /** The loop of the bind and unbind events: replace one value of the port by another on each CPU,
      until one is found whose port has a different value. */
  method WritePorts(a: array<Ports>, d: Dir, from: Idp, i: Idp) returns (ok: bool)
    modifies a
    ensures ok <==> Leading(old(a[..]), d, from) == a.Length
    ensures a[..] == SetPrefix(old(a[..]), Leading(old(a[..]), d, from), d, i)
  {
    ghost var was := a[..];
    ok := true;
    var c := 0;
    while c < a.Length
      invariant 0 <= c <= a.Length && ok
      invariant forall k | 0 <= k < c :: PortOf(was[k], d) == from && a[k] == WithPort(was[k], d, i)
      invariant forall k | c <= k < a.Length :: a[k] == was[k]
    {
      if PortOf(a[c], d) == from {
        a[c] := WithPort(a[c], d, i);
      } else {
        ok := false;
        break;
      }
      c := c + 1;
    }
    LeadingUnique(was, d, from, c);
    SetPrefixIs(was, a[..], c, d, i);
  }

  class Stack {
    const cpus: nat
    var fblmap: map<Idp, Fblock>
    var idpmap: map<Name, Idp>
    var counter: nat
    /** Objects handed to the free callback. */
    var dead: multiset<Fblock>
    ghost var blocks: set<Fblock>
    /** Whose private data an array is. */
    ghost var owner: map<array<Ports>, Fblock>
    /** The graph these objects represent. */
    ghost var graph: State<Fblock>

    ghost function Repr(): set<object>
      reads this, blocks
    {
      {this} + blocks + set b | b in blocks :: b.privateData
    }

    /** The objects are those of the graph, and every block has its own private data. */
    ghost predicate Valid()
      reads Repr()
    {
      && Shaped()
      && (forall b {:trigger Represents(b)} | b in blocks :: Represents(b))
    }

    ghost predicate Shaped()
      reads this
    {
      && graph.cpus == cpus && graph.fblmap == fblmap && graph.idpmap == idpmap && graph.counter == counter
         && graph.dead == dead
      && graph.blocks.Keys == blocks
    }

    ghost predicate OthersRepresented(fb: Fblock)
      requires Shaped()
      reads this, Repr()
    {
      forall b {:trigger Represents(b)} | b in blocks && b != fb :: Represents(b)
    }

    ghost predicate Owned(b: Fblock)
      reads this, b
    {
      b.privateData.Length == cpus && b.privateData in owner && owner[b.privateData] == b
    }

    ghost predicate Represents(b: Fblock)
      requires graph.blocks.Keys == blocks && b in blocks
      reads this, b, b.privateData
    {
      graph.blocks[b] == b.Value() && Owned(b)
    }

    constructor (cpus: nat)
      ensures Valid() && graph == State(cpus, map[], map[], map[], 0, multiset{}, multiset{}, multiset{})
      ensures fresh(Repr())
    {
      this.cpus := cpus;
      fblmap, idpmap, counter, dead, blocks, owner := map[], map[], 0, multiset{}, {}, map[];
      graph := State(cpus, map[], map[], map[], 0, multiset{}, multiset{}, multiset{});
    }

    /** All but fb is represented; afterwards fb is, too. */
    ghost method Sync(fb: Fblock)
      requires Shaped() && fb in blocks && OthersRepresented(fb) && Owned(fb)
      modifies `graph
      ensures Valid() && graph == Modify(old(graph), fb, fb.Value())
    {
      graph := Modify(graph, fb, fb.Value());
      forall b | b in blocks ensures Represents(b) { assert b != fb ==> old(Represents(b)); }
    }

    // ---------- Reference counts ----------

    method Get(fb: Fblock)
      requires Valid() && fb in blocks
      modifies fb`refcnt, `graph
      ensures Valid() && graph == AddRefs(old(graph), fb, 1)
    {
      assert Represents(fb);
      fb.refcnt := fb.refcnt + 1;
      graph := AddRefs(graph, fb, 1);
      forall b | b in blocks ensures Represents(b) { assert old(Represents(b)); }
    }

    method GetBoth(fb1: Fblock, fb2: Fblock)
      requires Valid() && fb1 in blocks && fb2 in blocks
      modifies fb1`refcnt, fb2`refcnt, `graph
      ensures Valid() && graph == AddRefs(AddRefs(old(graph), fb1, 1), fb2, 1)
    {
      Get(fb1);
      Get(fb2);
    }

    method Put(fb: Fblock)
      requires Valid() && fb in blocks
      modifies fb`refcnt, `dead, `graph
      ensures Valid() && graph == DropRef(old(graph), fb)
    {
      assert Represents(fb);
      fb.refcnt := fb.refcnt - 1;
      Sync(fb);
      if fb.refcnt == 0 && fb.ftype.Some? { ScheduleFree(fb); }
      DropRefIs(old(graph), fb, fb.Value(), dead);
    }

    /** Hand a block to the free callback. */
    method ScheduleFree(fb: Fblock)
      requires Valid()
      modifies `dead, `graph
      ensures Valid() && dead == old(dead) + multiset{fb} && graph == old(graph).(dead := dead)
    {
      dead := dead + multiset{fb};
      graph := graph.(dead := dead);
      forall b | b in blocks ensures Represents(b) { assert old(Represents(b)); }
    }

    method PutBoth(fb1: Fblock, fb2: Fblock)
      requires Valid() && fb1 in blocks && fb2 in blocks
      modifies fb1`refcnt, fb2`refcnt, `dead, `graph
      ensures Valid() && graph == DropRef(DropRef(old(graph), fb1), fb2)
    {
      Put(fb1);
      Put(fb2);
    }

    // ---------- Events of the two-port blocks ----------

    /** Set the port on one CPU after the other, until one is found that is already bound. */
    method BindEvent(fb: Fblock, d: Dir, i: Idp) returns (ok: bool)
      requires Valid() && fb in blocks
      modifies fb.privateData, `graph
      ensures Valid()
      ensures ok <==> Leading(old(graph).blocks[fb].ports, d, IDP_UNKNOWN) == cpus
      ensures graph == PortsWritten(old(graph), fb, d, IDP_UNKNOWN, i)
    {
      ok := PortEvent(fb, d, IDP_UNKNOWN, i);
    }

    /** Clear the port on one CPU after the other, until one is found that is not bound to i. */
    method UnbindEvent(fb: Fblock, d: Dir, i: Idp) returns (ok: bool)
      requires Valid() && fb in blocks
      modifies fb.privateData, `graph
      ensures Valid()
      ensures ok <==> Leading(old(graph).blocks[fb].ports, d, i) == cpus
      ensures graph == PortsWritten(old(graph), fb, d, i, IDP_UNKNOWN)
    {
      ok := PortEvent(fb, d, i, IDP_UNKNOWN);
    }

    method PortEvent(fb: Fblock, d: Dir, from: Idp, i: Idp) returns (ok: bool)
      requires Valid() && fb in blocks
      modifies fb.privateData, `graph
      ensures Valid()
      ensures ok <==> Leading(old(graph).blocks[fb].ports, d, from) == cpus
      ensures graph == PortsWritten(old(graph), fb, d, from, i)
    {
      assert Represents(fb);
      ok := WritePorts(fb.privateData, d, from, i);
      forall b | b in blocks && b != fb ensures Represents(b) {
        assert old(Represents(b));
        assert b.privateData != fb.privateData;
      }
      Sync(fb);
    }

    // ---------- Subscriptions ----------

    method SetNotifiers(fb: Fblock, l: seq<Notifier<Fblock>>)
      requires Valid() && fb in blocks
      modifies fb`notifiers, `graph
      ensures Valid() && graph == Modify(old(graph), fb, old(graph).blocks[fb].(notifiers := l))
    {
      fb.notifiers := l;
      graph := Modify(graph, fb, graph.blocks[fb].(notifiers := l));
      forall b | b in blocks ensures Represents(b) { assert old(Represents(b)); }
    }

    /** us enters an entry for the remote block at the head of its list. */
    method SubscribeTo(us: Fblock, remote: Fblock)
      requires Valid() && us in blocks && remote in blocks
      modifies us, remote, `graph
      ensures Valid() && graph == Subscribe(old(graph), us, remote)
    {
      Get(us);
      Get(remote);
      assert Represents(us) && Represents(remote);
      SetNotifiers(us, [Notifier(us, remote.idp)] + us.notifiers);
      SubscribeOrder(old(graph), us, remote);
    }

    /** us takes its first entry for the remote block out of its list. Only when `found` is set is
        the entry also taken off the remote block's chain. */
    method UnsubscribeFrom(us: Fblock, remote: Fblock) returns (found: bool)
      requires Valid() && us in blocks && remote in blocks
      modifies us, remote, `dead, `graph
      ensures Valid() && graph == Unsubscribe(old(graph), us, remote)
      ensures found <==> BeyondHead(old(us.notifiers), old(remote.idp))
    {
      assert Represents(us) && Represents(remote);
      found := false;
      if us.notifiers == [] { return; }
      var l;
      l, found := WithoutFirst(us.notifiers, remote.idp);
      SetNotifiers(us, l);
      Put(us);
      Put(remote);
      UnsubscribeOrder(old(graph), us, remote, l);
    }

    // ---------- Binding ----------

    /** Bind fb1 on top of fb2. `panicked` is set where the binding of fb1 could not be taken back. */
    method Bind(fb1: Fblock, fb2: Fblock) returns (ret: int, panicked: bool)
      requires Valid() && fb1 in blocks && fb2 in blocks && Replicas(graph)
      requires graph.blocks[fb1].refcnt > 0 && graph.blocks[fb2].refcnt > 0
      modifies fb1, fb2, fb1.privateData, fb2.privateData, `dead, `graph
      ensures Valid() && !panicked
      ensures if FreePorts(old(graph), fb1, fb2) then ret == 0 && graph == Bound(old(graph), fb1, fb2)
              else ret == -EBUSY && graph == old(graph)
    {
      ghost var s := graph;
      ghost var a := AddRefs(AddRefs(s, fb1, 1), fb2, 1);
      var ok := StartBind(fb1, fb2, s, a);
      if ok {
        ret, panicked := FinishBind(fb1, fb2, s, a);
      } else {
        GiveUpBind(fb1, fb2, s);
        return -EBUSY, false;
      }
    }

    /** Take both references and set fb1's port, if it is free. */
    method StartBind(fb1: Fblock, fb2: Fblock, ghost s: State<Fblock>, ghost a: State<Fblock>) returns (ok: bool)
      requires Valid() && fb1 in blocks && fb2 in blocks && Replicas(s) && graph == s
               && a == AddRefs(AddRefs(s, fb1, 1), fb2, 1)
      modifies fb1`refcnt, fb2`refcnt, fb1.privateData, `graph
      ensures Valid() && Replicas(a)
      ensures a.blocks[fb1].idp == s.blocks[fb1].idp && a.blocks[fb2].idp == s.blocks[fb2].idp
      ensures Port(a.blocks[fb1], Egress) == Port(s.blocks[fb1], Egress)
              && Port(a.blocks[fb2], Ingress) == Port(s.blocks[fb2], Ingress)
      ensures ok <==> Port(s.blocks[fb1], Egress) == IDP_UNKNOWN
      ensures graph == if ok then SetPort(a, fb1, Egress, s.blocks[fb2].idp, 0) else a
    {
      assert Represents(fb1) && Represents(fb2);
      GetBoth(fb1, fb2);
      FirstBindStep(s, a, fb1, fb2);
      ok := BindEvent(fb1, Egress, fb2.idp);
    }

    method GiveUpBind(fb1: Fblock, fb2: Fblock, ghost s: State<Fblock>)
      requires Valid() && fb1 in blocks && fb2 in blocks && s.blocks.Keys == blocks
      requires s.blocks[fb1].refcnt > 0 && s.blocks[fb2].refcnt > 0 && graph == AddRefs(AddRefs(s, fb1, 1), fb2, 1)
      modifies fb1`refcnt, fb2`refcnt, `dead, `graph
      ensures Valid() && graph == s
    {
      PutBoth(fb1, fb2);
      GetBothPutBoth(s, fb1, fb2);
    }

    /** A bind of the graph s once fb1's port is set. */
    method FinishBind(fb1: Fblock, fb2: Fblock, ghost s: State<Fblock>, ghost a: State<Fblock>)
        returns (ret: int, panicked: bool)
      requires Valid() && fb1 in blocks && fb2 in blocks && s.blocks.Keys == a.blocks.Keys == blocks && Replicas(a)
      requires a == AddRefs(AddRefs(s, fb1, 1), fb2, 1) && s.blocks[fb1].refcnt > 0 && s.blocks[fb2].refcnt > 0
      requires a.blocks[fb1].idp == s.blocks[fb1].idp && a.blocks[fb2].idp == s.blocks[fb2].idp
      requires Port(a.blocks[fb1], Egress) == IDP_UNKNOWN && graph == SetPort(a, fb1, Egress, a.blocks[fb2].idp, 0)
      modifies fb1, fb2, fb1.privateData, fb2.privateData, `dead, `graph
      ensures Valid() && !panicked
      ensures if Port(a.blocks[fb2], Ingress) == IDP_UNKNOWN then ret == 0 && graph == Bound(s, fb1, fb2)
              else ret == -EBUSY && graph == s
    {
      ret, panicked := BindOtherEnd(fb1, fb2, a);
      if ret == 0 { BoundSteps(s, a, fb1, fb2); } else { GetBothPutBoth(s, fb1, fb2); }
    }

    /** The second half of a bind: fb1's port is set, a is the graph before that. */
    method BindOtherEnd(fb1: Fblock, fb2: Fblock, ghost a: State<Fblock>) returns (ret: int, panicked: bool)
      requires Valid() && fb1 in blocks && fb2 in blocks && a.blocks.Keys == blocks && Replicas(a)
      requires Port(a.blocks[fb1], Egress) == IDP_UNKNOWN && graph == SetPort(a, fb1, Egress, a.blocks[fb2].idp, 0)
      modifies fb1, fb2, fb1.privateData, fb2.privateData, `dead, `graph
      ensures Valid() && !panicked
      ensures if Port(a.blocks[fb2], Ingress) != IDP_UNKNOWN then
                ret == -EBUSY && graph == DropRef(DropRef(a, fb1), fb2)
              else
                && ret == 0
                && graph == Subscribe(Subscribe(SetPort(old(graph), fb2, Ingress, a.blocks[fb1].idp, 0), fb1, fb2),
                                      fb2, fb1)
    {
      SecondBindStep(a, fb1, fb2, a.blocks[fb1].idp, a.blocks[fb2].idp);
      assert Represents(fb1) && Represents(fb2);
      panicked := false;
      var ok := BindEvent(fb2, Ingress, fb1.idp);
      if !ok {
        ok := UnbindEvent(fb1, Egress, fb2.idp);
        panicked := !ok;
        PutBoth(fb1, fb2);
        return -EBUSY, panicked;
      }
      SubscribeTo(fb1, fb2);
      SubscribeTo(fb2, fb1);
      ret := 0;
    }

    method Unbind(fb1: Fblock, fb2: Fblock) returns (ret: int)
      requires Valid() && fb1 in blocks && fb2 in blocks && Replicas(graph)
      modifies fb1, fb2, fb1.privateData, fb2.privateData, `dead, `graph
      ensures Valid() && (graph, ret) == Core(old(graph), DoUnbind, fb1, fb2)
    {
      ghost var s := graph;
      assert Represents(fb1) && Represents(fb2);
      AllOrNone(s, fb1, Egress, fb2.idp, IDP_UNKNOWN);
      var ok := UnbindEvent(fb1, Egress, fb2.idp);
      if !ok { return -EBUSY; }
      SetPortReplicas(s, fb1, Egress, IDP_UNKNOWN);
      OtherPortKept(s, fb1, fb2, IDP_UNKNOWN);
      AllOrNone(SetPort(s, fb1, Egress, IDP_UNKNOWN, 0), fb2, Ingress, fb1.idp, IDP_UNKNOWN);
      ok := UnbindEvent(fb2, Ingress, fb1.idp);
      if !ok {
        Put(fb1);
        return -EBUSY;
      }
      var found := UnsubscribeFrom(fb1, fb2);
      found := UnsubscribeFrom(fb2, fb1);
      PutBoth(fb2, fb1);
      ret := 0;
    }

    // ---------- Migration ----------

    /** Exchange the private data of two blocks. */
    method MigrateP(dst: Fblock, src: Fblock)
      requires Valid() && dst in blocks && src in blocks && dst != src
      requires graph.blocks[dst].refcnt > 0 && graph.blocks[src].refcnt > 0
      modifies dst, src, `dead, `graph, `owner
      ensures Valid() && graph == PortsSwapped(old(graph), dst, src)
    {
      GetBoth(dst, src);
      ghost var a := graph;
      SwapPrivateData(dst, src);
      PutBoth(dst, src);
      SwapWhileHeld(old(graph), a, dst, src);
    }

    method SwapPrivateData(dst: Fblock, src: Fblock)
      requires Valid() && dst in blocks && src in blocks && dst != src
      modifies dst`privateData, src`privateData, `graph, `owner
      ensures Valid() && graph == PortsSwapped(old(graph), dst, src)
    {
      assert Represents(dst) && Represents(src);
      var privOld := dst.privateData;
      dst.privateData := src.privateData;
      src.privateData := privOld;
      owner := owner[dst.privateData := dst][src.privateData := src];
      graph := PortsSwapped(graph, dst, src);
      forall b | b in blocks ensures Represents(b) {
        assert old(Represents(b));
        assert b != dst && b != src ==>
          && graph.blocks[b] == old(graph.blocks[b])
          && b.privateData != dst.privateData && b.privateData != src.privateData;
      }
    }

    /** dst takes over idp and name of src, and the two exchange lists, subscribers and counts. */
    method MigrateR(dst: Fblock, src: Fblock)
      requires Valid() && dst in blocks && src in blocks && dst != src
      requires graph.blocks[dst].refcnt > 0 && graph.blocks[src].refcnt > 0
      modifies dst, src, `dead, `graph
      ensures Valid() && graph == RestSwapped(old(graph), dst, src)
    {
      GetBoth(dst, src);
      ghost var a := graph;
      SwapRest(dst, src);
      PutBoth(dst, src);
      RestSwapWhileHeld(old(graph), a, dst, src);
    }

    method SwapRest(dst: Fblock, src: Fblock)
      requires Valid() && dst in blocks && src in blocks && dst != src
      modifies dst, src, `graph
      ensures Valid() && graph == RestSwapped(old(graph), dst, src)
    {
      assert Represents(dst) && Represents(src);
      var dstList := UpdateSelfref(src.notifiers, dst);
      var srcList := UpdateSelfref(dst.notifiers, src);
      var subOld, refOld := dst.others, dst.refcnt;
      Store(dst, src.name, src.idp, dstList, src.others, src.refcnt);
      Store(src, src.name, src.idp, srcList, subOld, refOld);
    }

    /** Write the fields of a block that are not its private data. */
    method Store(fb: Fblock, name: Name, idp: Idp, notifiers: seq<Notifier<Fblock>>, others: nat, refcnt: int)
      requires Valid() && fb in blocks
      modifies fb`name, fb`idp, fb`notifiers, fb`others, fb`refcnt, `graph
      ensures Valid()
      ensures graph == Modify(old(graph), fb,
                              Block(name, old(graph).blocks[fb].ftype, old(graph).blocks[fb].ports, notifiers, others,
                                    refcnt, idp))
    {
      assert Represents(fb);
      fb.name, fb.idp, fb.notifiers, fb.others, fb.refcnt := name, idp, notifiers, others, refcnt;
      Sync(fb);
    }

    // ---------- Registration ----------

    /** Out of registry and namespace, without dropping the registry's reference. */
    method UnregisterNamespaceNoRcu(fb: Fblock)
      requires Valid() && fb in blocks
      modifies `fblmap, `idpmap, `graph
      ensures Valid()
      ensures graph == Withdrawn(old(graph), fb)
    {
      assert Represents(fb);
      fblmap := fblmap - {fb.idp};
      idpmap := idpmap - {fb.name};
      graph := graph.(fblmap := fblmap, idpmap := idpmap);
      forall b | b in blocks ensures Represents(b) { assert old(Represents(b)); }
    }

    method UnregisterNamespace(fb: Fblock)
      requires Valid() && fb in blocks
      modifies fb, `fblmap, `idpmap, `dead, `graph
      ensures Valid() && graph == Unregister(old(graph), fb)
    {
      UnregisterNamespaceNoRcu(fb);
      Put(fb);
    }

    /** Out of the registry only; name and idp stay in use. */
    method UnregisterFblock(fb: Fblock)
      requires Valid() && fb in blocks
      modifies fb, `fblmap, `dead, `graph
      ensures Valid() && graph == Vacated(old(graph), fb)
    {
      assert Represents(fb);
      fblmap := fblmap - {fb.idp};
      graph := graph.(fblmap := fblmap);
      forall b | b in blocks ensures Represents(b) { assert old(Represents(b)); }
      Put(fb);
    }

    /** Into the registry under a given idp. */
    method RegisterFblock(fb: Fblock, i: Idp) returns (ret: int)
      requires Valid() && fb in blocks
      modifies fb`idp, `fblmap, `graph
      ensures Valid()
      ensures ret == if i in old(fblmap) then -EEXIST else 0
      ensures graph == Modify(old(graph), fb, old(graph).blocks[fb].(idp := i))
                       .(fblmap := if i in old(fblmap) then old(fblmap) else old(fblmap)[i := fb])
    {
      assert Represents(fb);
      fb.idp := i;
      Sync(fb);
      ret := -EEXIST;
      if i !in fblmap {
        EnterRegistry(fb, i);
        ret := 0;
      }
    }

    method EnterRegistry(fb: Fblock, i: Idp)
      requires Valid()
      modifies `fblmap, `graph
      ensures Valid() && fblmap == old(fblmap)[i := fb] && graph == old(graph).(fblmap := fblmap)
    {
      fblmap := fblmap[i := fb];
      graph := graph.(fblmap := fblmap);
      forall b | b in blocks ensures Represents(b) { assert old(Represents(b)); }
    }

    // ---------- Looking blocks up ----------

    /** The block a name leads to, with a reference taken on it. */
    method SearchByName(n: Name) returns (fb: Fblock?)
      requires Valid() && NoDangling(graph)
      modifies blocks`refcnt, `graph
      ensures Valid()
      ensures if Found(old(graph), n) then fb == Ref(old(graph), n) && graph == Take(old(graph), fb)
              else fb == null && graph == old(graph)
    {
      fb := null;
      var id := if n in idpmap then idpmap[n] else IDP_UNKNOWN;
      if n in idpmap && id in fblmap {
        fb := fblmap[id];
        Get(fb);
        Hold(fb, true);
      }
    }

    /** The reference just taken is not given back. */
    ghost method Retain(fb: Fblock)
      requires Valid()
      modifies `graph
      ensures Valid() && graph == Keep(old(graph), fb)
    {
      graph := Keep(graph, fb);
      forall b | b in blocks ensures Represents(b) { assert old(Represents(b)); }
    }

    /** The end of a command's or a traversal's use of a block. */
    method PutBack(fb: Fblock)
      requires Valid() && fb in blocks
      modifies fb`refcnt, `dead, `graph
      ensures Valid() && graph == Release(old(graph), fb)
    {
      Put(fb);
      Hold(fb, false);
    }

    /** Note that a reference is now held, or no longer held, by a command or a traversal. */
    ghost method Hold(fb: Fblock, taken: bool)
      requires Valid()
      modifies `graph
      ensures Valid() && graph == old(graph).(held := if taken then old(graph).held + multiset{fb}
                                              else old(graph).held - multiset{fb})
    {
      graph := graph.(held := if taken then graph.held + multiset{fb} else graph.held - multiset{fb});
      forall b | b in blocks ensures Represents(b) { assert old(Represents(b)); }
    }

    /** A new block enters the registry under the next idp and the namespace under its name. */
    method RegisterNamespace(fb: Fblock) returns (ret: int)
      requires Valid() && fb !in blocks && fb.privateData.Length == cpus && fb.privateData !in owner
      modifies this, fb`idp
      ensures Valid()
      ensures (graph, ret) == Registration(old(graph), fb, old(fb.Value()).(idp := (old(counter) + 1) % IDP_SPACE))
    {
      NextIdp(fb);
      if fb.idp in fblmap { return -EEXIST; }
      InsertIdp(fb);
      if fb.name in idpmap { return -EEXIST; }
      InsertName(fb);
      ret := 0;
    }

    method NextIdp(fb: Fblock)
      requires Valid() && fb !in blocks
      modifies `counter, `graph, fb`idp
      ensures Valid() && fb.idp == (old(counter) + 1) % IDP_SPACE && graph == old(graph).(counter := old(counter) + 1)
    {
      counter := counter + 1;
      fb.idp := counter % IDP_SPACE;
      graph := graph.(counter := counter);
      forall b | b in blocks ensures Represents(b) { assert old(Represents(b)); }
    }

    method InsertIdp(fb: Fblock)
      requires Valid()
      modifies `fblmap, `graph
      ensures Valid() && graph == old(graph).(fblmap := old(graph).fblmap[fb.idp := fb])
    {
      fblmap := fblmap[fb.idp := fb];
      graph := graph.(fblmap := fblmap);
      forall b | b in blocks ensures Represents(b) { assert old(Represents(b)); }
    }

    method InsertName(fb: Fblock)
      requires Valid() && fb !in blocks && fb.privateData.Length == cpus && fb.privateData !in owner
      modifies `idpmap, `blocks, `owner, `graph
      ensures Valid() && graph == old(graph).(idpmap := old(graph).idpmap[fb.name := fb.idp],
                                              blocks := old(graph).blocks[fb := fb.Value()])
      ensures blocks == old(blocks) + {fb}
    {
      idpmap := idpmap[fb.name := fb.idp];
      blocks, owner := blocks + {fb}, owner[fb.privateData := fb];
      graph := graph.(idpmap := idpmap, blocks := graph.blocks[fb := fb.Value()]);
      forall b | b in blocks ensures Represents(b) { if b in old(blocks) { assert old(Represents(b)); } }
    }
  }

  lemma DropRefIs<P>(s: State<P>, p: P, b: Block<P>, dead: multiset<P>)
    requires p in s.blocks && b == s.blocks[p].(refcnt := s.blocks[p].refcnt - 1)
    requires dead == if b.refcnt == 0 && b.ftype.Some? then s.dead + multiset{p} else s.dead
    ensures s.(blocks := s.blocks[p := b], dead := dead) == DropRef(s, p)
  {
  }

  /** What registering the new block b as the object p comes to. */
  ghost function Registration<P>(s: State<P>, p: P, b: Block<P>): (State<P>, int) {
    var t := s.(counter := s.counter + 1);
    if b.idp in s.fblmap then (t, -EEXIST)
    else if b.name in s.idpmap then (t.(fblmap := s.fblmap[b.idp := p]), -EEXIST)
    else (t.(fblmap := s.fblmap[b.idp := p], idpmap := s.idpmap[b.name := b.idp], blocks := s.blocks[p := b]), 0)
  }

  /** Every registered idp leads to an object that exists. */
  ghost predicate NoDangling<P>(s: State<P>) {
    forall i | i in s.fblmap :: s.fblmap[i] in s.blocks
  }

  /** The ports a bind needs are free. */
  predicate FreePorts<P>(s: State<P>, p1: P, p2: P)
    requires p1 in s.blocks && p2 in s.blocks
  {
    Port(s.blocks[p1], Egress) == IDP_UNKNOWN && Port(s.blocks[p2], Ingress) == IDP_UNKNOWN
  }

  /** A block after its event handler replaced a port value, CPU by CPU, as far as it got. */
  ghost function PortsWritten<P>(s: State<P>, p: P, d: Dir, from: Idp, i: Idp): State<P>
    requires p in s.blocks
  {
    var b := s.blocks[p];
    Modify(s, p, b.(ports := SetPrefix(b.ports, Leading(b.ports, d, from), d, i)))
  }

  /** The first entry for the remote block is not at the head of the list. */
  predicate BeyondHead<P>(l: seq<Notifier<P>>, r: Idp) {
    l != [] && l[0].remote != r && Count(l, r) > 0
  }

  lemma UnsubscribeOrder<P>(s: State<P>, us: P, remote: P, l: seq<Notifier<P>>)
    requires us in s.blocks && remote in s.blocks && s.blocks[us].notifiers != []
             && l == RemoveFirst(s.blocks[us].notifiers, s.blocks[remote].idp)
    ensures DropRef(DropRef(Modify(s, us, s.blocks[us].(notifiers := l)), us), remote) == Unsubscribe(s, us, remote)
  {
  }

  lemma SubscribeOrder<P>(s: State<P>, us: P, remote: P)
    requires us in s.blocks && remote in s.blocks
    ensures var t := AddRefs(AddRefs(s, us, 1), remote, 1);
            Modify(t, us, t.blocks[us].(notifiers := [Notifier(us, s.blocks[remote].idp)] + s.blocks[us].notifiers))
                == Subscribe(s, us, remote)
  {
    var t := AddRefs(AddRefs(s, us, 1), remote, 1);
    var l := [Notifier(us, s.blocks[remote].idp)] + s.blocks[us].notifiers;
    assert Modify(t, us, t.blocks[us].(notifiers := l)).blocks == Subscribe(s, us, remote).blocks;
  }

  /** The search for an entry: the head is compared on its own, the others one step ahead. */
  method WithoutFirst<P>(l: seq<Notifier<P>>, r: Idp) returns (rest: seq<Notifier<P>>, found: bool)
    requires l != []
    ensures rest == RemoveFirst(l, r)
    ensures found <==> BeyondHead(l, r)
  {
    found := false;
    if l[0].remote == r { return l[1..], false; }
    var fn := 0;
    while fn + 1 < |l|
      invariant fn < |l| && !found
      invariant forall k | 0 <= k <= fn :: l[k].remote != r
    {
      if l[fn + 1].remote == r {
        FirstAt(l, r, fn + 1);
        return l[..fn + 1] + l[fn + 2..], true;
      }
      fn := fn + 1;
    }
    NoneAt(l, r);
    rest := l;
  }

  lemma {:induction false} FirstAt<P>(l: seq<Notifier<P>>, r: Idp, k: nat)
    requires k < |l| && l[k].remote == r && forall j | 0 <= j < k :: l[j].remote != r
    ensures RemoveFirst(l, r) == l[..k] + l[k + 1..] && Count(l, r) > 0
  {
    if k == 0 {
    } else {
      FirstAt(l[1..], r, k - 1);
      assert [l[0]] + (l[1..][..k - 1] + l[1..][k..]) == l[..k] + l[k + 1..];
    }
  }

  lemma {:induction false} NoneAt<P>(l: seq<Notifier<P>>, r: Idp)
    requires forall j | 0 <= j < |l| :: l[j].remote != r
    ensures RemoveFirst(l, r) == l && Count(l, r) == 0
  {
    if l == [] {
    } else {
      NoneAt(l[1..], r);
    }
  }

  // ---------- Steps of bind and unbind on values ----------

  lemma LeadingAll(ports: seq<Ports>, d: Dir, i: Idp, cpus: nat)
    requires SameOnAllCpus(ports, cpus) && cpus > 0
    ensures Leading(ports, d, i) == if PortOf(ports[0], d) == i then cpus else 0
  {
    LeadingUnique(ports, d, i, if PortOf(ports[0], d) == i then cpus else 0);
  }

  /** With equal replicas an event handler changes the port on all CPUs or on none. */
  lemma AllOrNone<P>(s: State<P>, p: P, d: Dir, from: Idp, i: Idp)
    requires Replicas(s) && p in s.blocks
    ensures Leading(s.blocks[p].ports, d, from) == s.cpus <==> Port(s.blocks[p], d) == from
    ensures PortsWritten(s, p, d, from, i) == if Port(s.blocks[p], d) == from then SetPort(s, p, d, i, 0) else s
  {
    var b := s.blocks[p];
    assert SameOnAllCpus(b.ports, s.cpus);
    LeadingAll(b.ports, d, from, s.cpus);
    SetPrefixIs(b.ports, SetAll(b.ports, d, i), s.cpus, d, i);
    SetPrefixIs(b.ports, b.ports, 0, d, i);
    assert s.blocks[p := b] == s.blocks;
  }

  lemma SetPortReplicas<P>(s: State<P>, p: P, d: Dir, i: Idp)
    requires Replicas(s) && p in s.blocks
    ensures Replicas(SetPort(s, p, d, i, 0))
  {
    assert SameOnAllCpus(s.blocks[p].ports, s.cpus);
    SetAllPort(s.blocks[p].ports, d, i, s.cpus);
    forall q | q in s.blocks ensures SameOnAllCpus(SetPort(s, p, d, i, 0).blocks[q].ports, s.cpus) {
      assert SameOnAllCpus(s.blocks[q].ports, s.cpus);
    }
  }

  lemma AddRefsReplicas<P>(s: State<P>, p: P, k: int)
    requires Replicas(s) && p in s.blocks
    ensures Replicas(AddRefs(s, p, k))
  {
    forall q | q in s.blocks ensures SameOnAllCpus(AddRefs(s, p, k).blocks[q].ports, s.cpus) {
      assert SameOnAllCpus(s.blocks[q].ports, s.cpus);
    }
  }

  /** Setting a free port and clearing it again restores every replica. */
  lemma SetAndClear<P>(s: State<P>, p: P, d: Dir, i: Idp)
    requires Replicas(s) && p in s.blocks && Port(s.blocks[p], d) == IDP_UNKNOWN
    ensures SetPort(SetPort(s, p, d, i, 0), p, d, IDP_UNKNOWN, 0) == s
    ensures Port(SetPort(s, p, d, i, 0).blocks[p], d) == i
  {
    var b := s.blocks[p];
    assert SameOnAllCpus(b.ports, s.cpus);
    assert SetAll(SetAll(b.ports, d, i), d, IDP_UNKNOWN) == b.ports;
    assert s.blocks[p := b] == s.blocks;
    assert SetPort(SetPort(s, p, d, i, 0), p, d, IDP_UNKNOWN, 0).blocks == s.blocks;
  }

  lemma GetBothPutBoth<P>(s: State<P>, p1: P, p2: P)
    requires p1 in s.blocks && p2 in s.blocks && s.blocks[p1].refcnt > 0 && s.blocks[p2].refcnt > 0
    ensures DropRef(DropRef(AddRefs(AddRefs(s, p1, 1), p2, 1), p1), p2) == s
  {
    assert DropRef(DropRef(AddRefs(AddRefs(s, p1, 1), p2, 1), p1), p2).blocks == s.blocks;
  }

  lemma GetThenSet<P>(s: State<P>, p1: P, p2: P, i1: Idp, i2: Idp)
    requires p1 in s.blocks && p2 in s.blocks
    ensures SetPort(SetPort(AddRefs(AddRefs(s, p1, 1), p2, 1), p1, Egress, i2, 0), p2, Ingress, i1, 0)
         == SetPort(SetPort(s, p1, Egress, i2, 1), p2, Ingress, i1, 1)
  {
    assert SetPort(SetPort(AddRefs(AddRefs(s, p1, 1), p2, 1), p1, Egress, i2, 0), p2, Ingress, i1, 0).blocks
        == SetPort(SetPort(s, p1, Egress, i2, 1), p2, Ingress, i1, 1).blocks;
  }

  lemma PortsAfterGet<P>(s: State<P>, p1: P, p2: P, p: P)
    requires p1 in s.blocks && p2 in s.blocks && p in s.blocks
    ensures AddRefs(AddRefs(s, p1, 1), p2, 1).blocks[p].ports == s.blocks[p].ports
  {
  }

  lemma OtherPortKept<P>(s: State<P>, p: P, q: P, i: Idp)
    requires Replicas(s) && p in s.blocks && q in s.blocks
    ensures Port(SetPort(s, p, Egress, i, 0).blocks[q], Ingress) == Port(s.blocks[q], Ingress)
    ensures Port(SetPort(s, p, Ingress, i, 0).blocks[q], Egress) == Port(s.blocks[q], Egress)
  {
    assert SameOnAllCpus(s.blocks[p].ports, s.cpus);
  }

  /** The first event of a bind. */
  lemma FirstBindStep<P>(s: State<P>, a: State<P>, p1: P, p2: P)
    requires Replicas(s) && p1 in s.blocks && p2 in s.blocks && a == AddRefs(AddRefs(s, p1, 1), p2, 1)
    ensures Replicas(a) && FreePorts(a, p1, p2) == FreePorts(s, p1, p2)
    ensures Port(a.blocks[p1], Egress) == Port(s.blocks[p1], Egress)
            && Port(a.blocks[p2], Ingress) == Port(s.blocks[p2], Ingress)
    ensures a.blocks[p1].idp == s.blocks[p1].idp && a.blocks[p2].idp == s.blocks[p2].idp
    ensures Leading(a.blocks[p1].ports, Egress, IDP_UNKNOWN) == s.cpus <==> Port(s.blocks[p1], Egress) == IDP_UNKNOWN
    ensures PortsWritten(a, p1, Egress, IDP_UNKNOWN, s.blocks[p2].idp) ==
              if Port(s.blocks[p1], Egress) == IDP_UNKNOWN then SetPort(a, p1, Egress, s.blocks[p2].idp, 0) else a
  {
    AddRefsReplicas(s, p1, 1);
    AddRefsReplicas(AddRefs(s, p1, 1), p2, 1);
    PortsAfterGet(s, p1, p2, p1);
    PortsAfterGet(s, p1, p2, p2);
    AllOrNone(a, p1, Egress, IDP_UNKNOWN, s.blocks[p2].idp);
  }

  /** The second event of a bind, and the way back when it is refused. */
  lemma SecondBindStep<P>(a: State<P>, p1: P, p2: P, i1: Idp, i2: Idp)
    requires Replicas(a) && p1 in a.blocks && p2 in a.blocks && Port(a.blocks[p1], Egress) == IDP_UNKNOWN
    ensures var b := SetPort(a, p1, Egress, i2, 0);
            && (Leading(b.blocks[p2].ports, Ingress, IDP_UNKNOWN) == a.cpus <==>
                Port(a.blocks[p2], Ingress) == IDP_UNKNOWN)
            && PortsWritten(b, p2, Ingress, IDP_UNKNOWN, i1) ==
                 (if Port(a.blocks[p2], Ingress) == IDP_UNKNOWN then SetPort(b, p2, Ingress, i1, 0) else b)
            && Leading(b.blocks[p1].ports, Egress, i2) == a.cpus
            && PortsWritten(b, p1, Egress, i2, IDP_UNKNOWN) == a
  {
    var b := SetPort(a, p1, Egress, i2, 0);
    SetPortReplicas(a, p1, Egress, i2);
    OtherPortKept(a, p1, p2, i2);
    AllOrNone(b, p2, Ingress, IDP_UNKNOWN, i1);
    SetAndClear(a, p1, Egress, i2);
    AllOrNone(b, p1, Egress, i2, IDP_UNKNOWN);
  }

  lemma BoundSteps<P>(s: State<P>, a: State<P>, p1: P, p2: P)
    requires p1 in s.blocks && p2 in s.blocks && a == AddRefs(AddRefs(s, p1, 1), p2, 1)
    ensures var t := SetPort(SetPort(a, p1, Egress, s.blocks[p2].idp, 0), p2, Ingress, s.blocks[p1].idp, 0);
            Subscribe(Subscribe(t, p1, p2), p2, p1) == Bound(s, p1, p2)
  {
    GetThenSet(s, p1, p2, s.blocks[p1].idp, s.blocks[p2].idp);
  }

  // ---------- Steps of a replace on values ----------

  method UpdateSelfref<P>(l: seq<Notifier<P>>, self: P) returns (r: seq<Notifier<P>>)
    ensures r == Reown(l, self)
  {
    r := l;
    var head := 0;
    while head < |r|
      invariant 0 <= head <= |r| == |l|
      invariant forall k | 0 <= k < head :: r[k] == l[k].(self := self)
      invariant forall k | head <= k < |r| :: r[k] == l[k]
    {
      r := r[head := r[head].(self := self)];
      head := head + 1;
    }
  }

  lemma SwapWhileHeld<P>(s: State<P>, a: State<P>, p: P, q: P)
    requires p in s.blocks && q in s.blocks && p != q && s.blocks[p].refcnt > 0 && s.blocks[q].refcnt > 0
             && a == AddRefs(AddRefs(s, p, 1), q, 1)
    ensures DropRef(DropRef(PortsSwapped(a, p, q), p), q) == PortsSwapped(s, p, q)
  {
    assert DropRef(DropRef(PortsSwapped(a, p, q), p), q).blocks == PortsSwapped(s, p, q).blocks;
  }

  lemma RestSwapWhileHeld<P>(s: State<P>, a: State<P>, p: P, q: P)
    requires p in s.blocks && q in s.blocks && p != q && s.blocks[p].refcnt > 0 && s.blocks[q].refcnt > 0
             && a == AddRefs(AddRefs(s, p, 1), q, 1)
    ensures DropRef(DropRef(RestSwapped(a, p, q), p), q) == RestSwapped(s, p, q)
  {
    assert DropRef(DropRef(RestSwapped(a, p, q), p), q).blocks == RestSwapped(s, p, q).blocks;
  }
}
