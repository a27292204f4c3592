/** The functional-block graph as a value: registry, namespace, replicated ports, notifier lists
    and reference counts, and what each control command does to them. `P` is the type of pointers
    to block objects. */
module FblockGraph {
  import opened Common

  type Name = string

  const FBNAMSIZ := 16
  const IDP_SPACE := 0x1_0000_0000

  /** One CPU's copy of a block's two ports. */
  datatype Ports = Ports(ingress: Idp, egress: Idp)

  const NO_PORTS := Ports(IDP_UNKNOWN, IDP_UNKNOWN)

  datatype Dir = Ingress | Egress

  function PortOf(p: Ports, d: Dir): Idp {
    if d.Ingress? then p.ingress else p.egress
  }

  function WithPort(p: Ports, d: Dir, i: Idp): Ports {
    if d.Ingress? then p.(ingress := i) else p.(egress := i)
  }

  /** An entry in a block's own list: `self` wants to hear about the block with idp `remote`. */
  datatype Notifier<P> = Notifier(self: P, remote: Idp)

  /** A block object. `ftype` is its factory's type; blocks of the vlink layer have no factory. `others`
      identifies its chain of subscribers. */
  datatype Block<P> = Block(name: Name, ftype: Option<string>, ports: seq<Ports>, notifiers: seq<Notifier<P>>,
                            others: nat, refcnt: int, idp: Idp)

  /** `blocks` holds every object ever built; `dead` counts how often each was handed to the free
      callback. `held` are the references that packet traversals and commands hold; `kept` are those among
      them that a command took and never gives back. */
  datatype State<P> = State(cpus: nat, blocks: map<P, Block<P>>, fblmap: map<Idp, P>, idpmap: map<Name, Idp>,
                            counter: nat, dead: multiset<P>, held: multiset<P>, kept: multiset<P>)

  // ---------- Primitive effects ----------

  function Modify<P(==)>(s: State<P>, p: P, b: Block<P>): State<P> {
    s.(blocks := s.blocks[p := b])
  }

  function AddRefs<P(==)>(s: State<P>, p: P, k: int): (r: State<P>)
    requires p in s.blocks
    ensures r.blocks.Keys == s.blocks.Keys
  {
    Modify(s, p, s.blocks[p].(refcnt := s.blocks[p].refcnt + k))
  }

  /** Drop one reference; the drop that reaches 0 schedules the free of a block that has a factory. */
  function DropRef<P(==)>(s: State<P>, p: P): (r: State<P>)
    requires p in s.blocks
    ensures r.blocks.Keys == s.blocks.Keys
  {
    var t := AddRefs(s, p, -1);
    if t.blocks[p].refcnt == 0 && t.blocks[p].ftype.Some? then t.(dead := s.dead + multiset{p}) else t
  }

  function SetAll(ports: seq<Ports>, d: Dir, i: Idp): seq<Ports> {
    seq(|ports|, c requires 0 <= c < |ports| => WithPort(ports[c], d, i))
  }

  /** Set a port on every CPU and account for it by k references. */
  function SetPort<P(==)>(s: State<P>, p: P, d: Dir, i: Idp, k: int): (r: State<P>)
    requires p in s.blocks
    ensures r.blocks.Keys == s.blocks.Keys
  {
    var b := s.blocks[p];
    Modify(s, p, b.(ports := SetAll(b.ports, d, i), refcnt := b.refcnt + k))
  }

  /** The list without its first entry for the remote. */
  function RemoveFirst<P>(l: seq<Notifier<P>>, remote: Idp): seq<Notifier<P>> {
    if l == [] then []
    else if l[0].remote == remote then l[1..]
    else [l[0]] + RemoveFirst(l[1..], remote)
  }

  function Count<P>(l: seq<Notifier<P>>, remote: Idp): nat {
    if l == [] then 0 else (if l[0].remote == remote then 1 else 0) + Count(l[1..], remote)
  }

  /** Enter a notifier into us's list; both blocks gain a reference. */
  function Subscribe<P(==)>(s: State<P>, us: P, remote: P): (r: State<P>)
    requires us in s.blocks && remote in s.blocks
    ensures r.blocks.Keys == s.blocks.Keys
  {
    var b := s.blocks[us];
    var t := Modify(s, us, b.(notifiers := [Notifier(us, s.blocks[remote].idp)] + b.notifiers, refcnt := b.refcnt + 1));
    AddRefs(t, remote, 1)
  }

  /** Take the first notifier for the remote out of us's list. The references are dropped whether
      or not one was found, unless the list was empty. */
  function Unsubscribe<P(==)>(s: State<P>, us: P, remote: P): (r: State<P>)
    requires us in s.blocks && remote in s.blocks
    ensures r.blocks.Keys == s.blocks.Keys
  {
    var b := s.blocks[us];
    if b.notifiers == [] then s
    else
      var t := Modify(s, us, b.(notifiers := RemoveFirst(b.notifiers, s.blocks[remote].idp)));
      DropRef(DropRef(t, us), remote)
  }

  // ---------- Looking at a state ----------

  /** The object a name leads to. */
  predicate Found<P>(s: State<P>, n: Name) {
    n in s.idpmap && s.idpmap[n] in s.fblmap && s.fblmap[s.idpmap[n]] in s.blocks
  }

  function Ref<P>(s: State<P>, n: Name): P
    requires Found(s, n)
  {
    s.fblmap[s.idpmap[n]]
  }

  predicate Live<P>(s: State<P>, i: Idp) {
    i in s.fblmap && s.fblmap[i] in s.blocks
  }

  function BlockAt<P>(s: State<P>, i: Idp): Block<P>
    requires Live(s, i)
  {
    s.blocks[s.fblmap[i]]
  }

  /** A block's port, as the first CPU has it. */
  function Port<P>(b: Block<P>, d: Dir): Idp {
    if b.ports == [] then IDP_UNKNOWN else PortOf(b.ports[0], d)
  }

  function BoundPorts<P>(b: Block<P>): nat {
    (if Port(b, Ingress) != IDP_UNKNOWN then 1 else 0) + (if Port(b, Egress) != IDP_UNKNOWN then 1 else 0)
  }

  /** How many of the block's ports lead to i. */
  function Bindings<P>(b: Block<P>, i: Idp): nat {
    (if Port(b, Ingress) == i then 1 else 0) + (if Port(b, Egress) == i then 1 else 0)
  }

  predicate Registered<P(==)>(s: State<P>, p: P) {
    p in s.blocks && s.blocks[p].idp in s.fblmap && s.fblmap[s.blocks[p].idp] == p
  }

  // ---------- Commands ----------

  function Truncate(n: Name): Name {
    if |n| < FBNAMSIZ then n else n[..FBNAMSIZ - 1]
  }

  /** Register the new object p: next idp, registry, then namespace. */
  function Register<P(==)>(s: State<P>, n: Name, ftype: Option<string>, p: P, others: nat): (State<P>, int) {
    var i := (s.counter + 1) % IDP_SPACE;
    var t := s.(counter := s.counter + 1);
    var name := Truncate(n);
    if i in s.fblmap then (t, -ENOMEM)
    else if name in s.idpmap then (t.(fblmap := s.fblmap[i := p]), -ENOMEM)
    else
      var b := Block(name, ftype, seq(s.cpus, _ => NO_PORTS), [], others, 1, i);
      (t.(fblmap := s.fblmap[i := p], idpmap := s.idpmap[name := i], blocks := s.blocks[p := b]), 0)
  }

  /** Add a block of a type (`known` when a factory is registered for it) as the new object p. */
  function Add<P(==)>(s: State<P>, n: Name, ftype: string, known: bool, p: P, others: nat): (State<P>, int) {
    if Found(s, n) then (s, -EINVAL) else if !known then (s, -ENOMEM) else Register(s, n, Some(ftype), p, others)
  }

  predicate HasFactory<P>(s: State<P>, p: P)
    requires p in s.blocks
  {
    s.blocks[p].ftype.Some?
  }

  /** A reference held by a packet traversal or by a command that is running. */
  function Take<P(==)>(s: State<P>, p: P): (r: State<P>)
    requires p in s.blocks
    ensures r.blocks.Keys == s.blocks.Keys
  {
    AddRefs(s, p, 1).(held := s.held + multiset{p})
  }

  function Release<P(==)>(s: State<P>, p: P): (r: State<P>)
    requires p in s.blocks
    ensures r.blocks.Keys == s.blocks.Keys
  {
    DropRef(s, p).(held := s.held - multiset{p})
  }

  /** Remove the named block if nobody but the registry and this command refers to it. */
  function Remove<P(==)>(s: State<P>, n: Name): (State<P>, int) {
    if !Found(s, n) then (s, -EINVAL)
    else
      var p := Ref(s, n);
      var t := Take(s, p);
      if !HasFactory(t, p) then (Release(t, p), -EINVAL)
      else if t.blocks[p].refcnt > 2 then (Release(t, p), -EBUSY)
      else (Release(Unregister(t, p), p), 0)
  }

  /** Out of registry and namespace, and the registry's reference dropped. */
  function Unregister<P(==)>(s: State<P>, p: P): (r: State<P>)
    requires p in s.blocks
    ensures r.blocks.Keys == s.blocks.Keys
  {
    var b := s.blocks[p];
    DropRef(s.(fblmap := s.fblmap - {b.idp}, idpmap := s.idpmap - {b.name}), p)
  }

  /** The commands that name two blocks. */
  datatype PairOp = DoBind | DoUnbind | DoReplace(drop: bool) | DoSubscribe | DoUnsubscribe

  /** What a two-block command does once both blocks are looked up and held. */
  function Core<P(==)>(s: State<P>, op: PairOp, p1: P, p2: P): (r: (State<P>, int))
    requires p1 in s.blocks && p2 in s.blocks
    ensures r.0.blocks.Keys == s.blocks.Keys
  {
    match op
    case DoBind =>
      if Port(s.blocks[p1], Egress) != IDP_UNKNOWN || Port(s.blocks[p2], Ingress) != IDP_UNKNOWN then (s, -EBUSY)
      else (Bound(s, p1, p2), 0)
    case DoUnbind =>
      if Port(s.blocks[p1], Egress) != s.blocks[p2].idp then (s, -EBUSY)
      else if Port(s.blocks[p2], Ingress) != s.blocks[p1].idp then
        (DropRef(SetPort(s, p1, Egress, IDP_UNKNOWN, 0), p1), -EBUSY)
      else (Unbound(s, p1, p2), 0)
    case DoReplace(drop) =>
      if s.blocks[p2].refcnt > 2 then (s, -EBUSY)
      else (Replaced(s, p1, p2, s.blocks[p1].ftype == s.blocks[p2].ftype && !drop), 0)
    case DoSubscribe => (Subscribe(s, p2, p1), 0)
    case DoUnsubscribe => (Unsubscribe(s, p2, p1), 0)
  }

  /** Bind the egress port of the first block to the second, and the second's ingress port back. */
  function Bound<P(==)>(s: State<P>, p1: P, p2: P): (r: State<P>)
    requires p1 in s.blocks && p2 in s.blocks
    ensures r.blocks.Keys == s.blocks.Keys
  {
    var t := SetPort(SetPort(s, p1, Egress, s.blocks[p2].idp, 1), p2, Ingress, s.blocks[p1].idp, 1);
    Subscribe(Subscribe(t, p1, p2), p2, p1)
  }

  function Unbound<P(==)>(s: State<P>, p1: P, p2: P): (r: State<P>)
    requires p1 in s.blocks && p2 in s.blocks
    ensures r.blocks.Keys == s.blocks.Keys
  {
    var t := SetPort(SetPort(s, p1, Egress, IDP_UNKNOWN, 0), p2, Ingress, IDP_UNKNOWN, 0);
    DropRef(DropRef(Unsubscribe(Unsubscribe(t, p1, p2), p2, p1), p2), p1)
  }

  function Reown<P>(l: seq<Notifier<P>>, p: P): seq<Notifier<P>> {
    seq(|l|, k requires 0 <= k < |l| => l[k].(self := p))
  }

  // ---------- Steps of a replace ----------

  /** A block out of registry and namespace, with the registry's reference kept. */
  function Withdrawn<P(==)>(s: State<P>, p: P): (r: State<P>)
    requires p in s.blocks
    ensures r.blocks == s.blocks
  {
    s.(fblmap := s.fblmap - {s.blocks[p].idp}, idpmap := s.idpmap - {s.blocks[p].name})
  }

  /** Two blocks exchange their private data. */
  function PortsSwapped<P(==)>(s: State<P>, p: P, q: P): (r: State<P>)
    requires p in s.blocks && q in s.blocks
    ensures r.blocks.Keys == s.blocks.Keys
  {
    s.(blocks := s.blocks[p := s.blocks[p].(ports := s.blocks[q].ports)][q := s.blocks[q].(ports := s.blocks[p].ports)])
  }

  /** dst takes over name and idp of src, and the two exchange lists, subscribers and counts. */
  function RestSwapped<P(==)>(s: State<P>, dst: P, src: P): (r: State<P>)
    requires dst in s.blocks && src in s.blocks
    ensures r.blocks.Keys == s.blocks.Keys
  {
    var d, b := s.blocks[dst], s.blocks[src];
    s.(blocks := s.blocks[dst := Block(b.name, d.ftype, d.ports, Reown(b.notifiers, dst), b.others, b.refcnt, b.idp)]
                         [src := b.(notifiers := Reown(d.notifiers, src), others := d.others, refcnt := d.refcnt)])
  }

  /** A block out of the registry only, and the registry's reference dropped. */
  function Vacated<P(==)>(s: State<P>, p: P): (r: State<P>)
    requires p in s.blocks
    ensures r.blocks.Keys == s.blocks.Keys
  {
    DropRef(s.(fblmap := s.fblmap - {s.blocks[p].idp}), p)
  }

  /** A block into the registry under the idp it carries. */
  function Occupied<P(==)>(s: State<P>, p: P): (r: State<P>)
    requires p in s.blocks
    ensures r.blocks == s.blocks
  {
    s.(fblmap := s.fblmap[s.blocks[p].idp := p])
  }

  /** The second block takes over the first one's place: name, idp, notifiers, subscribers and
      reference count. Ports move along only when `migrate` holds. */
  function Replaced<P(==)>(s: State<P>, p1: P, p2: P, migrate: bool): (r: State<P>)
    requires p1 in s.blocks && p2 in s.blocks
    ensures r.blocks.Keys == s.blocks.Keys
  {
    var b1, b2 := s.blocks[p1], s.blocks[p2];
    var new1 := Block(b1.name, b1.ftype, if migrate then b2.ports else b1.ports, Reown(b2.notifiers, p1), b2.others,
                      b2.refcnt, b1.idp);
    var new2 := Block(b1.name, b2.ftype, if migrate then b1.ports else b2.ports, Reown(b1.notifiers, p2), b1.others,
                      b1.refcnt, b1.idp);
    var t := s.(blocks := s.blocks[p1 := new1][p2 := new2], fblmap := (s.fblmap - {b2.idp})[b1.idp := p2],
                idpmap := s.idpmap - {b2.name});
    DropRef(t, p1)
  }

  /** A reference is never given back. */
  function Keep<P(==)>(s: State<P>, p: P): State<P> {
    s.(kept := s.kept + multiset{p})
  }

  /** A two-block command: look both names up, work, put both references back. A replace returns where it
      meets a block without a factory, and keeps the reference it has just taken on it. */
  function Pair<P(==)>(s: State<P>, op: PairOp, n1: Name, n2: Name): (State<P>, int) {
    if !Found(s, n1) then (s, -EINVAL)
    else
      var p1 := Ref(s, n1);
      var t1 := Take(s, p1);
      if op.DoReplace? && !HasFactory(t1, p1) then (Keep(t1, p1), -EINVAL)
      else if !Found(t1, n2) then (Release(t1, p1), -EINVAL)
      else
        var p2 := Ref(t1, n2);
        var t2 := Take(t1, p2);
        if op.DoReplace? && !HasFactory(t2, p2) then (Keep(Release(t2, p1), p2), -EINVAL)
        else
          var (u, ret) := Core(t2, op, p1, p2);
          (Release(Release(u, p1), p2), ret)
  }
}
