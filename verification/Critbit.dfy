/** The crit-bit tree code on node objects: loops that follow tagged pointers and update child
    slots in place. */
module Critbit {
  import opened Common
  import opened CritbitKeys
  import opened CritbitModel
  import opened CritbitMemory

  const SMP_CACHE_BYTES := 64

  class CritbitNode {
    var child0: Ptr<CritbitNode>
    var child1: Ptr<CritbitNode>
    var byte: nat
    var otherbits: bv8

    /** A zeroed node with its critical bit filled in. */
    constructor (newbyte: nat, mask: bv8)
      ensures Now() == Fields(Null, Null, newbyte, mask)
    {
      child0, child1, byte, otherbits := Null, Null, newbyte, mask;
    }

    ghost function Now(): Fields<CritbitNode>
      reads this
    {
      Fields(child0, child1, byte, otherbits)
    }

    /** The direction the key's bits select here: the byte under the node's offset, or 0 past the
        end of the key, combined with the mask. */
    function Direct(key: Key): (right: bool)
      reads this
      ensures right <==> otherbits | ByteAt(key, byte) == 0xFF
    {
      var c := if byte < |key| then key[byte] else 0;
      Direction(otherbits, c) == 1
    }

    function GetSlot(right: bool): (p: Ptr<CritbitNode>)
      reads this
      ensures p == GetChild(Now(), right)
    {
      if right then child1 else child0
    }

    method SetSlot(right: bool, p: Ptr<CritbitNode>)
      modifies this
      ensures Now() == SetChild(old(Now()), right, p)
    {
      if right { child1 := p; } else { child0 := p; }
    }
  }

  ghost function Memory(nodes: set<CritbitNode>): map<CritbitNode, Fields<CritbitNode>>
    reads nodes
  {
    map q | q in nodes :: q.Now()
  }

  ghost function RootNodes(r: Root<CritbitNode>): set<CritbitNode> {
    if r.Empty? then {} else Nodes(r.t)
  }

  class CritbitTree {
    var root: Ptr<CritbitNode>
    ghost var model: Root<CritbitNode>

    /** The nodes reachable from the root are linked as the model tree says. */
    ghost predicate Linked()
      reads this, RootNodes(model)
    {
      && (model.Empty? ==> root == Null)
      && (model.Root? ==> Distinct(model.t) && Rep(Memory(Nodes(model.t)), root, model.t))
    }

    ghost predicate Valid()
      reads this, RootNodes(model)
    {
      RootWF(model) && Linked()
    }

    /** What the tree stores: each key with the element inserted under it. */
    ghost function Contents(): map<Key, Elem>
      reads this
    {
      RootContent(model)
    }

    constructor ()
      ensures Valid() && Contents() == map[]
    {
      root, model := Null, Empty;
    }

    /** The walk shared by lookup and insertion: from the root to the leaf the key's bits select. */
    method Walk(key: Key) returns (e: Elem)
      requires Linked() && model.Root?
      ensures e == Find(model.t, key)
    {
      var p := root;
      ghost var t := model.t;
      ghost var h := Memory(Nodes(model.t));
      while p.NodePtr?
        invariant Rep(h, p, t) && Nodes(t) <= Nodes(model.t)
        invariant Find(t, key) == Find(model.t, key)
        decreases t
      {
        assert p.q in Nodes(t) && h[p.q] == p.q.Now();
        var right := p.q.Direct(key);
        assert right == Bit(key, t.bit);
        p, t := p.q.GetSlot(right), Child(t, right);
      }
      e := p.e;
    }

    method Contains(key: Key) returns (found: bool)
      requires Valid()
      ensures found <==> key in Contents()
    {
      if root == Null { return false; }
      var e := Walk(key);
      FindDecides(model.t, key);
      found := e.name == key;
    }

    /** Returns the very element that was inserted under the key, or NULL. */
    method Get(key: Key) returns (p: Ptr<CritbitNode>)
      requires Valid()
      ensures p == if key in Contents() then ElemPtr(Contents()[key]) else Null
    {
      if root == Null { return Null; }
      var e := Walk(key);
      FindDecides(model.t, key);
      p := if e.name == key then ElemPtr(e) else Null;
    }

    /** Compare the new key with the leaf the walk reached: the first differing byte, or none. */
    method FirstDifference(p: Key, u: Key) returns (found: bool, newbyte: nat, mask: bv8)
      ensures found <==> p != u
      ensures found ==> FirstByteDiff(u, p, newbyte) && newbyte <= |p|
      ensures found ==> mask == OtherBits(HighIndex(ByteAt(u, newbyte) ^ ByteAt(p, newbyte)))
    {
      newbyte, found, mask := 0, false, 0;
      var newotherbits: bv32 := 0;
      while newbyte < |u|
        invariant newbyte <= |u| && newbyte <= |p|
        invariant forall i: nat | i < newbyte :: ByteAt(p, i) == ByteAt(u, i)
      {
        var c := if newbyte < |p| then p[newbyte] else 0;
        if c != u[newbyte] {
          newotherbits := (c ^ u[newbyte]) as bv32;
          found := true;
          break;
        }
        newbyte := newbyte + 1;
      }
      if !found && newbyte < |p| {
        newotherbits := p[newbyte] as bv32;
        found := true;
      }
      if found {
        assert newotherbits == (ByteAt(u, newbyte) ^ ByteAt(p, newbyte)) as bv32;
        mask := IsolateHighest(newotherbits);
      } else {
        SameBytesSameKey(p, u, |u|);
      }
    }

    /** `*wherep = p`: the single store that publishes a change. */
    method Store(slot: Slot<CritbitNode>, p: Ptr<CritbitNode>)
      modifies this`root, if slot.ChildSlot? then {slot.q} else {}
      ensures slot.RootSlot? ==> root == p
      ensures slot.ChildSlot? ==> root == old(root) && slot.q.Now() == SetChild(old(slot.q.Now()), slot.right, p)
    {
      match slot
      case RootSlot => root := p;
      case ChildSlot(q, right) => q.SetSlot(right, p);
    }

    /** The second insertion walk: the slot where the new node belongs. */
    method FindSlot(key: Key, newbyte: nat, mask: bv8, ghost n: nat, ghost e: Elem, ghost a: CritbitNode)
      returns (slot: Slot<CritbitNode>, p: Ptr<CritbitNode>)
      requires Linked() && model.Root? && e.name == key
      requires newbyte == n / 8 && mask == OtherBits(n % 8)
      ensures SpliceSlot(model.t, slot, n, e, a)
      ensures var sub := InSlot(model.t, slot); Rep(Memory(Nodes(model.t)), p, sub) && (sub.Leaf? || sub.bit > n)
    {
      ghost var h := Memory(Nodes(model.t));
      ghost var sub := model.t;
      slot, p := RootSlot, root;
      while p.NodePtr?
        invariant Rep(h, p, sub) && Nodes(sub) <= Nodes(model.t)
        invariant SpliceSlot(model.t, slot, n, e, a) && sub == InSlot(model.t, slot)
        decreases sub
      {
        var q := p.q;
        assert q == sub.at && h[q] == q.Now();
        PositionOrder(sub.bit, n);
        if q.byte > newbyte { break; }
        if q.byte == newbyte && q.otherbits > mask { break; }
        var right := q.Direct(key);
        assert right == Bit(key, sub.bit);
        SpliceSlotStep(model.t, slot, n, e, a);
        slot, p, sub := ChildSlot(q, right), q.GetSlot(right), Child(sub, right);
      }
    }

    /** The store of a new node into a slot of the tree. */
    method StoreNew(slot: Slot<CritbitNode>, newnode: CritbitNode, ghost nodes: set<CritbitNode>)
      requires newnode !in nodes && (slot.ChildSlot? ==> slot.q in nodes)
      modifies this`root, nodes
      ensures Stored(old(Memory(nodes)), Memory(nodes + {newnode}), old(root), root, nodes, slot, NodePtr(newnode))
      ensures newnode.Now() == old(newnode.Now())
    {
      Store(slot, NodePtr(newnode));
    }

    /** The same store, as what it makes of the tree. */
    method StoreSpliced(slot: Slot<CritbitNode>, newnode: CritbitNode, ghost t: Tree<CritbitNode>, q: Ptr<CritbitNode>,
                        ghost n: nat, ghost e: Elem)
      requires Rep(Memory(Nodes(t)), root, t) && Distinct(t) && newnode !in Nodes(t)
               && SpliceSlot(t, slot, n, e, newnode)
      requires var sub := InSlot(t, slot); Rep(Memory(Nodes(t)), q, sub) && (sub.Leaf? || sub.bit > n)
      requires newnode.byte == n / 8 && newnode.otherbits == OtherBits(n % 8)
      requires GetChild(newnode.Now(), Bit(e.name, n)) == ElemPtr(e) && GetChild(newnode.Now(), !Bit(e.name, n)) == q
      modifies this`root, Nodes(t)
      ensures var u := Splice(t, n, e, newnode);
              Rep(Memory(Nodes(u)), root, u) && Distinct(u) && Nodes(u) == Nodes(t) + {newnode}
    {
      ghost var h := Memory(Nodes(t));
      StoreNew(slot, newnode, Nodes(t));
      ghost var h' := Memory(Nodes(t) + {newnode});
      assert h'[newnode] == newnode.Now();
      SpliceRep(h, h', old(root), root, t, slot, n, e, newnode);
      assert Memory(Nodes(Splice(t, n, e, newnode))) == h';
    }

    /** Finishes and publishes an initialised node: its free child slot takes over what the tree
        slot holds, then one store makes it visible. */
    method Publish(newnode: CritbitNode, newdirection: bv16, slot: Slot<CritbitNode>, q: Ptr<CritbitNode>, ghost n: nat,
                   ghost e: Elem)
      requires Linked() && model.Root? && newnode !in Nodes(model.t)
      requires SpliceSlot(model.t, slot, n, e, newnode)
      requires var sub := InSlot(model.t, slot); Rep(Memory(Nodes(model.t)), q, sub) && (sub.Leaf? || sub.bit > n)
      requires newnode.byte == n / 8 && newnode.otherbits == OtherBits(n % 8)
      requires newdirection == 1 <==> !Bit(e.name, n)
      requires GetChild(newnode.Now(), Bit(e.name, n)) == ElemPtr(e)
      modifies this, RootNodes(model), newnode
      ensures Linked() && model == Root(Splice(old(model).t, n, e, newnode))
      ensures RootNodes(model) == old(RootNodes(model)) + {newnode}
    {
      ghost var t, h := model.t, Memory(Nodes(model.t));
      newnode.SetSlot(newdirection == 1, q);
      assert Memory(Nodes(t)) == h;
      StoreSpliced(slot, newnode, t, q, n, e);
      model := Root(Splice(t, n, e, newnode));
    }

    /** Allocates the node that separates the new element from the leaf p, whose first difference
        is known. The element goes on the side opposite to the leaf. */
    method MakeNode(elem: Elem, p: Elem, newbyte: nat, mask: bv8) returns (node: CritbitNode, newdirection: bv16)
      requires FirstByteDiff(elem.name, p.name, newbyte) && newbyte <= |p.name|
      requires mask == OtherBits(HighIndex(ByteAt(elem.name, newbyte) ^ ByteAt(p.name, newbyte)))
      ensures fresh(node) && elem.name != p.name
      ensures var n := CritBit(elem.name, p.name);
              && newbyte == n / 8 && mask == OtherBits(n % 8)
              && node.byte == newbyte && node.otherbits == mask
              && (newdirection == 1 <==> !Bit(elem.name, n))
              && GetChild(node.Now(), Bit(elem.name, n)) == ElemPtr(elem)
    {
      CritPosition(elem.name, p.name, newbyte);
      var c := if newbyte < |p.name| then p.name[newbyte] else 0;
      newdirection := Direction(mask, c);
      node := new CritbitNode(newbyte, mask);
      node.SetSlot(newdirection == 0, ElemPtr(elem));
    }

    /** Builds the node for a key whose first difference from the leaf p is known, and links it in. */
    method Link(elem: Elem, p: Elem, newbyte: nat, mask: bv8) returns (ghost node: CritbitNode)
      requires Linked() && model.Root?
      requires FirstByteDiff(elem.name, p.name, newbyte) && newbyte <= |p.name|
      requires mask == OtherBits(HighIndex(ByteAt(elem.name, newbyte) ^ ByteAt(p.name, newbyte)))
      modifies this, RootNodes(model)
      ensures Linked() && fresh(node) && RootNodes(model) == old(RootNodes(model)) + {node}
      ensures elem.name != p.name
      ensures model == Root(Splice(old(model).t, CritBit(elem.name, p.name), elem, node))
    {
      ghost var h := Memory(Nodes(model.t));
      var newnode, newdirection := MakeNode(elem, p, newbyte, mask);
      ghost var n := CritBit(elem.name, p.name);
      assert Memory(Nodes(model.t)) == h;
      var slot, q := FindSlot(elem.name, newbyte, mask, n, elem, newnode);
      assert Memory(Nodes(model.t)) == h;
      Publish(newnode, newdirection, slot, q, n, elem);
      node := newnode;
    }

    /** Inserts the element. `canAllocate` says whether the node allocation succeeds. */
    method Insert(elem: Elem, canAllocate: bool) returns (ret: int)
      requires Valid() && elem.addr % SMP_CACHE_BYTES == 0
      modifies this, RootNodes(model)
      ensures Valid() && fresh(RootNodes(model) - old(RootNodes(model)))
      ensures ret == -EEXIST <==> elem.name in old(Contents())
      ensures ret == -ENOMEM <==> elem.name !in old(Contents()) && old(model).Root? && !canAllocate
      ensures ret in {0, -EEXIST, -ENOMEM}
      ensures ret != 0 ==> model == old(model) && root == old(root)
      ensures ret == 0 ==> Contents() == old(Contents())[elem.name := elem]
      ensures ret == 0 && old(model).Empty? ==> model == Root(Leaf(elem))
      ensures ret == 0 && old(model).Root? ==> exists a :: model == InsertKey(old(model), elem, a)
    {
      if root == Null {
        root, model := ElemPtr(elem), Root(Leaf(elem));
        return 0;
      }
      ghost var h := Memory(Nodes(model.t));
      var p := Walk(elem.name);
      FindDecides(model.t, elem.name);
      var found, newbyte, mask := FirstDifference(p.name, elem.name);
      assert Memory(Nodes(model.t)) == h;
      if !found { return -EEXIST; }
      if !canAllocate { return -ENOMEM; }
      ghost var node := Link(elem, p, newbyte, mask);
      assert model == InsertKey(old(model), elem, node);
      InsertKeyRefines(old(model), elem, node);
      ret := 0;
    }

    /** The deletion walk: the leaf on the key's path, the slot holding its parent q, and the side
        of q the leaf hangs on. */
    method WalkToParent(key: Key)
        returns (p: Elem, whereq: Option<Slot<CritbitNode>>, q: Option<CritbitNode>, direction: bool)
      requires Linked() && model.Root?
      ensures p == Find(model.t, key)
      ensures whereq.None? == q.None? == model.t.Leaf?
      ensures whereq.Some? ==> UnlinkSlot(model.t, whereq.value, key)
      ensures whereq.Some? ==> q.value == InSlot(model.t, whereq.value).at
      ensures whereq.Some? ==> direction == Bit(key, InSlot(model.t, whereq.value).bit)
      ensures whereq.Some? ==> Child(InSlot(model.t, whereq.value), direction).Leaf?
    {
      ghost var t, h, sub := model.t, Memory(Nodes(model.t)), model.t;
      var ptr, wherep := root, RootSlot;
      whereq, q, direction := None, None, false;
      while ptr.NodePtr?
        invariant Rep(h, ptr, sub) && Nodes(sub) <= Nodes(t) && Find(sub, key) == Find(t, key)
        invariant whereq.None? == q.None?
        invariant whereq.None? ==> sub == t && wherep == RootSlot
        invariant whereq.Some? ==> UnlinkSlot(t, whereq.value, key) && q.value == InSlot(t, whereq.value).at
        invariant whereq.Some? ==>
                    direction == Bit(key, InSlot(t, whereq.value).bit) && wherep == ChildSlot(q.value, direction)
        invariant whereq.Some? ==> sub == Child(InSlot(t, whereq.value), direction)
        decreases sub
      {
        assert ptr.q == sub.at && h[ptr.q] == ptr.q.Now();
        if whereq.Some? { UnlinkSlotStep(t, whereq.value, key); }
        whereq, q := Some(wherep), Some(ptr.q);
        direction := ptr.q.Direct(key);
        assert direction == Bit(key, sub.bit);
        wherep := ChildSlot(ptr.q, direction);
        ptr, sub := ptr.q.GetSlot(direction), Child(sub, direction);
      }
      p := ptr.e;
    }

    /** Unlinks node q: its slot takes over the sibling of the leaf. */
    method UnlinkNode(whereq: Slot<CritbitNode>, q: CritbitNode, direction: bool, ghost key: Key)
      requires Linked() && model.Root? && UnlinkSlot(model.t, whereq, key)
      requires var c := InSlot(model.t, whereq);
               q == c.at && direction == Bit(key, c.bit) && Child(c, direction).Leaf?
      modifies this, RootNodes(model)
      ensures Linked() && model == Root(Unlink(old(model).t, key))
      ensures RootNodes(model) == old(RootNodes(model)) - {q}
      ensures q.Now() == old(q.Now())
    {
      ghost var t, h := model.t, Memory(Nodes(model.t));
      RepSlot(h, root, t, whereq);
      assert q in Nodes(t) && h[q] == q.Now();
      var sibling := q.GetSlot(!direction);
      Store(whereq, sibling);
      ghost var h' := Memory(Nodes(t));
      UnlinkRep(h, h', old(root), root, t, whereq, key);
      model := Root(Unlink(t, key));
      RepFrame(h', Memory(Nodes(model.t)), root, model.t);
    }

    /** Deletes the key. On success the parent of its leaf is unlinked. */
    method Delete(key: Key) returns (ret: int)
      requires Valid()
      modifies this, RootNodes(model)
      ensures Valid() && RootNodes(model) <= old(RootNodes(model))
      ensures ret == -ENOENT <==> old(model).Root? && key !in old(Contents())
      ensures ret in {0, -ENOENT}
      ensures model == DeleteKey(old(model), key)
      ensures Contents() == old(Contents()) - {key}
      ensures ret != 0 ==> root == old(root)
    {
      DeleteKeyRefines(model, key);
      if root == Null { return 0; }
      ghost var h := Memory(Nodes(model.t));
      var p, whereq, q, direction := WalkToParent(key);
      assert Memory(Nodes(model.t)) == h;
      FindDecides(model.t, key);
      if p.name != key { return -ENOENT; }
      if whereq.None? {
        root, model := Null, Empty;
        return 0;
      }
      UnlinkNode(whereq.value, q.value, direction, key);
      ret := 0;
    }
  }
}
