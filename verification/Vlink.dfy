/** The callback list of a virtual link subsystem, as a linked list changed in place, and the table of
    subsystems. */
module Vlink {
  import opened Common
  import opened VlinkList

  const MAX_VLINK_SUBSYSTEMS := 256

  class Subsys {
    var head: Callback?
    var id: nat
    /** The listed callbacks in order, and the same ones in the order they were added. */
    ghost var list: seq<Callback>
    ghost var arrivals: seq<Callback>

    /** The list is linked through its callbacks, in the one stable order. */
    ghost predicate Valid()
      reads this, list
    {
      && Distinct(list) && Stable(list, arrivals)
      && head == (if list == [] then null else list[0])
      && Linked(list)
    }

    constructor ()
      ensures Valid() && list == [] && arrivals == []
    {
      head, id, list, arrivals := null, 0, [], [];
    }

    /** Add a callback. One that is listed already and has others of its priority behind it cuts those
        off; one that has none behind it closes the list into a circle. */
    method AddCallback(cb: Callback)
      requires Valid()
      modifies this, list, cb
      ensures cb !in old(list) ==> Valid() && list == Inserted(old(list), cb) && arrivals == old(arrivals) + [cb]
      ensures cb in old(list) && Behind(old(list), cb) != [] ==>
                && Valid()
                && list == WithoutAll(old(list), Behind(old(list), cb))
                   && arrivals == WithoutAll(old(arrivals), Behind(old(list), cb))
      ensures cb in old(list) && Behind(old(list), cb) == [] ==>
                cb.next == cb && head == old(head) && list == old(list) && !Valid()
    {
      ghost var l := list;
      var prev, hb, k := FindPlace(cb);
      Enter(cb, prev, hb, k);
      if cb !in l { ListNew(cb, k); } else { ListAgain(cb, k); }
    }

    /** A callback was linked in at place k of the list. */
    ghost predicate Entered(cb: Callback, k: nat)
      requires k <= |list|
      reads this, list, cb
    {
      && Distinct(list) && Stable(list, arrivals) && Place(list, cb, k)
      && head == (if k == 0 then cb else list[0]) && (k > 0 ==> list[k - 1].next == cb)
      && cb.next == (if k > 0 && list[k - 1] == cb then cb else if k < |list| then list[k] else null)
      && (forall i {:trigger NextOf(list, i)} | 0 <= i < |list| && i + 1 != k && list[i] != cb :: NextOf(list, i))
    }

    /** The list with a callback that was not in it. */
    ghost method ListNew(cb: Callback, k: nat)
      requires k <= |list| && Entered(cb, k) && cb !in list
      modifies `list, `arrivals
      ensures Valid() && list == Inserted(old(list), cb) && arrivals == old(arrivals) + [cb]
    {
      var l := list;
      forall i | 0 <= i < |l| && i + 1 != k ensures NextOf(l, i) { assert l[i] in l; }
      InsertedAt(l, cb, k);
      AddStable(l, arrivals, cb);
      LinkedAfterInsert(l, cb, k);
      list, arrivals := Inserted(l, cb), arrivals + [cb];
    }

    /** The list with a callback that was in it already. */
    ghost method ListAgain(cb: Callback, k: nat)
      requires k <= |list| && Entered(cb, k) && cb in list
      modifies `list, `arrivals
      ensures Behind(old(list), cb) != [] ==>
                && Valid() && list == WithoutAll(old(list), Behind(old(list), cb))
                && arrivals == WithoutAll(old(arrivals), Behind(old(list), cb))
      ensures Behind(old(list), cb) == [] ==> cb.next == cb && list == old(list) && !Valid()
    {
      var l := list;
      var m :| 0 <= m < |l| && l[m] == cb;
      AroundListed(l, cb, m, k);
      BehindAt(l, cb, m, k);
      if m < k - 1 {
        CutOff(l, arrivals, cb, m, k);
        list, arrivals := WithoutAll(l, Behind(l, cb)), WithoutAll(arrivals, Behind(l, cb));
      } else {
        SelfLinked(l, m);
      }
    }

    /** Link a callback in between two neighbours. */
    method Enter(cb: Callback, prev: Callback?, hb: Callback?, ghost k: nat)
      requires Valid() && k <= |list|
      requires hb == (if k < |list| then list[k] else null) && prev == (if k == 0 then null else list[k - 1])
      modifies `head, cb`next, list`next
      ensures if prev == null then head == cb else head == old(head) && prev.next == cb
      ensures cb.next == if prev == cb then cb else hb
      ensures forall i {:trigger NextOf(list, i)} | 0 <= i < |list| && i + 1 != k && list[i] != cb :: NextOf(list, i)
    {
      cb.next := hb;
      if prev == null { head := cb; } else { prev.next := cb; }
      forall i | 0 <= i < |list| && i + 1 != k && list[i] != cb ensures NextOf(list, i) { assert old(NextOf(list, i)); }
    }

    /** The first callback of lower priority and the one before it. */
    method FindPlace(cb: Callback) returns (prev: Callback?, hb: Callback?, ghost k: nat)
      requires Valid()
      ensures Place(list, cb, k)
      ensures hb == (if k < |list| then list[k] else null) && prev == (if k == 0 then null else list[k - 1])
    {
      prev, hb, k := null, head, 0;
      while hb != null
        invariant 0 <= k <= |list| && hb == (if k < |list| then list[k] else null)
                  && prev == (if k == 0 then null else list[k - 1])
        invariant forall i | 0 <= i < k :: cb.priority <= list[i].priority
        decreases |list| - k
      {
        if cb.priority > hb.priority { break; }
        assert NextOf(list, k);
        prev, hb := hb, hb.next;
        k := k + 1;
      }
    }

    /** Take a callback out of the list. */
    method RemoveCallback(cb: Callback) returns (ret: int)
      requires Valid()
      modifies this, list
      ensures Valid() && list == Without(old(list), cb) && arrivals == Without(old(arrivals), cb) && id == old(id)
      ensures ret == if cb in old(list) then 0 else -ENOENT
    {
      ghost var l := list;
      ghost var k := 0;
      var prev: Callback? := null;
      var hb := head;
      while hb != null
        invariant 0 <= k <= |l| && hb == (if k < |l| then l[k] else null) && prev == (if k == 0 then null else l[k - 1])
        invariant forall i | 0 <= i < k :: l[i] != cb
        decreases |l| - k
      {
        assert NextOf(l, k);
        if hb == cb { break; }
        prev, hb := hb, hb.next;
        k := k + 1;
      }
      RemoveStable(l, arrivals, cb);
      if hb == null {
        WithoutAbsent(l, cb);
        AbsentArrival(l, arrivals, cb);
        return -ENOENT;
      }
      WithoutAt(l, cb, k);
      if prev == null { head := cb.next; } else { prev.next := cb.next; }
      list, arrivals := Without(l, cb), Without(arrivals, cb);
      forall i | 0 <= i < |l| && i != k - 1 ensures NextOf(l, i) { assert old(NextOf(l, i)); }
      LinkedAfterRemove(l, k);
      ret := 0;
    }

    /** Remove the head until the list is empty. */
    method RemoveAll()
      requires Valid()
      modifies this, list
      ensures Valid() && list == [] && head == null && id == old(id)
    {
      while head != null
        invariant Valid() && id == old(id) && forall k | 0 <= k < |list| :: list[k] in old(list)
        decreases |list|
      {
        ghost var l := list;
        var ret := RemoveCallback(head);
        assert list == l[1..];
      }
    }

    /** Notify the callbacks in order until one of them answers that no other is to be notified.
        `answers` is what each would answer; the answers that say so have both of their lowest bits set, or
        the third. */
    method Invoke(answers: map<Callback, int>) returns (ret: int, called: seq<Callback>)
      requires Valid() && forall cb | cb in list :: cb in answers
      ensures called <= list
      ensures forall k | 0 <= k < |called| - 1 :: answers[called[k]] % 4 != 3 && (answers[called[k]] / 4) % 2 == 0
      ensures called == list || (called != [] && (ret % 4 == 3 || (ret / 4) % 2 == 1))
      ensures ret == if called == [] then 0 else answers[called[|called| - 1]]
    {
      ret, called := 0, [];
      var hb := head;
      while hb != null
        invariant |called| <= |list| && called == list[..|called|]
                  && hb == (if |called| < |list| then list[|called|] else null)
        invariant forall k | 0 <= k < |called| :: answers[called[k]] % 4 != 3 && (answers[called[k]] / 4) % 2 == 0
        invariant ret == if called == [] then 0 else answers[called[|called| - 1]]
        decreases |list| - |called|
      {
        assert NextOf(list, |called|);
        var hn := hb.next;
        ret := answers[hb];
        called := called + [hb];
        StopsIff(ret);
        if Stops(ret) { break; }
        hb := hn;
      }
    }
  }

  ghost predicate NextOf(l: seq<Callback>, k: nat)
    requires k < |l|
    reads l
  {
    l[k].next == if k + 1 < |l| then l[k + 1] else null
  }

  /** Each callback points to the one after it, the last to none. */
  ghost predicate Linked(l: seq<Callback>)
    reads l
  {
    forall k {:trigger NextOf(l, k)} | 0 <= k < |l| :: NextOf(l, k)
  }

  /** What is left of the list when the entries between m and k are cut off. */
  lemma CutOff(l: seq<Callback>, arrivals: seq<Callback>, cb: Callback, m: nat, k: nat)
    requires Distinct(l) && Stable(l, arrivals) && Around(l, cb, m, k) && m < k - 1
    requires forall i {:trigger NextOf(l, i)} | 0 <= i < |l| && i + 1 != k && l[i] != cb :: NextOf(l, i)
    requires cb.next == if k < |l| then l[k] else null
    ensures var n := WithoutAll(l, Behind(l, cb));
            Linked(n) && Distinct(n) && Stable(n, WithoutAll(arrivals, Behind(l, cb))) && n != [] && n[0] == l[0]
  {
    WithoutBehind(l, cb, m, k);
    RemoveAllStable(l, arrivals, Behind(l, cb));
    LinkedAfterCut(l, m, k);
  }

  lemma SelfLinked(l: seq<Callback>, m: nat)
    requires Distinct(l) && m < |l| && l[m].next == l[m]
    ensures !Linked(l)
  {
    assert !NextOf(l, m);
  }

  lemma LinkedAfterInsert(l: seq<Callback>, cb: Callback, k: nat)
    requires k <= |l| && Distinct(l) && cb !in l
    requires forall i {:trigger NextOf(l, i)} | 0 <= i < |l| && i != k - 1 :: NextOf(l, i)
    requires k > 0 ==> l[k - 1].next == cb
    requires cb.next == if k < |l| then l[k] else null
    ensures Linked(l[..k] + [cb] + l[k..]) && Distinct(l[..k] + [cb] + l[k..])
  {
    var m := l[..k] + [cb] + l[k..];
    forall i | 0 <= i < |m| ensures NextOf(m, i) {
      if i < k - 1 {
        assert NextOf(l, i);
      } else if i > k {
        assert NextOf(l, i - 1);
      }
    }
  }

  lemma LinkedAfterCut(l: seq<Callback>, m: nat, k: nat)
    requires m < k <= |l| && Distinct(l)
    requires forall i {:trigger NextOf(l, i)} | 0 <= i < |l| && i != k - 1 && i != m :: NextOf(l, i)
    requires l[m].next == if k < |l| then l[k] else null
    ensures Linked(l[..m + 1] + l[k..]) && Distinct(l[..m + 1] + l[k..])
  {
    var n := l[..m + 1] + l[k..];
    forall i | 0 <= i < |n| ensures NextOf(n, i) {
      if i < m {
        assert NextOf(l, i);
      } else if i > m {
        assert NextOf(l, i - m - 1 + k);
      }
    }
  }

  lemma LinkedAfterRemove(l: seq<Callback>, k: nat)
    requires k < |l| && Distinct(l)
    requires forall i {:trigger NextOf(l, i)} | 0 <= i < |l| && i != k - 1 :: NextOf(l, i)
    requires k > 0 ==> l[k - 1].next == l[k].next
    ensures Linked(l[..k] + l[k + 1..]) && Distinct(l[..k] + l[k + 1..])
  {
    var m := l[..k] + l[k + 1..];
    assert NextOf(l, k);
    forall i | 0 <= i < |m| ensures NextOf(m, i) {
      if i < k - 1 {
        assert NextOf(l, i);
      } else if i >= k {
        assert NextOf(l, i + 1);
      }
    }
  }

  lemma {:induction false} OfPriorityMember(l: seq<Callback>, cb: Callback)
    ensures cb in OfPriority(l, cb.priority) <==> cb in l
  {
    if l == [] {
    } else {
      OfPriorityMember(l[1..], cb);
    }
  }

  /** What is not listed has not arrived either. */
  lemma AbsentArrival(l: seq<Callback>, arrivals: seq<Callback>, cb: Callback)
    requires Stable(l, arrivals) && cb !in l
    ensures Without(arrivals, cb) == arrivals
  {
    OfPriorityMember(l, cb);
    OfPriorityMember(arrivals, cb);
    WithoutAbsent(arrivals, cb);
  }

  /** The table of registered subsystems. */
  class Table {
    const subsystems: array<Subsys?>

    constructor ()
      ensures fresh(subsystems) && subsystems.Length == MAX_VLINK_SUBSYSTEMS
    {
      subsystems := new Subsys?[MAX_VLINK_SUBSYSTEMS](_ => null);
    }

    /** Take a subsystem out of its slot and remove all its callbacks. */
    method UnregisterBatch(n: Subsys)
      requires n.Valid() && subsystems.Length == MAX_VLINK_SUBSYSTEMS
      modifies subsystems, n, n.list
      ensures n.Valid() && n.list == [] && n.head == null
      ensures var i := old(n.id);
              if i < MAX_VLINK_SUBSYSTEMS && old(subsystems[i]) == n then n.id == 0
                  && subsystems[..] == old(subsystems[..])[i := null]
              else n.id == i && subsystems[..] == old(subsystems[..])
    {
      var i := 0;
      while i < MAX_VLINK_SUBSYSTEMS
        invariant 0 <= i <= MAX_VLINK_SUBSYSTEMS && unchanged(subsystems) && unchanged(n)
        invariant n.id < i ==> subsystems[n.id] != n
      {
        if subsystems[i] == n && i == n.id {
          subsystems[i] := null;
          n.id := 0;
          break;
        }
        i := i + 1;
      }
      n.RemoveAll();
    }
  }
}
