/** The order of a priority list of callbacks: higher priorities first, and among equals the one
    added earlier first. */
module VlinkList {

  class Callback {
    const priority: int
    var next: Callback?

    constructor (priority: int)
      ensures this.priority == priority && next == null
    {
      this.priority := priority;
      next := null;
    }
  }

  /** Enter a callback before the first of lower priority. */
  function Inserted(l: seq<Callback>, x: Callback): seq<Callback> {
    if l == [] || x.priority > l[0].priority then [x] + l else [l[0]] + Inserted(l[1..], x)
  }

  function Without(l: seq<Callback>, x: Callback): seq<Callback> {
    if l == [] then [] else if l[0] == x then l[1..] else [l[0]] + Without(l[1..], x)
  }

  ghost predicate Sorted(l: seq<Callback>) {
    forall i, j | 0 <= i < j < |l| :: l[i].priority >= l[j].priority
  }

  ghost predicate Distinct(l: seq<Callback>) {
    forall i, j | 0 <= i < j < |l| :: l[i] != l[j]
  }

  /** The callbacks of one priority, in order. */
  function OfPriority(l: seq<Callback>, p: int): seq<Callback> {
    if l == [] then [] else (if l[0].priority == p then [l[0]] else []) + OfPriority(l[1..], p)
  }

  /** l holds what arrived, sorted by priority, with the order of arrival kept among equals. */
  ghost predicate Stable(l: seq<Callback>, arrivals: seq<Callback>) {
    Sorted(l) && forall p :: OfPriority(l, p) == OfPriority(arrivals, p)
  }

  /** k is where x would be entered. */
  ghost predicate Place(l: seq<Callback>, x: Callback, k: nat) {
    k <= |l| && (forall i | 0 <= i < k :: x.priority <= l[i].priority) && (k < |l| ==> x.priority > l[k].priority)
  }

  lemma {:induction false} InsertedAt(l: seq<Callback>, x: Callback, k: nat)
    requires Place(l, x, k)
    ensures Inserted(l, x) == l[..k] + [x] + l[k..]
  {
    if k == 0 {
    } else {
      InsertedAt(l[1..], x, k - 1);
      assert l[..k] == [l[0]] + l[1..][..k - 1] && l[k..] == l[1..][k - 1..];
    }
  }

  lemma {:induction false} WithoutAt(l: seq<Callback>, x: Callback, k: nat)
    requires k < |l| && l[k] == x && forall i | 0 <= i < k :: l[i] != x
    ensures Without(l, x) == l[..k] + l[k + 1..]
  {
    if k == 0 {
    } else {
      WithoutAt(l[1..], x, k - 1);
      assert l[..k] == [l[0]] + l[1..][..k - 1] && l[k + 1..] == l[1..][k..];
    }
  }

  lemma {:induction false} WithoutAbsent(l: seq<Callback>, x: Callback)
    requires x !in l
    ensures Without(l, x) == l
  {
    if l == [] {
    } else {
      WithoutAbsent(l[1..], x);
    }
  }

  lemma {:induction false} InsertedMembers(l: seq<Callback>, x: Callback, y: Callback)
    ensures y in Inserted(l, x) <==> y == x || y in l
  {
    if l == [] || x.priority > l[0].priority {
    } else {
      InsertedMembers(l[1..], x, y);
    }
  }

  lemma {:induction false} InsertedSorted(l: seq<Callback>, x: Callback)
    requires Sorted(l)
    ensures Sorted(Inserted(l, x))
  {
    if l == [] || x.priority > l[0].priority {
    } else {
      InsertedSorted(l[1..], x);
      forall j | 0 <= j < |Inserted(l[1..], x)| ensures l[0].priority >= Inserted(l[1..], x)[j].priority {
        InsertedMembers(l[1..], x, Inserted(l[1..], x)[j]);
      }
    }
  }

  lemma {:induction false} NoneOfPriority(l: seq<Callback>, p: int)
    requires forall i | 0 <= i < |l| :: l[i].priority < p
    ensures OfPriority(l, p) == []
  {
    if l == [] {
    } else {
      NoneOfPriority(l[1..], p);
    }
  }

  /** Among its equals the new callback comes last. */
  lemma {:induction false} InsertedOfPriority(l: seq<Callback>, x: Callback, p: int)
    requires Sorted(l)
    ensures OfPriority(Inserted(l, x), p) == OfPriority(l, p) + if x.priority == p then [x] else []
  {
    if l == [] || x.priority > l[0].priority {
      if x.priority == p { NoneOfPriority(l, p); }
      assert ([x] + l)[1..] == l;
    } else {
      InsertedOfPriority(l[1..], x, p);
      assert ([l[0]] + Inserted(l[1..], x))[1..] == Inserted(l[1..], x);
    }
  }

  lemma {:induction false} AppendOfPriority(l: seq<Callback>, x: Callback, p: int)
    ensures OfPriority(l + [x], p) == OfPriority(l, p) + if x.priority == p then [x] else []
  {
    if l == [] {
      assert l + [x] == [x];
    } else {
      AppendOfPriority(l[1..], x, p);
      assert (l + [x])[1..] == l[1..] + [x];
    }
  }

  lemma {:induction false} WithoutOfPriority(l: seq<Callback>, x: Callback, p: int)
    ensures OfPriority(Without(l, x), p) == if x.priority == p then Without(OfPriority(l, p), x) else OfPriority(l, p)
  {
    if l != [] && l[0] != x {
      WithoutOfPriority(l[1..], x, p);
      assert ([l[0]] + Without(l[1..], x))[1..] == Without(l[1..], x);
      if l[0].priority == p {
        assert ([l[0]] + OfPriority(l[1..], p))[1..] == OfPriority(l[1..], p);
      } else {
        assert [] + OfPriority(l[1..], p) == OfPriority(l[1..], p);
      }
    } else if l != [] {
      if x.priority == p {
        assert ([x] + OfPriority(l[1..], p))[1..] == OfPriority(l[1..], p);
      } else {
        assert [] + OfPriority(l[1..], p) == OfPriority(l[1..], p);
      }
    }
  }

  lemma {:induction false} WithoutMembers(l: seq<Callback>, x: Callback, y: Callback)
    requires y in Without(l, x)
    ensures y in l
  {
    if l == [] || l[0] == x || y == l[0] {
    } else {
      WithoutMembers(l[1..], x, y);
    }
  }

  lemma {:induction false} WithoutSorted(l: seq<Callback>, x: Callback)
    requires Sorted(l)
    ensures Sorted(Without(l, x))
  {
    if l == [] || l[0] == x {
    } else {
      WithoutSorted(l[1..], x);
      forall j | 0 <= j < |Without(l[1..], x)| ensures l[0].priority >= Without(l[1..], x)[j].priority {
        WithoutMembers(l[1..], x, Without(l[1..], x)[j]);
      }
    }
  }

  /** Adding keeps the order with the new callback as the last arrival. */
  lemma AddStable(l: seq<Callback>, arrivals: seq<Callback>, x: Callback)
    requires Stable(l, arrivals)
    ensures Stable(Inserted(l, x), arrivals + [x])
  {
    InsertedSorted(l, x);
    forall p ensures OfPriority(Inserted(l, x), p) == OfPriority(arrivals + [x], p) {
      InsertedOfPriority(l, x, p);
      AppendOfPriority(arrivals, x, p);
    }
  }

  /** Removing keeps it with that arrival struck out. */
  lemma RemoveStable(l: seq<Callback>, arrivals: seq<Callback>, x: Callback)
    requires Stable(l, arrivals)
    ensures Stable(Without(l, x), Without(arrivals, x))
  {
    WithoutSorted(l, x);
    forall p ensures OfPriority(Without(l, x), p) == OfPriority(Without(arrivals, x), p) {
      WithoutOfPriority(l, x, p);
      WithoutOfPriority(arrivals, x, p);
    }
  }

  // ---------- Adding a callback that is listed already ----------

  /** The callbacks of the same priority behind x. */
  function Behind(l: seq<Callback>, x: Callback): seq<Callback> {
    if l == [] then [] else if l[0] == x then OfPriority(l[1..], x.priority) else Behind(l[1..], x)
  }

  function WithoutAll(l: seq<Callback>, xs: seq<Callback>): seq<Callback>
    decreases |xs|
  {
    if xs == [] then l else WithoutAll(Without(l, xs[0]), xs[1..])
  }

  lemma {:induction false} OfPriorityUpTo(l: seq<Callback>, p: int, k: nat)
    requires k <= |l| && (forall i | 0 <= i < k :: l[i].priority == p) && (forall i | k <= i < |l| :: l[i].priority < p)
    ensures OfPriority(l, p) == l[..k]
  {
    if k == 0 {
      NoneOfPriority(l, p);
    } else {
      OfPriorityUpTo(l[1..], p, k - 1);
      assert l[..k] == [l[0]] + l[1..][..k - 1];
    }
  }

  /** x at m in a list sorted by priority, and k the first place behind it with a lower one. */
  ghost predicate Around(l: seq<Callback>, x: Callback, m: nat, k: nat) {
    && m < k <= |l| && l[m] == x && (forall i | 0 <= i < m :: l[i] != x)
    && (forall i | m <= i < k :: l[i].priority == x.priority) && (forall i | k <= i < |l| :: l[i].priority < x.priority)
  }

  lemma AroundListed(l: seq<Callback>, x: Callback, m: nat, k: nat)
    requires Sorted(l) && Distinct(l) && m < |l| && l[m] == x && Place(l, x, k)
    ensures Around(l, x, m, k)
  {
  }

  lemma TailSlice<T>(l: seq<T>, a: nat, b: nat)
    requires 1 <= a <= b <= |l|
    ensures l[a..b] == l[1..][a - 1..b - 1] && l[1..b] == l[1..][..b - 1]
  {
    assert l[1..][a - 1..b - 1] == l[a..b] by {
      forall k | 0 <= k < b - a ensures l[1..][a - 1..b - 1][k] == l[a..b][k] {
        assert l[1..][a - 1 + k] == l[a + k];
      }
    }
  }

  lemma {:induction false} BehindAt(l: seq<Callback>, x: Callback, m: nat, k: nat)
    requires Around(l, x, m, k)
    ensures Behind(l, x) == l[m + 1..k]
  {
    if m == 0 {
      OfPriorityUpTo(l[1..], x.priority, k - 1);
      TailSlice(l, 1, k);
    } else {
      assert Around(l[1..], x, m - 1, k - 1);
      BehindAt(l[1..], x, m - 1, k - 1);
      TailSlice(l, m + 1, k);
    }
  }

  lemma {:induction false} WithoutMiddle(a: seq<Callback>, xs: seq<Callback>, b: seq<Callback>)
    requires Distinct(a + xs + b)
    ensures WithoutAll(a + xs + b, xs) == a + b
    decreases |xs|
  {
    if xs == [] {
      assert a + xs + b == a + b;
    } else {
      var l := a + xs + b;
      WithoutAt(l, xs[0], |a|);
      assert l[..|a|] + l[|a| + 1..] == a + xs[1..] + b;
      WithoutMiddle(a, xs[1..], b);
    }
  }

  lemma {:induction false} RemoveAllStable(l: seq<Callback>, arrivals: seq<Callback>, xs: seq<Callback>)
    requires Stable(l, arrivals)
    ensures Stable(WithoutAll(l, xs), WithoutAll(arrivals, xs))
    decreases |xs|
  {
    if xs == [] {
    } else {
      RemoveStable(l, arrivals, xs[0]);
      RemoveAllStable(Without(l, xs[0]), Without(arrivals, xs[0]), xs[1..]);
    }
  }

  lemma WithoutBehind(l: seq<Callback>, x: Callback, m: nat, k: nat)
    requires Distinct(l) && Around(l, x, m, k)
    ensures WithoutAll(l, Behind(l, x)) == l[..m + 1] + l[k..]
  {
    BehindAt(l, x, m, k);
    assert l == l[..m + 1] + l[m + 1..k] + l[k..];
    WithoutMiddle(l[..m + 1], l[m + 1..k], l[k..]);
  }

  // ---------- The order is unique ----------

  lemma {:induction false} TopOfPriority(l: seq<Callback>)
    requires l != []
    ensures OfPriority(l, l[0].priority) != [] && OfPriority(l, l[0].priority)[0] == l[0]
  {
  }

  lemma {:induction false} HasPriority(l: seq<Callback>, p: int)
    requires OfPriority(l, p) != []
    ensures exists i :: 0 <= i < |l| && l[i].priority == p
  {
    if l[0].priority == p {
    } else {
      HasPriority(l[1..], p);
      var i :| 0 <= i < |l[1..]| && l[1..][i].priority == p;
      assert l[i + 1].priority == p;
    }
  }

  lemma SameTop(l: seq<Callback>, m: seq<Callback>)
    requires Sorted(l) && Sorted(m) && l != [] && m != []
    requires OfPriority(l, l[0].priority) == OfPriority(m, l[0].priority)
             && OfPriority(l, m[0].priority) == OfPriority(m, m[0].priority)
    ensures l[0] == m[0]
  {
    TopOfPriority(l);
    TopOfPriority(m);
    HasPriority(m, l[0].priority);
    var i :| 0 <= i < |m| && m[i].priority == l[0].priority;
    HasPriority(l, m[0].priority);
    var j :| 0 <= j < |l| && l[j].priority == m[0].priority;
    assert m[0].priority >= m[i].priority && l[0].priority >= l[j].priority;
  }

  lemma NoTop(l: seq<Callback>)
    requires forall p :: OfPriority(l, p) == []
    ensures l == []
  {
    if l != [] { TopOfPriority(l); }
  }

  /** There is only one such order: two stable lists of the same arrivals are the same list. */
  lemma {:induction false} StableUnique(l: seq<Callback>, m: seq<Callback>)
    requires Sorted(l) && Sorted(m) && forall p :: OfPriority(l, p) == OfPriority(m, p)
    ensures l == m
    decreases |l|
  {
    if l == [] {
      NoTop(m);
    } else if m == [] {
      NoTop(l);
    } else {
      SameTop(l, m);
      forall p ensures OfPriority(l[1..], p) == OfPriority(m[1..], p) { TailOfPriority(l, m, p); }
      StableUnique(l[1..], m[1..]);
      assert l == [l[0]] + l[1..] && m == [m[0]] + m[1..];
    }
  }

  lemma TailOfPriority(l: seq<Callback>, m: seq<Callback>, p: int)
    requires l != [] && m != [] && l[0] == m[0] && OfPriority(l, p) == OfPriority(m, p)
    ensures OfPriority(l[1..], p) == OfPriority(m[1..], p)
  {
    var h := if l[0].priority == p then [l[0]] else [];
    assert OfPriority(l, p)[|h|..] == OfPriority(l[1..], p);
    assert OfPriority(m, p)[|h|..] == OfPriority(m[1..], p);
  }

  // ---------- Invocation ----------

  const RX_EMERG := 3
  const RX_STOP := 4

  /** The bits an answer, negative ones in two's complement, has in common with a mask. */
  function BitAnd(x: int, mask: nat): nat
    decreases mask
  {
    if mask == 0 then 0 else 2 * BitAnd(x / 2, mask / 2) + if x % 2 == 1 && mask % 2 == 1 then 1 else 0
  }

  /** The answer ends the notification. */
  predicate Stops(answer: int) {
    BitAnd(answer, RX_EMERG) == RX_EMERG || BitAnd(answer, RX_STOP) == RX_STOP
  }

  lemma BitStep(x: int, mask: nat)
    requires mask > 0
    ensures BitAnd(x, mask) == 2 * BitAnd(x / 2, mask / 2) + if x % 2 == 1 && mask % 2 == 1 then 1 else 0
  {
  }

  lemma LowestBit(x: int)
    ensures BitAnd(x, 1) == if x % 2 == 1 then 1 else 0
  {
    BitStep(x, 1);
    assert BitAnd(x / 2, 0) == 0;
  }

  lemma LowestTwo(x: int, y: int)
    requires y == x / 2
    ensures BitAnd(x, 3) == 3 <==> x % 2 == 1 && y % 2 == 1
  {
    BitStep(x, 3);
    LowestBit(y);
  }

  lemma ThirdBit(x: int, y: int, z: int)
    requires y == x / 2 && z == y / 2
    ensures BitAnd(x, 4) == 4 <==> z % 2 == 1
  {
    BitStep(x, 4);
    BitStep(y, 2);
    LowestBit(z);
  }

  lemma Quarters(x: int, y: int, z: int)
    requires y == x / 2 && z == y / 2
    ensures z == x / 4 && (x % 4 == 3 <==> x % 2 == 1 && y % 2 == 1)
  {
  }

  /** An answer ends the notification if and only if its two lowest bits are both set or its third is: of
      the five answers a callback may give, the two that say so. */
  lemma StopsIff(answer: int)
    ensures Stops(answer) <==> answer % 4 == 3 || (answer / 4) % 2 == 1
    ensures 0 <= answer <= 4 ==> (Stops(answer) <==> answer == 3 || answer == 4)
  {
    var y := answer / 2;
    LowestTwo(answer, y);
    ThirdBit(answer, y, y / 2);
    Quarters(answer, y, y / 2);
  }
}
