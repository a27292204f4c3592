/** Keys of the crit-bit tree: NUL-terminated byte strings read as infinite bit
    strings, and the bit tricks that select a branch and isolate a critical bit. */
module CritbitKeys {

  /** A C string without its terminator. Byte offsets fit the node's 32-bit `byte` field. */
  type Key = k: seq<bv8> | |k| < 0x1_0000_0000 && 0 !in k

  /** A leaf of the tree: the address of a caller's string buffer and the string it holds. */
  datatype Elem = Elem(addr: nat, name: Key)

  /** `ubytes[i]` guarded by the length test: the terminator and everything after it read as 0. */
  function ByteAt(k: Key, i: nat): bv8 {
    if i < |k| then k[i] else 0
  }

  /** The stored mask for bit j of a byte, most significant first: all ones except that bit. */
  function OtherBits(j: nat): bv8
    requires j < 8
  {
    match j
    case 0 => 0x7F
    case 1 => 0xBF
    case 2 => 0xDF
    case 3 => 0xEF
    case 4 => 0xF7
    case 5 => 0xFB
    case 6 => 0xFD
    case _ => 0xFE
  }

  /** Bit j of a byte, most significant first. */
  predicate ByteBit(c: bv8, j: nat)
    requires j < 8
  {
    OtherBits(j) | c == 0xFF
  }

  /** Bit n of a key, most significant bit of the first byte first. */
  predicate Bit(k: Key, n: nat) {
    ByteBit(ByteAt(k, n / 8), n % 8)
  }

  /** Two keys have the same bits 0..n-1. */
  ghost predicate AgreeBefore(j: Key, k: Key, n: nat) {
    forall i: nat | i < n :: Bit(j, i) == Bit(k, i)
  }

  /** n is the first bit at which the keys differ. */
  ghost predicate FirstDiff(j: Key, k: Key, n: nat) {
    AgreeBefore(j, k, n) && Bit(j, n) != Bit(k, n)
  }

  /** The C expression `(1 + (otherbits | c)) >> 8`, evaluated in a type wide enough for the carry. */
  function Direction(otherbits: bv8, c: bv8): (d: bv16)
    ensures d == 1 <==> otherbits | c == 0xFF
    ensures d == 0 || d == 1
  {
    (1 + ((otherbits | c) as bv16)) >> 8
  }

  /** The mask comparison of the insertion walk orders bits of one byte from high to low. */
  lemma OtherBitsOrder(i: nat, j: nat)
    requires i < 8 && j < 8
    ensures OtherBits(i) > OtherBits(j) <==> i > j
  {
  }

  /** Comparing (byte, otherbits) pairs compares bit positions. */
  lemma PositionOrder(m: nat, n: nat)
    ensures m / 8 > n / 8 || (m / 8 == n / 8 && OtherBits(m % 8) > OtherBits(n % 8)) <==> m > n
  {
    OtherBitsOrder(m % 8, n % 8);
  }

  lemma SameByteSameBits(a: bv8, b: bv8)
    requires forall j: nat | j < 8 :: ByteBit(a, j) == ByteBit(b, j)
    ensures a == b
  {
    assert ByteBit(a, 0) == ByteBit(b, 0) && ByteBit(a, 1) == ByteBit(b, 1);
    assert ByteBit(a, 2) == ByteBit(b, 2) && ByteBit(a, 3) == ByteBit(b, 3);
    assert ByteBit(a, 4) == ByteBit(b, 4) && ByteBit(a, 5) == ByteBit(b, 5);
    assert ByteBit(a, 6) == ByteBit(b, 6) && ByteBit(a, 7) == ByteBit(b, 7);
  }

  /** Agreement on whole bytes is agreement on their bits, and the other way round. */
  lemma AgreeBytes(j: Key, k: Key, m: nat)
    ensures AgreeBefore(j, k, 8 * m) <==> forall i: nat | i < m :: ByteAt(j, i) == ByteAt(k, i)
  {
    if AgreeBefore(j, k, 8 * m) {
      forall i: nat | i < m ensures ByteAt(j, i) == ByteAt(k, i) {
        forall b: nat | b < 8 ensures ByteBit(ByteAt(j, i), b) == ByteBit(ByteAt(k, i), b) {
          assert (8 * i + b) / 8 == i && (8 * i + b) % 8 == b;
          assert Bit(j, 8 * i + b) == Bit(k, 8 * i + b);
        }
        SameByteSameBits(ByteAt(j, i), ByteAt(k, i));
      }
    }
  }

  /** Keys that agree on every byte up to the longer length are equal: the terminator makes
      lengths visible in the bytes. */
  lemma SameBytesSameKey(j: Key, k: Key, m: nat)
    requires |j| <= m && |k| <= m
    requires forall i: nat | i <= m :: ByteAt(j, i) == ByteAt(k, i)
    ensures j == k
  {
    assert |j| < |k| ==> ByteAt(k, |j|) != 0 == ByteAt(j, |j|);
    assert |k| < |j| ==> ByteAt(j, |k|) != 0 == ByteAt(k, |k|);
    assert forall i: nat | i < |j| :: j[i] == ByteAt(j, i) == ByteAt(k, i) == k[i];
  }

  /** Different keys have a first differing bit. */
  lemma DifferentKeysDiffer(j: Key, k: Key)
    requires j != k
    ensures exists n: nat :: FirstDiff(j, k, n)
  {
    var m: nat := if |j| > |k| then |j| else |k|;
    assert exists d: nat :: d < 8 * (m + 1) && Bit(j, d) != Bit(k, d) by {
      if AgreeBefore(j, k, 8 * (m + 1)) {
        AgreeBytes(j, k, m + 1);
        SameBytesSameKey(j, k, m);
      }
    }
    var d: nat :| d < 8 * (m + 1) && Bit(j, d) != Bit(k, d);
    var n := LeastDiff(j, k, d);
  }

  lemma {:induction false} LeastDiff(j: Key, k: Key, d: nat) returns (n: nat)
    requires Bit(j, d) != Bit(k, d)
    ensures n <= d && FirstDiff(j, k, n)
    decreases d
  {
    if c: nat :| c < d && Bit(j, c) != Bit(k, c) {
      n := LeastDiff(j, k, c);
    } else {
      n := d;
    }
  }

  /** Unsigned byte order of C strings (the order of strcmp). */
  ghost predicate Less(j: Key, k: Key) {
    exists i: nat :: FirstByteDiff(j, k, i) && ByteAt(j, i) < ByteAt(k, i)
  }

  ghost predicate FirstByteDiff(j: Key, k: Key, i: nat) {
    (forall m: nat | m < i :: ByteAt(j, m) == ByteAt(k, m)) && ByteAt(j, i) != ByteAt(k, i)
  }

  /** At the first differing bit the smaller key has a 0. */
  lemma FirstDiffOrders(j: Key, k: Key, n: nat)
    requires FirstDiff(j, k, n) && Bit(k, n)
    ensures Less(j, k)
  {
    var i := n / 8;
    AgreePrefix(j, k, 8 * i, n);
    AgreeBytes(j, k, i);
    HighBitsOrder(j, k, n);
    assert FirstByteDiff(j, k, i);
  }

  lemma AgreePrefix(j: Key, k: Key, m: nat, n: nat)
    requires m <= n && AgreeBefore(j, k, n)
    ensures AgreeBefore(j, k, m)
  {
  }

  lemma HighBitsOrder(j: Key, k: Key, n: nat)
    requires FirstDiff(j, k, n) && Bit(k, n)
    ensures ByteAt(j, n / 8) < ByteAt(k, n / 8)
  {
    var a, b := ByteAt(j, n / 8), ByteAt(k, n / 8);
    forall c: nat | c < n % 8 ensures ByteBit(a, c) == ByteBit(b, c) {
      var p := 8 * (n / 8) + c;
      assert p / 8 == n / 8 && p % 8 == c;
      assert Bit(j, p) == Bit(k, p);
    }
    ByteOrder(a, b, n % 8);
  }

  lemma ByteOrder(a: bv8, b: bv8, j: nat)
    requires j < 8 && !ByteBit(a, j) && ByteBit(b, j)
    requires forall c: nat | c < j :: ByteBit(a, c) == ByteBit(b, c)
    ensures a < b
  {
    assert j > 0 ==> ByteBit(a, 0) == ByteBit(b, 0);
    assert j > 1 ==> ByteBit(a, 1) == ByteBit(b, 1);
    assert j > 2 ==> ByteBit(a, 2) == ByteBit(b, 2);
    assert j > 3 ==> ByteBit(a, 3) == ByteBit(b, 3);
    assert j > 4 ==> ByteBit(a, 4) == ByteBit(b, 4);
    assert j > 5 ==> ByteBit(a, 5) == ByteBit(b, 5);
    assert j > 6 ==> ByteBit(a, 6) == ByteBit(b, 6);
  }

  /** The position of the highest set bit of a non-zero byte, most significant first. */
  function HighIndex(x: bv8): (j: nat)
    requires x != 0
    ensures j < 8
  {
    if x >= 0x80 then 0 else if x >= 0x40 then 1 else if x >= 0x20 then 2 else if x >= 0x10 then 3
    else if x >= 8 then 4 else if x >= 4 then 5 else if x >= 2 then 6 else 7
  }

  /** The isolation loop: clear the lowest set bit while more than one bit is set, then
      complement. What remains is the mask of the highest bit that was set. */
  method IsolateHighest(x: bv32) returns (mask: bv8)
    requires 0 < x < 0x100
    ensures mask == OtherBits(HighIndex(x as bv8))
  {
    var y := x;
    while y & (y - 1) != 0
      invariant 0 < y < 0x100
      invariant HighIndex(y as bv8) == HighIndex(x as bv8)
      decreases y
    {
      y := y & (y - 1);
    }
    mask := (y ^ 0xFF) as bv8;
  }

  /** The highest set bit of a xor is the first bit at which two bytes differ. */
  lemma HighIndexIsFirstDiff(a: bv8, b: bv8)
    requires a != b
    ensures ByteBit(a, HighIndex(a ^ b)) != ByteBit(b, HighIndex(a ^ b))
    ensures forall c: nat | c < HighIndex(a ^ b) :: ByteBit(a, c) == ByteBit(b, c)
  {
  }

  /** A byte offset at which two keys first differ, with the isolated bit of the two bytes,
      gives the first differing bit of the keys. */
  lemma CritBitOf(j: Key, k: Key, i: nat)
    requires FirstByteDiff(j, k, i)
    ensures FirstDiff(j, k, 8 * i + HighIndex(ByteAt(j, i) ^ ByteAt(k, i)))
  {
    var a, b := ByteAt(j, i), ByteAt(k, i);
    var h := HighIndex(a ^ b);
    HighIndexIsFirstDiff(a, b);
    AgreeBytes(j, k, i);
    forall c: nat | c < 8 * i + h ensures Bit(j, c) == Bit(k, c) {
      if c >= 8 * i {
        assert c / 8 == i && c % 8 == c - 8 * i;
        assert ByteBit(a, c - 8 * i) == ByteBit(b, c - 8 * i);
      }
    }
    assert (8 * i + h) / 8 == i && (8 * i + h) % 8 == h;
  }
}
