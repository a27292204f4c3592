/** Every way to write a program that the parser understands: numbers in either case, with leading zeros or
    without, hexadecimal ones with a prefix or without, and any gaps between them. */
module BpfLayout {
  import opened Common
  import opened BpfText

  const LOWER := "0123456789abcdef"
  const UPPER := "0123456789ABCDEF"

  ghost predicate DigitFor(c: char, n: nat) {
    n < 16 && (c == LOWER[n] || c == UPPER[n])
  }

  /** The digits w, in base 16 or in base 10, stand for n. */
  ghost predicate Spells(w: string, sixteen: bool, n: nat) {
    if w == [] then false
    else if |w| == 1 then n < (if sixteen then 16 else 10) && DigitFor(w[0], n)
    else if sixteen then Spells(w[..|w| - 1], true, n / 16) && DigitFor(w[|w| - 1], n % 16)
    else Spells(w[..|w| - 1], false, n / 10) && DigitFor(w[|w| - 1], n % 10)
  }

  /** In base 16 a prefix may stand in front. */
  ghost predicate SpellsHex(w: string, n: nat) {
    Spells(w, true, n) || (|w| > 2 && w[0] == '0' && (w[1] == 'x' || w[1] == 'X') && Spells(w[2..], true, n))
  }

  ghost predicate Over(w: string, chars: string) {
    forall k | 0 <= k < |w| :: w[k] in chars
  }

  /** One instruction as it is written: its four numbers and what stands before, between and behind them. */
  datatype Written = Written(before: string, code: string, gap1: string, jt: string, gap2: string, jf: string,
                             gap3: string, k: string, behind: string)

  /** The gaps hold nothing else than the parser passes over there, and the last three are not empty. */
  ghost predicate WellSpaced(y: Written) {
    && Over(y.before, " {") && Over(y.gap1, " ,") && Over(y.gap2, " ,") && Over(y.gap3, " ,") && Over(y.behind, " ,}\n")
    && y.gap1 != [] && y.gap2 != [] && y.gap3 != [] && y.behind != []
  }

  /** The numbers are those of the instruction, cut to the width of its fields. */
  ghost predicate Writes(y: Written, x: Instr, a: nat, b: nat, c: nat, d: nat) {
    && SpellsHex(y.code, a) && Spells(y.jt, false, b) && Spells(y.jf, false, c) && SpellsHex(y.k, d)
    && x == Instr(a % 0x1_0000, b % 0x100, c % 0x100, d % 0x1_0000_0000)
  }

  ghost predicate IsWritten(y: Written, x: Instr) {
    WellSpaced(y) && exists a, b, c, d :: Writes(y, x, a, b, c, d)
  }

  /** An instruction from its first number on. */
  ghost function Numbered(y: Written, b: string): string {
    (b + y.code) + ((y.gap1 + y.jt) + ((y.gap2 + y.jf) + ((y.gap3 + y.k) + y.behind)))
  }

  ghost function Layout(ys: seq<Written>): string {
    if ys == [] then "" else Numbered(ys[0], ys[0].before) + Layout(ys[1..])
  }

  // ---------- Numbers ----------

  lemma DigitForValue(c: char, n: nat)
    requires DigitFor(c, n)
    ensures DigitValue(c) == n
  {
    assert LOWER[n] == DigitOf(n);
    DigitRoundTrip(n);
    assert UPPER == "0123456789" + "ABCDEF";
  }

  /** The scanner reads such digits as that number. */
  lemma {:induction false} SpellsValue(w: string, r: Radix, n: nat)
    requires Spells(w, r.Sixteen?, n)
    ensures AllDigits(w, r) && ValueOf(w, r, 0) == n
    decreases |w|
  {
    var k := |w| - 1;
    assert w == w[..k] + [w[k]];
    if k == 0 {
      DigitForValue(w[0], n);
      assert w[..k] == [];
    } else {
      DigitForValue(w[k], Remainder(n, r));
      SpellsValue(w[..k], r, Quotient(n, r));
    }
    ValueOfSnoc(w[..k], w[k], r, 0);
  }

  lemma Unprefixed(s: string, i: nat, w: string, r: Radix)
    requires HasAt(s, i, w) && AllDigits(w, r) && w != [] && At(s, i + |w|) != 'x' && At(s, i + |w|) != 'X'
    ensures i <= |s| && DigitsStart(s, i, r) == i
  {
    if r.Sixteen? && |w| > 1 { assert s[i + 1] == w[1]; }
  }

  lemma ReadsDigits(s: string, i: nat, w: string, r: Radix, n: nat)
    requires HasAt(s, i, w) && Spells(w, r.Sixteen?, n) && Closes(At(s, i + |w|))
    ensures i <= |s| && Strtoul(s, i, r) == (n, i + |w|)
  {
    SpellsValue(w, r, n);
    Unprefixed(s, i, w, r);
    ScanOver(s, i, w, r, 0);
  }

  /** A character that no number goes on with. */
  ghost predicate Closes(c: char) {
    c in " ,}\n"
  }

  lemma ClosesNumber(c: char, r: Radix)
    requires Closes(c)
    ensures !IsDigit(c, r) && c != 'x' && c != 'X'
  {
    FillsIff(c, After);
  }

  lemma ReadsPrefixed(s: string, i: nat, w: string, n: nat)
    requires HasAt(s, i, w) && |w| > 2 && w[0] == '0' && (w[1] == 'x' || w[1] == 'X') && Spells(w[2..], true, n)
    requires Closes(At(s, i + |w|))
    ensures i <= |s| && Strtoul(s, i, Sixteen) == (n, i + |w|)
  {
    assert s[i + 0] == w[0] && s[i + 1] == w[1];
    assert w == w[..2] + w[2..];
    HasAtSplit(s, i, w[..2], w[2..]);
    SpellsValue(w[2..], Sixteen, n);
    ClosesNumber(At(s, i + |w|), Sixteen);
    ScanOver(s, i + 2, w[2..], Sixteen, 0);
  }

  lemma ReadsHexNumber(s: string, i: nat, w: string, n: nat)
    requires HasAt(s, i, w) && SpellsHex(w, n) && Closes(At(s, i + |w|))
    ensures i <= |s| && Strtoul(s, i, Sixteen) == (n, i + |w|)
  {
    if Spells(w, true, n) { ReadsDigits(s, i, w, Sixteen, n); } else { ReadsPrefixed(s, i, w, n); }
  }

  lemma {:induction false} FirstDigit(w: string, sixteen: bool, n: nat)
    requires Spells(w, sixteen, n)
    ensures exists d | 0 <= d < 16 :: DigitFor(w[0], d)
    decreases |w|
  {
    if |w| > 1 {
      assert w[..|w| - 1][0] == w[0];
      FirstDigit(w[..|w| - 1], sixteen, if sixteen then n / 16 else n / 10);
    }
  }

  lemma DigitFillsNothing(c: char, d: nat, gap: Gap)
    requires DigitFor(c, d)
    ensures !Fills(c, gap)
  {
    DigitForValue(c, d);
  }

  /** A number starts with a digit, prefixed or not, so no gap takes it away. */
  lemma NumberStarts(w: string, sixteen: bool, n: nat, gap: Gap)
    requires if sixteen then SpellsHex(w, n) else Spells(w, false, n)
    ensures w != [] && !Fills(w[0], gap)
  {
    if Spells(w, sixteen, n) {
      FirstDigit(w, sixteen, n);
      var d :| 0 <= d < 16 && DigitFor(w[0], d);
      DigitFillsNothing(w[0], d, gap);
    }
  }

  lemma FilledByOver(g: string, gap: Gap)
    requires Over(g, GapChars(gap))
    ensures forall k | 0 <= k < |g| :: Fills(g[k], gap)
  {
    forall k | 0 <= k < |g| ensures Fills(g[k], gap) { FillsIff(g[k], gap); }
  }

  /** A gap and a number behind it. */
  lemma GapThenNumber(s: string, i: nat, g: string, gap: Gap, w: string, r: Radix, n: nat)
    requires HasAt(s, i, g + w) && Over(g, GapChars(gap)) && Closes(At(s, i + |g| + |w|))
    requires if r.Sixteen? then SpellsHex(w, n) else Spells(w, false, n)
    ensures i <= |s| && Number(s, i, gap, r) == (n, i + |g| + |w|)
  {
    HasAtSplit(s, i, g, w);
    FilledByOver(g, gap);
    SkipOver(s, i, g, gap);
    NumberStarts(w, r.Sixteen?, n, gap);
    FirstOf(s, i + |g|, w);
    if r.Sixteen? { ReadsHexNumber(s, i + |g|, w, n); } else { ReadsDigits(s, i + |g|, w, r, n); }
  }

  // ---------- One instruction ----------

  lemma GapCloses(s: string, i: nat, g: string, w: string)
    requires HasAt(s, i, g + w) && g != [] && (Over(g, " ,") || Over(g, " ,}\n"))
    ensures Closes(At(s, i))
  {
    assert s[i + 0] == (g + w)[0] == g[0];
    FillsIff(g[0], Between);
    FillsIff(g[0], After);
  }

  lemma NumbersCast(s: string, i: nat, i1: nat, i2: nat, i3: nat, i4: nat, a: nat, b: nat, c: nat, d: nat)
    requires i <= |s| && i1 <= |s| && i2 <= |s| && i3 <= |s| && i4 <= |s|
    requires Number(s, i, Before, Sixteen) == (a, i1) && Number(s, i1, Between, Ten) == (b, i2)
    requires Number(s, i2, Between, Ten) == (c, i3) && Number(s, i3, Between, Sixteen) == (d, i4)
    ensures Numbers(s, i) == (Instr(a % 0x1_0000, b % 0x100, c % 0x100, d % 0x1_0000_0000), i4)
  {
  }

  lemma FirstNumber(s: string, i: nat, g: string, w: string, n: nat, e: nat)
    requires HasAt(s, i, g + w) && Over(g, " {") && e == i + |g + w| && Closes(At(s, e)) && SpellsHex(w, n)
    ensures i <= |s| && e <= |s| && Number(s, i, Before, Sixteen) == (n, e)
  {
    GapThenNumber(s, i, g, Before, w, Sixteen, n);
  }

  lemma MiddleNumber(s: string, i: nat, g: string, w: string, n: nat, e: nat)
    requires HasAt(s, i, g + w) && Over(g, " ,") && e == i + |g + w| && Closes(At(s, e)) && Spells(w, false, n)
    ensures i <= |s| && e <= |s| && Number(s, i, Between, Ten) == (n, e)
  {
    GapThenNumber(s, i, g, Between, w, Ten, n);
  }

  lemma LastNumber(s: string, i: nat, g: string, w: string, n: nat, e: nat)
    requires HasAt(s, i, g + w) && Over(g, " ,") && e == i + |g + w| && Closes(At(s, e)) && SpellsHex(w, n)
    ensures i <= |s| && e <= |s| && Number(s, i, Between, Sixteen) == (n, e)
  {
    GapThenNumber(s, i, g, Between, w, Sixteen, n);
  }

  /** The numbers of an instruction, wherever in the gap before it the parser starts. */
  lemma NumbersWritten(s: string, i: nat, y: Written, before: string, x: Instr, a: nat, b: nat, c: nat, d: nat,
                       i1: nat, i2: nat, i3: nat, i4: nat)
    requires WellSpaced(y) && Writes(y, x, a, b, c, d) && Over(before, " {")
    requires PiecesAt(s, i, before + y.code, y.gap1 + y.jt, y.gap2 + y.jf, y.gap3 + y.k) && HasAt(s, i4, y.behind)
    requires i1 == i + |before + y.code| && i2 == i1 + |y.gap1 + y.jt|
    requires i3 == i2 + |y.gap2 + y.jf| && i4 == i3 + |y.gap3 + y.k|
    ensures i <= |s| && i4 <= |s| && Numbers(s, i) == (x, i4)
  {
    GapCloses(s, i1, y.gap1, y.jt);
    GapCloses(s, i2, y.gap2, y.jf);
    GapCloses(s, i3, y.gap3, y.k);
    assert y.behind + "" == y.behind;
    GapCloses(s, i4, y.behind, "");
    FirstNumber(s, i, before, y.code, a, i1);
    MiddleNumber(s, i1, y.gap1, y.jt, b, i2);
    MiddleNumber(s, i2, y.gap2, y.jf, c, i3);
    LastNumber(s, i3, y.gap3, y.k, d, i4);
    NumbersCast(s, i, i1, i2, i3, i4, a, b, c, d);
  }

  lemma InstrAt(s: string, i: nat, i4: nat, e: nat, behind: string, x: Instr)
    requires i <= |s| && i4 <= |s| && Numbers(s, i) == (x, i4)
    requires HasAt(s, i4, behind) && Over(behind, " ,}\n") && e == i4 + |behind|
    ensures e <= |s| && ParseInstr(s, i) == (x, Skip(s, e, After))
  {
    FilledByOver(behind, After);
    SkipOver(s, i4, behind, After);
  }

  lemma NumberedLength(y: Written, b: string)
    ensures |Numbered(y, b)| == |b| + |Numbered(y, "")| && |Numbered(y, b)| >= |y.code| + |y.behind|
  {
  }

  lemma WrittenNumbers(y: Written, x: Instr) returns (a: nat, b: nat, c: nat, d: nat)
    requires IsWritten(y, x)
    ensures Writes(y, x, a, b, c, d)
  {
    a, b, c, d :| Writes(y, x, a, b, c, d);
  }

  lemma InstrWritten(s: string, i: nat, y: Written, before: string, x: Instr, t: string, e: nat)
    requires IsWritten(y, x) && Over(before, " {") && t == Numbered(y, before) && HasAt(s, i, t) && e == i + |t|
    ensures i <= |s| && e <= |s| && ParseInstr(s, i) == (x, Skip(s, e, After))
  {
    var a, b, c, d := WrittenNumbers(y, x);
    var i1 := i + |before + y.code|;
    var i2 := i1 + |y.gap1 + y.jt|;
    var i3 := i2 + |y.gap2 + y.jf|;
    var i4 := i3 + |y.gap3 + y.k|;
    HasAtSplitFive(s, i, before + y.code, y.gap1 + y.jt, y.gap2 + y.jf, y.gap3 + y.k, y.behind);
    NumbersWritten(s, i, y, before, x, a, b, c, d, i1, i2, i3, i4);
    InstrAt(s, i, i4, e, y.behind, x);
  }

  // ---------- The next instruction ----------

  /** The blanks a gap begins with. */
  ghost function Blanks(w: string): (m: nat)
    ensures m <= |w| && (forall k | 0 <= k < m :: w[k] == ' ') && (m < |w| ==> w[m] != ' ')
  {
    if w == [] || w[0] != ' ' then 0 else 1 + Blanks(w[1..])
  }

  lemma DropPrefix(s: string, e: nat, m: nat, w: string, v: string)
    requires m <= |w| && HasAt(s, e, w + v)
    ensures HasAt(s, e, w[..m]) && HasAt(s, e + m, w[m..] + v)
  {
    assert w + v == w[..m] + (w[m..] + v);
    HasAtSplit(s, e, w[..m], w[m..] + v);
  }

  lemma OverSuffix(w: string, m: nat, chars: string)
    requires m <= |w| && Over(w, chars)
    ensures Over(w[m..], chars)
  {
  }

  /** What follows the first number of an instruction. */
  ghost function Rest(y: Written): string {
    (y.gap1 + y.jt) + ((y.gap2 + y.jf) + ((y.gap3 + y.k) + y.behind))
  }

  lemma Regroup(a: string, b: string, c: string, d: string)
    ensures ((a + b) + c) + d == a + (b + (c + d))
  {
  }

  lemma NumberedParts(y: Written, w: string, v: string)
    ensures Numbered(y, w) + v == w + (y.code + (Rest(y) + v))
  {
    Regroup(w, y.code, Rest(y), v);
  }

  /** Behind an instruction the parser passes over the blanks before the next one, no further. */
  lemma NextStarts(s: string, e: nat, y: Written, x: Instr, v: string, m: nat)
    requires IsWritten(y, x) && m == Blanks(y.before) && HasAt(s, e, Numbered(y, y.before) + v)
    ensures e <= |s| && Skip(s, e, After) == e + m && HasAt(s, e + m, Numbered(y, y.before[m..]) + v)
    ensures Over(y.before[m..], " {")
  {
    NumberedParts(y, y.before, v);
    NumberedParts(y, y.before[m..], v);
    NumberAhead(y, x);
    SkipsBlanks(s, e, y.before, m, y.code, Rest(y) + v);
  }

  lemma NumberAhead(y: Written, x: Instr)
    requires IsWritten(y, x)
    ensures Over(y.before, " {") && y.code != [] && !Fills(y.code[0], After)
  {
    var a, b, c, d := WrittenNumbers(y, x);
    NumberStarts(y.code, true, a, After);
  }

  lemma SkipsBlanks(s: string, e: nat, w: string, m: nat, code: string, v: string)
    requires m == Blanks(w) && HasAt(s, e, w + (code + v)) && Over(w, " {") && code != [] && !Fills(code[0], After)
    ensures e <= |s| && Skip(s, e, After) == e + m && HasAt(s, e + m, w[m..] + (code + v)) && Over(w[m..], " {")
  {
    DropPrefix(s, e, m, w, code + v);
    SkipOver(s, e, w[..m], After);
    OverSuffix(w, m, " {");
    StopsThere(s, e + m, w[m..], code, v);
  }

  lemma StopsThere(s: string, j: nat, w: string, code: string, v: string)
    requires Over(w, " {") && (w != [] ==> w[0] != ' ') && HasAt(s, j, w + (code + v))
    requires code != [] && !Fills(code[0], After)
    ensures Skip(s, j, After) == j
  {
    FirstOf(s, j, w + (code + v));
    if w != [] {
      FillsIff(w[0], Before);
      assert At(s, j) == '{';
    } else {
      assert At(s, j) == code[0];
    }
  }

  // ---------- Whole programs ----------

  ghost predicate AllWritten(ys: seq<Written>, p: seq<Instr>) {
    |ys| == |p| && forall k | 0 <= k < |p| :: IsWritten(ys[k], p[k])
  }

  lemma AllWrittenTail(ys: seq<Written>, p: seq<Instr>)
    requires AllWritten(ys, p) && p != []
    ensures IsWritten(ys[0], p[0]) && AllWritten(ys[1..], p[1..])
  {
  }

  /** The first instruction is read. */
  lemma FirstParsed(s: string, len: nat, i: nat, y: Written, before: string, x: Instr, t: string, done: seq<Instr>,
                    e: nat)
    requires IsWritten(y, x) && Over(before, " {") && t == Numbered(y, before) && HasAt(s, i, t)
    requires |done| < MAX_INSTR_SIZ && e == i + |t| <= len <= |s|
    ensures i <= |s| && ParseFrom(s, len, i, done) == ParseFrom(s, len, Skip(s, e, After), done + [x])
  {
    FirstRead(s, i, y, before, x, t, e);
    ParseStep(s, len, i, done, x, Skip(s, e, After), done + [x]);
  }

  lemma FirstRead(s: string, i: nat, y: Written, before: string, x: Instr, t: string, e: nat)
    requires IsWritten(y, x) && Over(before, " {") && t == Numbered(y, before) && HasAt(s, i, t) && e == i + |t|
    ensures i < e <= |s| && ParseInstr(s, i) == (x, Skip(s, e, After))
  {
    InstrWritten(s, i, y, before, x, t, e);
    NumberedLength(y, before);
    NumberAhead(y, x);
  }

  lemma MoveFirst<T>(done: seq<T>, p: seq<T>)
    requires p != []
    ensures done + p == (done + [p[0]]) + p[1..]
    ensures |p| == 1 ==> done + p == done + [p[0]]
  {
  }

  /** What the parser returns when it has read so many instructions and no text is left. */
  ghost function Fitting(p: seq<Instr>): Option<seq<Instr>> {
    if |p| < MAX_INSTR_SIZ then Some(p) else None
  }

  lemma {:induction false} ParsesWritten(s: string, len: nat, i: nat, before: string, ys: seq<Written>, p: seq<Instr>,
                                         done: seq<Instr>, t: string, u: string)
    requires AllWritten(ys, p) && p != [] && |done| < MAX_INSTR_SIZ && Over(before, " {")
    requires t == Numbered(ys[0], before) && u == Layout(ys[1..]) && HasAt(s, i, t + u) && len == i + |t| + |u| <= |s|
    ensures i <= |s| && ParseFrom(s, len, i, done) == Fitting(done + p)
    decreases |p|, 0
  {
    AllWrittenTail(ys, p);
    var e := i + |t|;
    HasAtSplit(s, i, t, u);
    FirstParsed(s, len, i, ys[0], before, p[0], t, done, e);
    MoveFirst(done, p);
    if |p| == 1 || |done| + 1 == MAX_INSTR_SIZ {
      ParseEnds(s, len, Skip(s, e, After), done + [p[0]]);
    } else {
      RestParses(s, len, e, Skip(s, e, After), ys[1..], p[1..], done + [p[0]], u);
    }
  }

  lemma {:induction false} RestParses(s: string, len: nat, e: nat, j: nat, ys: seq<Written>, p: seq<Instr>,
                                      done: seq<Instr>, u: string)
    requires AllWritten(ys, p) && p != [] && |done| < MAX_INSTR_SIZ
    requires u == Layout(ys) && HasAt(s, e, u) && len == e + |u| <= |s| && j == Skip(s, e, After)
    ensures j <= |s| && ParseFrom(s, len, j, done) == Fitting(done + p)
    decreases |p|, 1
  {
    var y, v, m := ys[0], Layout(ys[1..]), Blanks(ys[0].before);
    AllWrittenTail(ys, p);
    NextStarts(s, e, y, p[0], v, m);
    NumberedLength(y, y.before);
    NumberedLength(y, y.before[m..]);
    ParsesWritten(s, len, j, y.before[m..], ys, p, done, Numbered(y, y.before[m..]), v);
  }

  /** A program of fewer than 512 instructions, written in any of these ways, is parsed to that program,
      whatever the memory holds behind the text; one of 512 or more is refused. */
  lemma AnyLayoutParses(ys: seq<Written>, p: seq<Instr>, rest: string)
    requires AllWritten(ys, p)
    ensures ParseFrom(Layout(ys) + rest, |Layout(ys)|, 0, []) == if |p| < 512 then Some(p) else None
  {
    if p != [] {
      var s := Layout(ys) + rest;
      assert HasAt(s, 0, Layout(ys));
      ParsesWritten(s, |Layout(ys)|, 0, ys[0].before, ys, p, [], Numbered(ys[0], ys[0].before), Layout(ys[1..]));
      assert [] + p == p;
    }
  }

  // ---------- What is printed ----------

  /** A number as it is printed: in lower case, and without leading zeros. */
  ghost predicate Plain(w: string, sixteen: bool, n: nat) {
    && Spells(w, sixteen, n) && (|w| > 1 ==> w[0] != '0') && Over(w, LOWER)
  }

  lemma {:induction false} SpellsZero(w: string, sixteen: bool)
    requires Spells(w, sixteen, 0)
    ensures w[0] == '0'
    decreases |w|
  {
    if |w| > 1 { SpellsZero(w[..|w| - 1], sixteen); }
  }

  lemma LowerDigit(c: char, n: nat)
    requires DigitFor(c, n) && c in LOWER
    ensures c == DigitOf(n)
  {
    if c != LOWER[n] {
      var m :| 0 <= m < 16 && LOWER[m] == c;
      DigitRoundTrip(m);
      DigitForValue(c, n);
    }
  }

  lemma SpellsInit(w: string, r: Radix, n: nat, k: nat)
    requires Spells(w, r.Sixteen?, n) && k == |w| - 1 > 0
    ensures Spells(w[..k], r.Sixteen?, Quotient(n, r)) && DigitFor(w[k], Remainder(n, r))
  {
  }

  lemma PlainAtLeast(v: string, r: Radix, n: nat)
    requires Spells(v, r.Sixteen?, Quotient(n, r)) && v[0] != '0'
    ensures n >= Base(r)
  {
    if Quotient(n, r) == 0 { SpellsZero(v, r.Sixteen?); }
  }

  lemma PlainInit(w: string, r: Radix, n: nat, k: nat, v: string)
    requires Plain(w, r.Sixteen?, n) && k == |w| - 1 > 0 && v == w[..k]
    ensures n >= Base(r) && Plain(v, r.Sixteen?, Quotient(n, r)) && w[k] == DigitOf(Remainder(n, r))
  {
    SpellsInit(w, r, n, k);
    PlainAtLeast(v, r, n);
    LowerDigit(w[k], Remainder(n, r));
  }

  /** There is only one such way, and it is the printer's. */
  lemma {:induction false} PlainIsNumeral(w: string, r: Radix, n: nat)
    requires Plain(w, r.Sixteen?, n)
    ensures w == Numeral(n, r)
    decreases |w|
  {
    var k := |w| - 1;
    assert w == w[..k] + [w[k]];
    if k == 0 {
      LowerDigit(w[0], n);
    } else {
      PlainInit(w, r, n, k, w[..k]);
      PlainIsNumeral(w[..k], r, Quotient(n, r));
    }
  }

  /** The printer's numbers are plain. */
  lemma {:induction false} NumeralPlain(n: nat, r: Radix)
    ensures Plain(Numeral(n, r), r.Sixteen?, n) && (n > 0 ==> Numeral(n, r)[0] != '0')
  {
    if n < Base(r) {
      DigitRoundTrip(n);
      assert LOWER[n] == DigitOf(n);
    } else {
      NumeralPlain(Quotient(n, r), r);
      NumeralSnocPlain(Numeral(Quotient(n, r), r), r, n);
    }
  }

  lemma NumeralSnocPlain(v: string, r: Radix, n: nat)
    requires n >= Base(r) && Plain(v, r.Sixteen?, Quotient(n, r)) && v[0] != '0'
    ensures var w := v + [DigitOf(Remainder(n, r))]; Plain(w, r.Sixteen?, n) && w[0] != '0'
  {
    var d := Remainder(n, r);
    var w := v + [DigitOf(d)];
    assert w[..|w| - 1] == v && LOWER[d] == DigitOf(d);
  }

  /** A printed line is the instruction in this form, cut to 31 characters. */
  lemma LineFormat(x: Instr, code: string, jt: string, jf: string, k: string)
    requires Plain(code, true, x.code) && Plain(jt, false, x.jt) && Plain(jf, false, x.jf) && Plain(k, true, x.k)
    ensures var full := "{ 0x" + code + ", " + jt + ", " + jf + ", 0x" + k + " }\n";
            Line(x) == if |full| < 32 then full else full[..31]
  {
    PlainIsNumeral(code, Sixteen, x.code);
    PlainIsNumeral(jt, Ten, x.jt);
    PlainIsNumeral(jf, Ten, x.jf);
    PlainIsNumeral(k, Sixteen, x.k);
  }
}
