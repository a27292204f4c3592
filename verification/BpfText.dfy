/** The text form of a packet filter program: how its code lines are printed, and how they are read
    back. */
module BpfText {
  import opened Common

  type U8 = x: nat | x < 0x100
  type U16 = x: nat | x < 0x1_0000
  type U32 = x: nat | x < 0x1_0000_0000

  datatype Instr = Instr(code: U16, jt: U8, jf: U8, k: U32)

  const MAX_BUFF_SIZ := 16384
  const MAX_INSTR_SIZ := 512
  const LINE_BUFFER := 32

  // ---------- Numbers as digits ----------

  datatype Radix = Ten | Sixteen

  function Base(r: Radix): nat {
    if r.Ten? then 10 else 16
  }

  function Times(n: nat, r: Radix): nat {
    if r.Ten? then 10 * n else 16 * n
  }

  function Quotient(n: nat, r: Radix): nat {
    if r.Ten? then n / 10 else n / 16
  }

  function Remainder(n: nat, r: Radix): nat {
    if r.Ten? then n % 10 else n % 16
  }

  const DIGITS := "0123456789abcdef"

  function DigitOf(n: nat): char
    requires n < 16
  {
    DIGITS[n]
  }

  /** The value of a digit; 16 for a character that is none. */
  function DigitValue(c: char): (v: nat)
    ensures v <= 16
  {
    if '0' <= c <= '9' then (c - '0') as nat
    else if 'a' <= c <= 'f' then (c - 'a') as nat + 10
    else if 'A' <= c <= 'F' then (c - 'A') as nat + 10
    else 16
  }

  predicate IsDigit(c: char, r: Radix) {
    DigitValue(c) < Base(r)
  }

  /** A number without leading zeros. */
  function Numeral(n: nat, r: Radix): (w: string)
    ensures w != []
  {
    if n < Base(r) then [DigitOf(n)] else Numeral(Quotient(n, r), r) + [DigitOf(Remainder(n, r))]
  }

  /** The number a row of digits stands for, when it continues the number acc. */
  function ValueOf(w: string, r: Radix, acc: nat): nat {
    if w == [] then acc else ValueOf(w[1..], r, Times(acc, r) + DigitValue(w[0]))
  }

  predicate AllDigits(w: string, r: Radix) {
    forall i | 0 <= i < |w| :: IsDigit(w[i], r)
  }

  lemma DigitRoundTrip(n: nat)
    requires n < 16
    ensures DigitValue(DigitOf(n)) == n
  {
  }

  lemma {:induction false} ValueOfSnoc(w: string, c: char, r: Radix, acc: nat)
    ensures ValueOf(w + [c], r, acc) == Times(ValueOf(w, r, acc), r) + DigitValue(c)
    decreases |w|
  {
    if w == [] {
      assert w + [c] == [c] && [c][1..] == [];
    } else {
      ValueOfSnoc(w[1..], c, r, Times(acc, r) + DigitValue(w[0]));
      assert (w + [c])[1..] == w[1..] + [c] && (w + [c])[0] == w[0];
    }
  }

  lemma {:induction false} NumeralDigits(n: nat, r: Radix)
    ensures AllDigits(Numeral(n, r), r)
  {
    if n < Base(r) {
      DigitRoundTrip(n);
    } else {
      NumeralDigits(Quotient(n, r), r);
      DigitRoundTrip(Remainder(n, r));
    }
  }

  lemma {:induction false} NumeralRoundTrip(n: nat, r: Radix)
    ensures ValueOf(Numeral(n, r), r, 0) == n
  {
    if n < Base(r) {
      DigitRoundTrip(n);
      ValueOfSnoc([], DigitOf(n), r, 0);
      assert [] + [DigitOf(n)] == [DigitOf(n)];
    } else {
      NumeralRoundTrip(Quotient(n, r), r);
      DigitRoundTrip(Remainder(n, r));
      ValueOfSnoc(Numeral(Quotient(n, r), r), DigitOf(Remainder(n, r)), r, 0);
    }
  }

  function Power(r: Radix, k: nat): nat {
    if k == 0 then 1 else Times(Power(r, k - 1), r)
  }

  lemma {:induction false} NumeralLength(n: nat, r: Radix, k: nat)
    requires k >= 1 && n < Power(r, k)
    ensures |Numeral(n, r)| <= k
  {
    if n < Base(r) {
    } else {
      assert Power(r, 0) == 1;
      NumeralLength(Quotient(n, r), r, k - 1);
    }
  }

  // ---------- Printing ----------

  function Hex(n: nat): string { Numeral(n, Sixteen) }

  function Dec(n: nat): string { Numeral(n, Ten) }

  /** A code line up to its last number. */
  function Head(x: Instr): string {
    "{ 0x" + Hex(x.code) + ", " + Dec(x.jt) + ", " + Dec(x.jf) + ", 0x" + Hex(x.k)
  }

  const CLOSING := " }\n"

  /** A code line as it fits into the line buffer with its terminating NUL. */
  function Line(x: Instr): string {
    var full := Head(x) + CLOSING;
    if |full| < LINE_BUFFER then full else full[..LINE_BUFFER - 1]
  }

  function Text(p: seq<Instr>): string {
    if p == [] then "" else Text(p[..|p| - 1]) + Line(p[|p| - 1])
  }

  /** The printer's loop. */
  method Print(p: seq<Instr>) returns (text: string)
    ensures text == Text(p)
  {
    text := "";
    for i := 0 to |p|
      invariant text == Text(p[..i])
    {
      assert p[..i + 1][..i] == p[..i];
      var sline := "{ 0x" + Hex(p[i].code) + ", " + Dec(p[i].jt) + ", " + Dec(p[i].jf) + ", 0x" + Hex(p[i].k) + " }\n";
      if |sline| >= LINE_BUFFER { sline := sline[..LINE_BUFFER - 1]; }
      text := text + sline;
    }
    assert p[..|p|] == p;
  }

  lemma Powers()
    ensures Power(Sixteen, 4) == 0x1_0000 && Power(Sixteen, 8) == 0x1_0000_0000 && Power(Ten, 3) == 1000
  {
    assert Power(Sixteen, 2) == 0x100 && Power(Sixteen, 4) == 0x1_0000 && Power(Sixteen, 6) == 0x100_0000;
    assert Power(Ten, 1) == 10;
  }

  lemma HeadLength(x: Instr)
    ensures |Head(x)| <= 30
  {
    Powers();
    NumeralLength(x.code, Sixteen, 4);
    NumeralLength(x.jt, Ten, 3);
    NumeralLength(x.jf, Ten, 3);
    NumeralLength(x.k, Sixteen, 8);
  }

  /** How much of the end of a line the buffer keeps. */
  function Kept(x: Instr): nat {
    if |Head(x)| <= 28 then 3 else if |Head(x)| == 29 then 2 else 1
  }

  /** The buffer may cut off the newline, or brace and newline, but never a digit or the space. */
  lemma LineIsHeadAndClosing(x: Instr)
    ensures Line(x) == Head(x) + CLOSING[..Kept(x)]
  {
    HeadLength(x);
  }

  // ---------- Parsing ----------

  // The text is the first `len` characters of a memory s. What s holds behind them is whatever happens
  // to be there, up to a NUL, at which every scan ends.

  /** The character at a position of the memory. */
  function At(s: string, i: nat): char {
    if i < |s| then s[i] else '\0'
  }

  /** What the parser passes over: before an instruction, between numbers, after an instruction. */
  datatype Gap = Before | Between | After

  predicate Fills(c: char, gap: Gap) {
    c == ' ' || c == (if gap.Before? then '{' else ',') || (gap.After? && (c == '}' || c == '\n'))
  }

  /** The characters of each gap. */
  function GapChars(gap: Gap): string {
    match gap
    case Before => " {"
    case Between => " ,"
    case After => " ,}\n"
  }

  lemma FillsIff(c: char, gap: Gap)
    ensures Fills(c, gap) <==> c in GapChars(gap)
  {
    match gap
    case Before => assert " {"[0] == ' ' && " {"[1] == '{';
    case Between => assert " ,"[0] == ' ' && " ,"[1] == ',';
    case After => assert " ,}\n"[0] == ' ' && " ,}\n"[1] == ',' && " ,}\n"[2] == '}' && " ,}\n"[3] == '\n';
  }

  /** The first position from i on whose character does not fill the gap. */
  function Skip(s: string, i: nat, gap: Gap): (j: nat)
    ensures i <= j && (i <= |s| ==> j <= |s|)
    decreases |s| - i
  {
    if i < |s| && Fills(s[i], gap) then Skip(s, i + 1, gap) else i
  }

  /** The number whose digits go on at position i after acc, and the position after them. */
  function Scan(s: string, i: nat, r: Radix, acc: nat): (res: (nat, nat))
    requires i <= |s|
    ensures i <= res.1 <= |s|
    decreases |s| - i
  {
    if i < |s| && IsDigit(s[i], r) then Scan(s, i + 1, r, Times(acc, r) + DigitValue(s[i])) else (acc, i)
  }

  /** Where the digits of a number start: in base 16 a prefix 0x is passed over. */
  function DigitsStart(s: string, i: nat, r: Radix): (j: nat)
    requires i <= |s|
    ensures i <= j <= |s|
  {
    if r.Sixteen? && At(s, i) == '0' && (At(s, i + 1) == 'x' || At(s, i + 1) == 'X') then i + 2 else i
  }

  /** The number at position i and the position after it. */
  function Strtoul(s: string, i: nat, r: Radix): (res: (nat, nat))
    requires i <= |s|
    ensures i <= res.1 <= |s|
  {
    Scan(s, DigitsStart(s, i, r), r, 0)
  }

  /** The number behind the gap at position i, and the position after it. */
  function Number(s: string, i: nat, gap: Gap, r: Radix): (res: (nat, nat))
    requires i <= |s|
    ensures i <= res.1 <= |s|
  {
    Strtoul(s, Skip(s, i, gap), r)
  }

  /** The four numbers of an instruction at position i, and the position after the last. */
  function Numbers(s: string, i: nat): (res: (Instr, nat))
    requires i <= |s|
    ensures i <= res.1 <= |s|
  {
    var (code, i1) := Number(s, i, Before, Sixteen);
    var (jt, i2) := Number(s, i1, Between, Ten);
    var (jf, i3) := Number(s, i2, Between, Ten);
    var (k, i4) := Number(s, i3, Between, Sixteen);
    (Cast(code, jt, jf, k), i4)
  }

  /** One instruction read from position i, and the position after it. */
  function ParseInstr(s: string, i: nat): (res: (Instr, nat))
    requires i <= |s|
    ensures i <= res.1 <= |s|
  {
    var (x, i4) := Numbers(s, i);
    (x, Skip(s, i4, After))
  }

  /** The numbers cut to the width of the fields they go into. */
  function Cast(code: nat, jt: nat, jf: nat, k: nat): Instr {
    Instr(code % 0x1_0000, jt % 0x100, jf % 0x100, k % 0x1_0000_0000)
  }

  /** The instructions of a text of len characters, when `done` have been read and position i is
      reached; none when there are too many. */
  function ParseFrom(s: string, len: nat, i: nat, done: seq<Instr>): Option<seq<Instr>>
    requires len <= |s| && i <= |s| && |done| <= MAX_INSTR_SIZ
    decreases MAX_INSTR_SIZ - |done|
  {
    if |done| == MAX_INSTR_SIZ then None
    else if i >= len then Some(done)
    else
      var (x, j) := ParseInstr(s, i);
      ParseFrom(s, len, j, done + [x])
  }

  method SkipGap(s: string, i: nat, gap: Gap) returns (j: nat)
    requires i <= |s|
    ensures j == Skip(s, i, gap) <= |s|
    ensures i <= j && (forall k | i <= k < j :: s[k] in GapChars(gap)) && (j < |s| ==> s[j] !in GapChars(gap))
  {
    j := i;
    while Fills(At(s, j), gap)
      invariant i <= j <= |s| && Skip(s, j, gap) == Skip(s, i, gap)
      invariant forall k | i <= k < j :: s[k] in GapChars(gap)
      decreases |s| - j
    {
      FillsIff(s[j], gap);
      j := j + 1;
    }
    FillsIff(At(s, j), gap);
  }

  /** The number at a position, digit by digit. */
  method ReadNumber(s: string, i: nat, r: Radix) returns (value: nat, end: nat)
    requires i <= |s|
    ensures (value, end) == Strtoul(s, i, r) && end <= |s|
  {
    end := i;
    if r.Sixteen? && At(s, i) == '0' && (At(s, i + 1) == 'x' || At(s, i + 1) == 'X') { end := i + 2; }
    value, end := ReadDigits(s, end, r);
  }

  method ReadDigits(s: string, b: nat, r: Radix) returns (value: nat, end: nat)
    requires b <= |s|
    ensures (value, end) == Scan(s, b, r, 0) && end <= |s|
  {
    value, end := 0, b;
    while end < |s| && IsDigit(s[end], r)
      invariant b <= end <= |s| && Scan(s, end, r, value) == Scan(s, b, r, 0)
    {
      value := Times(value, r) + DigitValue(s[end]);
      end := end + 1;
    }
  }

  /** One round of the parser's loop. */
  method ReadInstr(s: string, i: nat) returns (x: Instr, ptr: nat)
    requires i <= |s|
    ensures (x, ptr) == ParseInstr(s, i) && ptr <= |s|
  {
    ptr := SkipGap(s, i, Before);
    var code, jt, jf, k;
    code, ptr := ReadNumber(s, ptr, Sixteen);
    ptr := SkipGap(s, ptr, Between);
    jt, ptr := ReadNumber(s, ptr, Ten);
    ptr := SkipGap(s, ptr, Between);
    jf, ptr := ReadNumber(s, ptr, Ten);
    ptr := SkipGap(s, ptr, Between);
    k, ptr := ReadNumber(s, ptr, Sixteen);
    ptr := SkipGap(s, ptr, After);
    x := Cast(code, jt, jf, k);
  }

  /** Read one instruction; what is left of the text completes the same program. */
  method NextInstr(s: string, len: nat, i: nat, ghost done: seq<Instr>) returns (x: Instr, ptr: nat)
    requires i < len <= |s| && |done| < MAX_INSTR_SIZ
    ensures ptr <= |s| && ParseFrom(s, len, i, done) == ParseFrom(s, len, ptr, done + [x])
  {
    x, ptr := ReadInstr(s, i);
  }

  method Fill(filter: array<Instr>, len: nat, x: Instr)
    requires len < filter.Length
    modifies filter
    ensures filter[..len + 1] == old(filter[..len]) + [x]
  {
    filter[len] := x;
  }

  /** Read one instruction into the array, behind the n that are there. */
  method ReadInto(s: string, len: nat, i: nat, filter: array<Instr>, n: nat) returns (ptr: nat)
    requires i < len <= |s| && n < MAX_INSTR_SIZ == filter.Length
    modifies filter
    ensures ptr <= |s| && old(ParseFrom(s, len, i, filter[..n])) == ParseFrom(s, len, ptr, filter[..n + 1])
  {
    var x;
    x, ptr := NextInstr(s, len, i, filter[..n]);
    Fill(filter, n, x);
  }

  lemma ParseEnds(s: string, len: nat, i: nat, done: seq<Instr>)
    requires len <= |s| && i <= |s| && |done| <= MAX_INSTR_SIZ && (|done| == MAX_INSTR_SIZ || i >= len)
    ensures ParseFrom(s, len, i, done) == if |done| == MAX_INSTR_SIZ then None else Some(done)
  {
  }

  /** The parser's loop: it fills the instruction array from the text until one of them ends. */
  method FillFrom(s: string, len: nat, start: nat, filter: array<Instr>, ghost all: Option<seq<Instr>>) returns (n: nat)
    requires start <= len <= |s| && filter.Length == MAX_INSTR_SIZ && all == ParseFrom(s, len, start, [])
    modifies filter
    ensures n <= MAX_INSTR_SIZ && all == if n == MAX_INSTR_SIZ then None else Some(filter[..n])
  {
    var ptr := start;
    n := 0;
    assert filter[..n] == [];
    while n < MAX_INSTR_SIZ && ptr < len
      invariant 0 <= ptr <= |s| && 0 <= n <= MAX_INSTR_SIZ && all == ParseFrom(s, len, ptr, filter[..n])
      decreases MAX_INSTR_SIZ - n
    {
      ptr := ReadInto(s, len, ptr, filter, n);
      n := n + 1;
    }
    ParseEnds(s, len, ptr, filter[..n]);
  }

  /** The program of a text, or none when the array is full. */
  method Parse(s: string, len: nat) returns (r: Option<seq<Instr>>)
    requires len <= |s|
    ensures r == ParseFrom(s, len, 0, [])
  {
    var filter := new Instr[MAX_INSTR_SIZ];
    var n := FillFrom(s, len, 0, filter, ParseFrom(s, len, 0, []));
    if n == MAX_INSTR_SIZ { return None; }
    r := Some(filter[..n]);
  }

  // ---------- Round trip ----------

  /** The word w stands in the text at position i. */
  ghost predicate HasAt(s: string, i: nat, w: string) {
    i + |w| <= |s| && forall k | 0 <= k < |w| :: s[i + k] == w[k]
  }

  lemma HasAtSplit(s: string, i: nat, v: string, w: string)
    requires HasAt(s, i, v + w)
    ensures HasAt(s, i, v) && HasAt(s, i + |v|, w)
  {
    forall k | 0 <= k < |v| ensures s[i + k] == v[k] { assert (v + w)[k] == v[k]; }
    forall k | 0 <= k < |w| ensures s[i + |v| + k] == w[k] { assert (v + w)[|v| + k] == w[k]; }
  }

  lemma {:induction false} SkipOver(s: string, i: nat, w: string, gap: Gap)
    requires HasAt(s, i, w) && forall k | 0 <= k < |w| :: Fills(w[k], gap)
    ensures Skip(s, i, gap) == Skip(s, i + |w|, gap)
    decreases |w|
  {
    if w == [] {
    } else {
      assert s[i] == w[0];
      assert HasAt(s, i + 1, w[1..]) by { HasAtSplit(s, i, w[..1], w[1..]); assert w[..1] + w[1..] == w; }
      SkipOver(s, i + 1, w[1..], gap);
    }
  }

  lemma {:induction false} ScanOver(s: string, i: nat, w: string, r: Radix, acc: nat)
    requires HasAt(s, i, w) && AllDigits(w, r) && !IsDigit(At(s, i + |w|), r)
    ensures Scan(s, i, r, acc) == (ValueOf(w, r, acc), i + |w|)
    decreases |w|
  {
    if w == [] {
    } else {
      assert s[i] == w[0];
      assert HasAt(s, i + 1, w[1..]) by { HasAtSplit(s, i, w[..1], w[1..]); assert w[..1] + w[1..] == w; }
      ScanOver(s, i + 1, w[1..], r, Times(acc, r) + DigitValue(w[0]));
    }
  }

  /** A decimal number followed by something else is read back. */
  lemma ReadsDec(s: string, i: nat, n: nat)
    requires HasAt(s, i, Dec(n)) && !IsDigit(At(s, i + |Dec(n)|), Ten)
    ensures Strtoul(s, i, Ten) == (n, i + |Dec(n)|)
  {
    NumeralDigits(n, Ten);
    NumeralRoundTrip(n, Ten);
    ScanOver(s, i, Dec(n), Ten, 0);
  }

  /** So is a hexadecimal number with its prefix. */
  lemma ReadsHex(s: string, i: nat, n: nat)
    requires HasAt(s, i, "0x" + Hex(n)) && !IsDigit(At(s, i + 2 + |Hex(n)|), Sixteen)
    ensures Strtoul(s, i, Sixteen) == (n, i + 2 + |Hex(n)|)
  {
    HasAtSplit(s, i, "0x", Hex(n));
    assert s[i + 0] == "0x"[0] && s[i + 1] == "0x"[1];
    NumeralDigits(n, Sixteen);
    NumeralRoundTrip(n, Sixteen);
    ScanOver(s, i + 2, Hex(n), Sixteen, 0);
  }

  lemma FirstOf(s: string, i: nat, w: string)
    requires HasAt(s, i, w) && w != []
    ensures At(s, i) == w[0]
  {
    assert s[i + 0] == w[0];
  }

  /** A gap and then a hexadecimal number. */
  lemma GapThenHex(s: string, i: nat, g: string, gap: Gap, n: nat)
    requires HasAt(s, i, g + ("0x" + Hex(n))) && (forall k | 0 <= k < |g| :: Fills(g[k], gap))
    requires !IsDigit(At(s, i + |g| + 2 + |Hex(n)|), Sixteen)
    ensures Number(s, i, gap, Sixteen) == (n, i + |g| + 2 + |Hex(n)|)
  {
    HasAtSplit(s, i, g, "0x" + Hex(n));
    FirstOf(s, i + |g|, "0x" + Hex(n));
    SkipOver(s, i, g, gap);
    ReadsHex(s, i + |g|, n);
  }

  /** A gap and then a decimal number. */
  lemma GapThenDec(s: string, i: nat, g: string, gap: Gap, n: nat)
    requires HasAt(s, i, g + Dec(n)) && (forall k | 0 <= k < |g| :: Fills(g[k], gap))
    requires !IsDigit(At(s, i + |g| + |Dec(n)|), Ten)
    ensures Number(s, i, gap, Ten) == (n, i + |g| + |Dec(n)|)
  {
    HasAtSplit(s, i, g, Dec(n));
    FirstOf(s, i + |g|, Dec(n));
    NumeralDigits(n, Ten);
    SkipOver(s, i, g, gap);
    ReadsDec(s, i + |g|, n);
  }

  /** Each number of a code line with the gap before it. */
  ghost predicate Pieces(x: Instr, a: string, b: string, c: string, d: string) {
    a == "{ " + ("0x" + Hex(x.code)) && b == ", " + Dec(x.jt) && c == ", " + Dec(x.jf) && d == ", " + ("0x" + Hex(x.k))
  }

  /** A code line in five pieces: each number with the gap before it, and what closes the line. */
  lemma LinePieces(x: Instr, n: nat)
    requires n <= 3
    ensures Head(x) + CLOSING[..n] ==
              ("{ " + ("0x" + Hex(x.code)))
                  + ((", " + Dec(x.jt)) + ((", " + Dec(x.jf)) + ((", " + ("0x" + Hex(x.k))) + CLOSING[..n])))
  {
  }

  /** A line that was printed is read back as its instruction, whatever stands behind it. */
  lemma ParsesLine(s: string, i: nat, x: Instr, line: string)
    requires line == Line(x) && HasAt(s, i, line)
    ensures ParseInstr(s, i) == (x, Skip(s, i + |line|, Gap.After))
  {
    LineIsHeadAndClosing(x);
    LinePieces(x, Kept(x));
    ParsesPieces(s, i, i + |line|, x, "{ " + ("0x" + Hex(x.code)), ", " + Dec(x.jt), ", " + Dec(x.jf),
                 ", " + ("0x" + Hex(x.k)), CLOSING[..Kept(x)]);
  }

  lemma ParsesPieces(s: string, i: nat, e: nat, x: Instr, a: string, b: string, c: string, d: string, close: string)
    requires Pieces(x, a, b, c, d) && HasAt(s, i, a + (b + (c + (d + close))))
             && e == i + |a| + |b| + |c| + |d| + |close|
    requires close != [] && close[0] == ' ' && (forall k | 0 <= k < |close| :: Fills(close[k], Gap.After))
    ensures ParseInstr(s, i) == (x, Skip(s, e, Gap.After))
  {
    HasAtSplitFive(s, i, a, b, c, d, close);
    ParsesAt(s, i, i + |a| + |b| + |c| + |d|, e, x, a, b, c, d, close);
  }

  lemma HasAtSplitFive(s: string, i: nat, a: string, b: string, c: string, d: string, e: string)
    requires HasAt(s, i, a + (b + (c + (d + e))))
    ensures PiecesAt(s, i, a, b, c, d) && HasAt(s, i + |a| + |b| + |c| + |d|, e)
  {
    HasAtSplit(s, i, a, b + (c + (d + e)));
    HasAtSplit(s, i + |a|, b, c + (d + e));
    HasAtSplit(s, i + |a| + |b|, c, d + e);
    HasAtSplit(s, i + |a| + |b| + |c|, d, e);
  }

  lemma ReadsFirst(s: string, i: nat, i1: nat, n: nat)
    requires HasAt(s, i, "{ " + ("0x" + Hex(n))) && i1 == i + 4 + |Hex(n)| && At(s, i1) == ','
    ensures i1 <= |s| && Number(s, i, Before, Sixteen) == (n, i1)
  {
    GapThenHex(s, i, "{ ", Before, n);
  }

  lemma ReadsMiddle(s: string, i: nat, i1: nat, n: nat)
    requires HasAt(s, i, ", " + Dec(n)) && i1 == i + 2 + |Dec(n)| && At(s, i1) == ','
    ensures i1 <= |s| && Number(s, i, Between, Ten) == (n, i1)
  {
    GapThenDec(s, i, ", ", Between, n);
  }

  lemma ReadsLast(s: string, i: nat, i1: nat, n: nat)
    requires HasAt(s, i, ", " + ("0x" + Hex(n))) && i1 == i + 4 + |Hex(n)| && !IsDigit(At(s, i1), Sixteen)
    ensures i1 <= |s| && Number(s, i, Between, Sixteen) == (n, i1)
  {
    GapThenHex(s, i, ", ", Between, n);
  }

  /** The pieces of a line stand one after the other from i on. */
  ghost predicate PiecesAt(s: string, i: nat, a: string, b: string, c: string, d: string) {
    HasAt(s, i, a) && HasAt(s, i + |a|, b) && HasAt(s, i + |a| + |b|, c) && HasAt(s, i + |a| + |b| + |c|, d)
  }

  lemma NumbersAt(s: string, i: nat, i4: nat, x: Instr, a: string, b: string, c: string, d: string)
    requires Pieces(x, a, b, c, d) && PiecesAt(s, i, a, b, c, d) && i4 == i + |a| + |b| + |c| + |d|
             && !IsDigit(At(s, i4), Sixteen)
    ensures i <= |s| && Numbers(s, i) == (x, i4)
  {
    var i1 := i + |a|;
    var i2 := i1 + |b|;
    var i3 := i2 + |c|;
    FirstOf(s, i1, b);
    FirstOf(s, i2, c);
    FirstOf(s, i3, d);
    ReadsFirst(s, i, i1, x.code);
    ReadsMiddle(s, i1, i2, x.jt);
    ReadsMiddle(s, i2, i3, x.jf);
    ReadsLast(s, i3, i4, x.k);
    NumbersAre(s, i, i1, i2, i3, i4, x);
  }

  lemma ParsesAt(s: string, i: nat, i4: nat, e: nat, x: Instr, a: string, b: string, c: string, d: string,
                 close: string)
    requires Pieces(x, a, b, c, d) && PiecesAt(s, i, a, b, c, d) && i4 == i + |a| + |b| + |c| + |d| && e == i4 + |close|
    requires HasAt(s, i4, close) && close != [] && close[0] == ' '
             && (forall k | 0 <= k < |close| :: Fills(close[k], Gap.After))
    ensures ParseInstr(s, i) == (x, Skip(s, e, Gap.After))
  {
    FirstOf(s, i4, close);
    NumbersAt(s, i, i4, x, a, b, c, d);
    SkipOver(s, i4, close, Gap.After);
  }

  lemma NumbersAre(s: string, i: nat, i1: nat, i2: nat, i3: nat, i4: nat, x: Instr)
    requires i <= |s| && i1 <= |s| && i2 <= |s| && i3 <= |s| && i4 <= |s|
    requires Number(s, i, Before, Sixteen) == (x.code, i1) && Number(s, i1, Between, Ten) == (x.jt, i2)
    requires Number(s, i2, Between, Ten) == (x.jf, i3) && Number(s, i3, Between, Sixteen) == (x.k, i4)
    ensures Numbers(s, i) == (x, i4)
  {
    CastKeeps(x);
  }

  lemma CastKeeps(x: Instr)
    ensures Cast(x.code, x.jt, x.jf, x.k) == x
  {
  }

  lemma {:induction false} TextHasLines(p: seq<Instr>, n: nat)
    requires n <= |p|
    ensures |Text(p[..n])| <= |Text(p)| && Text(p)[..|Text(p[..n])|] == Text(p[..n])
    decreases |p| - n
  {
    if n == |p| {
      assert p[..n] == p;
    } else {
      var q := p[..|p| - 1];
      TextHasLines(q, n);
      assert q[..n] == p[..n];
    }
  }

  lemma StandsBehind(s: string, v: string, w: string)
    requires |v| + |w| <= |s| && s[..|v| + |w|] == v + w
    ensures HasAt(s, |v|, w)
  {
    forall k | 0 <= k < |w| ensures s[|v| + k] == w[k] { assert s[..|v| + |w|][|v| + k] == (v + w)[|v| + k]; }
  }

  lemma TextHasLine(p: seq<Instr>, n: nat)
    requires n < |p|
    ensures HasAt(Text(p), |Text(p[..n])|, Line(p[n])) && |Text(p[..n + 1])| == |Text(p[..n])| + |Line(p[n])|
  {
    var q := p[..n + 1];
    assert q[..n] == p[..n] && q[n] == p[n];
    TextHasLines(p, n + 1);
    StandsBehind(Text(p), Text(p[..n]), Line(p[n]));
  }

  lemma LineStarts(x: Instr)
    ensures Line(x) != [] && Line(x)[0] == '{'
  {
    LineIsHeadAndClosing(x);
  }

  lemma ParseStep(s: string, len: nat, i: nat, done: seq<Instr>, x: Instr, j: nat, more: seq<Instr>)
    requires i < len <= |s| && |done| < MAX_INSTR_SIZ && (x, j) == ParseInstr(s, i) && more == done + [x]
    ensures j <= |s| && ParseFrom(s, len, i, done) == ParseFrom(s, len, j, more)
  {
  }

  lemma HasAtPrefix(t: string, r: string, i: nat, w: string)
    requires HasAt(t, i, w)
    ensures HasAt(t + r, i, w)
  {
  }

  lemma LineFits(p: seq<Instr>, n: nat, i: nat, j: nat)
    requires n < |p| && i == |Text(p[..n])| && j == |Text(p[..n + 1])|
    ensures HasAt(Text(p), i, Line(p[n])) && j == i + |Line(p[n])| && i < j <= |Text(p)|
  {
    TextHasLine(p, n);
    LineStarts(p[n]);
  }

  /** The n-th line in the memory, and what the next line starts with. */
  lemma LineAt(p: seq<Instr>, n: nat, rest: string, i: nat, j: nat)
    requires n < |p| && i == |Text(p[..n])| && j == |Text(p[..n + 1])|
    ensures HasAt(Text(p) + rest, i, Line(p[n])) && j == i + |Line(p[n])| && i < j <= |Text(p)|
    ensures if n + 1 < |p| then At(Text(p) + rest, j) == '{' else j == |Text(p)|
  {
    LineFits(p, n, i, j);
    HasAtPrefix(Text(p), rest, i, Line(p[n]));
    if n + 1 < |p| {
      LineFits(p, n + 1, j, |Text(p[..n + 2])|);
      LineStarts(p[n + 1]);
      FirstOf(Text(p), j, Line(p[n + 1]));
    } else {
      assert p[..n + 1] == p;
    }
  }

  lemma SliceSnoc<T>(p: seq<T>, n: nat)
    requires n < |p|
    ensures p[..n + 1] == p[..n] + [p[n]]
  {
  }

  lemma ParsesLineHere(s: string, len: nat, i: nat, j: nat, x: Instr, done: seq<Instr>, more: seq<Instr>)
    requires HasAt(s, i, Line(x)) && j == i + |Line(x)| && i < len <= |s| && |done| < MAX_INSTR_SIZ
             && more == done + [x]
    ensures j <= |s| && ParseFrom(s, len, i, done) == ParseFrom(s, len, Skip(s, j, Gap.After), more)
  {
    ParsesLine(s, i, x, Line(x));
    ParseStep(s, len, i, done, x, Skip(s, j, Gap.After), more);
  }

  /** Behind a line the parser stands at the next one, or past the end of the text. */
  lemma NextLineOrEnd(s: string, len: nat, j: nat, last: bool)
    requires j <= len <= |s| && if last then j == len else At(s, j) == '{'
    ensures j <= Skip(s, j, Gap.After) <= |s|
            && if last then Skip(s, j, Gap.After) >= len else Skip(s, j, Gap.After) == j
  {
  }

  lemma {:induction false} ParsesRest(p: seq<Instr>, n: nat, rest: string, s: string, len: nat, i: nat)
    requires n <= |p| < MAX_INSTR_SIZ && s == Text(p) + rest && len == |Text(p)| && i <= |s|
    requires if n == |p| then i >= len else i == |Text(p[..n])|
    ensures ParseFrom(s, len, i, p[..n]) == Some(p)
    decreases |p| - n
  {
    if n == |p| {
      assert p[..n] == p;
    } else {
      var j := |Text(p[..n + 1])|;
      LineAt(p, n, rest, i, j);
      SliceSnoc(p, n);
      ParsesLineHere(s, len, i, j, p[n], p[..n], p[..n + 1]);
      NextLineOrEnd(s, len, j, n + 1 == |p|);
      ParsesRest(p, n + 1, rest, s, len, Skip(s, j, Gap.After));
    }
  }

  /** Printing a program of fewer than 512 instructions and parsing the lines gives it back, whatever
      the memory holds behind them. */
  lemma RoundTrip(p: seq<Instr>, rest: string)
    requires |p| < MAX_INSTR_SIZ
    ensures ParseFrom(Text(p) + rest, |Text(p)|, 0, []) == Some(p)
  {
    assert p[..0] == [];
    ParsesRest(p, 0, rest, Text(p) + rest, |Text(p)|, 0);
  }

  /** The lines of such a program also fit into the write buffer. */
  lemma {:induction false} TextFits(p: seq<Instr>)
    ensures |Text(p)| <= (LINE_BUFFER - 1) * |p|
    ensures |p| < 512 ==> |Text(p)| <= 16384 == MAX_BUFF_SIZ
  {
    if p == [] {
    } else {
      TextFits(p[..|p| - 1]);
    }
  }

  /** At a NUL inside the text the parser reads zeros without moving on. */
  lemma NulStandsStill(s: string, i: nat)
    requires i < |s| && s[i] == '\0'
    ensures ParseInstr(s, i).1 == i
  {
  }

  /** So a text with a NUL at the start of an instruction is refused as too long. */
  lemma {:induction false} NulIsRefused(s: string, len: nat, i: nat, done: seq<Instr>)
    requires i < len <= |s| && s[i] == '\0' && |done| <= MAX_INSTR_SIZ
    ensures ParseFrom(s, len, i, done) == None
    decreases MAX_INSTR_SIZ - |done|
  {
    if |done| == MAX_INSTR_SIZ {
    } else {
      NulStandsStill(s, i);
      var x := ParseInstr(s, i).0;
      ParseStep(s, len, i, done, x, i, done + [x]);
      NulIsRefused(s, len, i, done + [x]);
    }
  }

  // ---------- What stands behind the text ----------

  /** The last instruction of the text has its fourth number end before the text does, or there are too
      many instructions anyway. */
  ghost predicate EndsInside(t: string, i: nat, done: seq<Instr>)
    requires i <= |t| && |done| <= MAX_INSTR_SIZ
    decreases MAX_INSTR_SIZ - |done|
  {
    if |done| == MAX_INSTR_SIZ || i == |t| then true
    else if Numbers(t, i).1 == |t| then |done| + 1 == MAX_INSTR_SIZ
    else EndsInside(t, ParseInstr(t, i).1, done + [ParseInstr(t, i).0])
  }

  lemma {:induction false} SameSkip(t: string, r: string, i: nat, gap: Gap)
    requires i <= |t|
    ensures Skip(t, i, gap) < |t| ==> Skip(t + r, i, gap) == Skip(t, i, gap)
    ensures Skip(t, i, gap) == |t| ==> Skip(t + r, i, gap) == Skip(t + r, |t|, gap)
    decreases |t| - i
  {
    if i < |t| && Fills(t[i], gap) {
      SameSkip(t, r, i + 1, gap);
    } else {
      assert i < |t| ==> (t + r)[i] == t[i];
    }
  }

  lemma {:induction false} SameScan(t: string, r: string, i: nat, rx: Radix, acc: nat)
    requires i <= |t| && Scan(t, i, rx, acc).1 < |t|
    ensures Scan(t + r, i, rx, acc) == Scan(t, i, rx, acc)
    decreases |t| - i
  {
    assert (t + r)[i] == t[i];
    if !IsDigit(t[i], rx) {
    } else {
      SameScan(t, r, i + 1, rx, Times(acc, rx) + DigitValue(t[i]));
    }
  }

  lemma SameStrtoul(t: string, r: string, i: nat, rx: Radix)
    requires i <= |t| && Strtoul(t, i, rx).1 < |t|
    ensures Strtoul(t + r, i, rx) == Strtoul(t, i, rx)
  {
    assert At(t + r, i) == At(t, i);
    assert i + 1 < |t| ==> At(t + r, i + 1) == At(t, i + 1);
    assert i + 1 == |t| ==> !IsDigit(t[i], rx);
    assert DigitsStart(t + r, i, rx) == DigitsStart(t, i, rx);
    SameScan(t, r, DigitsStart(t, i, rx), rx, 0);
  }

  /** A number that ends inside the text does not depend on what stands behind it. */
  lemma SameNumber(t: string, r: string, i: nat, gap: Gap, rx: Radix)
    requires i <= |t| && Number(t, i, gap, rx).1 < |t|
    ensures Number(t + r, i, gap, rx) == Number(t, i, gap, rx)
  {
    SameSkip(t, r, i, gap);
    SameStrtoul(t, r, Skip(t, i, gap), rx);
  }

  lemma SameNumbers(t: string, r: string, i: nat)
    requires i <= |t| && Numbers(t, i).1 < |t|
    ensures Numbers(t + r, i) == Numbers(t, i)
  {
    var i1 := Number(t, i, Before, Sixteen).1;
    var i2 := Number(t, i1, Between, Ten).1;
    var i3 := Number(t, i2, Between, Ten).1;
    SameNumber(t, r, i, Before, Sixteen);
    SameNumber(t, r, i1, Between, Ten);
    SameNumber(t, r, i2, Between, Ten);
    SameNumber(t, r, i3, Between, Sixteen);
  }

  /** An instruction that ends inside the text is the same, and so is the place of the next one if that
      begins inside. */
  lemma SameInstr(t: string, r: string, u: string, i: nat)
    requires u == t + r && i <= |t| && Numbers(t, i).1 < |t|
    ensures ParseInstr(u, i).0 == ParseInstr(t, i).0
    ensures ParseInstr(t, i).1 < |t| ==> ParseInstr(u, i).1 == ParseInstr(t, i).1
    ensures ParseInstr(t, i).1 == |t| ==> ParseInstr(u, i).1 >= |t|
  {
    SameNumbers(t, r, i);
    SameSkip(t, r, Numbers(t, i).1, Gap.After);
  }

  lemma {:induction false} ScanExtends(t: string, d: char, i: nat, rx: Radix, acc: nat)
    requires i <= |t| && Scan(t, i, rx, acc).1 == |t| && IsDigit(d, rx)
    ensures Scan(t + [d], i, rx, acc) == (Times(Scan(t, i, rx, acc).0, rx) + DigitValue(d), |t| + 1)
    decreases |t| - i
  {
    if i == |t| {
      assert (t + [d])[i] == d;
    } else {
      assert (t + [d])[i] == t[i];
      ScanExtends(t, d, i + 1, rx, Times(acc, rx) + DigitValue(t[i]));
    }
  }

  lemma StrtoulExtends(t: string, d: char, i: nat, rx: Radix)
    requires i <= |t| && Strtoul(t, i, rx).1 == |t| && '0' <= d <= '9'
    ensures Strtoul(t + [d], i, rx) == (Times(Strtoul(t, i, rx).0, rx) + DigitValue(d), |t| + 1)
  {
    assert i < |t| ==> At(t + [d], i) == At(t, i);
    assert i + 1 < |t| ==> At(t + [d], i + 1) == At(t, i + 1);
    assert DigitsStart(t + [d], i, rx) == DigitsStart(t, i, rx);
    ScanExtends(t, d, DigitsStart(t, i, rx), rx, 0);
  }

  /** A number that ends with the text goes on with a digit behind it. */
  lemma NumberExtends(t: string, d: char, i: nat, gap: Gap, rx: Radix)
    requires i <= |t| && Number(t, i, gap, rx).1 == |t| && '0' <= d <= '9'
    ensures Number(t + [d], i, gap, rx) == (Times(Number(t, i, gap, rx).0, rx) + DigitValue(d), |t| + 1)
  {
    SameSkip(t, [d], i, gap);
    assert (t + [d])[|t|] == d;
    StrtoulExtends(t, d, Skip(t, i, gap), rx);
  }

  /** The text with a 0 behind it and with a 1 behind it. */
  ghost predicate Variants(t: string, u: string, v: string) {
    u == t + "0" && v == t + "1"
  }

  /** Followed by 0 or by 1, a number is the same if it ends inside the text and differs by one if not. */
  lemma NumberOrNext(t: string, u: string, v: string, i: nat, gap: Gap, rx: Radix)
    requires i <= |t| && Variants(t, u, v)
    ensures Number(t, i, gap, rx).1 < |t| ==> Number(u, i, gap, rx) == Number(v, i, gap, rx) == Number(t, i, gap, rx)
    ensures Number(t, i, gap, rx).1 == |t| ==>
              && Number(u, i, gap, rx) == (Times(Number(t, i, gap, rx).0, rx), |t| + 1)
              && Number(v, i, gap, rx) == (Times(Number(t, i, gap, rx).0, rx) + 1, |t| + 1)
  {
    if Number(t, i, gap, rx).1 < |t| {
      SameNumber(t, "0", i, gap, rx);
      SameNumber(t, "1", i, gap, rx);
    } else {
      NumberExtends(t, '0', i, gap, rx);
      NumberExtends(t, '1', i, gap, rx);
    }
  }

  lemma FieldsDiffer(a: nat, b: nat, x: Instr, y: Instr)
    requires b == a + 1
    requires || (x.code == a % 0x1_0000 && y.code == b % 0x1_0000) || (x.jt == a % 0x100 && y.jt == b % 0x100)
             || (x.jf == a % 0x100 && y.jf == b % 0x100) || (x.k == a % 0x1_0000_0000 && y.k == b % 0x1_0000_0000)
    ensures x != y
  {
  }

  // Two memories whose instructions at i differ first in the first, second, third or fourth number.

  lemma FirstDiffers(u: string, v: string, i: nat, a: nat, e: nat)
    requires i <= |u| && i <= |v| && Number(u, i, Before, Sixteen) == (a, e)
             && Number(v, i, Before, Sixteen) == (a + 1, e)
    ensures Numbers(u, i).0 != Numbers(v, i).0 && Numbers(u, i).1 >= e && Numbers(v, i).1 >= e
  {
    FieldsDiffer(a, a + 1, Numbers(u, i).0, Numbers(v, i).0);
  }

  lemma SecondDiffers(u: string, v: string, i: nat, i1: nat, a: nat, e: nat)
    requires i <= |u| && i <= |v| && i1 <= |u| && i1 <= |v|
    requires Number(u, i, Before, Sixteen).1 == i1 && Number(v, i, Before, Sixteen).1 == i1
    requires Number(u, i1, Between, Ten) == (a, e) && Number(v, i1, Between, Ten) == (a + 1, e)
    ensures Numbers(u, i).0 != Numbers(v, i).0 && Numbers(u, i).1 >= e && Numbers(v, i).1 >= e
  {
    FieldsDiffer(a, a + 1, Numbers(u, i).0, Numbers(v, i).0);
  }

  lemma ThirdDiffers(u: string, v: string, i: nat, i1: nat, i2: nat, a: nat, e: nat)
    requires i <= |u| && i <= |v| && i1 <= |u| && i1 <= |v| && i2 <= |u| && i2 <= |v|
    requires Number(u, i, Before, Sixteen).1 == i1 && Number(v, i, Before, Sixteen).1 == i1
    requires Number(u, i1, Between, Ten).1 == i2 && Number(v, i1, Between, Ten).1 == i2
    requires Number(u, i2, Between, Ten) == (a, e) && Number(v, i2, Between, Ten) == (a + 1, e)
    ensures Numbers(u, i).0 != Numbers(v, i).0 && Numbers(u, i).1 >= e && Numbers(v, i).1 >= e
  {
    FieldsDiffer(a, a + 1, Numbers(u, i).0, Numbers(v, i).0);
  }

  lemma FourthDiffers(u: string, v: string, i: nat, i1: nat, i2: nat, i3: nat, a: nat, e: nat)
    requires i <= |u| && i <= |v| && i1 <= |u| && i1 <= |v| && i2 <= |u| && i2 <= |v| && i3 <= |u| && i3 <= |v|
    requires Number(u, i, Before, Sixteen).1 == i1 && Number(v, i, Before, Sixteen).1 == i1
    requires Number(u, i1, Between, Ten).1 == i2 && Number(v, i1, Between, Ten).1 == i2
    requires Number(u, i2, Between, Ten).1 == i3 && Number(v, i2, Between, Ten).1 == i3
    requires Number(u, i3, Between, Sixteen) == (a, e) && Number(v, i3, Between, Sixteen) == (a + 1, e)
    ensures Numbers(u, i).0 != Numbers(v, i).0 && Numbers(u, i).1 >= e && Numbers(v, i).1 >= e
  {
    FieldsDiffer(a, a + 1, Numbers(u, i).0, Numbers(v, i).0);
  }

  lemma NumbersDiffer(t: string, i: nat, i1: nat, i2: nat, i3: nat, u: string, v: string)
    requires i <= |t| && Number(t, i, Before, Sixteen).1 == i1 && Number(t, i1, Between, Ten).1 == i2
    requires Number(t, i2, Between, Ten).1 == i3 && Number(t, i3, Between, Sixteen).1 == |t| && Variants(t, u, v)
    ensures Numbers(u, i).0 != Numbers(v, i).0 && Numbers(u, i).1 >= |t| && Numbers(v, i).1 >= |t|
  {
    NumberOrNext(t, u, v, i, Before, Sixteen);
    if i1 == |t| {
      FirstDiffers(u, v, i, Times(Number(t, i, Before, Sixteen).0, Sixteen), |t| + 1);
    } else {
      NumberOrNext(t, u, v, i1, Between, Ten);
      if i2 == |t| {
        SecondDiffers(u, v, i, i1, Times(Number(t, i1, Between, Ten).0, Ten), |t| + 1);
      } else {
        LaterDiffer(t, i, i1, i2, i3, u, v);
      }
    }
  }

  lemma LaterDiffer(t: string, i: nat, i1: nat, i2: nat, i3: nat, u: string, v: string)
    requires i <= |t| && i1 <= |t| && i2 < |t| && Variants(t, u, v)
    requires Number(u, i, Before, Sixteen).1 == i1 && Number(v, i, Before, Sixteen).1 == i1
    requires Number(u, i1, Between, Ten).1 == i2 && Number(v, i1, Between, Ten).1 == i2
    requires Number(t, i2, Between, Ten).1 == i3 && Number(t, i3, Between, Sixteen).1 == |t|
    ensures Numbers(u, i).0 != Numbers(v, i).0 && Numbers(u, i).1 >= |t| && Numbers(v, i).1 >= |t|
  {
    NumberOrNext(t, u, v, i2, Between, Ten);
    if i3 == |t| {
      ThirdDiffers(u, v, i, i1, i2, Times(Number(t, i2, Between, Ten).0, Ten), |t| + 1);
    } else {
      NumberOrNext(t, u, v, i3, Between, Sixteen);
      FourthDiffers(u, v, i, i1, i2, i3, Times(Number(t, i3, Between, Sixteen).0, Sixteen), |t| + 1);
    }
  }

  // Rounds of the parser's loop, by the position they start at.

  /** What a round reads, where its last number ends, and where the next round starts. */
  datatype Round = Round(x: Instr, end: nat, next: nat)

  ghost function RoundAt(s: string, i: nat): Round
    requires i <= |s|
  {
    Round(Numbers(s, i).0, Numbers(s, i).1, ParseInstr(s, i).1)
  }

  ghost function Rounds(s: string): (rs: seq<Round>)
    ensures |rs| == |s| + 1 && Within(rs)
  {
    seq(|s| + 1, i requires 0 <= i <= |s| => RoundAt(s, i))
  }

  ghost predicate Within(rs: seq<Round>) {
    forall i | 0 <= i < |rs| :: rs[i].next < |rs| && rs[i].end < |rs|
  }

  /** The parser's loop over given rounds. */
  ghost function Follow(rs: seq<Round>, len: nat, i: nat, done: seq<Instr>): Option<seq<Instr>>
    requires Within(rs) && len < |rs| && i < |rs| && |done| <= MAX_INSTR_SIZ
    decreases MAX_INSTR_SIZ - |done|
  {
    if |done| == MAX_INSTR_SIZ then None
    else if i >= len then Some(done)
    else Follow(rs, len, rs[i].next, done + [rs[i].x])
  }

  lemma {:induction false} ParseIsFollow(s: string, rs: seq<Round>, len: nat, i: nat, done: seq<Instr>)
    requires rs == Rounds(s) && len <= |s| && i <= |s| && |done| <= MAX_INSTR_SIZ
    ensures ParseFrom(s, len, i, done) == Follow(rs, len, i, done)
    decreases MAX_INSTR_SIZ - |done|
  {
    if |done| == MAX_INSTR_SIZ || i >= len {
    } else {
      assert rs[i] == RoundAt(s, i);
      ParseStep(s, len, i, done, rs[i].x, rs[i].next, done + [rs[i].x]);
      ParseIsFollow(s, rs, len, rs[i].next, done + [rs[i].x]);
    }
  }

  ghost predicate Ends(rs: seq<Round>, i: nat, done: seq<Instr>)
    requires Within(rs) && i < |rs| && |done| <= MAX_INSTR_SIZ
    decreases MAX_INSTR_SIZ - |done|
  {
    if |done| == MAX_INSTR_SIZ || i == |rs| - 1 then true
    else if rs[i].end == |rs| - 1 then |done| + 1 == MAX_INSTR_SIZ
    else Ends(rs, rs[i].next, done + [rs[i].x])
  }

  lemma EndsInsideStep(t: string, i: nat, done: seq<Instr>, x: Instr, j: nat, more: seq<Instr>)
    requires i < |t| && |done| < MAX_INSTR_SIZ && Numbers(t, i).1 < |t| && (x, j) == ParseInstr(t, i)
             && more == done + [x]
    ensures EndsInside(t, i, done) == EndsInside(t, j, more)
  {
  }

  lemma EndsStep(rs: seq<Round>, i: nat, done: seq<Instr>, more: seq<Instr>)
    requires Within(rs) && i < |rs| - 1 && |done| < MAX_INSTR_SIZ && rs[i].end < |rs| - 1 && more == done + [rs[i].x]
    ensures Ends(rs, i, done) == Ends(rs, rs[i].next, more)
  {
  }

  lemma {:induction false} EndsInsideIsEnds(t: string, rs: seq<Round>, i: nat, done: seq<Instr>)
    requires rs == Rounds(t) && i <= |t| && |done| <= MAX_INSTR_SIZ
    ensures EndsInside(t, i, done) == Ends(rs, i, done)
    decreases MAX_INSTR_SIZ - |done|
  {
    if |done| == MAX_INSTR_SIZ || i == |t| {
    } else {
      assert rs[i] == RoundAt(t, i);
      if rs[i].end < |t| {
        var more := done + [rs[i].x];
        EndsInsideStep(t, i, done, rs[i].x, rs[i].next, more);
        EndsStep(rs, i, done, more);
        EndsInsideIsEnds(t, rs, rs[i].next, more);
      }
    }
  }

  /** A round that ends inside the text is the same with more behind it. */
  ghost predicate RoundAgrees(r: Round, q: Round, len: nat) {
    r.end < len ==> q.x == r.x && (r.next < len ==> q.next == r.next) && (r.next >= len ==> q.next >= len)
  }

  ghost predicate Agree(rs: seq<Round>, qs: seq<Round>) {
    && Within(rs) && Within(qs) && 0 < |rs| <= |qs|
    && forall i {:trigger qs[i]} | 0 <= i < |rs| :: RoundAgrees(rs[i], qs[i], |rs| - 1)
  }

  lemma RoundsAgree(t: string, r: string, u: string)
    requires u == t + r
    ensures Agree(Rounds(t), Rounds(u))
  {
    forall i | 0 <= i <= |t| ensures RoundAgrees(Rounds(t)[i], Rounds(u)[i], |t|) {
      if Numbers(t, i).1 < |t| { SameInstr(t, r, u, i); }
      assert Rounds(t)[i] == RoundAt(t, i) && Rounds(u)[i] == RoundAt(u, i);
    }
  }

  lemma {:induction false} SameFollow(rs: seq<Round>, qs: seq<Round>, i: nat, done: seq<Instr>)
    requires Agree(rs, qs) && i < |rs| && |done| <= MAX_INSTR_SIZ && Ends(rs, i, done)
    ensures Follow(qs, |rs| - 1, i, done) == Follow(rs, |rs| - 1, i, done)
    decreases MAX_INSTR_SIZ - |done|
  {
    if |done| == MAX_INSTR_SIZ || i == |rs| - 1 {
    } else if rs[i].end < |rs| - 1 {
      assert RoundAgrees(rs[i], qs[i], |rs| - 1);
      SameFollow(rs, qs, rs[i].next, done + [rs[i].x]);
    } else {
      assert |done + [rs[i].x]| == MAX_INSTR_SIZ == |done + [qs[i].x]|;
    }
  }

  /** Where the text cuts a round off, the two variants read different instructions and are done. */
  ghost predicate CutApart(rs: seq<Round>, qs: seq<Round>, ps: seq<Round>) {
    && |rs| <= |qs| && |rs| <= |ps|
    && forall i {:trigger qs[i]} | 0 <= i < |rs| && rs[i].end >= |rs| - 1 ::
         qs[i].x != ps[i].x && qs[i].next >= |rs| - 1 && ps[i].next >= |rs| - 1
  }

  lemma VariantsCutApart(t: string, u: string, v: string)
    requires Variants(t, u, v)
    ensures CutApart(Rounds(t), Rounds(u), Rounds(v))
  {
    forall i | 0 <= i <= |t| && Rounds(t)[i].end >= |t|
      ensures Rounds(u)[i].x != Rounds(v)[i].x && Rounds(u)[i].next >= |t| && Rounds(v)[i].next >= |t|
    {
      var i1 := Number(t, i, Before, Sixteen).1;
      var i2 := Number(t, i1, Between, Ten).1;
      NumbersDiffer(t, i, i1, i2, Number(t, i2, Between, Ten).1, u, v);
      assert Rounds(u)[i] == RoundAt(u, i) && Rounds(v)[i] == RoundAt(v, i);
    }
  }

  lemma {:induction false} FollowDiffers(rs: seq<Round>, qs: seq<Round>, ps: seq<Round>, i: nat, done: seq<Instr>)
    requires Agree(rs, qs) && Agree(rs, ps) && CutApart(rs, qs, ps) && i < |rs| && |done| <= MAX_INSTR_SIZ
             && !Ends(rs, i, done)
    ensures Follow(qs, |rs| - 1, i, done) != Follow(ps, |rs| - 1, i, done)
    decreases MAX_INSTR_SIZ - |done|
  {
    if rs[i].end < |rs| - 1 {
      assert RoundAgrees(rs[i], qs[i], |rs| - 1) && RoundAgrees(rs[i], ps[i], |rs| - 1);
      FollowDiffers(rs, qs, ps, rs[i].next, done + [rs[i].x]);
    } else {
      assert (done + [qs[i].x])[|done|] == qs[i].x && (done + [ps[i].x])[|done|] == ps[i].x;
    }
  }

  lemma SameFollowed(t: string, r: string, u: string, i: nat, done: seq<Instr>)
    requires i <= |t| && |done| <= MAX_INSTR_SIZ && EndsInside(t, i, done) && u == t + r
    ensures Follow(Rounds(u), |t|, i, done) == Follow(Rounds(t), |t|, i, done)
  {
    EndsInsideIsEnds(t, Rounds(t), i, done);
    RoundsAgree(t, r, u);
    SameFollow(Rounds(t), Rounds(u), i, done);
  }

  lemma SameParse(t: string, r: string, u: string, i: nat, done: seq<Instr>)
    requires i <= |t| && |done| <= MAX_INSTR_SIZ && EndsInside(t, i, done) && u == t + r
    ensures ParseFrom(u, |t|, i, done) == ParseFrom(t, |t|, i, done)
  {
    SameFollowed(t, r, u, i, done);
    ParseIsFollow(t, Rounds(t), |t|, i, done);
    ParseIsFollow(u, Rounds(u), |t|, i, done);
  }

  /** The rounds of a text of len characters, and those of its two variants. */
  ghost predicate Apart(rs: seq<Round>, qs: seq<Round>, ps: seq<Round>, len: nat) {
    |rs| == len + 1 && Agree(rs, qs) && Agree(rs, ps) && CutApart(rs, qs, ps)
  }

  lemma RoundsApart(t: string, u: string, v: string)
    requires Variants(t, u, v)
    ensures Apart(Rounds(t), Rounds(u), Rounds(v), |t|)
  {
    RoundsAgree(t, "0", u);
    RoundsAgree(t, "1", v);
    VariantsCutApart(t, u, v);
  }

  lemma ApartDiffers(rs: seq<Round>, qs: seq<Round>, ps: seq<Round>, len: nat, i: nat, done: seq<Instr>)
    requires Apart(rs, qs, ps, len) && i <= len && |done| <= MAX_INSTR_SIZ && !Ends(rs, i, done)
    ensures Follow(qs, len, i, done) != Follow(ps, len, i, done)
  {
    FollowDiffers(rs, qs, ps, i, done);
  }

  lemma ParsesDiffer(t: string, u: string, v: string, i: nat, done: seq<Instr>)
    requires i <= |t| && |done| <= MAX_INSTR_SIZ && !EndsInside(t, i, done) && Variants(t, u, v)
    ensures ParseFrom(u, |t|, i, done) != ParseFrom(v, |t|, i, done)
  {
    EndsInsideIsEnds(t, Rounds(t), i, done);
    RoundsApart(t, u, v);
    ApartDiffers(Rounds(t), Rounds(u), Rounds(v), |t|, i, done);
    ParseIsFollow(u, Rounds(u), |t|, i, done);
    ParseIsFollow(v, Rounds(v), |t|, i, done);
  }

  /** What is parsed does not depend on the memory behind the text if and only if the fourth number of
      the last instruction ends before the text does, or the text is refused as too long. */
  lemma IndependentIff(t: string)
    ensures (forall r: string :: ParseFrom(t + r, |t|, 0, []) == ParseFrom(t, |t|, 0, [])) <==> EndsInside(t, 0, [])
  {
    if EndsInside(t, 0, []) {
      forall r: string ensures ParseFrom(t + r, |t|, 0, []) == ParseFrom(t, |t|, 0, []) {
        SameParse(t, r, t + r, 0, []);
      }
    } else {
      ParsesDiffer(t, t + "0", t + "1", 0, []);
      assert ParseFrom(t + "0", |t|, 0, []) != ParseFrom(t, |t|, 0, [])
          || ParseFrom(t + "1", |t|, 0, []) != ParseFrom(t, |t|, 0, []);
    }
  }

  // ---------- A line cut off behind its last number ----------

  lemma HeadPieces(x: Instr, a: string, b: string, c: string, d: string)
    requires Pieces(x, a, b, c, d)
    ensures Head(x) == a + (b + (c + (d + "")))
  {
  }

  lemma HeadNumbers(s: string, x: Instr, head: string, a: string, b: string, c: string, d: string)
    requires Pieces(x, a, b, c, d)
    requires head == a + (b + (c + (d + ""))) && HasAt(s, 0, head) && !IsDigit(At(s, |head|), Sixteen)
    ensures Numbers(s, 0) == (x, |head|)
  {
    HasAtSplitFive(s, 0, a, b, c, d, "");
    NumbersAt(s, 0, |a| + |b| + |c| + |d|, x, a, b, c, d);
  }

  lemma ParsesHead(x: Instr, head: string, len: nat)
    requires head == Head(x) && 0 < len <= |head|
    ensures ParseFrom(head, len, 0, []) == Some([x])
  {
    var a, b, c, d := "{ " + ("0x" + Hex(x.code)), ", " + Dec(x.jt), ", " + Dec(x.jf), ", " + ("0x" + Hex(x.k));
    HeadPieces(x, a, b, c, d);
    assert HasAt(head, 0, head);
    HeadNumbers(head, x, head, a, b, c, d);
    OneInstr(head, len, x);
  }

  lemma OneInstr(s: string, len: nat, x: Instr)
    requires 0 < len <= |s| && Numbers(s, 0) == (x, |s|)
    ensures ParseFrom(s, len, 0, []) == Some([x])
  {
    ParseStep(s, len, 0, [], x, ParseInstr(s, 0).1, [x]);
  }

  lemma NumeralSnoc(m: nat, n: nat, d: nat)
    requires m >= 16 && Quotient(m, Sixteen) == n && Remainder(m, Sixteen) == d && d < 16
    ensures Hex(m) == Hex(n) + [DigitOf(d)]
  {
  }

  lemma QuotientOf(n: nat, d: nat)
    requires d < 16
    ensures Quotient(Times(n, Sixteen) + d, Sixteen) == n && Remainder(Times(n, Sixteen) + d, Sixteen) == d
  {
  }

  lemma HeadGrows(x: Instr, y: Instr, d: nat)
    requires 0 < x.k && d < 16 && Times(x.k, Sixteen) + d < 0x1_0000_0000 && y == x.(k := Times(x.k, Sixteen) + d)
    ensures Head(y) == Head(x) + [DigitOf(d)]
  {
    QuotientOf(x.k, d);
    NumeralSnoc(Times(x.k, Sixteen) + d, x.k, d);
  }

  /** A line without its closing is read right with nothing behind it; a hexadecimal digit behind it is
      taken into the last number. The text "{ 0x1, 2, 3, 0x4" in front of a 5 is such a line. */
  lemma CutLine(x: Instr, d: nat)
    requires 0 < x.k < 0x1000_0000 && d < 16
    ensures ParseFrom(Head(x), |Head(x)|, 0, []) == Some([x])
    ensures ParseFrom(Head(x) + [DigitOf(d)], |Head(x)|, 0, []) == Some([x.(k := Times(x.k, Sixteen) + d)])
  {
    var y := x.(k := Times(x.k, Sixteen) + d);
    ParsesHead(x, Head(x), |Head(x)|);
    HeadGrows(x, y, d);
    ParsesHead(y, Head(x) + [DigitOf(d)], |Head(x)|);
  }
}
