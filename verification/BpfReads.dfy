/** Which texts the filter parser reads beyond: the parser once more, on the text alone, where a read
    behind the end is a fault. */
module BpfReads {
  import opened Common
  import opened BpfText

  /** A parse that stays inside the text, or one that reads behind it. */
  datatype Outcome<T> = Inside(value: T) | Behind

  function SkipInside(t: string, i: nat, gap: Gap): Outcome<nat>
    decreases |t| - i
  {
    if i >= |t| then Behind else if Fills(t[i], gap) then SkipInside(t, i + 1, gap) else Inside(i)
  }

  function ScanInside(t: string, i: nat, r: Radix, acc: nat): Outcome<(nat, nat)>
    decreases |t| - i
  {
    if i >= |t| then Behind
    else if IsDigit(t[i], r) then ScanInside(t, i + 1, r, Times(acc, r) + DigitValue(t[i]))
    else Inside((acc, i))
  }

  /** In base 16 the first character is read to find a 0, and then the second to find an x. */
  function StrtoulInside(t: string, i: nat, r: Radix): Outcome<(nat, nat)> {
    if r.Ten? then ScanInside(t, i, r, 0)
    else if i >= |t| then Behind
    else if t[i] != '0' then ScanInside(t, i, r, 0)
    else if i + 1 >= |t| then Behind
    else ScanInside(t, if t[i + 1] == 'x' || t[i + 1] == 'X' then i + 2 else i, r, 0)
  }

  function NumberInside(t: string, i: nat, gap: Gap, r: Radix): Outcome<(nat, nat)> {
    var j := SkipInside(t, i, gap);
    if j.Behind? then Behind else StrtoulInside(t, j.value, r)
  }

  /** One round of the parser's loop. */
  function InstrInside(t: string, i: nat): Outcome<(Instr, nat)> {
    var a := NumberInside(t, i, Before, Sixteen);
    if a.Behind? then Behind else
    var b := NumberInside(t, a.value.1, Between, Ten);
    if b.Behind? then Behind else
    var c := NumberInside(t, b.value.1, Between, Ten);
    if c.Behind? then Behind else
    var d := NumberInside(t, c.value.1, Between, Sixteen);
    if d.Behind? then Behind else
    var j := SkipInside(t, d.value.1, Gap.After);
    if j.Behind? then Behind else Inside((Cast(a.value.0, b.value.0, c.value.0, d.value.0), j.value))
  }

  /** The parser's loop. */
  function ParseInside(t: string, i: nat, done: seq<Instr>): Outcome<Option<seq<Instr>>>
    requires |done| <= MAX_INSTR_SIZ
    decreases MAX_INSTR_SIZ - |done|
  {
    if |done| == MAX_INSTR_SIZ then Inside(None)
    else if i >= |t| then Inside(Some(done))
    else
      var x := InstrInside(t, i);
      if x.Behind? then Behind else ParseInside(t, x.value.1, done + [x.value.0])
  }

  // ---------- Reading inside is ending inside ----------

  /** A part of the parser that ends at position e stays inside exactly when e is inside. */
  ghost predicate Tracks<T>(t: string, o: Outcome<T>, value: T, e: nat) {
    o == if e < |t| then Inside(value) else Behind
  }

  lemma {:induction false} SkipTracks(t: string, i: nat, gap: Gap)
    requires i <= |t|
    ensures Tracks(t, SkipInside(t, i, gap), Skip(t, i, gap), Skip(t, i, gap))
    decreases |t| - i
  {
    if i == |t| || !Fills(t[i], gap) {
    } else {
      SkipTracks(t, i + 1, gap);
    }
  }

  lemma {:induction false} ScanTracks(t: string, i: nat, r: Radix, acc: nat)
    requires i <= |t|
    ensures Tracks(t, ScanInside(t, i, r, acc), Scan(t, i, r, acc), Scan(t, i, r, acc).1)
    decreases |t| - i
  {
    if i == |t| || !IsDigit(t[i], r) {
    } else {
      ScanTracks(t, i + 1, r, Times(acc, r) + DigitValue(t[i]));
    }
  }

  lemma StrtoulTracks(t: string, i: nat, r: Radix)
    requires i <= |t|
    ensures Tracks(t, StrtoulInside(t, i, r), Strtoul(t, i, r), Strtoul(t, i, r).1)
  {
    ScanTracks(t, DigitsStart(t, i, r), r, 0);
  }

  lemma NumberTracks(t: string, i: nat, gap: Gap, r: Radix)
    requires i <= |t|
    ensures Tracks(t, NumberInside(t, i, gap, r), Number(t, i, gap, r), Number(t, i, gap, r).1)
  {
    SkipTracks(t, i, gap);
    StrtoulTracks(t, Skip(t, i, gap), r);
  }

  /** A round reads the text up to and including the position at which it ends. */
  lemma InstrTracks(t: string, i: nat)
    requires i <= |t|
    ensures Tracks(t, InstrInside(t, i), ParseInstr(t, i), ParseInstr(t, i).1)
  {
    var (code, i1) := Number(t, i, Before, Sixteen);
    var (jt, i2) := Number(t, i1, Between, Ten);
    var (jf, i3) := Number(t, i2, Between, Ten);
    var (k, i4) := Number(t, i3, Between, Sixteen);
    NumberTracks(t, i, Before, Sixteen);
    NumberTracks(t, i1, Between, Ten);
    NumberTracks(t, i2, Between, Ten);
    NumberTracks(t, i3, Between, Sixteen);
    SkipTracks(t, i4, Gap.After);
  }

  // ---------- When the parser reads behind the text ----------

  /** Some round of at most 512 ends with the text. */
  ghost predicate ReachesEnd(t: string, i: nat, done: seq<Instr>)
    requires i <= |t| && |done| <= MAX_INSTR_SIZ
    decreases MAX_INSTR_SIZ - |done|
  {
    i < |t| && |done| < MAX_INSTR_SIZ
    && (ParseInstr(t, i).1 == |t| || ReachesEnd(t, ParseInstr(t, i).1, done + [ParseInstr(t, i).0]))
  }

  lemma ReachesStep(t: string, i: nat, done: seq<Instr>, x: Instr, j: nat, more: seq<Instr>)
    requires i < |t| && |done| < MAX_INSTR_SIZ && (x, j) == ParseInstr(t, i) && j < |t| && more == done + [x]
    ensures ReachesEnd(t, i, done) == ReachesEnd(t, j, more)
    ensures ParseFrom(t, |t|, i, done) == ParseFrom(t, |t|, j, more)
    ensures InstrInside(t, i) == Inside((x, j)) ==> ParseInside(t, i, done) == ParseInside(t, j, more)
  {
  }

  lemma {:induction false} ReadsBehindFrom(t: string, i: nat, done: seq<Instr>)
    requires i <= |t| && |done| <= MAX_INSTR_SIZ
    ensures ParseInside(t, i, done) == if ReachesEnd(t, i, done) then Behind else Inside(ParseFrom(t, |t|, i, done))
    decreases MAX_INSTR_SIZ - |done|
  {
    if i == |t| || |done| == MAX_INSTR_SIZ {
    } else {
      var x, j := ParseInstr(t, i).0, ParseInstr(t, i).1;
      InstrTracks(t, i);
      if j < |t| {
        ReachesStep(t, i, done, x, j, done + [x]);
        ReadsBehindFrom(t, j, done + [x]);
      }
    }
  }

  /** The parser reads behind the text if and only if one of its rounds ends with the text; otherwise it
      returns what it returns in any memory. */
  lemma ReadsBehindIff(t: string)
    ensures ParseInside(t, 0, []).Behind? <==> ReachesEnd(t, 0, [])
    ensures ParseInside(t, 0, []).Inside? ==> ParseInside(t, 0, []).value == ParseFrom(t, |t|, 0, [])
  {
    ReadsBehindFrom(t, 0, []);
  }

  lemma {:induction false} ParsedReachesEnd(t: string, i: nat, done: seq<Instr>)
    requires i < |t| && |done| <= MAX_INSTR_SIZ && ParseFrom(t, |t|, i, done).Some?
    ensures ReachesEnd(t, i, done)
    decreases MAX_INSTR_SIZ - |done|
  {
    var x, j := ParseInstr(t, i).0, ParseInstr(t, i).1;
    if j == |t| {
    } else {
      ReachesStep(t, i, done, x, j, done + [x]);
      ParsedReachesEnd(t, j, done + [x]);
    }
  }

  /** No text but the empty one is parsed to a program without a read behind it. */
  lemma ParsedReadsBehind(t: string)
    requires t != "" && ParseFrom(t, |t|, 0, []).Some?
    ensures ParseInside(t, 0, []).Behind?
  {
    ParsedReachesEnd(t, 0, []);
    ReadsBehindIff(t);
  }

  lemma TextNotEmpty(p: seq<Instr>)
    requires p != []
    ensures Text(p) != ""
  {
    LineStarts(p[|p| - 1]);
  }

  /** So every printed program, parsed from a buffer of just its length, reads behind that buffer. */
  lemma PrintedReadsBehind(p: seq<Instr>)
    requires 0 < |p| < MAX_INSTR_SIZ
    ensures ParseInside(Text(p), 0, []).Behind?
  {
    TextNotEmpty(p);
    RoundTrip(p, "");
    assert Text(p) + "" == Text(p);
    ParsedReadsBehind(Text(p));
  }
}
