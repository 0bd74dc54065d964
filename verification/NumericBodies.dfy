/** The seven hand-written body matchers.  Each returns the end the documented pattern reports first
    under ordered backtracking, its trailing word boundary included, or -1. */
module NumericBodies {
  import opened Regex
  import opened NumericRules

  method NumDigitRun(s: Text, p: nat) returns (n: nat)
    ensures n == Run(DIGIT, s, p)
  {
    n := 0;
    while p + n < |s| && 0x30 <= s[p + n] <= 0x39
      invariant Run(DIGIT, s, p) == n + Run(DIGIT, s, p + n)
      decreases |s| - n
    {
      n := n + 1;
    }
  }

  predicate DigitsAt(s: Text, at: nat, n: nat) {
    at + n <= |s| && forall k | at <= k < at + n :: s[k] in DIGIT
  }

  method NumDigits(s: Text, at: nat, n: nat) returns (ok: bool)
    ensures ok <==> DigitsAt(s, at, n)
  {
    if at + n > |s| { return false; }
    for i := at to at + n
      invariant forall k | at <= k < i :: s[k] in DIGIT
    {
      if s[i] < 0x30 || s[i] > 0x39 { return false; }
    }
    return true;
  }

  /** A letter, a digit or an underscore. */
  predicate NumIsWordByte(c: int) { 'a' as int <= c <= 'z' as int || 'A' as int <= c <= 'Z' as int || '0' as int <= c <= '9' as int || c == '_' as int }

  /** The trailing half of `\b`, which is all a body needs: what it just consumed is a word byte. */
  predicate WordBreak(s: Text, e: nat) { e >= |s| || !NumIsWordByte(s[e]) }

  lemma WordBytes(c: int)
    ensures NumIsWordByte(c) <==> c in WORD
  {
  }

  lemma BoundaryEnds(s: Text, e: nat)
    requires 0 < e <= |s| && s[e - 1] in WORD
    ensures Ends(Boundary, s, e) == if WordBreak(s, e) then [e] else []
  {
  }

  lemma CatClassBoundary(ok: set<int>, s: Text, i: nat)
    requires i <= |s| && ok <= WORD
    ensures Ends(Cat(Class(ok), Boundary), s, i)
         == if i < |s| && s[i] in ok && WordBreak(s, i + 1) then [i + 1] else []
  {
    hide Ends, EndsAll, StarEnds;
    CatClass(ok, Boundary, s, i);
    if i < |s| && s[i] in ok { BoundaryEnds(s, i + 1); }
  }

  lemma WordSubsets()
    ensures DIGIT <= WORD && {'Z' as int} <= WORD && {'s' as int} <= WORD
    ensures {'m' as int} <= WORD && {'h' as int} <= WORD
  {
  }

  // ------------------------------------------------------------------------------------------
  // iso: \d{4}-\d{2}-\d{2}[T ]\d{2}:\d{2}:\d{2}(?:\.\d+)?(?:Z|[+-]\d{2}:?\d{2})?\b
  // ------------------------------------------------------------------------------------------

  /** The three readings of the zone followed by `\b`, in order. */
  lemma ZoneEnds(s: Text, p: nat)
    requires 0 < p <= |s|
    ensures Ends(Zone(), s, p)
         == Ends(Cat(Ch('Z'), Boundary), s, p) + Ends(Cat(Offset(), Boundary), s, p) + Ends(Boundary, s, p)
  {
    hide Ends, EndsAll, StarEnds;
    CatOpt(Alt(Ch('Z'), Offset()), Boundary, s, p);
    CatAlt(Ch('Z'), Offset(), Boundary, s, p);
  }

  const OFFSET_HEAD: seq<set<int>> := [{'+' as int, '-' as int}, DIGIT, DIGIT]

  function OffsetTail(): Re { Cat(Opt(Class(COLON)), Chain([DIGIT], Class(DIGIT))) }

  lemma TwoDigitsBoundary(s: Text, p: nat)
    requires p <= |s|
    ensures Ends(Cat(Chain([DIGIT], Class(DIGIT)), Boundary), s, p)
         == if DigitsAt(s, p, 2) && WordBreak(s, p + 2) then [p + 2] else []
  {
    hide Ends, EndsAll, StarEnds;
    assert Chain([DIGIT], Class(DIGIT)) == Cat(Class(DIGIT), Class(DIGIT));
    CatAssoc(Class(DIGIT), Class(DIGIT), Boundary, s, p);
    CatClass(DIGIT, Cat(Class(DIGIT), Boundary), s, p);
    WordSubsets();
    if p < |s| && s[p] in DIGIT { CatClassBoundary(DIGIT, s, p + 1); }
  }

  lemma ChainCat(cs: seq<set<int>>, t: Re, c: Re, s: Text, i: nat)
    requires i <= |s|
    ensures Ends(Cat(Chain(cs, t), c), s, i) == if Fits(cs, s, i) then Ends(Cat(t, c), s, i + |cs|) else []
  {
    hide Ends, EndsAll, StarEnds, Chain;
    ChainEnds(cs, t, s, i);
    CatEnds(Chain(cs, t), c, s, i);
    if Fits(cs, s, i) { CatEnds(t, c, s, i + |cs|); } else { EndsAllNone(c, s); }
  }

  predicate OffsetHead(s: Text, p: nat) {
    p < |s| && (s[p] == '+' as int || s[p] == '-' as int) && DigitsAt(s, p + 1, 2)
  }

  predicate ColonOffset(s: Text, p: nat) {
    p + 3 < |s| && s[p + 3] == ':' as int && DigitsAt(s, p + 4, 2) && WordBreak(s, p + 6)
  }

  predicate PlainOffset(s: Text, p: nat) { DigitsAt(s, p + 3, 2) && WordBreak(s, p + 5) }

  lemma OffsetFits(s: Text, p: nat)
    ensures Fits(OFFSET_HEAD, s, p) <==> OffsetHead(s, p)
  {
    if Fits(OFFSET_HEAD, s, p) {
      assert s[p + 0] in OFFSET_HEAD[0] && s[p + 1] in OFFSET_HEAD[1] && s[p + 2] in OFFSET_HEAD[2];
    }
  }

  lemma OffsetEnds(s: Text, p: nat)
    requires p <= |s|
    ensures Ends(Cat(Offset(), Boundary), s, p)
         == if OffsetHead(s, p) then When(ColonOffset(s, p), p + 6) + When(PlainOffset(s, p), p + 5) else []
  {
    hide Ends, EndsAll, StarEnds;
    OffsetFits(s, p);
    ChainCat(OFFSET_HEAD, OffsetTail(), Boundary, s, p);
    if OffsetHead(s, p) {
      var two := Chain([DIGIT], Class(DIGIT));
      CatAssoc(Opt(Class(COLON)), two, Boundary, s, p + 3);
      CatOpt(Class(COLON), Cat(two, Boundary), s, p + 3);
      CatClass(COLON, Cat(two, Boundary), s, p + 3);
      TwoDigitsBoundary(s, p + 3);
      if p + 3 < |s| { TwoDigitsBoundary(s, p + 4); }
    }
  }

  /** The zone's readings in order: 'Z', "+hh:mm", "+hhmm", nothing. */
  function ZoneEnd(s: Text, p: nat): (e: int) {
    if p < |s| && s[p] == 'Z' as int && WordBreak(s, p + 1) then p + 1
    else if OffsetHead(s, p) && ColonOffset(s, p) then p + 6
    else if OffsetHead(s, p) && PlainOffset(s, p) then p + 5
    else if WordBreak(s, p) then p
    else -1
  }

  lemma ZoneFirst(s: Text, p: nat)
    requires 0 < p <= |s| && s[p - 1] in WORD
    ensures First(Ends(Zone(), s, p)) == ZoneEnd(s, p)
  {
    hide Ends, EndsAll, StarEnds;
    ZoneEnds(s, p);
    OffsetEnds(s, p);
    WordSubsets();
    CatClassBoundary({'Z' as int}, s, p);
    BoundaryEnds(s, p);
  }

  method NumIsoZoneEnd(s: Text, p: nat) returns (e: int)
    requires 0 < p <= |s| && s[p - 1] in WORD
    ensures e == ZoneEnd(s, p)
  {
    if p < |s| {
      if s[p] == 'Z' as int {
        if WordBreak(s, p + 1) { return p + 1; }
      } else if s[p] == '+' as int || s[p] == '-' as int {
        var hh := NumDigits(s, p + 1, 2);
        var mm := NumDigits(s, p + 4, 2);
        if hh && p + 3 < |s| && s[p + 3] == ':' as int && mm && WordBreak(s, p + 6) { return p + 6; }
        var hhmm := NumDigits(s, p + 1, 4);
        if hhmm && WordBreak(s, p + 5) { return p + 5; }
      }
    }
    if WordBreak(s, p) { return p; }
    return -1;
  }

  predicate IsoShape(s: Text, i: nat) {
    && i + 19 <= |s|
    && DigitsAt(s, i, 4) && s[i + 4] == '-' as int && DigitsAt(s, i + 5, 2) && s[i + 7] == '-' as int
    && DigitsAt(s, i + 8, 2) && (s[i + 10] == 'T' as int || s[i + 10] == ' ' as int)
    && DigitsAt(s, i + 11, 2) && s[i + 13] == ':' as int && DigitsAt(s, i + 14, 2)
    && s[i + 16] == ':' as int && DigitsAt(s, i + 17, 2)
  }

  lemma IsoFits(s: Text, i: nat)
    ensures Fits(ISO_BASE, s, i) <==> IsoShape(s, i)
  {
    if Fits(ISO_BASE, s, i) {
      assert s[i + 0] in ISO_BASE[0] && s[i + 1] in ISO_BASE[1];
      assert s[i + 2] in ISO_BASE[2] && s[i + 3] in ISO_BASE[3];
      assert s[i + 4] in ISO_BASE[4] && s[i + 5] in ISO_BASE[5] && s[i + 6] in ISO_BASE[6];
      assert s[i + 7] in ISO_BASE[7] && s[i + 8] in ISO_BASE[8] && s[i + 9] in ISO_BASE[9];
      assert s[i + 10] in ISO_BASE[10] && s[i + 11] in ISO_BASE[11] && s[i + 12] in ISO_BASE[12];
      assert s[i + 13] in ISO_BASE[13] && s[i + 14] in ISO_BASE[14] && s[i + 15] in ISO_BASE[15];
      assert s[i + 16] in ISO_BASE[16] && s[i + 17] in ISO_BASE[17] && s[i + 18] in ISO_BASE[18];
    }
  }

  lemma IsoFraction(s: Text, sec: nat)
    requires sec <= |s|
    ensures Ends(Cat(Opt(Fraction()), Zone()), s, sec)
         == (if sec < |s| && s[sec] == '.' as int
             then EndsAll(Zone(), s, Down(sec + 2, sec + 1 + Run(DIGIT, s, sec + 1))) else [])
          + Ends(Zone(), s, sec)
  {
    hide Ends, EndsAll, StarEnds;
    CatOpt(Fraction(), Zone(), s, sec);
    CatAssoc(Ch('.'), Digits(), Zone(), s, sec);
    CatClass({'.' as int}, Cat(Digits(), Zone()), s, sec);
    if sec < |s| {
      CatEnds(Digits(), Zone(), s, sec + 1);
      PlusClassEnds(DIGIT, s, sec + 1);
    }
  }

  /** The zone's end after the longest fraction in `lo..hi` that leaves one. */
  function DownZone(s: Text, lo: nat, hi: int): (e: int)
    decreases hi
  {
    if hi < lo then -1
    else if ZoneEnd(s, hi) >= 0 then ZoneEnd(s, hi)
    else DownZone(s, lo, hi - 1)
  }

  lemma {:induction false} DownZoneFirst(s: Text, lo: nat, hi: int)
    requires 0 < lo && hi <= |s| && forall k | lo - 1 <= k < hi :: s[k] in WORD
    ensures First(EndsAll(Zone(), s, Down(lo, hi))) == DownZone(s, lo, hi)
    decreases hi
  {
    hide Ends, StarEnds;
    if lo <= hi {
      EndsAllDown(Zone(), s, lo, hi);
      ZoneFirst(s, hi);
      DownZoneFirst(s, lo, hi - 1);
    }
  }

  function IsoTail(s: Text, sec: nat): (e: int) {
    var long := if sec < |s| && s[sec] == '.' as int
                then DownZone(s, sec + 2, sec + 1 + Run(DIGIT, s, sec + 1)) else -1;
    if long >= 0 then long else ZoneEnd(s, sec)
  }

  lemma IsoTailFirst(s: Text, sec: nat)
    requires 0 < sec <= |s| && s[sec - 1] in DIGIT
    ensures First(Ends(Cat(Opt(Fraction()), Zone()), s, sec)) == IsoTail(s, sec)
  {
    hide Ends, EndsAll, StarEnds, Zone, Fraction, ZoneEnd, Run, Down, DownZone;
    IsoFraction(s, sec);
    ZoneFirst(s, sec);
    if sec < |s| && s[sec] == '.' as int {
      RunMaximal(DIGIT, s, sec + 1);
      DownZoneFirst(s, sec + 2, sec + 1 + Run(DIGIT, s, sec + 1));
    }
  }

  method NumIsoEnd(s: Text, i: nat) returns (e: int)
    requires i <= |s|
    ensures e == BodyEnd(Iso, s, i)
  {
    IsoFits(s, i);
    ChainEnds(ISO_BASE, Cat(Opt(Fraction()), Zone()), s, i);
    if i + 19 > |s| { return -1; }
    var d0 := NumDigits(s, i, 4);
    var d1 := NumDigits(s, i + 5, 2);
    var d2 := NumDigits(s, i + 8, 2);
    if !d0 || s[i + 4] != '-' as int || !d1 || s[i + 7] != '-' as int || !d2 { return -1; }
    if s[i + 10] != 'T' as int && s[i + 10] != ' ' as int { return -1; }
    var d3 := NumDigits(s, i + 11, 2);
    var d4 := NumDigits(s, i + 14, 2);
    var d5 := NumDigits(s, i + 17, 2);
    if !d3 || s[i + 13] != ':' as int || !d4 || s[i + 16] != ':' as int || !d5 { return -1; }
    e := IsoTailEnd(s, i + 19);
    IsoTailFirst(s, i + 19);
  }

  /** The optional fraction, longest first, each reading followed by the zone. */
  method IsoTailEnd(s: Text, sec: nat) returns (e: int)
    requires 0 < sec <= |s| && s[sec - 1] in DIGIT
    ensures e == IsoTail(s, sec)
  {
    if sec < |s| && s[sec] == '.' as int {
      RunMaximal(DIGIT, s, sec + 1);
      var n := NumDigitRun(s, sec + 1);
      ghost var full := n;
      while n >= 1
        invariant 0 <= n <= full
        invariant DownZone(s, sec + 2, sec + 1 + full) == DownZone(s, sec + 2, sec + 1 + n)
      {
        e := NumIsoZoneEnd(s, sec + 1 + n);
        if e >= 0 { return; }
        n := n - 1;
      }
    }
    e := NumIsoZoneEnd(s, sec);
  }

  // ------------------------------------------------------------------------------------------
  // epoch: \d{10,13}\b     clock: \d{2}:\d{2}:\d{2}(?:\.\d{1,6})?\b
  // ------------------------------------------------------------------------------------------

  /** The largest word break in `lo..hi`, or -1. */
  function DownBreak(s: Text, lo: nat, hi: int): (e: int)
    decreases hi
  {
    if hi < lo then -1 else if WordBreak(s, hi) then hi else DownBreak(s, lo, hi - 1)
  }

  lemma {:induction false} DownBreakFirst(s: Text, lo: nat, hi: int)
    requires 0 < lo && hi <= |s| && forall k | lo - 1 <= k < hi :: s[k] in WORD
    ensures First(EndsAll(Boundary, s, Down(lo, hi))) == DownBreak(s, lo, hi)
    decreases hi
  {
    if lo <= hi {
      EndsAllDown(Boundary, s, lo, hi);
      assert s[hi - 1] in WORD;
      BoundaryEnds(s, hi);
      DownBreakFirst(s, lo, hi - 1);
    }
  }

  lemma TenFits(s: Text, i: nat)
    requires i <= |s|
    ensures Fits(TEN_DIGITS, s, i) <==> Run(DIGIT, s, i) >= 10
    ensures Run(DIGIT, s, i) >= 10 ==> Run(DIGIT, s, i + 10) == Run(DIGIT, s, i) - 10
  {
    RunMaximal(DIGIT, s, i);
    RunSkip(DIGIT, s, i, Min(10, Run(DIGIT, s, i)));
    TenFitsAt(s, i, Run(DIGIT, s, i));
  }

  lemma TenFitsAt(s: Text, i: nat, k: nat)
    ensures Fits(TEN_DIGITS, s, i) && k < 10 ==> i + k < |s| && s[i + k] in DIGIT
  {
    if k < 10 { assert TEN_DIGITS[k] == DIGIT; }
  }

  lemma {:induction false} RunSkip(ok: set<int>, s: Text, i: nat, k: nat)
    requires k <= Run(ok, s, i)
    ensures Run(ok, s, i + k) == Run(ok, s, i) - k
    decreases k
  {
    if k > 0 { RunSkip(ok, s, i + 1, k - 1); }
  }

  lemma EpochFirst(s: Text, i: nat)
    requires i <= |s|
    ensures BodyEnd(Epoch, s, i) == DownBreak(s, i + 10, i + Min(13, Run(DIGIT, s, i)))
  {
    hide Ends, EndsAll, StarEnds, UpTo, Chain, Fits, Down;
    var n := Run(DIGIT, s, i);
    TenFits(s, i);
    ChainEnds(TEN_DIGITS, Cat(UpTo(Class(DIGIT), 3), Boundary), s, i);
    if n >= 10 {
      CatEnds(UpTo(Class(DIGIT), 3), Boundary, s, i + 10);
      UpToEnds(DIGIT, 3, s, i + 10);
      RunMaximal(DIGIT, s, i);
      WordSubsets();
      DownBreakFirst(s, i + 10, i + Min(13, n));
    }
  }

  method NumEpochEnd(s: Text, i: nat) returns (e: int)
    requires i <= |s|
    ensures e == BodyEnd(Epoch, s, i)
  {
    EpochFirst(s, i);
    var n := NumDigitRun(s, i);
    if n > 13 { n := 13; }
    e := LastBreak(s, i, 10, n);
  }

  /** The downward loop both capped digit runs end in. */
  method LastBreak(s: Text, from: nat, lo: nat, hi: nat) returns (e: int)
    requires 0 < lo
    ensures e == DownBreak(s, from + lo, from + hi)
  {
    var n := hi;
    while n >= lo
      invariant DownBreak(s, from + lo, from + hi) == DownBreak(s, from + lo, from + n)
    {
      if WordBreak(s, from + n) { return from + n; }
      n := n - 1;
    }
    return -1;
  }

  predicate ClockShape(s: Text, i: nat) {
    && i + 8 <= |s|
    && DigitsAt(s, i, 2) && s[i + 2] == ':' as int && DigitsAt(s, i + 3, 2)
    && s[i + 5] == ':' as int && DigitsAt(s, i + 6, 2)
  }

  lemma ClockFits(s: Text, i: nat)
    ensures Fits(CLOCK_BASE, s, i) <==> ClockShape(s, i)
  {
    if Fits(CLOCK_BASE, s, i) {
      assert s[i + 0] in CLOCK_BASE[0] && s[i + 1] in CLOCK_BASE[1] && s[i + 2] in CLOCK_BASE[2] &&
             s[i + 3] in CLOCK_BASE[3] && s[i + 4] in CLOCK_BASE[4] && s[i + 5] in CLOCK_BASE[5] &&
             s[i + 6] in CLOCK_BASE[6] && s[i + 7] in CLOCK_BASE[7];
    }
  }

  function ClockTail(s: Text, sec: nat): (e: int) {
    var long := if sec < |s| && s[sec] == '.' as int
                then DownBreak(s, sec + 2, sec + 1 + Min(6, Run(DIGIT, s, sec + 1))) else -1;
    if long >= 0 then long else if WordBreak(s, sec) then sec else -1
  }

  function SixDigits(): Re { Cat(Class(DIGIT), UpTo(Class(DIGIT), 5)) }

  lemma SixDigitsEnds(s: Text, i: nat)
    requires i <= |s|
    ensures Ends(SixDigits(), s, i) == Down(i + 1, i + Min(6, Run(DIGIT, s, i)))
  {
    hide Ends, EndsAll, StarEnds, UpTo;
    CatClass(DIGIT, UpTo(Class(DIGIT), 5), s, i);
    if i < |s| && s[i] in DIGIT { UpToEnds(DIGIT, 5, s, i + 1); }
  }

  lemma ClockTailFirst(s: Text, sec: nat)
    requires 0 < sec <= |s| && s[sec - 1] in DIGIT
    ensures First(Ends(Cat(Opt(ClockFraction()), Boundary), s, sec)) == ClockTail(s, sec)
  {
    hide Ends, EndsAll, StarEnds, UpTo;
    CatOpt(ClockFraction(), Boundary, s, sec);
    CatAssoc(Ch('.'), SixDigits(), Boundary, s, sec);
    CatClass({'.' as int}, Cat(SixDigits(), Boundary), s, sec);
    WordSubsets();
    BoundaryEnds(s, sec);
    if sec < |s| && s[sec] == '.' as int {
      CatEnds(SixDigits(), Boundary, s, sec + 1);
      SixDigitsEnds(s, sec + 1);
      RunMaximal(DIGIT, s, sec + 1);
      DownBreakFirst(s, sec + 2, sec + 1 + Min(6, Run(DIGIT, s, sec + 1)));
    }
  }

  method NumClockEnd(s: Text, i: nat) returns (e: int)
    requires i <= |s|
    ensures e == BodyEnd(Clock, s, i)
  {
    ClockFits(s, i);
    ChainEnds(CLOCK_BASE, Cat(Opt(ClockFraction()), Boundary), s, i);
    if i + 8 > |s| { return -1; }
    var d0 := NumDigits(s, i, 2);
    var d1 := NumDigits(s, i + 3, 2);
    var d2 := NumDigits(s, i + 6, 2);
    if !d0 || s[i + 2] != ':' as int || !d1 || s[i + 5] != ':' as int || !d2 { return -1; }
    ClockTailFirst(s, i + 8);
    e := ClockTailEnd(s, i + 8);
  }

  method ClockTailEnd(s: Text, sec: nat) returns (e: int)
    requires sec <= |s|
    ensures e == ClockTail(s, sec)
  {
    if sec < |s| && s[sec] == '.' as int {
      var n := NumDigitRun(s, sec + 1);
      if n > 6 { n := 6; }
      e := LastBreak(s, sec + 1, 1, n);
      if e >= 0 { return; }
    }
    if WordBreak(s, sec) { return sec; }
    return -1;
  }

  // ------------------------------------------------------------------------------------------
  // The duration shapes.  Every `\d+` commits to its whole run, and so does a fraction.
  // ------------------------------------------------------------------------------------------

  /** `c` can start neither inside a digit run nor at a '.'. */
  ghost predicate RejectsNumber(c: Re, s: Text) {
    forall k | 0 <= k < |s| && (s[k] in DIGIT || s[k] == '.' as int) :: NoMatch(c, s, k)
  }

  lemma OptFraction(c: Re, s: Text, q: nat)
    requires q <= |s| && RejectsNumber(c, s)
    ensures Ends(Cat(Opt(Fraction()), c), s, q)
         == if q < |s| && s[q] == '.' as int
            then (if Run(DIGIT, s, q + 1) == 0 then [] else Ends(c, s, q + 1 + Run(DIGIT, s, q + 1)))
            else Ends(c, s, q)
  {
    hide Ends, EndsAll, StarEnds;
    CatOpt(Fraction(), c, s, q);
    CatAssoc(Ch('.'), Digits(), c, s, q);
    CatClass({'.' as int}, Cat(Digits(), c), s, q);
    if q < |s| && s[q] == '.' as int {
      assert NoMatch(c, s, q);
      RunMaximal(DIGIT, s, q + 1);
      PlusThen(DIGIT, c, s, q + 1);
    }
  }

  /** Where a number `\d+(?:\.\d+)?` that starts at `p` must stop, or -1. */
  function NumberEnd(s: Text, p: nat): (q: int)
    requires p <= |s|
    ensures q <= |s|
    ensures q >= 0 ==> p < q
  {
    var n := Run(DIGIT, s, p);
    if n == 0 then -1
    else if p + n < |s| && s[p + n] == '.' as int then
      var m := Run(DIGIT, s, p + n + 1);
      if m == 0 then -1 else p + n + 1 + m
    else p + n
  }

  lemma NumberThen(c: Re, s: Text, p: nat)
    requires p <= |s| && RejectsNumber(c, s)
    ensures Ends(Cat(Digits(), Cat(Opt(Fraction()), c)), s, p)
         == if NumberEnd(s, p) < 0 then [] else Ends(c, s, NumberEnd(s, p))
  {
    hide Ends, EndsAll, StarEnds;
    var tail := Cat(Opt(Fraction()), c);
    RunMaximal(DIGIT, s, p);
    forall k | p < k < p + Run(DIGIT, s, p) ensures NoMatch(tail, s, k) {
      OptFraction(c, s, k);
      assert NoMatch(c, s, k);
    }
    PlusThen(DIGIT, tail, s, p);
    if Run(DIGIT, s, p) > 0 { OptFraction(c, s, p + Run(DIGIT, s, p)); }
  }

  function SecondsTail(): Re { Cat(Ch('s'), Boundary) }

  function NumFracSecEnd(s: Text, p: nat): (e: int)
    requires p <= |s|
  {
    var q := NumberEnd(s, p);
    if q < 0 || q >= |s| || s[q] != 's' as int || !WordBreak(s, q + 1) then -1 else q + 1
  }

  lemma FracSecFirst(s: Text, p: nat)
    requires p <= |s|
    ensures First(Ends(FracSec(), s, p)) == NumFracSecEnd(s, p)
  {
    hide Ends, EndsAll, StarEnds;
    WordSubsets();
    forall k | 0 <= k < |s| && (s[k] in DIGIT || s[k] == '.' as int) ensures NoMatch(SecondsTail(), s, k) {
      CatClassBoundary({'s' as int}, s, k);
    }
    NumberThen(SecondsTail(), s, p);
    var q := NumberEnd(s, p);
    if q >= 0 { CatClassBoundary({'s' as int}, s, q); }
  }

  /** A digit run, one letter, then `rest`. */
  lemma DigitsLetter(c: char, rest: Re, s: Text, i: nat)
    requires i <= |s| && c as int !in DIGIT
    ensures Ends(Cat(Digits(), Cat(Ch(c), rest)), s, i)
         == var q := i + Run(DIGIT, s, i);
            if q == i || q >= |s| || s[q] != c as int then [] else Ends(rest, s, q + 1)
  {
    hide Ends, EndsAll, StarEnds;
    RunMaximal(DIGIT, s, i);
    var tail := Cat(Ch(c), rest);
    forall k | i < k < i + Run(DIGIT, s, i) ensures NoMatch(tail, s, k) {
      CatClass({c as int}, rest, s, k);
    }
    PlusThen(DIGIT, tail, s, i);
    CatClass({c as int}, rest, s, i + Run(DIGIT, s, i));
  }

  function NumMinSecEnd(s: Text, i: nat): (e: int)
    requires i <= |s|
  {
    var q := i + Run(DIGIT, s, i);
    if q == i || q >= |s| || s[q] != 'm' as int then -1 else NumFracSecEnd(s, q + 1)
  }

  lemma MinSecFirst(s: Text, i: nat)
    requires i <= |s|
    ensures First(Ends(MinSecBody(), s, i)) == NumMinSecEnd(s, i)
  {
    hide Ends, EndsAll, StarEnds;
    DigitsLetter('m', FracSec(), s, i);
    var q := i + Run(DIGIT, s, i);
    if q < |s| { FracSecFirst(s, q + 1); }
  }

  function NumHourMinSecEnd(s: Text, i: nat): (e: int)
    requires i <= |s|
  {
    var q := i + Run(DIGIT, s, i);
    if q == i || q >= |s| || s[q] != 'h' as int then -1 else NumMinSecEnd(s, q + 1)
  }

  lemma HourMinSecFirst(s: Text, i: nat)
    requires i <= |s|
    ensures BodyEnd(HourMinSec, s, i) == NumHourMinSecEnd(s, i)
  {
    hide Ends, EndsAll, StarEnds;
    DigitsLetter('h', MinSecBody(), s, i);
    var q := i + Run(DIGIT, s, i);
    if q < |s| { MinSecFirst(s, q + 1); }
  }

  // ------------------------------------------------------------------------------------------
  // The unit-suffixed shapes
  // ------------------------------------------------------------------------------------------

  predicate TwoAt(s: Text, p: nat, lead: int) {
    p + 1 < |s| && s[p] == lead && s[p + 1] == 's' as int && WordBreak(s, p + 2)
  }

  predicate OneAt(s: Text, p: nat, c: char) { p < |s| && s[p] == c as int && WordBreak(s, p + 1) }

  predicate MicroAt(s: Text, p: nat) {
    p + 2 < |s| && s[p] == 0xC2 && s[p + 1] == 0xB5 && s[p + 2] == 's' as int && WordBreak(s, p + 3)
  }

  /** One unit and the `\b` behind it; "ms" is tried before "m". */
  function NumUnitAt(s: Text, p: nat, phrase: bool): (e: int) {
    if p >= |s| then -1
    else if s[p] == 'm' as int then
      if TwoAt(s, p, 'm' as int) then p + 2 else if !phrase && OneAt(s, p, 'm') then p + 1 else -1
    else if s[p] == 's' as int then if OneAt(s, p, 's') then p + 1 else -1
    else if s[p] == 'n' as int || s[p] == 'u' as int then
      if !phrase && TwoAt(s, p, s[p]) then p + 2 else -1
    else if s[p] == 0xC2 then if !phrase && MicroAt(s, p) then p + 3 else -1
    else if s[p] == 'h' as int then if !phrase && OneAt(s, p, 'h') then p + 1 else -1
    else -1
  }

  lemma TwoEnds(lead: int, s: Text, p: nat)
    requires p <= |s|
    ensures Ends(Cat(Chain([{lead}], Ch('s')), Boundary), s, p) == When(TwoAt(s, p, lead), p + 2)
  {
    hide Ends, EndsAll, StarEnds;
    ChainCat([{lead}], Ch('s'), Boundary, s, p);
    FitsCons([{lead}], s, p);
    WordSubsets();
    if p < |s| { CatClassBoundary({'s' as int}, s, p + 1); }
  }

  lemma MicroEnds(s: Text, p: nat)
    requires p <= |s|
    ensures Ends(Cat(Chain([{0xC2}, {0xB5}], Ch('s')), Boundary), s, p) == When(MicroAt(s, p), p + 3)
  {
    hide Ends, EndsAll, StarEnds;
    ChainCat([{0xC2}, {0xB5}], Ch('s'), Boundary, s, p);
    FitsCons([{0xC2}, {0xB5}], s, p);
    WordSubsets();
    if p < |s| { FitsCons([{0xB5}], s, p + 1); }
    if p + 1 < |s| { CatClassBoundary({'s' as int}, s, p + 2); }
  }

  lemma SingleEnds(s: Text, p: nat)
    requires p <= |s|
    ensures Ends(Cat(Ch('s'), Boundary), s, p) == When(OneAt(s, p, 's'), p + 1)
    ensures Ends(Cat(Ch('m'), Boundary), s, p) == When(OneAt(s, p, 'm'), p + 1)
    ensures Ends(Cat(Ch('h'), Boundary), s, p) == When(OneAt(s, p, 'h'), p + 1)
  {
    hide Ends, EndsAll, StarEnds;
    WordSubsets();
    CatClassBoundary({'s' as int}, s, p);
    CatClassBoundary({'m' as int}, s, p);
    CatClassBoundary({'h' as int}, s, p);
  }

  lemma UnitEnds(s: Text, p: nat)
    requires p <= |s|
    ensures Ends(Cat(Unit(), Boundary), s, p)
         == When(TwoAt(s, p, 'n' as int), p + 2) + (When(MicroAt(s, p), p + 3) +
            (When(TwoAt(s, p, 'u' as int), p + 2) + (When(TwoAt(s, p, 'm' as int), p + 2) +
            (When(OneAt(s, p, 's'), p + 1) + (When(OneAt(s, p, 'm'), p + 1) + When(OneAt(s, p, 'h'), p + 1))))))
  {
    hide Ends, EndsAll, StarEnds;
    var u1 := Unit();
    var u2 := u1.right;
    var u3 := u2.right;
    var u4 := u3.right;
    var u5 := u4.right;
    CatAlt(u1.left, u2, Boundary, s, p);
    CatAlt(u2.left, u3, Boundary, s, p);
    CatAlt(u3.left, u4, Boundary, s, p);
    CatAlt(u4.left, u5, Boundary, s, p);
    CatAlt(u5.left, u5.right, Boundary, s, p);
    CatAlt(Ch('m'), Ch('h'), Boundary, s, p);
    TwoEnds('n' as int, s, p);
    MicroEnds(s, p);
    TwoEnds('u' as int, s, p);
    TwoEnds('m' as int, s, p);
    SingleEnds(s, p);
  }

  lemma UnitFirst(s: Text, p: nat, phrase: bool)
    requires p <= |s|
    ensures First(Ends(Cat(UnitOf(phrase), Boundary), s, p)) == NumUnitAt(s, p, phrase)
  {
    hide Ends, EndsAll, StarEnds;
    if phrase { PhraseUnitFirst(s, p); } else { PlainUnitFirst(s, p); }
  }

  lemma PhraseUnitFirst(s: Text, p: nat)
    requires p <= |s|
    ensures First(Ends(Cat(PhraseUnit(), Boundary), s, p)) == NumUnitAt(s, p, true)
  {
    hide Ends, EndsAll, StarEnds, WordBreak, When, First;
    CatAlt(Chain([{'m' as int}], Ch('s')), Ch('s'), Boundary, s, p);
    TwoEnds('m' as int, s, p);
    SingleEnds(s, p);
    FirstWhen(TwoAt(s, p, 'm' as int), p + 2, When(OneAt(s, p, 's'), p + 1));
    FirstWhen(OneAt(s, p, 's'), p + 1, []);
  }

  lemma PlainUnitFirst(s: Text, p: nat)
    requires p <= |s|
    ensures First(Ends(Cat(Unit(), Boundary), s, p)) == NumUnitAt(s, p, false)
  {
    hide Ends, EndsAll, StarEnds, WordBreak, When, First, Unit;
    UnitEnds(s, p);
    var h := When(OneAt(s, p, 'h'), p + 1);
    var m := When(OneAt(s, p, 'm'), p + 1) + h;
    var sec := When(OneAt(s, p, 's'), p + 1) + m;
    var ms := When(TwoAt(s, p, 'm' as int), p + 2) + sec;
    var us := When(TwoAt(s, p, 'u' as int), p + 2) + ms;
    var micro := When(MicroAt(s, p), p + 3) + us;
    FirstWhen(TwoAt(s, p, 'n' as int), p + 2, micro);
    FirstWhen(MicroAt(s, p), p + 3, us);
    FirstWhen(TwoAt(s, p, 'u' as int), p + 2, ms);
    FirstWhen(TwoAt(s, p, 'm' as int), p + 2, sec);
    FirstWhen(OneAt(s, p, 's'), p + 1, m);
    FirstWhen(OneAt(s, p, 'm'), p + 1, h);
    FirstWhen(OneAt(s, p, 'h'), p + 1, []);
  }

  lemma FirstWhen(c: bool, e: nat, rest: seq<nat>)
    ensures First(When(c, e) + rest) == if c then e else First(rest)
    ensures First(When(c, e)) == if c then e else -1
  {
  }

  function NumSpaceUnit(s: Text, p: nat, phrase: bool): (e: int) {
    if p < |s| && (s[p] == '\t' as int || s[p] == 0x0C || s[p] == '\r' as int || s[p] == ' ' as int) then NumUnitAt(s, p + 1, phrase)
    else NumUnitAt(s, p, phrase)
  }

  lemma SpaceUnitFirst(s: Text, p: nat, phrase: bool)
    requires p <= |s|
    ensures First(Ends(SpaceUnit(phrase), s, p)) == NumSpaceUnit(s, p, phrase)
  {
    hide Ends, EndsAll, StarEnds, UnitOf;
    var u := Cat(UnitOf(phrase), Boundary);
    CatOpt(Class(INLINE_SPACE), u, s, p);
    CatClass(INLINE_SPACE, u, s, p);
    UnitFirst(s, p, phrase);
    if p < |s| { UnitFirst(s, p + 1, phrase); }
  }

  function NumUnitTail(s: Text, p: nat, phrase: bool): (e: int)
    requires p <= |s|
  {
    var q := NumberEnd(s, p);
    if q < 0 then -1 else NumSpaceUnit(s, q, phrase)
  }

  lemma UnitTailFirst(s: Text, p: nat, phrase: bool)
    requires p <= |s|
    ensures First(Ends(Cat(Digits(), UnitTail(phrase)), s, p)) == NumUnitTail(s, p, phrase)
  {
    hide Ends, EndsAll, StarEnds;
    forall k | 0 <= k < |s| && (s[k] in DIGIT || s[k] == '.' as int) ensures NoMatch(SpaceUnit(phrase), s, k) {
      SpaceUnitFirst(s, k, phrase);
    }
    NumberThen(SpaceUnit(phrase), s, p);
    var q := NumberEnd(s, p);
    if q >= 0 { SpaceUnitFirst(s, q, phrase); }
  }

  predicate InAt(s: Text, i: nat) {
    i + 3 <= |s| && s[i] == 'i' as int && s[i + 1] == 'n' as int && s[i + 2] == ' ' as int
  }

  function NumInPhraseEnd(s: Text, i: nat): (e: int)
    requires i <= |s|
  {
    if InAt(s, i) then NumUnitTail(s, i + 3, true) else -1
  }

  lemma InPhraseFirst(s: Text, i: nat)
    requires i <= |s|
    ensures BodyEnd(InPhrase, s, i) == NumInPhraseEnd(s, i)
  {
    hide Ends, EndsAll, StarEnds;
    ChainEnds(IN_PREFIX, Cat(Digits(), UnitTail(true)), s, i);
    assert Fits(IN_PREFIX, s, i) <==> InAt(s, i) by {
      if Fits(IN_PREFIX, s, i) {
        assert s[i + 0] in IN_PREFIX[0] && s[i + 1] in IN_PREFIX[1] && s[i + 2] in IN_PREFIX[2];
      }
    }
    if InAt(s, i) { UnitTailFirst(s, i + 3, true); }
  }

  // ------------------------------------------------------------------------------------------
  // Dispatch
  // ------------------------------------------------------------------------------------------

  method NumBody(rule: Rule, s: Text, q: nat) returns (e: int)
    requires q <= |s|
    ensures e == BodyEnd(rule, s, q)
  {
    match rule
    case Iso => e := NumIsoEnd(s, q);
    case Epoch => e := NumEpochEnd(s, q);
    case Clock => e := NumClockEnd(s, q);
    case HourMinSec => HourMinSecFirst(s, q); e := NumHourMinSecEnd(s, q);
    case MinSec => MinSecFirst(s, q); e := NumMinSecEnd(s, q);
    case Magnitude => UnitTailFirst(s, q, false); e := NumUnitTail(s, q, false);
    case InPhrase => InPhraseFirst(s, q); e := NumInPhraseEnd(s, q);
  }
}
