/** Escape sequences: their lengths, the alternatives a backtracking matcher has at one ESC, and the
    walk over a run of them. */
module EscapeWalk {
  import opened Regex
  import opened NumericRules

  // ------------------------------------------------------------------------------------------
  // One escape sequence
  // ------------------------------------------------------------------------------------------

  /** The end of the CSI sequence at `i`, or -1: parameter bytes, intermediate bytes, a final byte
      (section 5.4 of ECMA-48). */
  function CsiEnd(s: Text, i: nat): (e: int)
    ensures e >= 0 ==> i + 2 < e <= |s|
  {
    if i + 1 >= |s| || s[i] != ESC || s[i + 1] != '[' as int then -1
    else
      var j := i + 2 + Run(CSI_PARAM, s, i + 2);
      var k := j + Run(CSI_INTER, s, j);
      if k < |s| && s[k] in CSI_FINAL then k + 1 else -1
  }

  /** The end of the OSC sequence at `i`, or -1: a body without terminators, then BEL or ST. */
  function OscEnd(s: Text, i: nat): (e: int)
    ensures e >= 0 ==> i + 2 < e <= |s|
  {
    if i + 1 >= |s| || s[i] != ESC || s[i + 1] != ']' as int then -1
    else
      var j := i + 2 + Run(OSC_BODY, s, i + 2);
      if j < |s| && s[j] == 0x07 then j + 1
      else if j + 1 < |s| && s[j] == ESC && s[j + 1] == '\\' as int then j + 2
      else -1
  }

  predicate TwoByte(s: Text, i: nat) { i + 1 < |s| && s[i] == ESC && s[i + 1] in TWO_SECOND }

  function Just(e: int): seq<nat> { if e >= 0 then [e] else [] }

  lemma SplitRuns(a: set<int>, c: Re, s: Text, j: nat)
    requires j <= |s|
    requires forall k | j <= k < j + Run(a, s, j) :: NoMatch(c, s, k)
    ensures Ends(Cat(Star(Class(a)), c), s, j) == Ends(c, s, j + Run(a, s, j))
  {
    hide Ends, EndsAll, StarEnds;
    CatEnds(Star(Class(a)), c, s, j);
    StarClassEnds(a, s, j);
    CommitLongest(c, s, j, j + Run(a, s, j));
  }

  lemma CsiTail(s: Text, j: nat)
    requires j <= |s|
    ensures Ends(Cat(Star(Class(CSI_INTER)), Class(CSI_FINAL)), s, j)
         == var k := j + Run(CSI_INTER, s, j); When(k < |s| && s[k] in CSI_FINAL, k + 1)
  {
    hide Ends, EndsAll, StarEnds;
    RunMaximal(CSI_INTER, s, j);
    forall k | j <= k < j + Run(CSI_INTER, s, j) ensures NoMatch(Class(CSI_FINAL), s, k) {
      ClassEnds(CSI_FINAL, s, k);
    }
    SplitRuns(CSI_INTER, Class(CSI_FINAL), s, j);
    ClassEnds(CSI_FINAL, s, j + Run(CSI_INTER, s, j));
  }

  lemma CsiEnds(s: Text, i: nat)
    requires i <= |s|
    ensures Ends(EscCsi(), s, i) == Just(CsiEnd(s, i))
  {
    hide Ends, EndsAll, StarEnds;
    var tail := Cat(Star(Class(CSI_INTER)), Class(CSI_FINAL));
    var head := [{ESC}, {'[' as int}];
    ChainEnds(head, Cat(Star(Class(CSI_PARAM)), tail), s, i);
    FitsCons(head, s, i);
    if i + 1 < |s| && s[i] == ESC {
      FitsCons(head[1..], s, i + 1);
      var j := i + 2;
      RunMaximal(CSI_PARAM, s, j);
      forall k | j <= k < j + Run(CSI_PARAM, s, j) ensures NoMatch(tail, s, k) { CsiTail(s, k); }
      SplitRuns(CSI_PARAM, tail, s, j);
      CsiTail(s, j + Run(CSI_PARAM, s, j));
    }
  }

  function Terminator(): Re { Alt(Class({0x07}), Chain([{ESC}], Ch('\\'))) }

  lemma TerminatorEnds(s: Text, j: nat)
    requires j <= |s|
    ensures Ends(Terminator(), s, j)
         == When(j < |s| && s[j] == 0x07, j + 1) + When(j + 1 < |s| && s[j] == ESC && s[j + 1] == '\\' as int, j + 2)
  {
    ChainEnds([{ESC}], Ch('\\'), s, j);
    FitsCons([{ESC}], s, j);
  }

  lemma OscTail(s: Text, j: nat)
    requires j <= |s|
    ensures Ends(Cat(Star(Class(OSC_BODY)), Terminator()), s, j) == Ends(Terminator(), s, j + Run(OSC_BODY, s, j))
  {
    hide Ends, EndsAll, StarEnds;
    RunMaximal(OSC_BODY, s, j);
    forall k | j <= k < j + Run(OSC_BODY, s, j) ensures NoMatch(Terminator(), s, k) { TerminatorEnds(s, k); }
    SplitRuns(OSC_BODY, Terminator(), s, j);
  }

  lemma OscEnds(s: Text, i: nat)
    requires i <= |s|
    ensures Ends(EscOsc(), s, i) == Just(OscEnd(s, i))
  {
    hide Ends, EndsAll, StarEnds;
    var head := [{ESC}, {']' as int}];
    ChainEnds(head, Cat(Star(Class(OSC_BODY)), Terminator()), s, i);
    FitsCons(head, s, i);
    if i + 1 < |s| && s[i] == ESC {
      FitsCons(head[1..], s, i + 1);
      OscTail(s, i + 2);
      TerminatorEnds(s, i + 2 + Run(OSC_BODY, s, i + 2));
    }
  }

  /** Everything one escape at `i` can consume, in the alternation's order. */
  function EscAlts(s: Text, i: nat): (alts: seq<nat>)
    ensures |alts| <= 3
    ensures forall k | 0 <= k < |alts| :: i < alts[k] <= |s|
    ensures i < |s| && s[i] == ESC <==> alts != []
  {
    if i >= |s| || s[i] != ESC then []
    else (if CsiEnd(s, i) >= 0 then [CsiEnd(s, i)] else Just(OscEnd(s, i))) + When(TwoByte(s, i), i + 2) + [i + 1]
  }

  lemma TwoByteEnds(s: Text, i: nat)
    requires i <= |s|
    ensures Ends(EscTwo(), s, i) == When(TwoByte(s, i), i + 2)
  {
    hide Ends, EndsAll, StarEnds;
    ChainEnds([{ESC}], Class(TWO_SECOND), s, i);
    FitsCons([{ESC}], s, i);
    if i < |s| { ClassEnds(TWO_SECOND, s, i + 1); }
  }

  lemma EscAnyEnds(s: Text, i: nat)
    requires i <= |s|
    ensures Ends(EscAny(), s, i) == EscAlts(s, i)
  {
    hide Ends, EndsAll, StarEnds, EscCsi, EscOsc;
    AltEnds(EscCsi(), Alt(EscOsc(), Alt(EscTwo(), Class({ESC}))), s, i);
    AltEnds(EscOsc(), Alt(EscTwo(), Class({ESC})), s, i);
    AltEnds(EscTwo(), Class({ESC}), s, i);
    CsiEnds(s, i);
    OscEnds(s, i);
    TwoByteEnds(s, i);
    ClassEnds({ESC}, s, i);
  }

  method CsiLen(s: Text, i: nat) returns (n: nat)
    requires i < |s| && s[i] == ESC
    ensures n == if CsiEnd(s, i) >= 0 then CsiEnd(s, i) - i else 0
  {
    if i + 1 >= |s| || s[i + 1] != '[' as int { return 0; }
    var j := i + 2;
    while j < |s| && 0x30 <= s[j] <= 0x3F
      invariant i + 2 <= j && j + Run(CSI_PARAM, s, j) == i + 2 + Run(CSI_PARAM, s, i + 2)
    {
      j := j + 1;
    }
    ghost var j1 := j;
    while j < |s| && 0x20 <= s[j] <= 0x2F
      invariant j1 <= j && j + Run(CSI_INTER, s, j) == j1 + Run(CSI_INTER, s, j1)
    {
      j := j + 1;
    }
    if j < |s| && 0x40 <= s[j] <= 0x7E { return j + 1 - i; }
    return 0;
  }

  method OscLen(s: Text, i: nat) returns (n: nat)
    requires i < |s| && s[i] == ESC
    ensures n == if OscEnd(s, i) >= 0 then OscEnd(s, i) - i else 0
  {
    if i + 1 >= |s| || s[i + 1] != ']' as int { return 0; }
    var j := i + 2;
    while j < |s|
      invariant i + 2 <= j && j + Run(OSC_BODY, s, j) == i + 2 + Run(OSC_BODY, s, i + 2)
    {
      if s[j] == 0x07 { return j + 1 - i; }
      if s[j] == ESC {
        if j + 1 < |s| && s[j + 1] == '\\' as int { return j + 2 - i; }
        return 0;
      }
      j := j + 1;
    }
    return 0;
  }

  method NumEscAltEnds(s: Text, i: nat) returns (ends: seq<nat>)
    requires i < |s| && s[i] == ESC
    ensures ends == Ends(EscAny(), s, i)
    ensures ends == EscAlts(s, i)
  {
    EscAnyEnds(s, i);
    ends := [];
    var l := CsiLen(s, i);
    if l > 0 {
      ends := ends + [i + l];
    } else {
      l := OscLen(s, i);
      if l > 0 { ends := ends + [i + l]; }
    }
    if i + 1 < |s| {
      var c := s[i + 1];
      if 0x40 <= c <= 0x5A || 0x5C <= c <= 0x5F { ends := ends + [i + 2]; }
    }
    ends := ends + [i + 1];
  }

  // ------------------------------------------------------------------------------------------
  // A run of escape sequences
  // ------------------------------------------------------------------------------------------

  datatype Found = Miss | Hit(q: nat, e: nat)

  function OrElse(a: Found, b: Found): Found { if a.Hit? then a else b }

  /** The first offset of `qs` the rule's body matches at, with where it ends. */
  function FirstHit(rule: Rule, s: Text, qs: seq<nat>): (f: Found)
    requires Within(qs, 0, |s|)
  {
    if qs == [] then Miss
    else if BodyEnd(rule, s, qs[0]) >= 0 then Hit(qs[0], BodyEnd(rule, s, qs[0]))
    else FirstHit(rule, s, qs[1..])
  }

  /** What the rule finds after the escape alternatives of `at` from the `a`-th on, by plain
      recursion: alternatives in order, and one more escape before stopping. */
  function Walk(rule: Rule, s: Text, at: nat, a: nat): (f: Found)
    decreases |s| - at, |EscAlts(s, at)| - a
  {
    var alts := EscAlts(s, at);
    if a >= |alts| then Miss
    else
      var e := alts[a];
      var here := if EscAlts(s, e) != [] then Walk(rule, s, e, 0)
                  else if BodyEnd(rule, s, e) >= 0 then Hit(e, BodyEnd(rule, s, e)) else Miss;
      OrElse(here, Walk(rule, s, at, a + 1))
  }

  lemma {:induction false} FirstHitConcat(rule: Rule, s: Text, xs: seq<nat>, ys: seq<nat>)
    requires Within(xs, 0, |s|) && Within(ys, 0, |s|)
    ensures FirstHit(rule, s, xs + ys) == OrElse(FirstHit(rule, s, xs), FirstHit(rule, s, ys))
  {
    hide BodyEnd;
    if xs == [] {
      assert xs + ys == ys;
    } else {
      assert (xs + ys)[1..] == xs[1..] + ys;
      FirstHitConcat(rule, s, xs[1..], ys);
    }
  }

  function EscRun(): Re { Star(EscAny()) }

  lemma {:induction false} StarEndsAll(r: Re, s: Text, i: nat, from: seq<nat>)
    requires r.Star? && i <= |s| && Within(from, i + 1, |s|)
    ensures StarEnds(r, s, i, from) == EndsAll(r, s, from)
  {
    hide Ends;
    if from != [] { StarEndsAll(r, s, i, from[1..]); }
  }

  /** One more escape is preferred to stopping. */
  lemma EscRunEnds(s: Text, e: nat)
    requires e <= |s|
    ensures Ends(EscRun(), s, e) == EndsAll(EscRun(), s, EscAlts(s, e)) + [e]
  {
    hide EscAny, EndsAll, StarEnds;
    EscAnyEnds(s, e);
    StarEndsAll(EscRun(), s, e, EscAlts(s, e));
  }

  lemma EndsAllCons(r: Re, s: Text, from: seq<nat>)
    requires from != [] && Within(from, 0, |s|)
    ensures EndsAll(r, s, from) == Ends(r, s, from[0]) + EndsAll(r, s, from[1..])
  {
  }

  lemma ChainLead(cs: seq<set<int>>, tail: Re, s: Text, q: nat)
    requires cs != [] && q <= |s|
    ensures Ends(Chain(cs, tail), s, q) != [] ==> q < |s| && s[q] in cs[0]
    ensures First(Ends(Chain(cs, tail), s, q)) >= 0 ==> q + |cs| <= First(Ends(Chain(cs, tail), s, q)) <= |s|
  {
    hide Ends, Chain;
    ChainEnds(cs, tail, s, q);
    FitsCons(cs, s, q);
  }

  lemma DigitsLead(c: Re, s: Text, q: nat)
    requires q <= |s|
    ensures Ends(Cat(Digits(), c), s, q) != [] ==> q < |s| && s[q] in DIGIT
    ensures First(Ends(Cat(Digits(), c), s, q)) >= 0 ==> q < First(Ends(Cat(Digits(), c), s, q)) <= |s|
  {
    hide Ends, EndsAll;
    CatEnds(Digits(), c, s, q);
    PlusClassEnds(DIGIT, s, q);
    if Run(DIGIT, s, q) == 0 { EndsAllNone(c, s); }
    else { assert Within(EndsAll(c, s, Down(q + 1, q + Run(DIGIT, s, q))), q + 1, |s|); }
  }

  /** How much of a match is context the replaced span leaves alone: the "in " of the phrase rule. */
  function Lead(rule: Rule): nat { if rule == InPhrase then 3 else 0 }

  /** Every body starts with a digit, or with the 'i' of "in ", and consumes something. */
  lemma BodyLead(rule: Rule, s: Text, q: nat)
    requires q <= |s|
    ensures BodyEnd(rule, s, q) >= 0 ==> q < |s| && (s[q] in DIGIT || (rule == InPhrase && s[q] == 'i' as int))
    ensures BodyEnd(rule, s, q) >= 0 ==> q + Lead(rule) < BodyEnd(rule, s, q) <= |s|
  {
    hide Ends, EndsAll, StarEnds, Chain, UpTo, UnitTail, FracSec, Zone;
    match rule
    case Iso => ChainLead(ISO_BASE, Cat(Opt(Fraction()), Zone()), s, q);
    case Epoch => ChainLead(TEN_DIGITS, Cat(UpTo(Class(DIGIT), 3), Boundary), s, q);
    case Clock => ChainLead(CLOCK_BASE, Cat(Opt(ClockFraction()), Boundary), s, q);
    case HourMinSec => DigitsLead(Cat(Ch('h'), MinSecBody()), s, q);
    case MinSec => DigitsLead(Cat(Ch('m'), FracSec()), s, q);
    case Magnitude => DigitsLead(UnitTail(false), s, q);
    case InPhrase =>
      ChainLead(IN_PREFIX, Cat(Digits(), UnitTail(true)), s, q);
      ChainEnds(IN_PREFIX, Cat(Digits(), UnitTail(true)), s, q);
      if q + 3 <= |s| { DigitsLead(UnitTail(true), s, q + 3); }
  }

  /** The first hit of `(?:escAny)+` then the body is what the plain recursion finds. */
  lemma {:induction false} WalkIsFirstHit(rule: Rule, s: Text, at: nat, a: nat)
    requires at <= |s| && a <= |EscAlts(s, at)|
    ensures FirstHit(rule, s, EndsAll(EscRun(), s, EscAlts(s, at)[a..])) == Walk(rule, s, at, a)
    decreases |s| - at, |EscAlts(s, at)| - a
  {
    hide BodyEnd, EscRun, Ends, EndsAll, EscAlts;
    var alts := EscAlts(s, at);
    if a == |alts| {
      EndsAllNone(EscRun(), s);
    } else {
      var e := alts[a];
      EndsAllCons(EscRun(), s, alts[a..]);
      assert alts[a..][1..] == alts[a + 1..];
      FirstHitConcat(rule, s, Ends(EscRun(), s, e), EndsAll(EscRun(), s, alts[a + 1..]));
      WalkIsFirstHit(rule, s, at, a + 1);
      EscRunEnds(s, e);
      FirstHitConcat(rule, s, EndsAll(EscRun(), s, EscAlts(s, e)), [e]);
      assert FirstHit(rule, s, [e]) == if BodyEnd(rule, s, e) >= 0 then Hit(e, BodyEnd(rule, s, e)) else Miss;
      if EscAlts(s, e) != [] {
        WalkIsFirstHit(rule, s, e, 0);
        assert EscAlts(s, e)[0..] == EscAlts(s, e);
        BodyLead(rule, s, e);
      } else {
        EndsAllNone(EscRun(), s);
      }
    }
  }
}
