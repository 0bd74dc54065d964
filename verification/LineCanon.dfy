/** Line endings, progress bars and trailing blanks: three byte scanners whose spans, composed in one
    pass, clean a shell transcript line by line. */
module LineCanon {
  import opened Regex
  import opened NumericRules
  import opened EscapeWalk
  import opened CanonTypes

  const LF: Byte := 0x0A
  const CR: Byte := 0x0D

  predicate Blank(b: Byte) { b == 0x20 || b == 0x09 }

  // ------------------------------------------------------------------------------------------
  // The reference: a line at a time
  // ------------------------------------------------------------------------------------------

  /** The end of the line at `p`: its newline, or the end of the text. */
  function LineEnd(s: Text, p: nat): (e: nat)
    requires p <= |s|
    ensures p <= e <= |s| && (forall k | p <= k < e :: s[k] != LF) && (e < |s| ==> s[e] == LF)
    decreases |s| - p
  {
    if p == |s| || s[p] == LF then p else LineEnd(s, p + 1)
  }

  /** Without the carriage returns it ends with. */
  function DropReturns(line: Text): Text {
    if line != [] && line[|line| - 1] == CR then DropReturns(line[..|line| - 1]) else line
  }

  /** What a terminal shows after the last carriage return. */
  function LastDrawn(line: Text): Text {
    if line == [] then []
    else if line[|line| - 1] == CR then []
    else LastDrawn(line[..|line| - 1]) + [line[|line| - 1]]
  }

  function TrimBlanks(line: Text): Text {
    if line != [] && Blank(line[|line| - 1]) then TrimBlanks(line[..|line| - 1]) else line
  }

  /** Lines from `p` on, each cleaned; a carriage return that belongs to the line's ending draws nothing. */
  function CleanFrom(s: Text, p: nat): Text
    requires p <= |s|
    decreases |s| - p
  {
    var e := LineEnd(s, p);
    if e == |s| then TrimBlanks(LastDrawn(s[p..e]))
    else TrimBlanks(LastDrawn(DropReturns(s[p..e]))) + [LF] + CleanFrom(s, e + 1)
  }

  function Clean(s: Text): Text { CleanFrom(s, 0) }

  // ------------------------------------------------------------------------------------------
  // Positions within a line
  // ------------------------------------------------------------------------------------------

  /** Where the carriage returns that end `s[p..e]` begin. */
  function ReturnsFrom(s: Text, p: nat, e: nat): (q: nat)
    requires p <= e <= |s|
    ensures p <= q <= e && (forall k | q <= k < e :: s[k] == CR) && (q > p ==> s[q - 1] != CR)
    decreases e
  {
    if e > p && s[e - 1] == CR then ReturnsFrom(s, p, e - 1) else e
  }

  /** Where the line's drawn text ends: before the returns of its ending, if it has one. */
  function BodyStop(s: Text, p: nat, e: nat): (q: nat)
    requires p <= e <= |s|
    ensures p <= q <= e
  {
    if e < |s| then ReturnsFrom(s, p, e) else e
  }

  /** The position after the last carriage return of `s[p..q]`. */
  function DrawnFrom(s: Text, p: nat, q: nat): (r: nat)
    requires p <= q <= |s|
    ensures p <= r <= q && (forall k | r <= k < q :: s[k] != CR) && (r > p ==> s[r - 1] == CR)
    decreases q
  {
    if q == p || s[q - 1] == CR then q else DrawnFrom(s, p, q - 1)
  }

  /** Where the blanks that end `s[p..q]` begin. */
  function BlanksFrom(s: Text, p: nat, q: nat): (b: nat)
    requires p <= q <= |s|
    ensures p <= b <= q && (forall k | b <= k < q :: Blank(s[k])) && (b > p ==> !Blank(s[b - 1]))
    decreases q
  {
    if q > p && Blank(s[q - 1]) then BlanksFrom(s, p, q - 1) else q
  }

  lemma {:induction false} DropReturnsAt(s: Text, p: nat, e: nat)
    requires p <= e <= |s|
    ensures DropReturns(s[p..e]) == s[p..ReturnsFrom(s, p, e)]
    decreases e
  {
    if e > p && s[e - 1] == CR {
      assert s[p..e][..|s[p..e]| - 1] == s[p..e - 1];
      DropReturnsAt(s, p, e - 1);
    }
  }

  lemma LastDrawnStep(line: Text, b: Byte)
    ensures LastDrawn(line + [b]) == if b == CR then [] else LastDrawn(line) + [b]
  {
    assert (line + [b])[..|line|] == line;
  }

  lemma Snoc(s: Text, i: nat, j: nat)
    requires i < j <= |s|
    ensures s[i..j] == s[i..j - 1] + [s[j - 1]]
  {
  }

  lemma {:induction false} LastDrawnAt(s: Text, p: nat, q: nat)
    requires p <= q <= |s|
    ensures LastDrawn(s[p..q]) == s[DrawnFrom(s, p, q)..q]
    decreases q
  {
    if q > p {
      hide LastDrawn;
      LastDrawnStep(s[p..q - 1], s[q - 1]);
      Snoc(s, p, q);
      if s[q - 1] != CR {
        LastDrawnAt(s, p, q - 1);
        Snoc(s, DrawnFrom(s, p, q - 1), q);
      }
    }
  }

  lemma {:induction false} TrimBlanksAt(s: Text, p: nat, q: nat)
    requires p <= q <= |s|
    ensures TrimBlanks(s[p..q]) == s[p..BlanksFrom(s, p, q)]
    decreases q
  {
    if q > p && Blank(s[q - 1]) {
      assert s[p..q][..|s[p..q]| - 1] == s[p..q - 1];
      TrimBlanksAt(s, p, q - 1);
    }
  }

  /** The part of the line at `p` that survives. */
  lemma LineKept(s: Text, p: nat)
    requires p <= |s|
    ensures var e := LineEnd(s, p);
            var q := BodyStop(s, p, e);
            var r := DrawnFrom(s, p, q);
            CleanFrom(s, p) == s[r..BlanksFrom(s, r, q)] + if e < |s| then [LF] + CleanFrom(s, e + 1) else []
  {
    hide LineEnd, DropReturns, LastDrawn, TrimBlanks, ReturnsFrom, DrawnFrom, BlanksFrom;
    var e := LineEnd(s, p);
    var q := BodyStop(s, p, e);
    if e < |s| { DropReturnsAt(s, p, e); }
    LastDrawnAt(s, p, q);
    TrimBlanksAt(s, DrawnFrom(s, p, q), q);
  }

  // ------------------------------------------------------------------------------------------
  // The scanners' spans
  // ------------------------------------------------------------------------------------------

  function CrlfLine(s: Text, p: nat, e: nat): seq<Match>
    requires p <= e <= |s|
  {
    if e < |s| && ReturnsFrom(s, p, e) < e then [Match(ReturnsFrom(s, p, e), e + 1 - ReturnsFrom(s, p, e), [LF], Crlf)] else []
  }

  function CrlfSpans(s: Text, p: nat): seq<Match>
    requires p <= |s|
    decreases |s| - p
  {
    var e := LineEnd(s, p);
    CrlfLine(s, p, e) + if e < |s| then CrlfSpans(s, e + 1) else []
  }

  /** One span per carriage return of `s[i..q]`: from the start of what it overwrites through itself. */
  function Redraws(s: Text, from: nat, i: nat, q: nat): seq<Match>
    requires from <= i <= q <= |s|
    decreases q - i
  {
    if i == q then []
    else if s[i] == CR then [Match(from, i + 1 - from, [], Ansi)] + Redraws(s, i + 1, i + 1, q)
    else Redraws(s, from, i + 1, q)
  }

  function ProgressSpans(s: Text, p: nat): seq<Match>
    requires p <= |s|
    decreases |s| - p
  {
    var e := LineEnd(s, p);
    Redraws(s, p, p, BodyStop(s, p, e)) + if e < |s| then ProgressSpans(s, e + 1) else []
  }

  /** The escape sequence at `i`, in the order the pattern tries its forms; 0 if there is none. */
  function EscLen(s: Text, i: nat): (n: nat)
    ensures n > 0 ==> i + n <= |s|
  {
    if EscAlts(s, i) == [] then 0 else EscAlts(s, i)[0] - i
  }

  /** The position after the last byte of the line that cannot belong to a trailing run. */
  function TailFrom(line: Text, i: nat, tail: nat): (t: nat)
    requires tail <= i <= |line|
    ensures tail <= t <= |line|
    decreases |line| - i
  {
    if i >= |line| then tail
    else if EscLen(line, i) > 0 then TailFrom(line, i + EscLen(line, i), tail)
    else if Blank(line[i]) || line[i] == CR then TailFrom(line, i + 1, tail)
    else TailFrom(line, i + 1, i + 1)
  }

  /** The first carriage return at or after `i`, or `e`. */
  function RunStop(s: Text, i: nat, e: nat): (j: nat)
    requires i <= e <= |s|
    ensures i <= j <= e && (forall k | i <= k < j :: s[k] != CR) && (j < e ==> s[j] == CR)
    decreases e - i
  {
    if i == e || s[i] == CR then i else RunStop(s, i + 1, e)
  }

  predicate HasBlank(s: Text, i: nat, j: nat)
    requires i <= j <= |s|
  {
    exists k | i <= k < j :: Blank(s[k])
  }

  /** The runs between carriage returns that hold a blank. */
  function BlankRuns(s: Text, i: nat, e: nat): seq<Match>
    requires i <= e <= |s|
    decreases e - i
  {
    if i == e then []
    else if s[i] == CR then BlankRuns(s, i + 1, e)
    else
      var j := RunStop(s, i, e);
      (if HasBlank(s, i, j) then [Match(i, j - i, [], Crlf)] else []) + BlankRuns(s, j, e)
  }

  function BlankLine(s: Text, p: nat, e: nat): seq<Match>
    requires p <= e <= |s|
  {
    BlankRuns(s, TailFrom(s[..e], p, p), e)
  }

  function BlankSpans(s: Text, p: nat): seq<Match>
    requires p <= |s|
    decreases |s| - p
  {
    var e := LineEnd(s, p);
    BlankLine(s, p, e) + if e < |s| then BlankSpans(s, e + 1) else []
  }

  // ------------------------------------------------------------------------------------------
  // The tail as a pattern
  // ------------------------------------------------------------------------------------------

  /** `(?:escAny|[ \t\r])*`. */
  function TailPattern(): Re { Star(Alt(EscAny(), Class({0x20, 0x09, 0x0D}))) }

  /** The pattern can be matched from `i` through the line's end. */
  predicate ToEnd(line: Text, i: nat)
    requires i <= |line|
  {
    |line| in Ends(TailPattern(), line, i)
  }

  /** What one round of the pattern can consume. */
  function Rounds(line: Text, i: nat): (es: seq<nat>)
    ensures Within(es, i + 1, |line|)
  {
    EscAlts(line, i) + When(i < |line| && (Blank(line[i]) || line[i] == CR), i + 1)
  }

  lemma {:induction false} InEndsAll(r: Re, s: Text, from: seq<nat>, x: nat)
    requires Within(from, 0, |s|)
    ensures x in EndsAll(r, s, from) <==> exists e | e in from :: e <= |s| && x in Ends(r, s, e)
  {
    hide Ends;
    if from == [] {
      EndsAllNone(r, s);
    } else {
      EndsAllCons(r, s, from);
      InEndsAll(r, s, from[1..], x);
      assert from == [from[0]] + from[1..];
    }
  }

  lemma RoundEnds(line: Text, i: nat)
    requires i <= |line|
    ensures Ends(Alt(EscAny(), Class({0x20, 0x09, 0x0D})), line, i) == Rounds(line, i)
  {
    hide Ends, EscAny, EscAlts;
    AltEnds(EscAny(), Class({0x20, 0x09, 0x0D}), line, i);
    EscAnyEnds(line, i);
    ClassEnds({0x20, 0x09, 0x0D}, line, i);
  }

  lemma PatternEnds(line: Text, i: nat)
    requires i <= |line|
    ensures Ends(TailPattern(), line, i) == EndsAll(TailPattern(), line, Rounds(line, i)) + [i]
  {
    hide EscAny, EndsAll, StarEnds, Rounds;
    RoundEnds(line, i);
    StarEndsAll(TailPattern(), line, i, Rounds(line, i));
  }

  lemma ToEndStep(line: Text, i: nat)
    requires i <= |line|
    ensures ToEnd(line, i) <==> i == |line| || exists e | e in Rounds(line, i) :: ToEnd(line, e)
  {
    hide Ends, EndsAll, TailPattern, Rounds;
    PatternEnds(line, i);
    InEndsAll(TailPattern(), line, Rounds(line, i), |line|);
  }

  lemma CsiInside(line: Text, i: nat, k: nat)
    requires CsiEnd(line, i) >= 0 && i < k < CsiEnd(line, i)
    ensures line[k] != ESC
  {
    hide Run;
    RunMaximal(CSI_PARAM, line, i + 2);
    RunMaximal(CSI_INTER, line, i + 2 + Run(CSI_PARAM, line, i + 2));
  }

  lemma OscInside(line: Text, i: nat, k: nat)
    requires OscEnd(line, i) >= 0 && i < k < OscEnd(line, i) && line[k] == ESC
    ensures k + 2 == OscEnd(line, i) && line[k + 1] == '\\' as int
  {
    hide Run;
    RunMaximal(OSC_BODY, line, i + 2);
  }

  /** The one ESC inside an escape sequence, if any, is that of its two-byte terminator. */
  lemma EscInside(line: Text, i: nat, k: nat)
    requires EscLen(line, i) > 0 && i < k < i + EscLen(line, i) && line[k] == ESC
    ensures k + 2 == i + EscLen(line, i) && line[k + 1] == '\\' as int
  {
    hide CsiEnd, OscEnd;
    if CsiEnd(line, i) >= 0 { CsiInside(line, i, k); }
    else if OscEnd(line, i) >= 0 { OscInside(line, i, k); }
  }

  lemma RoundAtEsc(line: Text, i: nat, e: nat)
    requires EscLen(line, i) > 0 && e in Rounds(line, i)
    ensures i < e <= i + EscLen(line, i)
  {
    hide Run;
  }

  lemma RoundAtTerminator(line: Text, k: nat, e: nat)
    requires k + 1 < |line| && line[k] == ESC && line[k + 1] == '\\' as int && e in Rounds(line, k)
    ensures k < e <= k + 2
  {
    hide Run;
  }

  lemma RoundElsewhere(line: Text, k: nat, e: nat)
    requires k < |line| && line[k] != ESC && e in Rounds(line, k)
    ensures e == k + 1
  {
  }

  /** No round from within an escape sequence leads past its end. */
  lemma RoundInside(line: Text, i: nat, k: nat, e: nat)
    requires EscLen(line, i) > 0 && i <= k < i + EscLen(line, i) && e in Rounds(line, k)
    ensures k < e <= i + EscLen(line, i)
  {
    hide EscLen, Rounds;
    if k == i {
      RoundAtEsc(line, i, e);
    } else if line[k] == ESC {
      EscInside(line, i, k);
      RoundAtTerminator(line, k, e);
    } else {
      RoundElsewhere(line, k, e);
    }
  }

  /** Whatever matches from within an escape sequence matches from its end. */
  lemma {:induction false} Joins(line: Text, i: nat, k: nat)
    requires EscLen(line, i) > 0 && i <= k <= i + EscLen(line, i) && ToEnd(line, k)
    ensures ToEnd(line, i + EscLen(line, i))
    decreases |line| - k
  {
    hide EscLen, ToEnd, Rounds;
    if k < i + EscLen(line, i) {
      ToEndStep(line, k);
      var e :| e in Rounds(line, k) && ToEnd(line, e);
      RoundInside(line, i, k, e);
      Joins(line, i, e);
    }
  }

  lemma FirstRound(line: Text, i: nat)
    requires i < |line|
    ensures EscLen(line, i) > 0 ==> i + EscLen(line, i) in Rounds(line, i)
    ensures EscLen(line, i) == 0 ==> Rounds(line, i) == When(Blank(line[i]) || line[i] == CR, i + 1)
  {
  }

  /** From the cursor on: no byte that ends a run, and the pattern matches from here; or the last of them,
      after which it does and before which it does not. */
  lemma {:induction false} TailOnward(line: Text, i: nat, tail: nat)
    requires tail <= i <= |line|
    ensures var t := TailFrom(line, i, tail);
            if t == tail then ToEnd(line, i) else i < t && ToEnd(line, t) && forall k | i <= k < t :: !ToEnd(line, k)
    decreases |line| - i
  {
    hide EscLen, ToEnd, Rounds;
    ToEndStep(line, i);
    if i < |line| {
      FirstRound(line, i);
      var n := EscLen(line, i);
      if n > 0 {
        TailOnward(line, i + n, tail);
        if TailFrom(line, i, tail) != tail {
          forall k | i <= k < i + n ensures !ToEnd(line, k) {
            if ToEnd(line, k) { Joins(line, i, k); }
          }
        }
      } else if Blank(line[i]) || line[i] == CR {
        TailOnward(line, i + 1, tail);
      } else {
        TailOnward(line, i + 1, i + 1);
      }
    }
  }

  /** The byte loop finds the leftmost position from which escapes, blanks and returns, in any order and
      under any reading of the escapes, run through the line's end. */
  lemma TailIsLeftmost(line: Text, p: nat)
    requires p <= |line|
    ensures var t := TailFrom(line, p, p); ToEnd(line, t) && forall k | p <= k < t :: !ToEnd(line, k)
  {
    hide ToEnd;
    TailOnward(line, p, p);
  }

  // ------------------------------------------------------------------------------------------
  // The scanners
  // ------------------------------------------------------------------------------------------

  lemma CrlfStep(s: Text, p: nat)
    requires p <= |s|
    ensures var e := LineEnd(s, p); CrlfSpans(s, p) == CrlfLine(s, p, e) + if e < |s| then CrlfSpans(s, e + 1) else []
  {
    hide LineEnd, CrlfLine;
  }

  /** Backs up over the carriage returns before the newline at `end`; a line start stops it. */
  method ReturnsStart(s: Text, p: nat, end: nat) returns (start: nat)
    requires p <= end <= |s| && (p > 0 ==> s[p - 1] == LF)
    ensures start == ReturnsFrom(s, p, end)
  {
    start := end;
    while start > 0 && s[start - 1] == CR
      invariant p <= start <= end && ReturnsFrom(s, p, start) == ReturnsFrom(s, p, end)
    {
      start := start - 1;
    }
  }

  /** What the line at `i` adds to what is out already. */
  lemma CrlfOn(s: Text, i: nat, out: seq<Match>)
    requires i <= |s|
    ensures var e := LineEnd(s, i);
            var q := ReturnsFrom(s, i, e);
            && (e == |s| ==> out + CrlfSpans(s, i) == out)
            && (e < |s| ==> out + CrlfSpans(s, i) == (if q < e then out + [Match(q, e + 1 - q, [LF], Crlf)] else out) + CrlfSpans(s, e + 1))
            && (q < e <==> e > i && s[e - 1] == CR)
  {
    hide CrlfSpans, LineEnd;
    CrlfStep(s, i);
  }

  method CrlfMatches(s: Text) returns (out: seq<Match>)
    ensures out == CrlfSpans(s, 0)
  {
    hide CrlfSpans, LineEnd, ReturnsFrom, CrlfLine;
    out := [];
    var i := 0;
    while i < |s|
      invariant i <= |s| && (i > 0 ==> s[i - 1] == LF)
      invariant out + CrlfSpans(s, i) == CrlfSpans(s, 0)
    {
      CrlfOn(s, i, out);
      var end := LineEnd(s, i);
      if end == |s| { return; }
      if end > 0 && s[end - 1] == CR {
        var start := ReturnsStart(s, i, end);
        out := out + [Match(start, end + 1 - start, [LF], Crlf)];
      }
      i := end + 1;
    }
    CrlfOn(s, i, out);
  }

  /** The first byte after the carriage returns at `i`. */
  method CrRunEnd(s: Text, i: nat) returns (run: nat)
    requires i <= |s|
    ensures i <= run <= |s| && (forall k | i <= k < run :: s[k] == CR) && (run < |s| ==> s[run] != CR)
  {
    run := i;
    while run < |s| && s[run] == CR
      invariant i <= run <= |s| && forall k | i <= k < run :: s[k] == CR
    {
      run := run + 1;
    }
  }

  /** A carriage return belongs to the line's ending exactly from the body's end on. */
  lemma ReturnsAhead(s: Text, p: nat, e: nat, i: nat, run: nat)
    requires p <= i < e <= |s| && s[i] == CR && (e < |s| ==> s[e] == LF) && (forall k | p <= k < e :: s[k] != LF)
    requires i <= run <= |s| && (forall k | i <= k < run :: s[k] == CR) && (run < |s| ==> s[run] != CR)
    requires i <= BodyStop(s, p, e)
    ensures run < |s| && s[run] == LF <==> i == BodyStop(s, p, e)
    ensures run < |s| && s[run] == LF ==> run == e
  {
  }

  function NextLines(s: Text, e: nat): seq<Match>
    requires e <= |s|
  {
    if e < |s| then ProgressSpans(s, e + 1) else []
  }

  /** What is still to be reported at `i`, in the line that ends at `e` and whose body ends at `q`. */
  function Ahead(s: Text, from: nat, i: nat, q: nat, e: nat): seq<Match>
    requires from <= i <= e <= |s| && q <= e
  {
    (if i <= q then Redraws(s, from, i, q) else []) + NextLines(s, e)
  }

  lemma AheadStep(s: Text, from: nat, i: nat, q: nat, e: nat)
    requires from <= i < q <= e <= |s|
    ensures Ahead(s, from, i, q, e) ==
            if s[i] == CR then [Match(from, i + 1 - from, [], Ansi)] + Ahead(s, i + 1, i + 1, q, e) else Ahead(s, from, i + 1, q, e)
  {
  }

  /** From the body's end to the line's, nothing is reported. */
  lemma AheadEnd(s: Text, from: nat, q: nat, e: nat)
    requires from <= q <= e <= |s|
    ensures Ahead(s, from, q, q, e) == Ahead(s, from, e, q, e) == NextLines(s, e)
  {
    assert [] + NextLines(s, e) == NextLines(s, e);
  }

  lemma AheadLine(s: Text, p: nat)
    requires p <= |s|
    ensures ProgressSpans(s, p) == Ahead(s, p, p, BodyStop(s, p, LineEnd(s, p)), LineEnd(s, p))
  {
  }

  /** At the newline: what is ahead is the next line's. */
  lemma AheadNext(s: Text, from: nat, q: nat, e: nat)
    requires from <= q <= e < |s|
    ensures Ahead(s, from, e, q, e) == Ahead(s, e + 1, e + 1, BodyStop(s, e + 1, LineEnd(s, e + 1)), LineEnd(s, e + 1))
  {
    hide ProgressSpans, Redraws, BodyStop, LineEnd, Ahead;
    AheadEnd(s, from, q, e);
    AheadLine(s, e + 1);
  }

  /** One byte of the body on, with what is out already. */
  lemma AheadOn(s: Text, out: seq<Match>, from: nat, i: nat, q: nat, e: nat)
    requires from <= i < q <= e <= |s|
    ensures out + Ahead(s, from, i, q, e) ==
            if s[i] == CR then out + [Match(from, i + 1 - from, [], Ansi)] + Ahead(s, i + 1, i + 1, q, e) else out + Ahead(s, from, i + 1, q, e)
  {
    hide Ahead;
    AheadStep(s, from, i, q, e);
  }

  method BashProgressMatches(s: Text) returns (out: seq<Match>)
    ensures out == ProgressSpans(s, 0)
  {
    hide ProgressSpans, Redraws, Ahead, BodyStop, LineEnd, NextLines;
    out := [];
    var segStart, i := 0, 0;
    ghost var p, e, q := 0, LineEnd(s, 0), BodyStop(s, 0, LineEnd(s, 0));
    AheadLine(s, 0);
    while i < |s|
      invariant p <= segStart <= i <= e <= |s| && e == LineEnd(s, p) && q == BodyStop(s, p, e) && segStart <= q && (i <= q || i == e)
      invariant out + Ahead(s, segStart, i, q, e) == ProgressSpans(s, 0)
      decreases |s| - i
    {
      if s[i] == LF {
        AheadNext(s, segStart, q, e);
        segStart := i + 1;
        p := i + 1;
        e := LineEnd(s, p);
        q := BodyStop(s, p, e);
      } else if s[i] == CR {
        var run := CrRunEnd(s, i);
        ReturnsAhead(s, p, e, i, run);
        if run < |s| && s[run] == LF {
          AheadEnd(s, segStart, q, e);
          i := run;
          continue;
        }
        AheadOn(s, out, segStart, i, q, e);
        out := out + [Match(segStart, i + 1 - segStart, [], Ansi)];
        segStart := i + 1;
      } else {
        BodyGoesOn(s, p, e, i);
        AheadOn(s, out, segStart, i, q, e);
      }
      i := i + 1;
    }
    AheadAtEnd(s, segStart, i, q);
  }

  lemma AheadAtEnd(s: Text, from: nat, i: nat, q: nat)
    requires from <= i == |s| && from <= q <= |s|
    ensures Ahead(s, from, i, q, |s|) == []
  {
    AheadEnd(s, from, q, |s|);
  }

  lemma BodyGoesOn(s: Text, p: nat, e: nat, i: nat)
    requires p <= i < e <= |s| && s[i] != CR && (e < |s| ==> s[e] == LF)
    ensures i < BodyStop(s, p, e)
  {
  }

  method EscLenAt(s: Text, i: nat) returns (n: nat)
    ensures n == EscLen(s, i)
  {
    if i >= |s| || s[i] != ESC { return 0; }
    n := CsiLen(s, i);
    if n > 0 { return; }
    n := OscLen(s, i);
    if n > 0 { return; }
    if i + 1 < |s| && (0x40 <= s[i + 1] <= 0x5A || 0x5C <= s[i + 1] <= 0x5F) { return 2; }
    return 1;
  }

  /** The start of the trailing run of the line `s[start..end]`. */
  method TailStart(s: Text, start: nat, end: nat) returns (tail: nat)
    requires start <= end <= |s|
    ensures tail == TailFrom(s[..end], start, start)
  {
    hide EscLen;
    var line := s[..end];
    tail := start;
    var i := start;
    while i < end
      invariant tail <= i <= end && TailFrom(line, i, tail) == TailFrom(line, start, start)
      decreases end - i
    {
      var n := EscLenAt(line, i);
      if n > 0 {
        i := i + n;
      } else if Blank(s[i]) || s[i] == CR {
        i := i + 1;
      } else {
        i := i + 1;
        tail := i;
      }
    }
  }

  lemma HasBlankStep(s: Text, i: nat, j: nat)
    requires i <= j < |s|
    ensures HasBlank(s, i, j + 1) <==> HasBlank(s, i, j) || Blank(s[j])
  {
  }

  /** The run at `i`: where it stops, and whether it holds a blank. */
  method ScanRun(s: Text, runStart: nat, end: nat) returns (i: nat, sawWS: bool)
    requires runStart <= end <= |s|
    ensures i == RunStop(s, runStart, end) && sawWS == HasBlank(s, runStart, i)
  {
    hide HasBlank;
    i, sawWS := runStart, false;
    assert !HasBlank(s, runStart, runStart) by { NoBlank(s, runStart); }
    while i < end && s[i] != CR
      invariant runStart <= i <= end && RunStop(s, i, end) == RunStop(s, runStart, end)
      invariant sawWS == HasBlank(s, runStart, i)
      decreases end - i
    {
      HasBlankStep(s, runStart, i);
      if Blank(s[i]) { sawWS := true; }
      i := i + 1;
    }
  }

  lemma NoBlank(s: Text, i: nat)
    requires i <= |s|
    ensures !HasBlank(s, i, i)
  {
  }

  method BlankRunsOf(s: Text, tail: nat, end: nat) returns (out: seq<Match>)
    requires tail <= end <= |s|
    ensures out == BlankRuns(s, tail, end)
  {
    hide HasBlank, RunStop, BlankRuns;
    out := [];
    var i := tail;
    while i < end
      invariant tail <= i <= end && out + BlankRuns(s, i, end) == BlankRuns(s, tail, end)
      decreases end - i
    {
      RunsStep(s, i, end);
      if s[i] == CR {
        i := i + 1;
      } else {
        var runStart := i;
        var sawWS;
        i, sawWS := ScanRun(s, runStart, end);
        RunAdvances(s, runStart, end);
        if sawWS { out := out + [Match(runStart, i - runStart, [], Crlf)]; }
      }
    }
    RunsDone(s, end);
  }

  lemma RunsStep(s: Text, i: nat, e: nat)
    requires i < e <= |s|
    ensures BlankRuns(s, i, e) ==
            if s[i] == CR then BlankRuns(s, i + 1, e)
            else (if HasBlank(s, i, RunStop(s, i, e)) then [Match(i, RunStop(s, i, e) - i, [], Crlf)] else []) + BlankRuns(s, RunStop(s, i, e), e)
  {
  }

  lemma RunsDone(s: Text, e: nat)
    requires e <= |s|
    ensures BlankRuns(s, e, e) == []
  {
  }

  lemma RunAdvances(s: Text, i: nat, e: nat)
    requires i < e <= |s| && s[i] != CR
    ensures i < RunStop(s, i, e)
  {
  }

  method TrailingWSMatches(dst: seq<Match>, s: Text) returns (out: seq<Match>)
    ensures out == dst + BlankSpans(s, 0)
  {
    hide BlankSpans, BlankRuns, TailFrom;
    out := dst;
    var start := 0;
    while start < |s|
      invariant start <= |s| && out + BlankSpans(s, start) == dst + BlankSpans(s, 0)
      decreases |s| - start
    {
      var end := LineEnd(s, start);
      BlankStep(s, start);
      var tail := TailStart(s, start, end);
      var runs := BlankRunsOf(s, tail, end);
      out := out + runs;
      if end == |s| { return; }
      start := end + 1;
    }
    BlankStep(s, start);
    NoBlankLine(s);
  }

  lemma BlankStep(s: Text, p: nat)
    requires p <= |s|
    ensures var e := LineEnd(s, p); BlankSpans(s, p) == BlankLine(s, p, e) + if e < |s| then BlankSpans(s, e + 1) else []
  {
  }

  lemma NoBlankLine(s: Text)
    ensures BlankLine(s, |s|, |s|) == []
  {
  }
}
