/** The three scanners' spans, composed, clean a transcript line by line - and a second pass changes
    nothing. */
module LineResult {
  import opened Regex
  import opened NumericRules
  import opened EscapeWalk
  import opened CanonTypes
  import opened Compose
  import opened LineCanon

  const ALL_CLASSES: set<Class> := GateSet({}, true)

  predicate EscFree(s: Text) { forall k | 0 <= k < |s| :: s[k] != ESC }

  // The owners, by registration order.
  function ByCrlf(m: Match): Candidate { Candidate(m, 0, "crlf") }
  function ByBash(m: Match): Candidate { Candidate(m, 7, "bash") }

  function CrlfCands(ms: seq<Match>): (r: seq<Candidate>)
    ensures |r| == |ms| && forall k | 0 <= k < |ms| :: r[k] == ByCrlf(ms[k])
  {
    seq(|ms|, i requires 0 <= i < |ms| => ByCrlf(ms[i]))
  }

  function BashCands(ms: seq<Match>): (r: seq<Candidate>)
    ensures |r| == |ms| && forall k | 0 <= k < |ms| :: r[k] == ByBash(ms[k])
  {
    seq(|ms|, i requires 0 <= i < |ms| => ByBash(ms[i]))
  }

  lemma BashFirst(m: Match, ms: seq<Match>)
    ensures BashCands([m] + ms) == [ByBash(m)] + BashCands(ms) && BashCands([]) == [] && BashCands([m]) == [ByBash(m)]
  {
  }

  function Cands(s: Text): seq<Candidate> { CrlfCands(CrlfSpans(s, 0)) + BashCands(ProgressSpans(s, 0) + BlankSpans(s, 0)) }

  // ------------------------------------------------------------------------------------------
  // What is applied
  // ------------------------------------------------------------------------------------------

  /** The blanks the line's last drawing ends with. */
  function BlankKept(s: Text, p: nat, q: nat): seq<Match>
    requires p <= q <= |s|
  {
    var b := BlanksFrom(s, DrawnFrom(s, p, q), q);
    if b < q then [Match(b, q - b, [], Crlf)] else []
  }

  function KeptTail(s: Text, p: nat, e: nat): seq<Candidate>
    requires p <= e <= |s|
    decreases |s| - p, 1
  {
    BashCands(BlankKept(s, p, BodyStop(s, p, e))) + CrlfCands(CrlfLine(s, p, e)) + if e < |s| then Kept(s, e + 1) else []
  }

  /** From `p` on: every redraw, the final blanks, the line's ending. */
  function Kept(s: Text, p: nat): seq<Candidate>
    requires p <= |s|
    decreases |s| - p, 2
  {
    var e := LineEnd(s, p);
    BashCands(Redraws(s, p, p, BodyStop(s, p, e))) + KeptTail(s, p, e)
  }

  /** Starting earlier only keeps more. */
  lemma ApplyFrom(s: Text, ms: seq<Candidate>, a: nat, b: nat)
    requires a <= b && Spans(ms, b, |s|)
    ensures b <= |s| && Spans(ms, a, |s|) && Apply(s, ms, a) == s[a..b] + Apply(s, ms, b)
  {
    SpansFit(ms, b, |s|);
    if ms == [] {
      assert s[a..] == s[a..b] + s[b..];
    } else {
      assert s[a..ms[0].m.offset] == s[a..b] + s[b..ms[0].m.offset];
      Regrouped(s[a..b], s[b..ms[0].m.offset], ms[0].m.token, Apply(s, ms[1..], ms[0].m.End()));
    }
  }

  lemma Regrouped(a: Text, b: Text, c: Text, d: Text)
    ensures a + b + c + d == a + (b + c + d)
  {
  }

  lemma ApplyOne(s: Text, c: Candidate, ms: seq<Candidate>, from: nat)
    requires from <= c.m.offset && |c.m.token| <= c.m.len && Spans(ms, c.m.End(), |s|)
    ensures Spans([c] + ms, from, |s|) && c.m.End() <= |s|
    ensures Apply(s, [c] + ms, from) == s[from..c.m.offset] + c.m.token + Apply(s, ms, c.m.End())
  {
    assert ([c] + ms)[1..] == ms;
    SpansFit([c] + ms, from, |s|);
  }

  lemma DrawnAgain(s: Text, from: nat, i: nat, q: nat)
    requires from <= i < q <= |s| && s[i] == CR
    ensures DrawnFrom(s, from, q) == DrawnFrom(s, i + 1, q)
  {
    var r1, r2 := DrawnFrom(s, from, q), DrawnFrom(s, i + 1, q);
    assert r1 > i && s[r1 - 1] == CR;
  }

  lemma DeleteFirst(s: Text, m: Match, ms: seq<Match>, rest: seq<Candidate>)
    requires m.token == [] && Spans(BashCands(ms) + rest, m.End(), |s|)
    ensures Spans(BashCands([m] + ms) + rest, m.offset, |s|)
    ensures Apply(s, BashCands([m] + ms) + rest, m.offset) == Apply(s, BashCands(ms) + rest, m.End())
  {
    hide Apply, Spans, BashCands;
    var later := BashCands(ms) + rest;
    BashFirst(m, ms);
    assert BashCands([m] + ms) + rest == [ByBash(m)] + later;
    ApplyOne(s, ByBash(m), later, m.offset);
    assert s[m.offset..m.offset] + m.token + Apply(s, later, m.End()) == Apply(s, later, m.End());
  }

  /** The redraws delete everything up to the last carriage return. */
  lemma {:induction false} RedrawsApply(s: Text, from: nat, i: nat, q: nat, rest: seq<Candidate>)
    requires from <= i <= q <= |s| && (forall k | from <= k < i :: s[k] != CR) && Spans(rest, DrawnFrom(s, from, q), |s|)
    ensures Spans(BashCands(Redraws(s, from, i, q)) + rest, from, |s|)
    ensures Apply(s, BashCands(Redraws(s, from, i, q)) + rest, from) == Apply(s, rest, DrawnFrom(s, from, q))
    decreases q - i
  {
    hide Apply, Spans, BashCands, Redraws, DrawnFrom;
    RedrawsNext(s, from, i, q);
    if i == q {
      NoneDrawn(s, from, q);
      BashFirst(Match(0, 0, [], Ansi), []);
      assert [] + rest == rest;
    } else if s[i] == CR {
      DrawnAgain(s, from, i, q);
      RedrawsApply(s, i + 1, i + 1, q, rest);
      DeleteFirst(s, Match(from, i + 1 - from, [], Ansi), Redraws(s, i + 1, i + 1, q), rest);
    } else {
      RedrawsApply(s, from, i + 1, q, rest);
    }
  }

  lemma RedrawsNext(s: Text, from: nat, i: nat, q: nat)
    requires from <= i <= q <= |s|
    ensures Redraws(s, from, i, q) ==
            if i == q then [] else if s[i] == CR then [Match(from, i + 1 - from, [], Ansi)] + Redraws(s, i + 1, i + 1, q)
            else Redraws(s, from, i + 1, q)
  {
  }

  lemma NoneDrawn(s: Text, from: nat, q: nat)
    requires from <= q <= |s| && forall k | from <= k < q :: s[k] != CR
    ensures DrawnFrom(s, from, q) == from
  {
  }

  /** Applying the kept spans cleans line by line. */
  lemma {:induction false} KeptCleans(s: Text, p: nat)
    requires p <= |s|
    ensures Spans(Kept(s, p), p, |s|) && Apply(s, Kept(s, p), p) == CleanFrom(s, p)
    decreases |s| - p
  {
    hide CleanFrom, Apply, Spans, Kept, KeptTail, Redraws, BlanksFrom, CrlfLine, LineEnd, DrawnFrom, BodyStop, BlankKept, BashCands, CrlfCands;
    var e := LineEnd(s, p);
    var q := BodyStop(s, p, e);
    var r := DrawnFrom(s, p, q);
    var next := if e < |s| then Kept(s, e + 1) else [];
    if e < |s| { KeptCleans(s, e + 1); }
    EndingApplied(s, p, e, next);
    BlanksApplied(s, p, q, CrlfCands(CrlfLine(s, p, e)) + next);
    KeptUnfolds(s, p);
    RedrawsApply(s, p, p, q, KeptTail(s, p, e));
    LineKept(s, p);
  }

  lemma KeptUnfolds(s: Text, p: nat)
    requires p <= |s|
    ensures var e := LineEnd(s, p);
            var q := BodyStop(s, p, e);
            var next := if e < |s| then Kept(s, e + 1) else [];
            && Kept(s, p) == BashCands(Redraws(s, p, p, q)) + KeptTail(s, p, e)
            && KeptTail(s, p, e) == BashCands(BlankKept(s, p, q)) + (CrlfCands(CrlfLine(s, p, e)) + next)
  {
  }

  lemma EndingApplied(s: Text, p: nat, e: nat, next: seq<Candidate>)
    requires p <= |s| && e == LineEnd(s, p) && (if e < |s| then Spans(next, e + 1, |s|) else next == [])
    ensures var q := BodyStop(s, p, e);
            var ms := CrlfCands(CrlfLine(s, p, e)) + next;
            Spans(ms, q, |s|) && Apply(s, ms, q) == if e < |s| then [LF] + Apply(s, next, e + 1) else []
  {
    hide Apply, Spans;
    var q := BodyStop(s, p, e);
    if e < |s| && q < e {
      var c := ByCrlf(Match(q, e + 1 - q, [LF], Crlf));
      ApplyOne(s, c, next, q);
      assert CrlfCands(CrlfLine(s, p, e)) == [c];
      assert s[q..q] + [LF] == [LF];
    } else {
      assert CrlfCands(CrlfLine(s, p, e)) + next == next;
      if e < |s| { ApplyFrom(s, next, e, e + 1); } else { NothingLeft(s); }
    }
  }

  lemma NothingLeft(s: Text)
    ensures Spans([], |s|, |s|) && Apply(s, [], |s|) == []
  {
  }

  lemma BlanksApplied(s: Text, p: nat, q: nat, rest: seq<Candidate>)
    requires p <= q <= |s| && Spans(rest, q, |s|)
    ensures var r := DrawnFrom(s, p, q);
            var ms := BashCands(BlankKept(s, p, q)) + rest;
            Spans(ms, r, |s|) && Apply(s, ms, r) == s[r..BlanksFrom(s, r, q)] + Apply(s, rest, q)
  {
    hide Apply, Spans, BashCands, DrawnFrom, BlanksFrom;
    var r := DrawnFrom(s, p, q);
    var b := BlanksFrom(s, r, q);
    BashFirst(Match(b, q - b, [], Crlf), []);
    if b < q {
      var c := ByBash(Match(b, q - b, [], Crlf));
      ApplyOne(s, c, rest, r);
      assert s[r..b] + [] + Apply(s, rest, q) == s[r..b] + Apply(s, rest, q);
    } else {
      assert BashCands(BlankKept(s, p, q)) + rest == rest;
      ApplyFrom(s, rest, r, q);
    }
  }

  // ------------------------------------------------------------------------------------------
  // What is not applied
  // ------------------------------------------------------------------------------------------

  /** Without escapes the trailing run is the blanks and carriage returns the line ends with. */
  lemma {:induction false} TailIs(s: Text, p: nat, e: nat, i: nat, tail: nat)
    requires p <= tail <= i <= e <= |s| && EscFree(s)
    requires (forall k | tail <= k < i :: Blank(s[k]) || s[k] == CR) && (tail > p ==> !Blank(s[tail - 1]) && s[tail - 1] != CR)
    ensures var t := TailFrom(s[..e], i, tail);
            && p <= t <= e && (forall k | t <= k < e :: Blank(s[k]) || s[k] == CR)
            && (t > p ==> !Blank(s[t - 1]) && s[t - 1] != CR)
    decreases e - i
  {
    hide EscAlts;
    if i < e {
      assert EscAlts(s[..e], i) == [];
      TailIs(s, p, e, i + 1, if Blank(s[i]) || s[i] == CR then tail else i + 1);
    }
  }

  /** A maximal stretch without carriage returns that holds a blank. */
  predicate IsRun(s: Text, t: nat, e: nat, m: Match)
    requires t <= e <= |s|
  {
    && t <= m.offset < m.End() <= e && m == Match(m.offset, m.len, [], Crlf)
    && (m.offset == t || s[m.offset - 1] == CR)
    && (forall k | m.offset <= k < m.End() :: s[k] != CR) && (m.End() < e ==> s[m.End()] == CR)
    && HasBlank(s, m.offset, m.End())
  }

  lemma {:induction false} RunsAre(s: Text, t: nat, i: nat, e: nat, m: Match)
    requires t <= i <= e <= |s| && (i == t || s[i - 1] == CR || (i < e ==> s[i] == CR))
    ensures m in BlankRuns(s, i, e) ==> IsRun(s, t, e, m) && i <= m.offset
    ensures IsRun(s, t, e, m) && i <= m.offset ==> m in BlankRuns(s, i, e)
    decreases e - i
  {
    hide BlankRuns, RunStop, HasBlank;
    if i == e { RunsDone(s, e); } else {
      RunsStep(s, i, e);
      if s[i] == CR {
        RunsAre(s, t, i + 1, e, m);
      } else {
        var j := RunStop(s, i, e);
        RunAdvances(s, i, e);
        RunsAre(s, t, j, e, m);
        RunHere(s, t, i, e, m);
      }
    }
  }

  /** A run that starts before the next carriage return starts here. */
  lemma RunHere(s: Text, t: nat, i: nat, e: nat, m: Match)
    requires t <= i < e <= |s| && s[i] != CR && (i == t || s[i - 1] == CR)
    ensures var j := RunStop(s, i, e);
            && (HasBlank(s, i, j) ==> IsRun(s, t, e, Match(i, j - i, [], Crlf)))
            && (IsRun(s, t, e, m) && i <= m.offset < j ==> m == Match(i, j - i, [], Crlf) && HasBlank(s, i, j))
  {
    hide HasBlank;
  }

  /** The redraw that ends at a carriage return covers everything since the one before. */
  lemma {:induction false} RedrawAt(s: Text, from: nat, i: nat, q: nat, j: nat) returns (f: nat)
    requires from <= i <= j < q <= |s| && s[j] == CR && (forall k | from <= k < i :: s[k] != CR)
    ensures from <= f <= j && Match(f, j + 1 - f, [], Ansi) in Redraws(s, from, i, q)
    ensures (forall k | f <= k < j :: s[k] != CR) && (f == from || s[f - 1] == CR)
    decreases q - i
  {
    if s[i] != CR { f := RedrawAt(s, from, i + 1, q, j); }
    else if i == j { f := from; }
    else { f := RedrawAt(s, i + 1, i + 1, q, j); }
  }

  /** A blank run of a line is its final one, or lies inside a redraw. */
  lemma RunCases(s: Text, p: nat, e: nat, m: Match)
    requires p <= |s| && e == LineEnd(s, p) && EscFree(s) && m in BlankLine(s, p, e)
    ensures var q := BodyStop(s, p, e);
            m in BlankKept(s, p, q) || exists a | a in Redraws(s, p, p, q) :: a.offset <= m.offset < a.End() && Less(ByBash(a), ByBash(m))
  {
    hide BlankRuns, TailFrom, Redraws, HasBlank;
    var q := BodyStop(s, p, e);
    var r := DrawnFrom(s, p, q);
    var t := TailFrom(s[..e], p, p);
    TailIs(s, p, e, p, p);
    RunsAre(s, t, t, e, m);
    var j := m.End();
    if j < q {
      var f := RedrawAt(s, p, p, q, j);
      assert f <= m.offset;
      var a := Match(f, j + 1 - f, [], Ansi);
      assert a in Redraws(s, p, p, q) && Less(ByBash(a), ByBash(m));
    } else {
      FinalRun(s, p, q, e, t, m);
    }
  }

  lemma FinalRun(s: Text, p: nat, q: nat, e: nat, t: nat, m: Match)
    requires p <= t <= e <= |s| && e == LineEnd(s, p) && q == BodyStop(s, p, e) && IsRun(s, t, e, m) && m.End() >= q
    requires (forall k | t <= k < e :: Blank(s[k]) || s[k] == CR) && (t > p ==> !Blank(s[t - 1]) && s[t - 1] != CR)
    ensures m in BlankKept(s, p, q)
  {
    hide HasBlank, BodyStop;
    assert forall k | q <= k < e :: s[k] == CR by { StopsBeforeReturns(s, p, e); }
    var r := DrawnFrom(s, p, q);
    var b := BlanksFrom(s, r, q);
    var a := m.offset;
    assert s[a] != CR;
    assert a < q;
    assert q < e ==> s[q] == CR;
    assert m.End() == q;
    assert r <= a;
    assert b <= a;
    assert a <= b;
  }

  lemma StopsBeforeReturns(s: Text, p: nat, e: nat)
    requires p <= e <= |s|
    ensures var q := BodyStop(s, p, e); (forall k | q <= k < e :: s[k] == CR) && (q < e && q > p ==> s[q - 1] != CR)
  {
  }

  /** The final blanks of a line are one of its blank runs. */
  lemma KeptIsRun(s: Text, p: nat, e: nat, m: Match)
    requires p <= |s| && e == LineEnd(s, p) && EscFree(s) && m in BlankKept(s, p, BodyStop(s, p, e))
    ensures m in BlankLine(s, p, e)
  {
    hide BlankRuns, TailFrom, BodyStop, HasBlank;
    var q := BodyStop(s, p, e);
    var t := TailFrom(s[..e], p, p);
    TailIs(s, p, e, p, p);
    StopsBeforeReturns(s, p, e);
    assert t <= m.offset;
    assert m.offset == t || s[m.offset - 1] == CR;
    SomeBlank(s, m.offset, q);
    RunsAre(s, t, t, e, m);
  }

  lemma SomeBlank(s: Text, i: nat, j: nat)
    requires i < j <= |s| && forall k | i <= k < j :: Blank(s[k])
    ensures HasBlank(s, i, j)
  {
    assert Blank(s[i]);
  }

  // ------------------------------------------------------------------------------------------
  // The whole text
  // ------------------------------------------------------------------------------------------

  lemma InCands(ms: seq<Match>, x: Candidate)
    ensures x in BashCands(ms) <==> x == ByBash(x.m) && x.m in ms
    ensures x in CrlfCands(ms) <==> x == ByCrlf(x.m) && x.m in ms
  {
    if x.m in ms {
      var k :| 0 <= k < |ms| && ms[k] == x.m;
      assert BashCands(ms)[k] == ByBash(x.m) && CrlfCands(ms)[k] == ByCrlf(x.m);
    }
  }

  /** The line at `p` and the lines after it. */
  lemma SpansUnfold(s: Text, p: nat)
    requires p <= |s|
    ensures var e := LineEnd(s, p);
            && CrlfSpans(s, p) == CrlfLine(s, p, e) + (if e < |s| then CrlfSpans(s, e + 1) else [])
            && ProgressSpans(s, p) == Redraws(s, p, p, BodyStop(s, p, e)) + (if e < |s| then ProgressSpans(s, e + 1) else [])
            && BlankSpans(s, p) == BlankLine(s, p, e) + (if e < |s| then BlankSpans(s, e + 1) else [])
  {
    hide LineEnd, Redraws, BlankLine, CrlfLine, BodyStop;
  }

  predicate Found(s: Text, p: nat, x: Candidate)
    requires p <= |s|
  {
    || (x == ByCrlf(x.m) && x.m in CrlfSpans(s, p))
    || (x == ByBash(x.m) && (x.m in ProgressSpans(s, p) || x.m in BlankSpans(s, p)))
  }

  lemma {:induction false} RedrawShape(s: Text, from: nat, i: nat, q: nat, m: Match)
    requires from <= i <= q <= |s| && m in Redraws(s, from, i, q)
    ensures m.len > 0 && m.token == [] && m.cls == Ansi && m.End() <= q
    decreases q - i
  {
    if s[i] == CR {
      if m != Match(from, i + 1 - from, [], Ansi) { RedrawShape(s, i + 1, i + 1, q, m); }
    } else {
      RedrawShape(s, from, i + 1, q, m);
    }
  }

  lemma {:induction false} KeptIsFound(s: Text, p: nat, x: Candidate)
    requires p <= |s| && EscFree(s) && x in Kept(s, p)
    ensures Found(s, p, x) && Eligible(x, ALL_CLASSES)
    decreases |s| - p
  {
    hide Kept, KeptTail, CrlfSpans, ProgressSpans, BlankSpans, Redraws, BlankLine, BashCands, CrlfCands, BodyStop;
    var e := LineEnd(s, p);
    var q := BodyStop(s, p, e);
    KeptUnfolds(s, p);
    SpansUnfold(s, p);
    InCands(Redraws(s, p, p, q), x);
    InCands(BlankKept(s, p, q), x);
    InCands(CrlfLine(s, p, e), x);
    if x in BashCands(Redraws(s, p, p, q)) { RedrawShape(s, p, p, q, x.m); }
    else if x in BashCands(BlankKept(s, p, q)) { KeptIsRun(s, p, e, x.m); }
    else if x !in CrlfCands(CrlfLine(s, p, e)) { KeptIsFound(s, e + 1, x); }
  }

  ghost predicate Settled(s: Text, p: nat, x: Candidate)
    requires p <= |s|
  {
    x in Kept(s, p) || exists a | a in Kept(s, p) :: Covers(a, x) && Less(a, x)
  }

  lemma SettledLater(s: Text, p: nat, x: Candidate)
    requires p <= |s| && LineEnd(s, p) < |s| && Settled(s, LineEnd(s, p) + 1, x)
    ensures Settled(s, p, x)
  {
    hide Kept, Less;
    KeptUnfolds(s, p);
    var e := LineEnd(s, p);
    assert forall a | a in Kept(s, e + 1) :: a in Kept(s, p);
  }

  lemma {:induction false} FoundIsSettled(s: Text, p: nat, x: Candidate)
    requires p <= |s| && EscFree(s) && Found(s, p, x)
    ensures Settled(s, p, x)
    decreases |s| - p
  {
    hide Kept, KeptTail, CrlfSpans, ProgressSpans, BlankSpans, Redraws, BlankLine, BashCands, CrlfCands, BodyStop, Settled;
    var e := LineEnd(s, p);
    SpansUnfold(s, p);
    if e < |s| && Found(s, e + 1, x) {
      FoundIsSettled(s, e + 1, x);
      SettledLater(s, p, x);
    } else {
      LineSettled(s, p, e, x);
    }
  }

  lemma LineSettled(s: Text, p: nat, e: nat, x: Candidate)
    requires p <= |s| && EscFree(s) && e == LineEnd(s, p)
    requires || (x == ByCrlf(x.m) && x.m in CrlfLine(s, p, e))
             || (x == ByBash(x.m) && (x.m in Redraws(s, p, p, BodyStop(s, p, e)) || x.m in BlankLine(s, p, e)))
    ensures Settled(s, p, x)
  {
    hide Kept, KeptTail, Redraws, BlankLine, BashCands, CrlfCands, BodyStop, BlankKept, CrlfLine, Less;
    var q := BodyStop(s, p, e);
    KeptUnfolds(s, p);
    InCands(Redraws(s, p, p, q), x);
    InCands(BlankKept(s, p, q), x);
    InCands(CrlfLine(s, p, e), x);
    if x == ByBash(x.m) && x.m in BlankLine(s, p, e) {
      RunCases(s, p, e, x.m);
      if x.m !in BlankKept(s, p, q) {
        var a :| a in Redraws(s, p, p, q) && a.offset <= x.m.offset < a.End() && Less(ByBash(a), x);
        InCands(Redraws(s, p, p, q), ByBash(a));
        assert ByBash(a) in Kept(s, p) && Covers(ByBash(a), x);
      }
    }
  }

  lemma CandsAreFound(s: Text, x: Candidate)
    ensures x in Cands(s) <==> Found(s, 0, x)
  {
    hide CrlfSpans, ProgressSpans, BlankSpans, BashCands, CrlfCands;
    InCands(CrlfSpans(s, 0), x);
    InCands(ProgressSpans(s, 0) + BlankSpans(s, 0), x);
  }

  /** What the composition accepts. */
  lemma AcceptedAreKept(s: Text)
    requires EscFree(s)
    ensures Accepted(Cands(s), ALL_CLASSES) == Kept(s, 0)
  {
    hide Kept, Cands, Found, Eligible, Spans, Sort, Less, Covers, Accept;
    var cs := Cands(s);
    SortSorts(cs);
    KeptCleans(s, 0);
    forall x ensures x in Sort(cs) <==> Found(s, 0, x) {
      CandsAreFound(s, x);
      assert x in Sort(cs) <==> x in multiset(Sort(cs));
      assert x in cs <==> x in multiset(cs);
    }
    forall a | a in Kept(s, 0) ensures a in Sort(cs) && Eligible(a, ALL_CLASSES) { KeptIsFound(s, 0, a); }
    forall x | x in Sort(cs) && Eligible(x, ALL_CLASSES) && 0 <= x.m.offset && x !in Kept(s, 0)
      ensures exists a | a in Kept(s, 0) :: Covers(a, x) && Less(a, x)
    {
      FoundIsSettled(s, 0, x);
    }
    AcceptIs(Sort(cs), ALL_CLASSES, 0, |s|, Kept(s, 0));
  }

  lemma {:induction false} FoundInRange(s: Text, p: nat, x: Candidate)
    requires p <= |s| && Found(s, p, x)
    ensures x.m.End() <= |s|
    decreases |s| - p
  {
    hide CrlfSpans, ProgressSpans, BlankSpans, Redraws, BlankRuns, BodyStop, TailFrom;
    var e := LineEnd(s, p);
    var q := BodyStop(s, p, e);
    SpansUnfold(s, p);
    if e < |s| && Found(s, e + 1, x) { FoundInRange(s, e + 1, x); }
    else if x.m in Redraws(s, p, p, q) { RedrawShape(s, p, p, q, x.m); }
    else if x.m in BlankLine(s, p, e) {
      var t := TailFrom(s[..e], p, p);
      RunsAre(s, t, t, e, x.m);
    }
  }

  lemma CandsInRange(s: Text)
    ensures InRange(s, Cands(Head(s)))
  {
    hide Cands, Found;
    forall x | x in Cands(Head(s)) ensures x.m.End() <= |Head(s)| {
      CandsAreFound(Head(s), x);
      FoundInRange(Head(s), 0, x);
    }
  }

  /** The crlf and bash canonicalizers run together over one input. */
  method Canonicalize(s: Text, gate: set<Class>, keep: bool) returns (canonical: Text, ds: seq<Delta>, accepted: seq<Candidate>)
    ensures InRange(s, Cands(Head(s))) && canonical == Canonical(s, Cands(Head(s)), gate)
    ensures ds == if keep then Record(s, Cands(Head(s)), gate) else []
    ensures accepted == Accepted(Cands(Head(s)), gate)
  {
    hide CrlfSpans, ProgressSpans, BlankSpans;
    CandsInRange(s);
    var head := Head(s);
    var crlf := CrlfMatches(head);
    var bash := BashProgressMatches(head);
    bash := TrailingWSMatches(bash, head);
    var cs := CrlfCands(crlf) + BashCands(bash);
    var a := new Candidate[|cs|](i requires 0 <= i < |cs| => cs[i]);
    assert a[..] == cs == Cands(head);
    canonical, ds, accepted := ComposeAll(s, a, gate, keep);
  }

  /** With every class in play, on input without escapes and within the size cap, the composition is the
      line-by-line reference. */
  lemma TranscriptIsCleaned(s: Text)
    requires EscFree(s) && |s| <= 8388608
    ensures InRange(s, Cands(s)) && Canonical(s, Cands(s), ALL_CLASSES) == Clean(s)
  {
    hide Cands, Kept, Apply;
    CandsInRange(s);
    AcceptedAreKept(s);
    KeptCleans(s, 0);
    assert Apply(s, Kept(s, 0), 0) + [] == Clean(s);
  }

  // ------------------------------------------------------------------------------------------
  // A second pass
  // ------------------------------------------------------------------------------------------

  /** No carriage return anywhere, no blank at the end of a line. */
  predicate Tidy(s: Text) {
    forall k | 0 <= k < |s| :: s[k] != CR && (Blank(s[k]) ==> !AtLineEnd(s, k + 1))
  }

  predicate AtLineEnd(s: Text, k: nat)
    requires k <= |s|
  {
    k == |s| || s[k] == LF
  }

  lemma TidyJoin(a: Text, b: Text)
    requires Tidy(b) && (forall k | 0 <= k < |a| :: a[k] != CR && a[k] != LF) && (a != [] ==> !Blank(a[|a| - 1]))
    ensures Tidy(a) && Tidy(a + [LF] + b)
  {
    var c: Text := a + [LF] + b;
    forall k | 0 <= k < |c| ensures c[k] != CR && (Blank(c[k]) ==> !AtLineEnd(c, k + 1)) {
      if k < |a| {
        assert c[k] == a[k] && c[k + 1] == if k + 1 < |a| then a[k + 1] else LF;
      } else if k == |a| {
        assert c[k] == LF;
      } else {
        var i := k - |a| - 1;
        assert c[k] == b[i];
        assert Blank(b[i]) ==> !AtLineEnd(b, i + 1);
        assert i + 1 < |b| ==> c[k + 1] == b[i + 1];
      }
    }
  }

  lemma {:induction false} CleanIsTidy(s: Text, p: nat)
    requires p <= |s|
    ensures Tidy(CleanFrom(s, p))
    decreases |s| - p
  {
    hide CleanFrom, Tidy, LineEnd, BodyStop, DrawnFrom, BlanksFrom;
    var e := LineEnd(s, p);
    var q := BodyStop(s, p, e);
    var r := DrawnFrom(s, p, q);
    var line := s[r..BlanksFrom(s, r, q)];
    LineKept(s, p);
    NothingTidy();
    if e < |s| {
      CleanIsTidy(s, e + 1);
      TidyJoin(line, CleanFrom(s, e + 1));
      assert line + ([LF] + CleanFrom(s, e + 1)) == line + [LF] + CleanFrom(s, e + 1);
    } else {
      TidyJoin(line, []);
      assert line + [] == line;
    }
  }

  lemma NothingTidy()
    ensures Tidy([])
  {
  }

  lemma {:induction false} TidyIsClean(s: Text, p: nat)
    requires p <= |s| && Tidy(s)
    ensures CleanFrom(s, p) == s[p..]
    decreases |s| - p
  {
    hide CleanFrom;
    LineKept(s, p);
    var e := LineEnd(s, p);
    var q := BodyStop(s, p, e);
    assert q == e by { StopsBeforeReturns(s, p, e); }
    assert DrawnFrom(s, p, q) == p && BlanksFrom(s, p, q) == q;
    if e < |s| {
      TidyIsClean(s, e + 1);
      assert s[p..] == s[p..e] + ([LF] + s[e + 1..]);
    }
  }

  lemma {:induction false} CleanIsEscFree(s: Text, p: nat)
    requires p <= |s| && EscFree(s)
    ensures EscFree(CleanFrom(s, p))
    decreases |s| - p
  {
    hide CleanFrom;
    LineKept(s, p);
    var e := LineEnd(s, p);
    if e < |s| { CleanIsEscFree(s, e + 1); }
  }

  /** On the same inputs the output holds no carriage return, and a second pass gives it back. */
  lemma TranscriptIsStable(s: Text)
    requires EscFree(s) && |s| <= 8388608
    ensures InRange(s, Cands(s))
    ensures var c := Canonical(s, Cands(s), ALL_CLASSES);
            && (forall k | 0 <= k < |c| :: c[k] != CR)
            && InRange(c, Cands(c)) && Canonical(c, Cands(c), ALL_CLASSES) == c
  {
    hide Cands, CleanFrom, Canonical;
    TranscriptIsCleaned(s);
    ComposeRestores(s, Cands(s), ALL_CLASSES);
    var c := Clean(s);
    CleanIsTidy(s, 0);
    CleanIsEscFree(s, 0);
    TranscriptIsCleaned(c);
    TidyIsClean(c, 0);
    assert c[0..] == c;
  }
}
