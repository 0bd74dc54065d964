/** The single-pass numeric scanner: seven resume cursors, an alternatives cache, and an escape-run
    walk with an explicit unwind stack and a memo of nodes that lead nowhere. */
module NumericScan {
  import opened Regex
  import opened CanonTypes
  import opened NumericRules
  import opened NumericBodies
  import opened EscapeWalk

  // ------------------------------------------------------------------------------------------
  // What the patterns report
  // ------------------------------------------------------------------------------------------

  /** The whole pattern at `i`: the edge's readings in order, and the first the body follows. */
  function MatchAt(rule: Rule, s: Text, i: nat): (f: Found)
    requires i <= |s|
    ensures f.Hit? ==> i <= f.q && f.q + Lead(rule) < f.e <= |s|
  {
    var qs := Ends(WordEdge(), s, i);
    FirstHitBounds(rule, s, qs, i);
    FirstHit(rule, s, qs)
  }

  lemma {:induction false} FirstHitBounds(rule: Rule, s: Text, qs: seq<nat>, lo: nat)
    requires Within(qs, lo, |s|)
    ensures var f := FirstHit(rule, s, qs); f.Hit? ==> lo <= f.q && f.q + Lead(rule) < f.e <= |s|
  {
    hide BodyEnd;
    if qs != [] {
      BodyLead(rule, s, qs[0]);
      FirstHitBounds(rule, s, qs[1..], lo);
    }
  }

  /** The end `MatchAt` gives is the end the concatenated pattern reports first. */
  lemma MatchAtIsPattern(rule: Rule, s: Text, i: nat)
    requires i <= |s|
    ensures First(Ends(Cat(WordEdge(), Body(rule)), s, i))
         == (if MatchAt(rule, s, i).Hit? then MatchAt(rule, s, i).e else -1)
  {
    hide Ends, EndsAll, WordEdge, Body;
    CatEnds(WordEdge(), Body(rule), s, i);
    FirstHitIsFirst(rule, s, Ends(WordEdge(), s, i));
  }

  lemma {:induction false} FirstHitIsFirst(rule: Rule, s: Text, qs: seq<nat>)
    requires Within(qs, 0, |s|)
    ensures First(EndsAll(Body(rule), s, qs))
         == (if FirstHit(rule, s, qs).Hit? then FirstHit(rule, s, qs).e else -1)
  {
    hide Ends, EndsAll, Body;
    if qs == [] {
      EndsAllNone(Body(rule), s);
    } else {
      EndsAllCons(Body(rule), s, qs);
      FirstHitIsFirst(rule, s, qs[1..]);
    }
  }

  function Bytes(t: string): Text
    requires forall k | 0 <= k < |t| :: t[k] as int < 256
  {
    seq(|t|, k requires 0 <= k < |t| => t[k] as int)
  }

  function RulesOf(cls: Class): seq<Rule> {
    if cls == Timestamps then [Iso, Epoch, Clock] else [HourMinSec, MinSec, Magnitude, InPhrase]
  }

  function TokenOf(cls: Class): Text { if cls == Timestamps then Bytes("<ts>") else Bytes("<d>") }

  /** The span a match replaces: the capture, which for the phrase rule leaves "in " alone. */
  function SpanOf(rule: Rule, f: Found, cls: Class): Match
    requires f.Hit? && f.q + Lead(rule) <= f.e
  {
    Match(f.q + Lead(rule), f.e - f.q - Lead(rule), TokenOf(cls), cls)
  }

  /** The spans of the successive non-overlapping matches from `pos` on, each search resuming at the
      end of the last match. */
  function FindAll(rule: Rule, s: Text, pos: nat, cls: Class): (ms: seq<Match>)
    decreases |s| + 1 - pos
  {
    if pos > |s| then []
    else
      var f := MatchAt(rule, s, pos);
      if f.Hit? then [SpanOf(rule, f, cls)] + FindAll(rule, s, f.e, cls) else FindAll(rule, s, pos + 1, cls)
  }

  lemma FindStep(rule: Rule, s: Text, pos: nat, cls: Class)
    requires pos <= |s|
    ensures var f := MatchAt(rule, s, pos);
            FindAll(rule, s, pos, cls) == if f.Hit? then [SpanOf(rule, f, cls)] + FindAll(rule, s, f.e, cls) else FindAll(rule, s, pos + 1, cls)
  {
    hide MatchAt;
  }

  /** Everything the patterns of `rules` report, each scanned over the buffer alone. */
  function Reported(rules: seq<Rule>, s: Text, cls: Class): multiset<Match> {
    if rules == [] then multiset{} else multiset(FindAll(rules[0], s, 0, cls)) + Reported(rules[1..], s, cls)
  }

  /** At an ESC only the escape branch of the edge can lead anywhere. */
  lemma MatchAtEscape(rule: Rule, s: Text, i: nat)
    requires i < |s| && s[i] == ESC
    ensures MatchAt(rule, s, i) == Walk(rule, s, i, 0)
  {
    hide BodyEnd, Ends, EndsAll, Walk, EscAny;
    EdgeSplit(rule, s, i);
    BodyLead(rule, s, i);
    assert EscAlts(s, i)[0..] == EscAlts(s, i);
    WalkIsFirstHit(rule, s, i, 0);
  }

  lemma EdgeSplit(rule: Rule, s: Text, i: nat)
    requires i <= |s|
    ensures MatchAt(rule, s, i)
         == OrElse(if AtBoundary(s, i) && BodyEnd(rule, s, i) >= 0 then Hit(i, BodyEnd(rule, s, i)) else Miss,
                   FirstHit(rule, s, EndsAll(EscRun(), s, EscAlts(s, i))))
  {
    hide BodyEnd, EndsAll, EscAny;
    AltEnds(Boundary, Plus(EscAny()), s, i);
    CatEnds(EscAny(), EscRun(), s, i);
    EscAnyEnds(s, i);
    FirstHitConcat(rule, s, Ends(Boundary, s, i), EndsAll(EscRun(), s, EscAlts(s, i)));
  }

  /** Elsewhere only the `\b` branch can. */
  lemma MatchAtPlain(rule: Rule, s: Text, i: nat)
    requires i <= |s| && (i < |s| ==> s[i] != ESC)
    ensures MatchAt(rule, s, i)
         == if i < |s| && s[i] in WORD && !WordAt(s, i - 1) && BodyEnd(rule, s, i) >= 0
            then Hit(i, BodyEnd(rule, s, i)) else Miss
  {
    hide BodyEnd, Ends, EndsAll, EscAny;
    EdgeSplit(rule, s, i);
    EndsAllNone(EscRun(), s);
    BodyLead(rule, s, i);
  }

  lemma FindAllMiss(rule: Rule, s: Text, pos: nat, cls: Class)
    requires pos <= |s| && MatchAt(rule, s, pos) == Miss
    ensures FindAll(rule, s, pos, cls) == FindAll(rule, s, pos + 1, cls)
  {
    hide MatchAt;
  }

  lemma {:induction false} FindAllSkip(rule: Rule, s: Text, lo: nat, hi: int, cls: Class)
    requires lo <= hi <= |s| + 1
    requires forall k | lo <= k < hi :: MatchAt(rule, s, k) == Miss
    ensures FindAll(rule, s, lo, cls) == FindAll(rule, s, hi, cls)
    decreases hi - lo
  {
    hide MatchAt;
    if lo < hi { FindAllSkip(rule, s, lo + 1, hi, cls); }
  }

  // ------------------------------------------------------------------------------------------
  // The unwind stack
  // ------------------------------------------------------------------------------------------

  datatype Frame = Frame(at: nat, next: nat)

  /** An alternative that ends at no ESC is as good as the body there. */
  lemma WalkHere(rule: Rule, s: Text, at: nat, b: nat)
    requires b < |EscAlts(s, at)| && EscAlts(s, EscAlts(s, at)[b]) == []
    ensures var e := EscAlts(s, at)[b];
            Walk(rule, s, at, b) == if BodyEnd(rule, s, e) >= 0 then Hit(e, BodyEnd(rule, s, e)) else Walk(rule, s, at, b + 1)
  {
    hide BodyEnd, EscAlts;
  }

  lemma WalkOut(rule: Rule, s: Text, at: nat, b: nat)
    requires b >= |EscAlts(s, at)|
    ensures Walk(rule, s, at, b) == Miss
  {
    hide BodyEnd, EscAlts;
  }

  /** Frames lie on one rightward path that leads to `at`. */
  predicate StackOk(st: seq<Frame>, at: nat) {
    && (forall k | 0 <= k < |st| :: st[k].at < at)
    && (forall j, k | 0 <= j < k < |st| :: st[j].at < st[k].at)
  }

  /** What the frames still owe, the newest first. */
  function Unwind(rule: Rule, s: Text, st: seq<Frame>): (f: Found)
  {
    if st == [] then Miss
    else
      var top := st[|st| - 1];
      OrElse(Walk(rule, s, top.at, top.next), Unwind(rule, s, st[..|st| - 1]))
  }

  function Rest(rule: Rule, s: Text, at: nat, a: nat, st: seq<Frame>): (f: Found)
  {
    OrElse(Walk(rule, s, at, a), Unwind(rule, s, st))
  }

  /** Node `p` was left without a frame of its own: its fate is the current node's and that of the
      frames above it. */
  ghost predicate Pending(rule: Rule, s: Text, p: nat, at: nat, a: nat, st: seq<Frame>)
  {
    exists k | 0 <= k <= |st| :: Owes(rule, s, p, at, a, st, k)
  }

  ghost predicate Owes(rule: Rule, s: Text, p: nat, at: nat, a: nat, st: seq<Frame>, k: nat)
    requires k <= |st|
  {
    && p < at
    && (forall j | k <= j < |st| :: p < st[j].at)
    && Walk(rule, s, p, 0) == Rest(rule, s, at, a, st[k..])
  }

  // Each transition of the walk keeps what is owed, for the whole stack and for every suffix.

  lemma RestPush(rule: Rule, s: Text, at: nat, a: nat, st: seq<Frame>)
    requires a < |EscAlts(s, at)| && EscAlts(s, EscAlts(s, at)[a]) != []
    ensures Rest(rule, s, at, a, st) == Rest(rule, s, EscAlts(s, at)[a], 0, st + [Frame(at, a + 1)])
  {
    hide EscAlts, BodyEnd;
    var st' := st + [Frame(at, a + 1)];
    assert st'[..|st'| - 1] == st;
  }

  lemma RestDescend(rule: Rule, s: Text, at: nat, a: nat, st: seq<Frame>)
    requires a < |EscAlts(s, at)| && EscAlts(s, EscAlts(s, at)[a]) != []
    requires Walk(rule, s, at, a + 1) == Miss
    ensures Rest(rule, s, at, a, st) == Rest(rule, s, EscAlts(s, at)[a], 0, st)
  {
    hide EscAlts, BodyEnd;
  }

  lemma RestPop(rule: Rule, s: Text, at: nat, a: nat, st: seq<Frame>)
    requires Walk(rule, s, at, a) == Miss && st != []
    ensures var top := st[|st| - 1];
            Rest(rule, s, at, a, st) == Rest(rule, s, top.at, top.next, st[..|st| - 1])
  {
    hide EscAlts, Walk;
  }

  lemma PendingPush(rule: Rule, s: Text, p: nat, at: nat, a: nat, st: seq<Frame>)
    requires a < |EscAlts(s, at)| && EscAlts(s, EscAlts(s, at)[a]) != []
    requires StackOk(st, at) && Pending(rule, s, p, at, a, st)
    ensures Pending(rule, s, p, EscAlts(s, at)[a], 0, st + [Frame(at, a + 1)])
  {
    hide EscAlts, Walk, Rest;
    var st' := st + [Frame(at, a + 1)];
    var k :| 0 <= k <= |st| && Owes(rule, s, p, at, a, st, k);
    RestPush(rule, s, at, a, st[k..]);
    assert st'[k..] == st[k..] + [Frame(at, a + 1)];
    assert Owes(rule, s, p, EscAlts(s, at)[a], 0, st', k);
  }

  lemma PendingDescend(rule: Rule, s: Text, p: nat, at: nat, a: nat, st: seq<Frame>)
    requires a < |EscAlts(s, at)| && EscAlts(s, EscAlts(s, at)[a]) != []
    requires Walk(rule, s, at, a + 1) == Miss
    requires StackOk(st, at) && Pending(rule, s, p, at, a, st)
    ensures Pending(rule, s, p, EscAlts(s, at)[a], 0, st)
  {
    hide EscAlts, Walk, Rest;
    var k :| 0 <= k <= |st| && Owes(rule, s, p, at, a, st, k);
    RestDescend(rule, s, at, a, st[k..]);
    assert Owes(rule, s, p, EscAlts(s, at)[a], 0, st, k);
  }

  lemma PendingPop(rule: Rule, s: Text, p: nat, at: nat, a: nat, st: seq<Frame>)
    requires Walk(rule, s, at, a) == Miss && st != []
    requires StackOk(st, at) && Pending(rule, s, p, at, a, st)
    ensures var top := st[|st| - 1];
            Walk(rule, s, p, 0) == Miss || Pending(rule, s, p, top.at, top.next, st[..|st| - 1])
  {
    hide EscAlts, Walk;
    var top := st[|st| - 1];
    var k :| 0 <= k <= |st| && Owes(rule, s, p, at, a, st, k);
    if k < |st| {
      RestPop(rule, s, at, a, st[k..]);
      assert st[k..][..|st| - k - 1] == st[..|st| - 1][k..];
      assert Owes(rule, s, p, top.at, top.next, st[..|st| - 1], k);
    } else {
      assert st[k..] == [];
    }
  }

  lemma PendingMiss(rule: Rule, s: Text, p: nat, at: nat, a: nat)
    requires Walk(rule, s, at, a) == Miss
    requires Pending(rule, s, p, at, a, [])
    ensures Walk(rule, s, p, 0) == Miss
  {
  }

  // ------------------------------------------------------------------------------------------
  // Termination of the walk: the size of the tree it explores
  // ------------------------------------------------------------------------------------------

  ghost function TreeSize(s: Text, at: nat, a: nat): (n: nat)
    ensures n > 0
    decreases |s| - at, |EscAlts(s, at)| - a
  {
    var alts := EscAlts(s, at);
    if a >= |alts| then 1
    else 1 + (if EscAlts(s, alts[a]) != [] then TreeSize(s, alts[a], 0) else 0) + TreeSize(s, at, a + 1)
  }

  ghost function StackSize(s: Text, st: seq<Frame>): nat
  {
    if st == [] then 0
    else TreeSize(s, st[|st| - 1].at, st[|st| - 1].next) + StackSize(s, st[..|st| - 1])
  }

  // ------------------------------------------------------------------------------------------
  // The walk's invariant
  // ------------------------------------------------------------------------------------------

  type Memo = seq<set<Rule>>

  predicate MemoSized(s: Text, dead: Memo) { dead == [] || |dead| == |s| }

  function NoMarks(s: Text): Memo { seq(|s|, _ => {}) }

  predicate Marked(dead: Memo, p: nat, rule: Rule) { p < |dead| && rule in dead[p] }

  function Mark(dead: Memo, p: nat, rule: Rule): (d: Memo)
    ensures |d| == |dead|
    ensures forall q: nat, r :: Marked(d, q, r) <==> Marked(dead, q, r) || (q == p < |dead| && r == rule)
  {
    if p < |dead| then dead[p := dead[p] + {rule}] else dead
  }

  /** A node marked dead for a rule truly fails for it, or lies left of the rule's cursor. */
  ghost predicate MemoOk(s: Text, dead: Memo, rule: Rule, cursor: nat) {
    forall p: nat | Marked(dead, p, rule) :: p < cursor || Walk(rule, s, p, 0) == Miss
  }

  /** During a walk a mark may also be early: the node's fate is still being decided. */
  ghost predicate MemoWalking(s: Text, dead: Memo, rule: Rule, cursor: nat, at: nat, a: nat, st: seq<Frame>) {
    forall p: nat | Marked(dead, p, rule) ::
      p < cursor || Walk(rule, s, p, 0) == Miss || Pending(rule, s, p, at, a, st)
  }

  ghost predicate FramesOwe(rule: Rule, s: Text, at: nat, a: nat, st: seq<Frame>) {
    forall k | 0 <= k < |st| :: Walk(rule, s, st[k].at, 0) == Rest(rule, s, at, a, st[k..])
  }

  ghost predicate FramesLive(rule: Rule, dead: Memo, root: nat, st: seq<Frame>) {
    forall k | 0 <= k < |st| :: root <= st[k].at && !Marked(dead, st[k].at, rule) && st[k].next > 0
  }

  ghost predicate WalkInv(rule: Rule, s: Text, root: nat, dead: Memo, cursor: nat, at: nat, a: nat, st: seq<Frame>) {
    && root <= at && EscAlts(s, at) != []
    && StackOk(st, at)
    && (forall k | 0 <= k < |st| :: EscAlts(s, st[k].at) != [])
    && (a > 0 ==> !Marked(dead, at, rule))
    && FramesLive(rule, dead, root, st)
    && Rest(rule, s, at, a, st) == Walk(rule, s, root, 0)
    && Walk(rule, s, at, 0) == Walk(rule, s, at, a)
    && FramesOwe(rule, s, at, a, st)
    && MemoWalking(s, dead, rule, cursor, at, a, st)
  }

  /** Alternatives that failed change nothing. */
  lemma InvSkip(rule: Rule, s: Text, root: nat, dead: Memo, cursor: nat, at: nat, a: nat, b: nat, st: seq<Frame>)
    requires WalkInv(rule, s, root, dead, cursor, at, a, st)
    requires Walk(rule, s, at, a) == Walk(rule, s, at, b) && !Marked(dead, at, rule)
    ensures WalkInv(rule, s, root, dead, cursor, at, b, st)
  {
    hide EscAlts, Walk, Unwind;
    forall p: nat | Marked(dead, p, rule) && Pending(rule, s, p, at, a, st) ensures Pending(rule, s, p, at, b, st) {
      var k :| 0 <= k <= |st| && Owes(rule, s, p, at, a, st, k);
      assert Owes(rule, s, p, at, b, st, k);
    }
  }

  lemma InvPush(rule: Rule, s: Text, root: nat, dead: Memo, cursor: nat, at: nat, a: nat, st: seq<Frame>)
    requires WalkInv(rule, s, root, dead, cursor, at, a, st) && !Marked(dead, at, rule)
    requires a < |EscAlts(s, at)| && EscAlts(s, EscAlts(s, at)[a]) != []
    ensures WalkInv(rule, s, root, dead, cursor, EscAlts(s, at)[a], 0, st + [Frame(at, a + 1)])
  {
    hide EscAlts, Walk, Rest, Unwind, Pending;
    var e, f := EscAlts(s, at)[a], Frame(at, a + 1);
    var st' := st + [f];
    RestPush(rule, s, at, a, st);
    forall k | 0 <= k < |st'| ensures Walk(rule, s, st'[k].at, 0) == Rest(rule, s, e, 0, st'[k..]) {
      if k < |st| {
        RestPush(rule, s, at, a, st[k..]);
        assert st'[k..] == st[k..] + [f];
      } else {
        RestPush(rule, s, at, a, []);
        assert st'[k..] == [] + [f];
        RestNone(rule, s, at, a);
      }
    }
    forall p: nat | Marked(dead, p, rule) && Pending(rule, s, p, at, a, st) ensures Pending(rule, s, p, e, 0, st') {
      PendingPush(rule, s, p, at, a, st);
    }
  }

  lemma RestNone(rule: Rule, s: Text, at: nat, a: nat)
    ensures Rest(rule, s, at, a, []) == Walk(rule, s, at, a)
  {
    hide Walk;
  }

  /** A node that owes nothing is marked before its only descent is decided. */
  lemma InvDescend(rule: Rule, s: Text, root: nat, dead: Memo, cursor: nat, at: nat, a: nat, st: seq<Frame>)
    requires WalkInv(rule, s, root, dead, cursor, at, a, st)
    requires a < |EscAlts(s, at)| && EscAlts(s, EscAlts(s, at)[a]) != []
    requires Walk(rule, s, at, a + 1) == Miss
    ensures WalkInv(rule, s, root, Mark(dead, at, rule), cursor, EscAlts(s, at)[a], 0, st)
  {
    hide EscAlts, Walk, Rest, Unwind, Pending;
    var e := EscAlts(s, at)[a];
    RestDescend(rule, s, at, a, st);
    forall k | 0 <= k < |st| ensures Walk(rule, s, st[k].at, 0) == Rest(rule, s, e, 0, st[k..]) {
      RestDescend(rule, s, at, a, st[k..]);
    }
    forall p: nat | Marked(Mark(dead, at, rule), p, rule)
      ensures p < cursor || Walk(rule, s, p, 0) == Miss || Pending(rule, s, p, e, 0, st)
    {
      if p == at {
        RestDescend(rule, s, at, a, []);
        RestNone(rule, s, at, a);
        assert st[|st|..] == [];
        assert Owes(rule, s, p, e, 0, st, |st|);
        PendingBy(rule, s, p, e, 0, st, |st|);
      } else if Pending(rule, s, p, at, a, st) {
        PendingDescend(rule, s, p, at, a, st);
      }
    }
  }

  lemma PendingBy(rule: Rule, s: Text, p: nat, at: nat, a: nat, st: seq<Frame>, k: nat)
    requires k <= |st| && Owes(rule, s, p, at, a, st, k)
    ensures Pending(rule, s, p, at, a, st)
  {
  }

  /** Unwinding to the newest frame. */
  lemma InvPop(rule: Rule, s: Text, root: nat, dead: Memo, cursor: nat, at: nat, a: nat, st: seq<Frame>)
    requires WalkInv(rule, s, root, dead, cursor, at, a, st) && st != []
    requires Walk(rule, s, at, a) == Miss
    ensures var top := st[|st| - 1];
            WalkInv(rule, s, root, Mark(dead, at, rule), cursor, top.at, top.next, st[..|st| - 1])
  {
    hide EscAlts, Walk, Rest, Unwind, MemoWalking, FramesOwe;
    var top, st' := st[|st| - 1], st[..|st| - 1];
    RestPop(rule, s, at, a, st);
    FramesPop(rule, s, at, a, st);
    MemoPop(rule, s, dead, cursor, at, a, st);
    assert forall k | 0 <= k < |st'| :: st'[k] == st[k];
  }

  lemma FramesPop(rule: Rule, s: Text, at: nat, a: nat, st: seq<Frame>)
    requires FramesOwe(rule, s, at, a, st) && st != [] && Walk(rule, s, at, a) == Miss
    ensures var top := st[|st| - 1];
            FramesOwe(rule, s, top.at, top.next, st[..|st| - 1]) &&
            Walk(rule, s, top.at, 0) == Walk(rule, s, top.at, top.next)
  {
    hide EscAlts, Walk, Rest, Unwind, OrElse;
    var top, st' := st[|st| - 1], st[..|st| - 1];
    forall k | 0 <= k < |st'| ensures Walk(rule, s, st'[k].at, 0) == Rest(rule, s, top.at, top.next, st'[k..]) {
      FramePop(rule, s, at, a, st, k);
    }
    assert st[|st| - 1..] == [top];
    RestPop(rule, s, at, a, [top]);
    RestNone(rule, s, top.at, top.next);
  }

  lemma FramePop(rule: Rule, s: Text, at: nat, a: nat, st: seq<Frame>, k: nat)
    requires FramesOwe(rule, s, at, a, st) && k < |st| - 1 && Walk(rule, s, at, a) == Miss
    ensures var top, st' := st[|st| - 1], st[..|st| - 1];
            Walk(rule, s, st'[k].at, 0) == Rest(rule, s, top.at, top.next, st'[k..])
  {
    hide EscAlts, Walk, Rest, Unwind, OrElse;
    RestPop(rule, s, at, a, st[k..]);
    assert st[k..][..|st| - k - 1] == st[..|st| - 1][k..];
    assert st[k..][|st| - k - 1] == st[|st| - 1];
  }

  lemma MemoPop(rule: Rule, s: Text, dead: Memo, cursor: nat, at: nat, a: nat, st: seq<Frame>)
    requires MemoWalking(s, dead, rule, cursor, at, a, st) && StackOk(st, at) && st != []
    requires Walk(rule, s, at, 0) == Walk(rule, s, at, a) == Miss
    ensures var top := st[|st| - 1];
            MemoWalking(s, Mark(dead, at, rule), rule, cursor, top.at, top.next, st[..|st| - 1])
  {
    hide EscAlts, Walk, Rest, Unwind, Pending;
    var top := st[|st| - 1];
    forall p: nat | Marked(Mark(dead, at, rule), p, rule)
      ensures p < cursor || Walk(rule, s, p, 0) == Miss || Pending(rule, s, p, top.at, top.next, st[..|st| - 1])
    {
      if p != at && Pending(rule, s, p, at, a, st) { PendingPop(rule, s, p, at, a, st); }
    }
  }

  lemma InvFreshMemo(rule: Rule, s: Text, root: nat, dead: Memo, cursor: nat, at: nat, a: nat, st: seq<Frame>)
    requires WalkInv(rule, s, root, dead, cursor, at, a, st)
    ensures WalkInv(rule, s, root, NoMarks(s), cursor, at, a, st)
  {
    hide Walk, Rest, EscAlts, Pending;
  }

  lemma InvStart(rule: Rule, s: Text, root: nat, dead: Memo, cursor: nat)
    requires EscAlts(s, root) != [] && MemoOk(s, dead, rule, cursor)
    ensures WalkInv(rule, s, root, dead, cursor, root, 0, [])
  {
    hide Walk, EscAlts;
  }

  /** A mark on the node just reached is never an early one. */
  lemma InvMarkedMisses(rule: Rule, s: Text, root: nat, dead: Memo, cursor: nat, at: nat, a: nat, st: seq<Frame>)
    requires WalkInv(rule, s, root, dead, cursor, at, a, st) && cursor <= root
    requires Marked(dead, at, rule)
    ensures Walk(rule, s, at, a) == Miss
  {
    hide Walk, Rest, EscAlts;
  }

  /** On success every early mark lies left of where the rule's cursor moves to. */
  lemma InvHit(rule: Rule, s: Text, root: nat, dead: Memo, cursor: nat, at: nat, a: nat, st: seq<Frame>, end: nat)
    requires WalkInv(rule, s, root, dead, cursor, at, a, st)
    requires cursor <= at < end
    ensures MemoOk(s, dead, rule, end)
  {
    hide Walk, Rest, EscAlts;
  }

  /** With nothing left to unwind every mark is true. */
  lemma InvMiss(rule: Rule, s: Text, root: nat, dead: Memo, cursor: nat, at: nat, a: nat)
    requires WalkInv(rule, s, root, dead, cursor, at, a, [])
    requires Walk(rule, s, at, a) == Miss
    ensures MemoOk(s, Mark(dead, at, rule), rule, cursor)
    ensures Walk(rule, s, root, 0) == Miss
  {
    hide Walk, EscAlts, Pending;
    forall p: nat | Marked(dead, p, rule) && Pending(rule, s, p, at, a, []) ensures Walk(rule, s, p, 0) == Miss {
      PendingMiss(rule, s, p, at, a);
    }
  }

  // ------------------------------------------------------------------------------------------
  // The scanner
  // ------------------------------------------------------------------------------------------

  const ESC_MEMO_AFTER: nat := 512

  /** What one node's alternatives from `a` on come to, without leaving the node. */
  datatype Outcome = Matched(q: nat, end: nat) | Descend(e: nat, a: nat) | Exhausted

  class NumScan {
    const s: Text
    const cls: Class
    const ids: seq<Rule>
    const token: Text
    var next: map<Rule, nat>
    var altAt: int
    var altEnds: seq<nat>
    var dead: Memo
    var steps: nat
    /** What each rule has emitted so far. */
    ghost var log: map<Rule, seq<Match>>

    ghost predicate CacheOk()
      reads this
    {
      && ids == RulesOf(cls) && token == TokenOf(cls)
      && (forall rule: Rule :: rule in next)
      && MemoSized(s, dead)
      && (altAt != -1 ==> 0 <= altAt < |s| && s[altAt] == ESC && altEnds == EscAlts(s, altAt))
    }

    ghost predicate Valid()
      reads this
    {
      && CacheOk()
      && forall rule: Rule :: MemoOk(s, dead, rule, next[rule])
    }

    constructor (s: Text, cls: Class)
      ensures Valid() && this.s == s && this.cls == cls
      ensures forall rule: Rule :: rule in next && next[rule] == 0 && rule in log && log[rule] == []
    {
      this.s, this.cls := s, cls;
      ids := if cls == Timestamps then [Iso, Epoch, Clock] else [HourMinSec, MinSec, Magnitude, InPhrase];
      token := if cls == Timestamps then [0x3C, 0x74, 0x73, 0x3E] else [0x3C, 0x64, 0x3E];
      assert Bytes("<ts>") == [0x3C, 0x74, 0x73, 0x3E] && Bytes("<d>") == [0x3C, 0x64, 0x3E];
      next := map[Iso := 0, Epoch := 0, Clock := 0, HourMinSec := 0, MinSec := 0, Magnitude := 0, InPhrase := 0];
      altAt, altEnds, dead, steps := -1, [], [], 0;
      log := map[Iso := [], Epoch := [], Clock := [], HourMinSec := [], MinSec := [], Magnitude := [], InPhrase := []];
      new;
      forall rule: Rule ensures rule in next && next[rule] == 0 && rule in log && log[rule] == [] {
        match rule case Iso => case Epoch => case Clock => case HourMinSec => case MinSec => case Magnitude => case InPhrase =>
      }
    }

    /** The alternatives of the node at `at`, parsed once per run of questions about one node. */
    method EscAltsAt(at: nat) returns (n: nat)
      requires CacheOk() && at < |s| && s[at] == ESC
      modifies this`altAt, this`altEnds
      ensures CacheOk() && altEnds == EscAlts(s, at) && n == |altEnds|
    {
      if altAt != at {
        altEnds := NumEscAltEnds(s, at);
        altAt := at;
      }
      n := |altEnds|;
    }

    /** Whether an alternative from `from` on could still produce something. */
    method EscPending(rule: Rule, at: nat, from: nat) returns (pending: bool)
      requires altEnds == EscAlts(s, at) && from <= |altEnds|
      ensures !pending ==> Walk(rule, s, at, from) == Miss
      ensures pending ==> exists b | from <= b < |altEnds| ::
                            EscAlts(s, altEnds[b]) != [] || BodyEnd(rule, s, altEnds[b]) >= 0
    {
      hide BodyEnd, EscAlts, Walk;
      var b := from;
      while b < |altEnds|
        invariant from <= b <= |altEnds|
        invariant Walk(rule, s, at, from) == Walk(rule, s, at, b)
      {
        var e := altEnds[b];
        if e < |s| && s[e] == ESC { return true; }
        var end := NumBody(rule, s, e);
        if end >= 0 { return true; }
        WalkHere(rule, s, at, b);
        b := b + 1;
      }
      WalkOut(rule, s, at, b);
      return false;
    }

    /** The inner loop of the walk. */
    method TryAlternatives(rule: Rule, at: nat, from: nat) returns (o: Outcome)
      requires altEnds == EscAlts(s, at)
      ensures o.Matched? ==> Walk(rule, s, at, from) == Hit(o.q, o.end) && at < o.q < o.end
      ensures o.Descend? ==> from <= o.a < |EscAlts(s, at)| && o.e == EscAlts(s, at)[o.a] &&
                             EscAlts(s, o.e) != [] && Walk(rule, s, at, from) == Walk(rule, s, at, o.a)
      ensures o.Exhausted? ==> Walk(rule, s, at, from) == Miss
    {
      hide BodyEnd, EscAlts, Walk;
      var a := from;
      while a < |altEnds|
        invariant from <= a
        invariant Walk(rule, s, at, from) == Walk(rule, s, at, a)
      {
        var e := altEnds[a];
        if e < |s| && s[e] == ESC { return Descend(e, a); }
        var end := NumBody(rule, s, e);
        BodyLead(rule, s, e);
        WalkHere(rule, s, at, a);
        if end >= 0 { return Matched(e, end); }
        a := a + 1;
      }
      WalkOut(rule, s, at, a);
      return Exhausted;
    }

    ghost predicate OthersOk(rule: Rule)
      requires CacheOk()
      reads this
    {
      forall r: Rule | r != rule :: MemoOk(s, dead, r, next[r])
    }

    /** One node: nothing when it is marked, otherwise its alternatives from `a` on. */
    method Expand(rule: Rule, at: nat, a: nat) returns (o: Outcome)
      requires CacheOk() && at < |s| && s[at] == ESC
      requires Marked(dead, at, rule) ==> Walk(rule, s, at, a) == Miss
      modifies this`altAt, this`altEnds
      ensures CacheOk()
      ensures o.Matched? ==> Walk(rule, s, at, a) == Hit(o.q, o.end) && at < o.q < o.end
      ensures o.Descend? ==> a <= o.a < |EscAlts(s, at)| && o.e == EscAlts(s, at)[o.a] && altEnds == EscAlts(s, at) &&
                             EscAlts(s, o.e) != [] && Walk(rule, s, at, a) == Walk(rule, s, at, o.a) &&
                             !Marked(dead, at, rule)
      ensures o.Exhausted? ==> Walk(rule, s, at, a) == Miss
    {
      hide Walk, EscAlts;
      if Marked(dead, at, rule) { return Exhausted; }
      var _ := EscAltsAt(at);
      o := TryAlternatives(rule, at, a);
    }

    /** The memo is allocated, empty, once the input has proved pathological. */
    method CountStep(rule: Rule, ghost root: nat, ghost at: nat, ghost a: nat, ghost stack: seq<Frame>, ghost cursor: nat)
      requires CacheOk() && OthersOk(rule)
      requires WalkInv(rule, s, root, dead, cursor, at, a, stack)
      modifies this`steps, this`dead
      ensures CacheOk() && OthersOk(rule)
      ensures WalkInv(rule, s, root, dead, cursor, at, a, stack)
    {
      hide Walk, EscAlts, WalkInv, MemoOk;
      steps := steps + 1;
      if steps == ESC_MEMO_AFTER {
        InvFreshMemo(rule, s, root, dead, cursor, at, a, stack);
        FreshMemoOk(s);
        dead := NoMarks(s);
      }
    }

    /** Leaves the node at `at` for its `b`-th alternative: with a frame when something is still
        owed to it, and otherwise marked before the descent is decided. */
    method Enter(rule: Rule, root: nat, at: nat, a: nat, b: nat, stack: seq<Frame>, ghost cursor: nat)
      returns (st: seq<Frame>)
      requires CacheOk() && OthersOk(rule) && altEnds == EscAlts(s, at)
      requires WalkInv(rule, s, root, dead, cursor, at, a, stack)
      requires a <= b < |EscAlts(s, at)| && EscAlts(s, EscAlts(s, at)[b]) != []
      requires Walk(rule, s, at, a) == Walk(rule, s, at, b) && !Marked(dead, at, rule)
      modifies this`dead
      ensures CacheOk() && OthersOk(rule)
      ensures WalkInv(rule, s, root, dead, cursor, EscAlts(s, at)[b], 0, st)
      ensures TreeSize(s, EscAlts(s, at)[b], 0) + StackSize(s, st) < TreeSize(s, at, a) + StackSize(s, stack)
    {
      hide Walk, EscAlts, TreeSize, StackSize, WalkInv, MemoOk, Mark, Rest, Unwind;
      InvSkip(rule, s, root, dead, cursor, at, a, b, stack);
      DescentShrinks(s, at, a, b, stack);
      st := stack;
      var pending := EscPending(rule, at, b + 1);
      if pending {
        InvPush(rule, s, root, dead, cursor, at, b, stack);
        st := st + [Frame(at, b + 1)];
      } else {
        InvDescend(rule, s, root, dead, cursor, at, b, stack);
        OtherMarks(s, dead, at, rule);
        dead := Mark(dead, at, rule);
      }
    }

    /** The walk over the escape run at `root`: exactly the plain recursion's answer, whatever the
        memo holds and whenever it was allocated. */
    method EscFind(rule: Rule, root: nat) returns (f: Found)
      requires Valid() && root < |s| && s[root] == ESC && next[rule] <= root
      modifies this`altAt, this`altEnds, this`dead, this`steps
      ensures CacheOk() && OthersOk(rule)
      ensures f == Walk(rule, s, root, 0)
      ensures f.Hit? ==> root < f.q < f.e
      ensures MemoOk(s, dead, rule, if f.Hit? then f.e else next[rule])
    {
      hide Walk, EscAlts, TreeSize, StackSize, WalkInv, MemoOk, Mark, Rest, Unwind;
      ghost var cursor := next[rule];
      var stack: seq<Frame> := [];
      var at: nat, a: nat := root, 0;
      AltsAtEsc(s, root);
      InvStart(rule, s, root, dead, cursor);
      while true
        invariant CacheOk() && OthersOk(rule)
        invariant WalkInv(rule, s, root, dead, cursor, at, a, stack)
        decreases TreeSize(s, at, a) + StackSize(s, stack)
      {
        CountStep(rule, root, at, a, stack, cursor);
        InvAt(rule, s, root, dead, cursor, at, a, stack);
        var o := Expand(rule, at, a);
        match o
        case Matched(q, end) =>
          InvHit(rule, s, root, dead, cursor, at, a, stack, end);
          return Hit(q, end);
        case Descend(e, b) =>
          stack := Enter(rule, root, at, a, b, stack, cursor);
          at, a := e, 0;
        case Exhausted =>
          OtherMarks(s, dead, at, rule);
          if stack == [] {
            InvMiss(rule, s, root, dead, cursor, at, a);
            dead := Mark(dead, at, rule);
            return Miss;
          }
          InvPop(rule, s, root, dead, cursor, at, a, stack);
          PopShrinks(s, at, a, stack);
          dead := Mark(dead, at, rule);
          var top := stack[|stack| - 1];
          stack, at, a := stack[..|stack| - 1], top.at, top.next;
      }
    }

    /** Every match of `rule` that starts before `pos` has been emitted, and nothing else. */
    ghost predicate Progress(rule: Rule, pos: nat)
      reads this
    {
      rule in log && rule in next &&
      log[rule] + FindAll(rule, s, if pos <= next[rule] then next[rule] else pos, cls) == FindAll(rule, s, 0, cls)
    }

    /** Rules before the `k`-th are through with `pos`, the others still have it to look at. */
    ghost predicate Midway(pos: nat, k: nat)
      reads this
    {
      forall j | 0 <= j < |RulesOf(cls)| :: Progress(RulesOf(cls)[j], if j < k then pos + 1 else pos)
    }

    method Emit(dst: seq<Match>, rule: Rule, f: Found) returns (out: seq<Match>)
      requires CacheOk() && OthersOk(rule) && rule in log && rule in RulesOf(cls)
      requires f.Hit? && f.q + Lead(rule) <= f.e && MemoOk(s, dead, rule, f.e)
      modifies this`next, this`log
      ensures Valid() && next == old(next)[rule := f.e]
      ensures log == Grow(old(log), rule, SpanOf(rule, f, cls))
      ensures out == dst + [SpanOf(rule, f, cls)]
      ensures Logged(RulesOf(cls), log) == Logged(RulesOf(cls), old(log)) + multiset{SpanOf(rule, f, cls)}
    {
      hide MemoOk, Walk, Logged, EscAlts, RulesOf, FindAll, Emitted, Distinct;
      RulesDistinct(cls);
      var span := f.q;
      if rule == InPhrase { span := span + 3; }
      next := next[rule := f.e];
      out := dst + [Match(span, f.e - span, token, cls)];
      LoggedGrows(RulesOf(cls), log, rule, SpanOf(rule, f, cls));
      log := Grow(log, rule, SpanOf(rule, f, cls));
    }

    /** One rule at one position, once what it finds there is known. */
    method Settle(dst: seq<Match>, k: nat, pos: nat, f: Found) returns (out: seq<Match>)
      requires k < |RulesOf(cls)| && pos <= |s|
      requires CacheOk() && OthersOk(RulesOf(cls)[k]) && Midway(pos, k)
      requires next[RulesOf(cls)[k]] <= pos && f == MatchAt(RulesOf(cls)[k], s, pos)
      requires MemoOk(s, dead, RulesOf(cls)[k], if f.Hit? then f.e else next[RulesOf(cls)[k]])
      requires multiset(dst) == Logged(RulesOf(cls), log)
      modifies this`next, this`log
      ensures Valid() && Midway(pos, k + 1)
      ensures multiset(out) == Logged(RulesOf(cls), log)
      ensures dst <= out
    {
      hide MatchAt, MemoOk, Logged, RulesOf, FindAll, Walk, EscAlts, Distinct;
      var rule := RulesOf(cls)[k];
      assert Progress(rule, pos);
      RulesDistinct(cls);
      DistinctAt(RulesOf(cls), k);
      FindStep(rule, s, pos, cls);
      out := dst;
      if f.Hit? { out := Emit(dst, rule, f); }
    }

    /** Tries every rule still allowed to start at `pos` on the `\b` branch. */
    method AtWordBoundary(dst: seq<Match>, pos: nat) returns (out: seq<Match>)
      requires Valid() && Midway(pos, 0) && multiset(dst) == Logged(RulesOf(cls), log)
      requires pos < |s| && s[pos] in WORD && !WordAt(s, pos - 1)
      modifies this`next, this`log
      ensures Valid() && Midway(pos, |RulesOf(cls)|) && multiset(out) == Logged(RulesOf(cls), log)
      ensures dst <= out
    {
      hide MatchAt, MemoOk, Logged, Walk, EscAlts, BodyEnd;
      out := dst;
      for k := 0 to |ids|
        invariant Valid() && Midway(pos, k) && multiset(out) == Logged(RulesOf(cls), log)
        invariant dst <= out
      {
        var rule := ids[k];
        assert Progress(rule, pos);
        if next[rule] <= pos {
          var e := NumBody(rule, s, pos);
          MatchAtPlain(rule, s, pos);
          MemoWidens(s, dead, rule, next[rule]);
          out := Settle(out, k, pos, if e >= 0 then Hit(pos, e) else Miss);
        }
      }
    }

    /** Tries every rule still allowed to start at `pos` on the escape branch. */
    method AtEscape(dst: seq<Match>, pos: nat) returns (out: seq<Match>)
      requires Valid() && Midway(pos, 0) && multiset(dst) == Logged(RulesOf(cls), log)
      requires pos < |s| && s[pos] == ESC
      modifies this
      ensures Valid() && Midway(pos, |RulesOf(cls)|) && multiset(out) == Logged(RulesOf(cls), log)
      ensures dst <= out
    {
      hide MatchAt, MemoOk, Logged, Walk, EscAlts;
      out := dst;
      for k := 0 to |ids|
        invariant Valid() && Midway(pos, k) && multiset(out) == Logged(RulesOf(cls), log)
        invariant dst <= out
      {
        var rule := ids[k];
        assert Progress(rule, pos);
        if next[rule] <= pos {
          var f := EscFind(rule, pos);
          MatchAtEscape(rule, s, pos);
          out := Settle(out, k, pos, f);
        }
      }
    }

    /** Every rule is through with everything left of `pos`. */
    ghost predicate UpTo(pos: nat)
      reads this
    {
      forall j | 0 <= j < |RulesOf(cls)| :: Progress(RulesOf(cls)[j], pos)
    }

    /** Positions at which no rule of the class can match are skipped. */
    lemma SkipTo(pos: nat, to: int)
      requires UpTo(pos) && pos <= to <= |s| + 1
      requires forall j, k | 0 <= j < |RulesOf(cls)| && pos <= k < to :: MatchAt(RulesOf(cls)[j], s, k) == Miss
      ensures UpTo(to)
    {
      hide MatchAt, FindAll;
      forall j | 0 <= j < |RulesOf(cls)| ensures Progress(RulesOf(cls)[j], to) {
        var rule := RulesOf(cls)[j];
        assert Progress(rule, pos);
        var from := if pos <= next[rule] then next[rule] else pos;
        if from < to { FindAllSkip(rule, s, from, to, cls); }
      }
    }
  }

  lemma MidwayEnds(sc: NumScan, pos: nat)
    requires sc.Midway(pos, |RulesOf(sc.cls)|)
    ensures sc.UpTo(pos + 1)
  {
    forall j | 0 <= j < |RulesOf(sc.cls)| ensures sc.Progress(RulesOf(sc.cls)[j], pos + 1) {
    }
  }

  lemma MidwayStarts(sc: NumScan, pos: nat)
    requires sc.UpTo(pos)
    ensures sc.Midway(pos, 0)
  {
    forall j | 0 <= j < |RulesOf(sc.cls)| ensures sc.Progress(RulesOf(sc.cls)[j], pos) {
    }
  }

  /** No rule of the class starts at a byte that is neither a digit, an ESC nor its 'i'. */
  lemma NothingAt(cls: Class, s: Text, k: nat)
    requires k < |s| && s[k] !in DIGIT && s[k] != ESC
    requires s[k] == 'i' as int ==> cls == Timestamps || WordAt(s, k - 1)
    ensures forall j | 0 <= j < |RulesOf(cls)| :: MatchAt(RulesOf(cls)[j], s, k) == Miss
  {
    hide MatchAt, BodyEnd;
    forall j | 0 <= j < |RulesOf(cls)| ensures MatchAt(RulesOf(cls)[j], s, k) == Miss {
      MatchAtPlain(RulesOf(cls)[j], s, k);
      BodyLead(RulesOf(cls)[j], s, k);
    }
  }

  /** Nor inside a word. */
  lemma NothingInside(cls: Class, s: Text, k: nat)
    requires 0 < k < |s| && s[k - 1] in WORD && s[k] in WORD
    ensures forall j | 0 <= j < |RulesOf(cls)| :: MatchAt(RulesOf(cls)[j], s, k) == Miss
  {
    hide MatchAt, BodyEnd;
    forall j | 0 <= j < |RulesOf(cls)| ensures MatchAt(RulesOf(cls)[j], s, k) == Miss {
      MatchAtPlain(RulesOf(cls)[j], s, k);
    }
  }

  lemma DigitRunInside(cls: Class, s: Text, pos: nat)
    requires pos < |s| && s[pos] in DIGIT
    ensures Run(DIGIT, s, pos) > 0
    ensures forall j, k | 0 <= j < |RulesOf(cls)| && pos + 1 <= k < pos + Run(DIGIT, s, pos) ::
              MatchAt(RulesOf(cls)[j], s, k) == Miss
  {
    hide MatchAt;
    RunMaximal(DIGIT, s, pos);
    WordSubsets();
    forall j, k | 0 <= j < |RulesOf(cls)| && pos + 1 <= k < pos + Run(DIGIT, s, pos)
      ensures MatchAt(RulesOf(cls)[j], s, k) == Miss
    {
      assert s[k - 1] in DIGIT && s[k] in DIGIT;
      NothingInside(cls, s, k);
    }
  }

  lemma {:induction false} LoggedReported(rules: seq<Rule>, s: Text, cls: Class, log: map<Rule, seq<Match>>)
    requires forall j | 0 <= j < |rules| :: rules[j] in log && log[rules[j]] == FindAll(rules[j], s, 0, cls)
    ensures Logged(rules, log) == Reported(rules, s, cls)
  {
    hide FindAll;
    if rules != [] {
      assert rules[0] in log;
      LoggedReported(rules[1..], s, cls, log);
    }
  }

  lemma ScanDone(sc: NumScan)
    requires sc.UpTo(|sc.s|)
    ensures Logged(RulesOf(sc.cls), sc.log) == Reported(RulesOf(sc.cls), sc.s, sc.cls)
  {
    hide MatchAt, FindAll, Logged, Reported;
    forall j | 0 <= j < |RulesOf(sc.cls)|
      ensures RulesOf(sc.cls)[j] in sc.log && sc.log[RulesOf(sc.cls)[j]] == FindAll(RulesOf(sc.cls)[j], sc.s, 0, sc.cls)
    {
      var rule := RulesOf(sc.cls)[j];
      assert sc.Progress(rule, |sc.s|);
      NothingPastEnd(rule, sc.s, if |sc.s| <= sc.next[rule] then sc.next[rule] else |sc.s|, sc.cls);
    }
    LoggedReported(RulesOf(sc.cls), sc.s, sc.cls, sc.log);
  }

  lemma NothingPastEnd(rule: Rule, s: Text, pos: nat, cls: Class)
    requires |s| <= pos
    ensures FindAll(rule, s, pos, cls) == []
  {
    hide MatchAt;
    if pos == |s| {
      MatchAtPlain(rule, s, pos);
      FindAllMiss(rule, s, pos, cls);
    }
  }

  /** The whole pass: `dst` grows by exactly the spans the class's patterns report, as a multiset. */
  method NumericMatches(dst: seq<Match>, s: Text, cls: Class) returns (out: seq<Match>)
    ensures dst <= out
    ensures cls == Timestamps ==>
              multiset(out[|dst|..]) == multiset(FindAll(Iso, s, 0, cls)) + multiset(FindAll(Epoch, s, 0, cls)) + multiset(FindAll(Clock, s, 0, cls))
    ensures cls != Timestamps ==>
              multiset(out[|dst|..]) == multiset(FindAll(HourMinSec, s, 0, cls)) + multiset(FindAll(MinSec, s, 0, cls)) +
                                        multiset(FindAll(Magnitude, s, 0, cls)) + multiset(FindAll(InPhrase, s, 0, cls))
  {
    hide MatchAt, FindAll, Logged, Reported, MemoOk, Walk, EscAlts, RulesOf;
    var sc := new NumScan(s, cls);
    var found: seq<Match> := [];
    ScanStarts(sc);
    var i: nat := 0;
    while i < |s|
      invariant sc.s == s && sc.cls == cls && sc.Valid() && fresh(sc)
      invariant i <= |s| && sc.UpTo(i)
      invariant multiset(found) == Logged(RulesOf(cls), sc.log)
    {
      found, i := ScanAt(sc, found, i);
    }
    ScanDone(sc);
    ReportedByRule(s, cls);
    out := dst + found;
    assert out[|dst|..] == found;
  }

  lemma ReportedByRule(s: Text, cls: Class)
    ensures cls == Timestamps ==>
              Reported(RulesOf(cls), s, cls) == multiset(FindAll(Iso, s, 0, cls)) + multiset(FindAll(Epoch, s, 0, cls)) + multiset(FindAll(Clock, s, 0, cls))
    ensures cls != Timestamps ==>
              Reported(RulesOf(cls), s, cls) == multiset(FindAll(HourMinSec, s, 0, cls)) + multiset(FindAll(MinSec, s, 0, cls)) +
                                                multiset(FindAll(Magnitude, s, 0, cls)) + multiset(FindAll(InPhrase, s, 0, cls))
  {
    hide FindAll, Reported;
    var r0: seq<Rule>, r1: seq<Rule>, r2: seq<Rule>, r3: seq<Rule> := RulesOf(cls), RulesOf(cls)[1..], RulesOf(cls)[2..], RulesOf(cls)[3..];
    assert r0[1..] == r1 && r1[1..] == r2 && r2[1..] == r3;
    ReportedStep(r0, s, cls);
    ReportedStep(r1, s, cls);
    ReportedStep(r2, s, cls);
    ReportedStep(r3, s, cls);
    ReportedStep(r3[|r3|..], s, cls);
    assert r3 != [] ==> r3[1..] == r3[|r3|..];
  }

  lemma ReportedStep(rules: seq<Rule>, s: Text, cls: Class)
    ensures Reported(rules, s, cls) == if rules == [] then multiset{} else multiset(FindAll(rules[0], s, 0, cls)) + Reported(rules[1..], s, cls)
  {
    hide FindAll;
  }

  /** Where the documented pattern of a rule ends if it is tried at `k`, or -1. */
  ghost function PatternEnd(rule: Rule, s: Text, k: nat): int
    requires k <= |s|
  {
    First(Ends(Cat(WordEdge(), Body(rule)), s, k))
  }

  /** `m` is the leftmost match from `pos` on: it begins at `k`, and what the edge consumed up to `q` is left
      alone, and so is the phrase's "in "; the rest becomes the class's token. */
  ghost predicate NextMatch(rule: Rule, s: Text, pos: int, cls: Class, m: Match, k: nat, q: nat) {
    && pos <= k <= |s| && (forall j: nat | pos <= j < k :: PatternEnd(rule, s, j) < 0) && PatternEnd(rule, s, k) >= 0
    && q <= |s| && IsEdge(rule, s, k, q)
    && m.offset == (if rule == InPhrase then q + 3 else q) && m.offset + m.len == PatternEnd(rule, s, k)
    && m.cls == cls && m.token == (if cls == Timestamps then Bytes("<ts>") else Bytes("<d>"))
  }

  /** Where a match begins, and where its body does. */
  datatype Site = Site(at: nat, body: nat)

  /** Where the search goes on after the matches at `sites`. */
  ghost function SearchFrom(rule: Rule, s: Text, pos: int, sites: seq<Site>): int {
    if sites == [] then pos
    else
      var last := sites[|sites| - 1].at;
      if last <= |s| then PatternEnd(rule, s, last) else -1
  }

  /** `ms` are the matches of the pattern from `pos` on, each the leftmost after the one before, and there is
      none after the last. */
  ghost predicate Leftmost(rule: Rule, s: Text, pos: int, cls: Class, ms: seq<Match>, sites: seq<Site>) {
    && |sites| == |ms|
    && (forall i | 0 <= i < |ms| :: NextMatch(rule, s, SearchFrom(rule, s, pos, sites[..i]), cls, ms[i], sites[i].at, sites[i].body))
    && (forall k: nat | SearchFrom(rule, s, pos, sites) <= k <= |s| :: PatternEnd(rule, s, k) < 0)
  }

  /** `q` is the first of the edge's readings at `k` after which the body matches, and it ends the match. */
  ghost predicate IsEdge(rule: Rule, s: Text, k: nat, q: nat)
    requires k <= |s| && q <= |s|
  {
    var qs := Ends(WordEdge(), s, k);
    exists j | 0 <= j < |qs| :: qs[j] == q && First(Ends(Body(rule), s, q)) == PatternEnd(rule, s, k) >= 0 &&
      forall i | 0 <= i < j :: First(Ends(Body(rule), s, qs[i])) < 0
  }

  lemma {:induction false} FirstHitIsEdge(rule: Rule, s: Text, qs: seq<nat>)
    requires Within(qs, 0, |s|) && FirstHit(rule, s, qs).Hit?
    ensures var f := FirstHit(rule, s, qs);
            f.q <= |s| && exists j | 0 <= j < |qs| :: qs[j] == f.q && BodyEnd(rule, s, f.q) == f.e && forall i | 0 <= i < j :: BodyEnd(rule, s, qs[i]) < 0
  {
    hide BodyEnd;
    if BodyEnd(rule, s, qs[0]) < 0 {
      FirstHitIsEdge(rule, s, qs[1..]);
      var f := FirstHit(rule, s, qs);
      var j :| 0 <= j < |qs| - 1 && qs[1..][j] == f.q && BodyEnd(rule, s, f.q) == f.e && forall i | 0 <= i < j :: BodyEnd(rule, s, qs[1..][i]) < 0;
      assert qs[j + 1] == f.q;
      assert forall i | 0 <= i < j + 1 :: i > 0 ==> qs[i] == qs[1..][i - 1];
    } else {
      assert qs[0] == FirstHit(rule, s, qs).q;
    }
  }

  /** What is reported of a rule is its non-overlapping leftmost matches. */
  lemma {:induction false} FindAllIsLeftmost(rule: Rule, s: Text, pos: nat, cls: Class) returns (sites: seq<Site>)
    ensures Leftmost(rule, s, pos, cls, FindAll(rule, s, pos, cls), sites)
    decreases |s| + 1 - pos
  {
    hide Ends, EndsAll, WordEdge, Body, FirstHit, NextMatch, PatternEnd, SearchFrom, Leftmost;
    if pos > |s| {
      sites := [];
      NoneBeyond(rule, s, pos, cls);
    } else {
      MatchAtIsPattern(rule, s, pos);
      assert PatternEnd(rule, s, pos) == if MatchAt(rule, s, pos).Hit? then MatchAt(rule, s, pos).e else -1 by { PatternIs(rule, s, pos); }
      var f := MatchAt(rule, s, pos);
      if f.Hit? {
        var rest := FindAllIsLeftmost(rule, s, f.e, cls);
        HitIsNext(rule, s, pos, cls);
        sites := [Site(pos, f.q)] + rest;
        LeftmostCons(rule, s, pos, cls, SpanOf(rule, f, cls), Site(pos, f.q), FindAll(rule, s, f.e, cls), rest);
      } else {
        sites := FindAllIsLeftmost(rule, s, pos + 1, cls);
        LeftmostEarlier(rule, s, pos, cls, FindAll(rule, s, pos + 1, cls), sites);
      }
    }
  }

  lemma NoneBeyond(rule: Rule, s: Text, pos: nat, cls: Class)
    requires pos > |s|
    ensures Leftmost(rule, s, pos, cls, [], [])
  {
  }

  lemma SearchOn(rule: Rule, s: Text, pos: int, site: Site, sites: seq<Site>)
    requires site.at <= |s|
    ensures SearchFrom(rule, s, pos, [site] + sites) == SearchFrom(rule, s, PatternEnd(rule, s, site.at), sites)
  {
    hide PatternEnd;
    assert ([site] + sites)[|sites|] == if sites == [] then site else sites[|sites| - 1];
  }

  lemma LeftmostCons(rule: Rule, s: Text, pos: nat, cls: Class, m: Match, site: Site, ms: seq<Match>, sites: seq<Site>)
    requires site.at <= |s| && NextMatch(rule, s, pos, cls, m, site.at, site.body) && Leftmost(rule, s, PatternEnd(rule, s, site.at), cls, ms, sites)
    ensures Leftmost(rule, s, pos, cls, [m] + ms, [site] + sites)
  {
    hide PatternEnd, NextMatch;
    var all, ns := [site] + sites, [m] + ms;
    SearchOn(rule, s, pos, site, sites);
    forall i | 0 <= i < |ns| ensures NextMatch(rule, s, SearchFrom(rule, s, pos, all[..i]), cls, ns[i], all[i].at, all[i].body) {
      if i > 0 {
        SearchOn(rule, s, pos, site, sites[..i - 1]);
        assert all[..i] == [site] + sites[..i - 1];
      }
    }
  }

  lemma PatternIs(rule: Rule, s: Text, pos: nat)
    requires pos <= |s|
    ensures PatternEnd(rule, s, pos) == First(Ends(Cat(WordEdge(), Body(rule)), s, pos))
  {
    hide Ends, WordEdge, Body;
  }

  lemma HitIsNext(rule: Rule, s: Text, pos: nat, cls: Class)
    requires pos <= |s| && MatchAt(rule, s, pos).Hit?
    ensures var f := MatchAt(rule, s, pos); NextMatch(rule, s, pos, cls, SpanOf(rule, f, cls), pos, f.q)
  {
    hide Ends, EndsAll, WordEdge, Body, FirstHit;
    MatchAtIsPattern(rule, s, pos);
    FirstHitIsEdge(rule, s, Ends(WordEdge(), s, pos));
  }

  lemma LeftmostEarlier(rule: Rule, s: Text, pos: nat, cls: Class, ms: seq<Match>, sites: seq<Site>)
    requires pos <= |s| && PatternEnd(rule, s, pos) < 0 && Leftmost(rule, s, pos + 1, cls, ms, sites)
    ensures Leftmost(rule, s, pos, cls, ms, sites)
  {
    hide PatternEnd, NextMatch;
    forall i | 0 <= i < |ms| ensures NextMatch(rule, s, SearchFrom(rule, s, pos, sites[..i]), cls, ms[i], sites[i].at, sites[i].body) {
      assert NextMatch(rule, s, SearchFrom(rule, s, pos + 1, sites[..i]), cls, ms[i], sites[i].at, sites[i].body);
      if i == 0 { NextEarlier(rule, s, pos, cls, ms[0], sites[0].at, sites[0].body); }
    }
  }

  lemma NextEarlier(rule: Rule, s: Text, pos: nat, cls: Class, m: Match, k: nat, q: nat)
    requires pos <= |s| && PatternEnd(rule, s, pos) < 0 && NextMatch(rule, s, pos + 1, cls, m, k, q)
    ensures NextMatch(rule, s, pos, cls, m, k, q)
  {
    hide PatternEnd, IsEdge;
  }

  lemma ScanStarts(sc: NumScan)
    requires forall rule: Rule :: rule in sc.next && sc.next[rule] == 0 && rule in sc.log && sc.log[rule] == []
    ensures sc.UpTo(0)
    ensures Logged(RulesOf(sc.cls), sc.log) == multiset{}
  {
    hide FindAll;
    LoggedNone(RulesOf(sc.cls), sc.log);
  }

  lemma {:induction false} LoggedNone(rules: seq<Rule>, log: map<Rule, seq<Match>>)
    requires forall rule: Rule :: rule in log && log[rule] == []
    ensures Logged(rules, log) == multiset{}
  {
    if rules != [] { LoggedNone(rules[1..], log); }
  }

  /** One turn of the pass: a byte that can start nothing, an ESC, or a digit run or phrase. */
  method ScanAt(sc: NumScan, dst: seq<Match>, i: nat) returns (out: seq<Match>, next: nat)
    requires sc.Valid() && i < |sc.s| && sc.UpTo(i)
    requires multiset(dst) == Logged(RulesOf(sc.cls), sc.log)
    modifies sc
    ensures sc.Valid() && i < next <= |sc.s| && sc.UpTo(next)
    ensures multiset(out) == Logged(RulesOf(sc.cls), sc.log)
    ensures dst <= out
  {
    hide MatchAt, FindAll, Logged, MemoOk, Walk, EscAlts;
    var s, c := sc.s, sc.s[i];
    out, next := dst, i + 1;
    if c > '9' as int {
      if c != 'i' as int || sc.cls == Timestamps {
        NothingAt(sc.cls, s, i);
        sc.SkipTo(i, i + 1);
        return;
      }
    } else if c < '0' as int {
      if c != ESC {
        NothingAt(sc.cls, s, i);
        sc.SkipTo(i, i + 1);
        return;
      }
      MidwayStarts(sc, i);
      out := sc.AtEscape(dst, i);
      MidwayEnds(sc, i);
      return;
    }
    if i > 0 { WordBytes(s[i - 1]); }
    if i == 0 || !NumIsWordByte(s[i - 1]) {
      MidwayStarts(sc, i);
      out := sc.AtWordBoundary(dst, i);
      MidwayEnds(sc, i);
    } else {
      NothingInside(sc.cls, s, i);
      sc.SkipTo(i, i + 1);
    }
    if c <= '9' as int {
      var n := NumDigitRun(s, i);
      DigitRunInside(sc.cls, s, i);
      sc.SkipTo(i + 1, i + n);
      next := i + n;
    }
  }

  lemma MemoWidens(s: Text, dead: Memo, rule: Rule, cursor: nat)
    requires MemoOk(s, dead, rule, cursor)
    ensures forall c: nat | cursor <= c :: MemoOk(s, dead, rule, c)
  {
    hide Walk;
  }

  function Emitted(log: map<Rule, seq<Match>>, rule: Rule): multiset<Match> {
    if rule in log then multiset(log[rule]) else multiset{}
  }

  function Logged(rules: seq<Rule>, log: map<Rule, seq<Match>>): multiset<Match> {
    if rules == [] then multiset{} else Emitted(log, rules[0]) + Logged(rules[1..], log)
  }

  predicate Distinct(rules: seq<Rule>) { forall i, j | 0 <= i < j < |rules| :: rules[i] != rules[j] }

  lemma RulesDistinct(cls: Class)
    ensures Distinct(RulesOf(cls))
  {
  }

  lemma DistinctAt(rules: seq<Rule>, k: nat)
    requires Distinct(rules) && k < |rules|
    ensures forall j | 0 <= j < |rules| && j != k :: rules[j] != rules[k]
  {
  }

  function Grow(log: map<Rule, seq<Match>>, rule: Rule, m: Match): map<Rule, seq<Match>>
    requires rule in log
  {
    log[rule := log[rule] + [m]]
  }

  lemma EmittedGrows(log: map<Rule, seq<Match>>, rule: Rule, m: Match)
    requires rule in log
    ensures Emitted(Grow(log, rule, m), rule) == Emitted(log, rule) + multiset{m}
    ensures forall r | r != rule :: Emitted(Grow(log, rule, m), r) == Emitted(log, r)
  {
  }

  lemma {:induction false} LoggedOther(rules: seq<Rule>, log: map<Rule, seq<Match>>, rule: Rule, m: Match)
    requires rule in log && rule !in rules
    ensures Logged(rules, Grow(log, rule, m)) == Logged(rules, log)
  {
    hide Emitted, Grow;
    if rules != [] {
      EmittedGrows(log, rule, m);
      LoggedOther(rules[1..], log, rule, m);
    }
  }

  lemma {:induction false} LoggedGrows(rules: seq<Rule>, log: map<Rule, seq<Match>>, rule: Rule, m: Match)
    requires Distinct(rules) && rule in log && rule in rules
    ensures Logged(rules, Grow(log, rule, m)) == Logged(rules, log) + multiset{m}
  {
    hide Emitted, Grow;
    EmittedGrows(log, rule, m);
    if rules[0] == rule {
      LoggedOther(rules[1..], log, rule, m);
    } else {
      LoggedGrows(rules[1..], log, rule, m);
    }
  }

  lemma AltsAtEsc(s: Text, i: nat)
    requires i < |s| && s[i] == ESC
    ensures EscAlts(s, i) != []
  {
  }

  lemma FreshMemoOk(s: Text)
    ensures forall rule: Rule, cursor: nat :: MemoOk(s, NoMarks(s), rule, cursor)
  {
  }

  lemma InvAt(rule: Rule, s: Text, root: nat, dead: Memo, cursor: nat, at: nat, a: nat, st: seq<Frame>)
    requires WalkInv(rule, s, root, dead, cursor, at, a, st) && cursor <= root
    ensures root <= at < |s| && s[at] == ESC
    ensures Walk(rule, s, at, a).Hit? ==> Walk(rule, s, at, a) == Walk(rule, s, root, 0)
    ensures Marked(dead, at, rule) ==> Walk(rule, s, at, a) == Miss
  {
    if Marked(dead, at, rule) { InvMarkedMisses(rule, s, root, dead, cursor, at, a, st); }
    hide Walk;
  }

  lemma PopShrinks(s: Text, at: nat, a: nat, st: seq<Frame>)
    requires st != []
    ensures var top := st[|st| - 1];
            TreeSize(s, top.at, top.next) + StackSize(s, st[..|st| - 1]) < TreeSize(s, at, a) + StackSize(s, st)
  {
  }

  lemma OtherMarks(s: Text, dead: Memo, at: nat, rule: Rule)
    ensures forall r: Rule, cursor: nat | r != rule && MemoOk(s, dead, r, cursor) ::
              MemoOk(s, Mark(dead, at, rule), r, cursor)
  {
    hide Walk;
  }

  lemma {:induction false} TreeShrinks(s: Text, at: nat, a: nat, b: nat)
    requires a <= b
    ensures TreeSize(s, at, b) <= TreeSize(s, at, a)
    decreases b - a
  {
    hide EscAlts;
    if a < b { TreeShrinks(s, at, a + 1, b); }
  }

  lemma DescentShrinks(s: Text, at: nat, a: nat, b: nat, st: seq<Frame>)
    requires a <= b < |EscAlts(s, at)| && EscAlts(s, EscAlts(s, at)[b]) != []
    ensures TreeSize(s, EscAlts(s, at)[b], 0) + StackSize(s, st + [Frame(at, b + 1)]) < TreeSize(s, at, a) + StackSize(s, st)
    ensures TreeSize(s, EscAlts(s, at)[b], 0) + StackSize(s, st) < TreeSize(s, at, a) + StackSize(s, st)
  {
    hide EscAlts;
    TreeShrinks(s, at, a, b);
    var st' := st + [Frame(at, b + 1)];
    assert st'[..|st'| - 1] == st;
  }
}
