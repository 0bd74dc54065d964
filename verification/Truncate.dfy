/** Cutting a checkpoint to a token budget: a fixed order of stages, each cutting as little as it can
    from the tail, the next only once the one before has nothing left. */
module Truncate {

  datatype Decision = Decision(id: string, text: string, alternatives: seq<string>)

  /** `tier1` is what is never cut; `rest` is what no stage looks at. */
  datatype Doc = Doc(tier1: string, rest: string, narrative: string, tools: seq<string>, files: seq<string>,
                     questions: seq<string>, decisions: seq<Decision>, nextStep: string)

  datatype Drop =
    | NarrativeDrop | ToolDrop(id: string) | FileDrop(path: string) | QuestionDrop(index: nat, text: string)
    | AlternativesDrop(id: string) | DecisionDrop(id: string) | NextStepDrop
    | BudgetExceeded(size: int, budget: int)

  datatype Field = FNarrative | FPointers | FQuestions | FDecisions | FWork | FOther

  datatype Stage = Narrative | Tools | Files | Questions | Alternatives | Decisions | NextStep

  const CUT_ORDER: seq<Stage> := [Narrative, Tools, Files, Questions, Alternatives, Decisions, NextStep]

  function FieldOf(g: Stage): Field {
    match g
    case Narrative => FNarrative
    case Tools => FPointers
    case Files => FPointers
    case Questions => FQuestions
    case Alternatives => FDecisions
    case Decisions => FDecisions
    case NextStep => FWork
  }

  datatype Tiers = Tiers(first: seq<Field>, late: seq<Field>, never: seq<Field>)

  // ------------------------------------------------------------------------------------------
  // One cut
  // ------------------------------------------------------------------------------------------

  predicate HasAlternatives(ds: seq<Decision>) { exists i | 0 <= i < |ds| :: ds[i].alternatives != [] }

  /** What is left for a stage to cut. */
  function Units(g: Stage, c: Doc): nat {
    match g
    case Narrative => if c.narrative == "" then 0 else 1
    case Tools => |c.tools|
    case Files => |c.files|
    case Questions => |c.questions|
    case Alternatives => if HasAlternatives(c.decisions) then 1 else 0
    case Decisions => |c.decisions|
    case NextStep => if c.nextStep == "" then 0 else 1
  }

  function Emptied(ds: seq<Decision>): (r: seq<Decision>)
    ensures |r| == |ds| && forall i | 0 <= i < |ds| :: r[i] == ds[i].(alternatives := [])
  {
    if ds == [] then [] else [ds[0].(alternatives := [])] + Emptied(ds[1..])
  }

  /** The document with `k` of the stage's units cut, from the tail. */
  function Cut(g: Stage, c: Doc, k: nat): Doc
    requires k <= Units(g, c)
  {
    match g
    case Narrative => if k == 0 then c else c.(narrative := "")
    case Tools => c.(tools := c.tools[..|c.tools| - k])
    case Files => c.(files := c.files[..|c.files| - k])
    case Questions => c.(questions := c.questions[..|c.questions| - k])
    case Alternatives => if k == 0 then c else c.(decisions := Emptied(c.decisions))
    case Decisions => c.(decisions := c.decisions[..|c.decisions| - k])
    case NextStep => if k == 0 then c else c.(nextStep := "")
  }

  /** One entry per element after the first `keep`, the last first. */
  function TailDrops<T>(xs: seq<T>, keep: nat, entry: (nat, T) -> Drop): seq<Drop>
    requires keep <= |xs|
    decreases |xs|
  {
    if keep == |xs| then [] else [entry(|xs| - 1, xs[|xs| - 1])] + TailDrops(xs[..|xs| - 1], keep, entry)
  }

  function ToolEntry(i: nat, id: string): Drop { ToolDrop(id) }
  function FileEntry(i: nat, path: string): Drop { FileDrop(path) }
  function QuestionEntry(i: nat, text: string): Drop { QuestionDrop(i, text) }
  function DecisionEntry(i: nat, d: Decision): Drop { DecisionDrop(d.id) }

  /** One for each decision that had alternatives, in document order. */
  function AlternativesDrops(xs: seq<Decision>): seq<Drop> {
    if xs == [] then []
    else AlternativesDrops(xs[..|xs| - 1]) + if xs[|xs| - 1].alternatives == [] then [] else [AlternativesDrop(xs[|xs| - 1].id)]
  }

  /** One entry per element cut, the last element first. */
  function Report(g: Stage, c: Doc, k: nat): seq<Drop>
    requires k <= Units(g, c)
  {
    match g
    case Narrative => if k == 0 then [] else [NarrativeDrop]
    case Tools => TailDrops(c.tools, |c.tools| - k, ToolEntry)
    case Files => TailDrops(c.files, |c.files| - k, FileEntry)
    case Questions => TailDrops(c.questions, |c.questions| - k, QuestionEntry)
    case Alternatives => if k == 0 then [] else AlternativesDrops(c.decisions)
    case Decisions => TailDrops(c.decisions, |c.decisions| - k, DecisionEntry)
    case NextStep => if k == 0 then [] else [NextStepDrop]
  }

  // ------------------------------------------------------------------------------------------
  // The smallest cut
  // ------------------------------------------------------------------------------------------

  /** Cutting more never stops fitting. */
  predicate UpClosed(fits: nat -> bool, n: nat) { forall i, j | 1 <= i <= j <= n && fits(i) :: fits(j) }

  /** The smallest of 1..n that fits; n if none does. */
  function Least(fits: nat -> bool, k: nat, n: nat): (r: nat)
    requires k <= n
    ensures k <= r <= n && (forall j | k <= j < r :: !fits(j)) && (r < n ==> fits(r))
    decreases n - k
  {
    if k == n || fits(k) then k else Least(fits, k + 1, n)
  }

  /** Doubling probe, then binary search.  Whatever the sizes, the cut fits if any probe did; if fitting
      is monotone it is the smallest. */
  method TailCut(n: nat, fits: nat -> bool) returns (k: nat, ok: bool)
    requires n > 0
    ensures 1 <= k <= n && ok == fits(k) && (!ok ==> k == n)
    ensures UpClosed(fits, n) ==> k == Least(fits, 1, n)
  {
    var insufficient, probe := 0, 1;
    while true
      invariant 0 <= insufficient < n && insufficient < probe
      invariant UpClosed(fits, n) ==> forall j | 1 <= j <= insufficient :: !fits(j)
      decreases n - insufficient
    {
      k := probe;
      if k > n { k := n; }
      if fits(k) {
        var lo, hi := insufficient + 1, k;
        while lo < hi
          invariant insufficient < lo <= hi <= k && fits(hi)
          invariant UpClosed(fits, n) ==> forall j | 1 <= j < lo :: !fits(j)
        {
          var mid := lo + (hi - lo) / 2;
          if fits(mid) { hi := mid; } else { lo := mid + 1; }
        }
        return lo, true;
      }
      if k == n { return n, false; }
      insufficient := k;
      probe := probe * 2;
    }
  }

  // ------------------------------------------------------------------------------------------
  // A walk over the stages
  // ------------------------------------------------------------------------------------------

  datatype Taken = Taken(stage: Stage, k: nat)

  predicate Playable(c: Doc, steps: seq<Taken>)
    decreases |steps|
  {
    steps == [] || (steps[0].k <= Units(steps[0].stage, c) && Playable(Cut(steps[0].stage, c, steps[0].k), steps[1..]))
  }

  function Play(c: Doc, steps: seq<Taken>): Doc
    requires Playable(c, steps)
    decreases |steps|
  {
    if steps == [] then c else Play(Cut(steps[0].stage, c, steps[0].k), steps[1..])
  }

  function Reports(c: Doc, steps: seq<Taken>): seq<Drop>
    requires Playable(c, steps)
    decreases |steps|
  {
    if steps == [] then []
    else Report(steps[0].stage, c, steps[0].k) + Reports(Cut(steps[0].stage, c, steps[0].k), steps[1..])
  }

  /** How one document is measured against a budget. */
  datatype Scale = Scale(size: Doc -> int, budget: int) {
    predicate Fits(c: Doc) { size(c) <= budget }

    /** The document after `k` units are cut, or all of them. */
    function FitsCut(g: Stage, c: Doc): nat -> bool {
      (k: nat) => Fits(Cut(g, c, if k <= Units(g, c) then k else Units(g, c)))
    }
  }

  /** No cut ever grows the document. */
  ghost predicate Shrinking(size: Doc -> int) {
    forall g, c, i: nat, j: nat | i <= j <= Units(g, c) :: size(Cut(g, c, j)) <= size(Cut(g, c, i))
  }

  /** The walk goes through `order`; a stage with nothing left is passed over, any other cuts at least
      one unit; the walk stops when the document fits, and leaves a stage only exhausted. */
  predicate Walked(m: Scale, order: seq<Stage>, c: Doc, steps: seq<Taken>)
    decreases |order|
  {
    if order == [] then steps == []
    else if Units(order[0], c) == 0 then Walked(m, order[1..], c, steps)
    else
      && steps != [] && steps[0].stage == order[0] && 1 <= steps[0].k <= Units(order[0], c)
      && var c' := Cut(order[0], c, steps[0].k);
         if m.Fits(c') then |steps| == 1 else steps[0].k == Units(order[0], c) && Walked(m, order[1..], c', steps[1..])
  }

  /** The reference: each stage tries one more unit at a time. */
  function Reference(m: Scale, order: seq<Stage>, c: Doc): seq<Taken>
    decreases |order|
  {
    if order == [] then []
    else if Units(order[0], c) == 0 then Reference(m, order[1..], c)
    else
      var k := Least(m.FitsCut(order[0], c), 1, Units(order[0], c));
      var c' := Cut(order[0], c, k);
      [Taken(order[0], k)] + if m.Fits(c') then [] else Reference(m, order[1..], c')
  }

  /** The stages a pass over one tier runs. */
  function Members(tier: seq<Field>, never: seq<Field>, i: nat): seq<Stage>
    requires i <= |CUT_ORDER|
    decreases |CUT_ORDER| - i
  {
    if i == |CUT_ORDER| then []
    else (if FieldOf(CUT_ORDER[i]) in tier && FieldOf(CUT_ORDER[i]) !in never then [CUT_ORDER[i]] else []) + Members(tier, never, i + 1)
  }

  function Order(t: Tiers): seq<Stage> { Members(t.first, t.never, 0) + Members(t.late, t.never, 0) }

  class Truncation {
    var c: Doc
    var drops: seq<Drop>
    var done: bool
    const m: Scale

    constructor (c: Doc, m: Scale)
      ensures this.c == c && this.m == m && drops == [] && !done
    {
      this.c, this.m, drops, done := c, m, [], false;
    }

    /** The outcome of one stage: nothing to cut, or `k` units cut and reported. */
    ghost predicate Ran(g: Stage, was: Doc, reported: seq<Drop>, k: nat)
      reads this
    {
      && k <= Units(g, was) && (k == 0 <==> Units(g, was) == 0)
      && c == Cut(g, was, k) && drops == reported + Report(g, was, k)
      && (k == 0 ==> !done) && (k > 0 ==> done == m.Fits(c)) && (!done ==> k == Units(g, was))
      && (UpClosed(m.FitsCut(g, was), Units(g, was)) && k > 0 ==> k == Least(m.FitsCut(g, was), 1, Units(g, was)))
    }

    method CutNarrative() returns (ghost k: nat)
      requires !done
      modifies this
      ensures Ran(Narrative, old(c), old(drops), k)
    {
      if c.narrative == "" { return 0; }
      c := c.(narrative := "");
      drops := drops + [NarrativeDrop];
      done := m.Fits(c);
      k := 1;
    }

    method CutNextStep() returns (ghost k: nat)
      requires !done
      modifies this
      ensures Ran(NextStep, old(c), old(drops), k)
    {
      if c.nextStep == "" { return 0; }
      c := c.(nextStep := "");
      drops := drops + [NextStepDrop];
      done := m.Fits(c);
      k := 1;
    }

    method CutTools() returns (ghost k: nat)
      requires !done
      modifies this
      ensures Ran(Tools, old(c), old(drops), k)
    {
      hide Least, UpClosed, TailDrops;
      var xs := c.tools;
      if |xs| == 0 {
        NoDrops(xs, ToolEntry);
        assert xs[..|xs|] == xs;
        return 0;
      }
      var cut, fit := TailCut(|xs|, m.FitsCut(Tools, c));
      var cutOff := TailReport(xs, |xs| - cut, ToolEntry);
      c := c.(tools := xs[..|xs| - cut]);
      drops := drops + cutOff;
      done := fit;
      k := cut;
    }

    method CutFiles() returns (ghost k: nat)
      requires !done
      modifies this
      ensures Ran(Files, old(c), old(drops), k)
    {
      hide Least, UpClosed, TailDrops;
      var xs := c.files;
      if |xs| == 0 {
        NoDrops(xs, FileEntry);
        assert xs[..|xs|] == xs;
        return 0;
      }
      var cut, fit := TailCut(|xs|, m.FitsCut(Files, c));
      var cutOff := TailReport(xs, |xs| - cut, FileEntry);
      c := c.(files := xs[..|xs| - cut]);
      drops := drops + cutOff;
      done := fit;
      k := cut;
    }

    method CutQuestions() returns (ghost k: nat)
      requires !done
      modifies this
      ensures Ran(Questions, old(c), old(drops), k)
    {
      hide Least, UpClosed, TailDrops;
      var xs := c.questions;
      if |xs| == 0 {
        NoDrops(xs, QuestionEntry);
        assert xs[..|xs|] == xs;
        return 0;
      }
      var cut, fit := TailCut(|xs|, m.FitsCut(Questions, c));
      var cutOff := TailReport(xs, |xs| - cut, QuestionEntry);
      c := c.(questions := xs[..|xs| - cut]);
      drops := drops + cutOff;
      done := fit;
      k := cut;
    }

    method CutDecisions() returns (ghost k: nat)
      requires !done
      modifies this
      ensures Ran(Decisions, old(c), old(drops), k)
    {
      hide Least, UpClosed, TailDrops;
      var xs := c.decisions;
      if |xs| == 0 {
        NoDrops(xs, DecisionEntry);
        assert xs[..|xs|] == xs;
        return 0;
      }
      var cut, fit := TailCut(|xs|, m.FitsCut(Decisions, c));
      var cutOff := TailReport(xs, |xs| - cut, DecisionEntry);
      c := c.(decisions := xs[..|xs| - cut]);
      drops := drops + cutOff;
      done := fit;
      k := cut;
    }

    method EmptyAlternatives() returns (ghost k: nat)
      requires !done
      modifies this
      ensures Ran(Alternatives, old(c), old(drops), k)
    {
      hide Least, UpClosed;
      var emptied := false;
      var i := 0;
      while i < |c.decisions| && !emptied
        invariant i <= |c.decisions| && c == old(c) && drops == old(drops) && !done
        invariant !emptied ==> forall j | 0 <= j < i :: c.decisions[j].alternatives == []
        invariant emptied ==> HasAlternatives(c.decisions)
        decreases |c.decisions| - i, if emptied then 0 else 1
      {
        if c.decisions[i].alternatives != [] { emptied := true; } else { i := i + 1; }
      }
      if !emptied { return 0; }
      var ds, entries := EmptyEach(c.decisions);
      drops := drops + entries;
      c := c.(decisions := ds);
      done := m.Fits(c);
      k := 1;
    }
  }

  lemma NoDrops<T>(xs: seq<T>, entry: (nat, T) -> Drop)
    ensures TailDrops(xs, |xs|, entry) == []
  {
  }

  method TailReport<T>(xs: seq<T>, keep: nat, entry: (nat, T) -> Drop) returns (ds: seq<Drop>)
    requires keep <= |xs|
    ensures ds == TailDrops(xs, keep, entry)
  {
    ds := [];
    assert xs[..|xs|] == xs;
    for i := |xs| downto keep
      invariant ds + TailDrops(xs[..i], keep, entry) == TailDrops(xs, keep, entry)
    {
      assert xs[..i + 1][..i] == xs[..i];
      ds := ds + [entry(i, xs[i])];
    }
  }

  method EmptyEach(xs: seq<Decision>) returns (ds: seq<Decision>, entries: seq<Drop>)
    ensures ds == Emptied(xs) && entries == AlternativesDrops(xs)
  {
    ds, entries := xs, [];
    for i := 0 to |xs|
      invariant |ds| == |xs| && entries == AlternativesDrops(xs[..i])
      invariant forall j | 0 <= j < |xs| :: ds[j] == if j < i then xs[j].(alternatives := []) else xs[j]
    {
      assert xs[..i + 1][..i] == xs[..i];
      if ds[i].alternatives != [] {
        ds := ds[i := ds[i].(alternatives := [])];
        entries := entries + [AlternativesDrop(ds[i].id)];
      }
    }
    assert xs[..|xs|] == xs;
  }

  // ------------------------------------------------------------------------------------------
  // The whole walk
  // ------------------------------------------------------------------------------------------

  /** The first `n` stages of `order` are behind: each had nothing left or was cut to nothing, and the
      document still does not fit. */
  predicate Walking(m: Scale, order: seq<Stage>, n: nat, c: Doc, steps: seq<Taken>)
    requires n <= |order|
    decreases n
  {
    if n == 0 then steps == []
    else if Units(order[0], c) == 0 then Walking(m, order[1..], n - 1, c, steps)
    else
      && steps != [] && steps[0] == Taken(order[0], Units(order[0], c)) && !m.Fits(Cut(order[0], c, steps[0].k))
      && Walking(m, order[1..], n - 1, Cut(order[0], c, steps[0].k), steps[1..])
  }

  lemma {:induction false} WalkingPlays(m: Scale, order: seq<Stage>, n: nat, c: Doc, steps: seq<Taken>)
    requires n <= |order| && Walking(m, order, n, c, steps)
    ensures Playable(c, steps)
    decreases n
  {
    hide Cut, Units;
    if n > 0 {
      if Units(order[0], c) == 0 { WalkingPlays(m, order[1..], n - 1, c, steps); }
      else { WalkingPlays(m, order[1..], n - 1, Cut(order[0], c, steps[0].k), steps[1..]); }
    }
  }

  lemma {:induction false} PlayOn(c: Doc, steps: seq<Taken>, t: Taken)
    requires Playable(c, steps) && t.k <= Units(t.stage, Play(c, steps))
    ensures Playable(c, steps + [t]) && Play(c, steps + [t]) == Cut(t.stage, Play(c, steps), t.k)
    ensures Reports(c, steps + [t]) == Reports(c, steps) + Report(t.stage, Play(c, steps), t.k)
    decreases |steps|
  {
    hide Cut, Units, Report;
    var more := steps + [t];
    if steps == [] {
      assert more[1..] == [] && more[0] == t;
      assert Report(t.stage, c, t.k) + [] == [] + Report(t.stage, c, t.k);
    } else {
      var d := Cut(steps[0].stage, c, steps[0].k);
      PlayOn(d, steps[1..], t);
      assert more[0] == steps[0] && more[1..] == steps[1..] + [t];
      var a, b, e := Report(steps[0].stage, c, steps[0].k), Reports(d, steps[1..]), Report(t.stage, Play(c, steps), t.k);
      assert a + (b + e) == a + b + e;
    }
  }

  /** Past a stage that has nothing left, or is cut to nothing. */
  lemma {:induction false} WalkOn(m: Scale, order: seq<Stage>, n: nat, c: Doc, steps: seq<Taken>)
    requires n < |order| && Walking(m, order, n, c, steps) && Playable(c, steps)
    ensures var cur := Play(c, steps);
            var u := Units(order[n], cur);
            && (u == 0 ==> Walking(m, order, n + 1, c, steps))
            && (u > 0 && !m.Fits(Cut(order[n], cur, u)) ==> Walking(m, order, n + 1, c, steps + [Taken(order[n], u)]))
    decreases n
  {
    hide Cut, Units;
    var more := steps + [Taken(order[n], Units(order[n], Play(c, steps)))];
    if n == 0 {
      assert more[1..] == [] && more[0] == Taken(order[0], Units(order[0], c));
    } else if Units(order[0], c) == 0 {
      WalkOn(m, order[1..], n - 1, c, steps);
    } else {
      WalkOn(m, order[1..], n - 1, Cut(order[0], c, steps[0].k), steps[1..]);
      assert more[0] == steps[0] && more[1..] == steps[1..] + [more[|steps|]];
    }
  }

  /** At the end of the stages, or at a cut that fits. */
  lemma {:induction false} WalkEnds(m: Scale, order: seq<Stage>, n: nat, c: Doc, steps: seq<Taken>, k: nat)
    requires n <= |order| && Walking(m, order, n, c, steps) && Playable(c, steps)
    ensures n == |order| ==> Walked(m, order, c, steps)
    ensures n < |order| && 1 <= k <= Units(order[n], Play(c, steps)) && m.Fits(Cut(order[n], Play(c, steps), k)) ==>
              Walked(m, order, c, steps + [Taken(order[n], k)])
    decreases n
  {
    hide Cut, Units;
    if n == 0 {
    } else if Units(order[0], c) == 0 {
      WalkEnds(m, order[1..], n - 1, c, steps, k);
    } else {
      WalkEnds(m, order[1..], n - 1, Cut(order[0], c, steps[0].k), steps[1..], k);
      if n < |order| {
        var more := steps + [Taken(order[n], k)];
        assert more[0] == steps[0] && more[1..] == steps[1..] + [Taken(order[n], k)];
      }
    }
  }

  lemma ShrinkingFits(m: Scale, g: Stage, c: Doc)
    requires Shrinking(m.size)
    ensures UpClosed(m.FitsCut(g, c), Units(g, c))
  {
    hide Cut, Units;
    var f := m.FitsCut(g, c);
    forall i: nat, j: nat | 1 <= i <= j <= Units(g, c) && f(i) ensures f(j) {
      assert f(i) == m.Fits(Cut(g, c, i)) && f(j) == m.Fits(Cut(g, c, j));
      assert m.size(Cut(g, c, j)) <= m.size(Cut(g, c, i));
    }
  }

  lemma ReferenceOn(m: Scale, order: seq<Stage>, n: nat, cur: Doc, k: nat)
    requires n < |order| && k <= Units(order[n], cur) && (k == 0 <==> Units(order[n], cur) == 0)
    requires k > 0 ==> k == Least(m.FitsCut(order[n], cur), 1, Units(order[n], cur))
    ensures var next := Cut(order[n], cur, k);
            Reference(m, order[n..], cur) ==
            if k == 0 then Reference(m, order[n + 1..], cur)
            else [Taken(order[n], k)] + if m.Fits(next) then [] else Reference(m, order[n + 1..], next)
  {
    hide Cut, Units, Least;
    assert order[n..][0] == order[n] && order[n..][1..] == order[n + 1..];
  }

  /** What is known after `n` stages. */
  ghost predicate Sofar(m: Scale, order: seq<Stage>, n: nat, c: Doc, steps: seq<Taken>, cur: Doc, drops: seq<Drop>)
  {
    && n <= |order| && Walking(m, order, n, c, steps) && Playable(c, steps) && cur == Play(c, steps) && drops == Reports(c, steps)
    && (Shrinking(m.size) ==> Reference(m, order, c) == steps + Reference(m, order[n..], cur))
    && !m.Fits(cur)
  }

  /** What is promised at the end. */
  ghost predicate Outcome(m: Scale, order: seq<Stage>, c: Doc, steps: seq<Taken>, r: Doc, drops: seq<Drop>)
  {
    && Walked(m, order, c, steps) && Playable(c, steps) && r == Play(c, steps)
    && drops == Reports(c, steps) + (if m.Fits(r) then [] else [BudgetExceeded(m.size(r), m.budget)])
    && (Shrinking(m.size) ==> steps == Reference(m, order, c))
  }

  lemma SofarStart(m: Scale, order: seq<Stage>, c: Doc)
    requires !m.Fits(c)
    ensures Sofar(m, order, 0, c, [], c, [])
  {
    assert order[0..] == order;
    assert [] + Reference(m, order, c) == Reference(m, order, c);
  }

  /** One stage further: done, or still over budget. */
  lemma SofarOn(m: Scale, order: seq<Stage>, n: nat, c: Doc, steps: seq<Taken>, tr: Truncation, cur: Doc, drops: seq<Drop>, k: nat)
    requires n < |order| && tr.m == m && Sofar(m, order, n, c, steps, cur, drops) && tr.Ran(order[n], cur, drops, k)
    ensures var more := if k == 0 then steps else steps + [Taken(order[n], k)];
            if tr.done then Outcome(m, order, c, more, tr.c, tr.drops) else Sofar(m, order, n + 1, c, more, tr.c, tr.drops)
  {
    hide Cut, Units, Report, Least, UpClosed, Shrinking, Walked, Walking, Reference, Playable, Play, Reports;
    var g := order[n];
    if k > 0 {
      PlayOn(c, steps, Taken(g, k));
      WalkEnds(m, order, n, c, steps, k);
    } else {
      NothingCut(g, cur);
    }
    WalkOn(m, order, n, c, steps);
    if Shrinking(m.size) {
      ShrinkingFits(m, g, cur);
      ReferenceOn(m, order, n, cur, k);
      assert forall r: seq<Taken> :: steps + ([Taken(g, k)] + r) == steps + [Taken(g, k)] + r;
      assert steps + ([Taken(g, k)] + []) == steps + [Taken(g, k)];
    }
  }

  lemma NothingCut(g: Stage, c: Doc)
    ensures Cut(g, c, 0) == c && Report(g, c, 0) == []
  {
  }

  lemma MembersStep(tier: seq<Field>, never: seq<Field>, i: nat, later: seq<Stage>)
    requires i < |CUT_ORDER|
    ensures var g := CUT_ORDER[i];
            Members(tier, never, i) + later ==
            if FieldOf(g) in tier && FieldOf(g) !in never then [g] + (Members(tier, never, i + 1) + later) else Members(tier, never, i + 1) + later
  {
  }

  lemma MembersEnd(tier: seq<Field>, never: seq<Field>)
    ensures Members(tier, never, |CUT_ORDER|) == []
  {
  }

  method RunStage(tr: Truncation, g: Stage) returns (ghost k: nat)
    requires !tr.done
    modifies tr
    ensures tr.Ran(g, old(tr.c), old(tr.drops), k)
  {
    match g
    case Narrative => k := tr.CutNarrative();
    case Tools => k := tr.CutTools();
    case Files => k := tr.CutFiles();
    case Questions => k := tr.CutQuestions();
    case Alternatives => k := tr.EmptyAlternatives();
    case Decisions => k := tr.CutDecisions();
    case NextStep => k := tr.CutNextStep();
  }

  /** One tier's pass: from stage `n` of the order on, up to the stages of a later tier. */
  method Pass(tr: Truncation, tier: seq<Field>, never: seq<Field>, ghost order: seq<Stage>, ghost later: seq<Stage>, ghost n0: nat,
              ghost c: Doc, ghost steps0: seq<Taken>)
    returns (ghost n: nat, ghost steps: seq<Taken>)
    requires !tr.done && n0 <= |order| && order[n0..] == Members(tier, never, 0) + later && Sofar(tr.m, order, n0, c, steps0, tr.c, tr.drops)
    modifies tr
    ensures tr.done ==> Outcome(tr.m, order, c, steps, tr.c, tr.drops) && tr.m.Fits(tr.c)
    ensures !tr.done ==> n <= |order| && order[n..] == later && Sofar(tr.m, order, n, c, steps, tr.c, tr.drops)
  {
    hide Sofar, Outcome, Members;
    n, steps := n0, steps0;
    for i := 0 to |CUT_ORDER|
      invariant !tr.done && n <= |order| && order[n..] == Members(tier, never, i) + later && Sofar(tr.m, order, n, c, steps, tr.c, tr.drops)
    {
      MembersStep(tier, never, i, later);
      var g := CUT_ORDER[i];
      if FieldOf(g) in tier && FieldOf(g) !in never {
        assert order[n] == order[n..][0] == g && order[n + 1..] == order[n..][1..];
        ghost var cur, drops := tr.c, tr.drops;
        ghost var k := RunStage(tr, g);
        SofarOn(tr.m, order, n, c, steps, tr, cur, drops, k);
        DoneFits(tr, g, cur, drops, k);
        steps := if k == 0 then steps else steps + [Taken(g, k)];
        if tr.done { return; }
        n := n + 1;
      }
    }
    MembersEnd(tier, never);
  }

  lemma DoneFits(tr: Truncation, g: Stage, cur: Doc, drops: seq<Drop>, k: nat)
    requires tr.Ran(g, cur, drops, k)
    ensures tr.done ==> tr.m.Fits(tr.c)
  {
    hide Cut, Units, Report, Least, UpClosed;
  }

  /** The document, what was cut from it, and whether that was enough; a budget of zero or less means
      no limit. */
  method TruncateDoc(c: Doc, m: Scale, t: Tiers) returns (r: Doc, drops: seq<Drop>, ghost steps: seq<Taken>)
    ensures m.budget <= 0 || m.size(c) <= m.budget ==> r == c && drops == []
    ensures m.size(c) > m.budget > 0 ==> Outcome(m, Order(t), c, steps, r, drops)
  {
    hide Sofar, Outcome, Members;
    steps := [];
    if m.budget <= 0 { return c, [], steps; }
    var tr := new Truncation(c, m);
    if m.Fits(c) { return c, [], steps; }
    ghost var order, n := Order(t), 0;
    SofarStart(m, order, c);
    assert order[0..] == order;
    n, steps := Pass(tr, t.first, t.never, order, Members(t.late, t.never, 0), n, c, steps);
    if tr.done { return tr.c, tr.drops, steps; }
    assert Members(t.late, t.never, 0) + [] == Members(t.late, t.never, 0);
    n, steps := Pass(tr, t.late, t.never, order, [], n, c, steps);
    if tr.done { return tr.c, tr.drops, steps; }
    Exhausted(m, order, n, c, steps, tr.c, tr.drops);
    return tr.c, tr.drops + [BudgetExceeded(m.size(tr.c), m.budget)], steps;
  }

  lemma Exhausted(m: Scale, order: seq<Stage>, n: nat, c: Doc, steps: seq<Taken>, cur: Doc, drops: seq<Drop>)
    requires Sofar(m, order, n, c, steps, cur, drops) && order[n..] == []
    ensures Outcome(m, order, c, steps, cur, drops + [BudgetExceeded(m.size(cur), m.budget)])
  {
    hide Cut, Units, Report, Shrinking, Walked, Walking, Playable, Play, Reports;
    WalkEnds(m, order, n, c, steps, 0);
    assert Shrinking(m.size) ==> steps + [] == steps;
  }
}
