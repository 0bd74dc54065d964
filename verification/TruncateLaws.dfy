/** What a truncation walk promises about the document it leaves and the drops it reports. */
module TruncateLaws {
  import opened Truncate

  // ------------------------------------------------------------------------------------------
  // Order
  // ------------------------------------------------------------------------------------------

  /** No cut gives a stage something to cut again. */
  lemma ZeroStays(g: Stage, h: Stage, c: Doc, k: nat)
    requires Units(g, c) == 0 && k <= Units(h, c)
    ensures Units(g, Cut(h, c, k)) == 0
  {
  }

  lemma {:induction false} ZeroPlays(g: Stage, c: Doc, steps: seq<Taken>)
    requires Units(g, c) == 0 && Playable(c, steps)
    ensures Units(g, Play(c, steps)) == 0
    decreases |steps|
  {
    hide Units, Cut;
    if steps != [] {
      ZeroStays(g, steps[0].stage, c, steps[0].k);
      ZeroPlays(g, Cut(steps[0].stage, c, steps[0].k), steps[1..]);
    }
  }

  lemma AllCut(g: Stage, c: Doc)
    ensures Units(g, Cut(g, c, Units(g, c))) == 0
  {
  }

  lemma {:induction false} PlayablePrefix(c: Doc, steps: seq<Taken>, i: nat)
    requires Playable(c, steps) && i <= |steps|
    ensures Playable(c, steps[..i])
    decreases |steps|
  {
    hide Units, Cut;
    if i > 0 {
      PlayablePrefix(Cut(steps[0].stage, c, steps[0].k), steps[1..], i - 1);
      assert steps[..i][0] == steps[0] && steps[..i][1..] == steps[1..][..i - 1];
    }
  }

  /** A stage cuts only once every stage before it in the order has nothing left. */
  lemma {:induction false} EarlierExhausted(m: Scale, order: seq<Stage>, c: Doc, steps: seq<Taken>, i: nat) returns (n: nat)
    requires Walked(m, order, c, steps) && Playable(c, steps) && i < |steps|
    ensures n < |order| && order[n] == steps[i].stage && Playable(c, steps[..i])
    ensures forall j | 0 <= j < n :: Units(order[j], Play(c, steps[..i])) == 0
    decreases |order|
  {
    hide Units, Cut;
    PlayablePrefix(c, steps, i);
    if Units(order[0], c) == 0 {
      var n' := EarlierExhausted(m, order[1..], c, steps, i);
      n := n' + 1;
      ZeroPlays(order[0], c, steps[..i]);
      assert forall j | 1 <= j < n :: order[j] == order[1..][j - 1];
    } else if i == 0 {
      n := 0;
    } else {
      var d := Cut(order[0], c, steps[0].k);
      var n' := EarlierExhausted(m, order[1..], d, steps[1..], i - 1);
      n := n' + 1;
      assert steps[..i][0] == steps[0] && steps[..i][1..] == steps[1..][..i - 1];
      AllCut(order[0], c);
      ZeroPlays(order[0], d, steps[1..][..i - 1]);
      assert forall j | 1 <= j < n :: order[j] == order[1..][j - 1];
    }
  }

  /** The place of each stage in a tier's pass. */
  function Rank(g: Stage): nat {
    match g
    case Narrative => 1
    case Tools => 2
    case Files => 3
    case Questions => 4
    case Alternatives => 5
    case Decisions => 6
    case NextStep => 7
  }

  /** The truncation may cut it at all. */
  predicate Enabled(t: Tiers, g: Stage) { (FieldOf(g) in t.first || FieldOf(g) in t.late) && FieldOf(g) !in t.never }

  /** `g` has its turn before `h`: by tier, the first tier before the late one, and by rank within it. */
  predicate Sooner(t: Tiers, g: Stage, h: Stage) {
    if FieldOf(g) in t.first && FieldOf(h) in t.first then Rank(g) < Rank(h)
    else if FieldOf(g) in t.first || FieldOf(h) in t.first then FieldOf(g) in t.first
    else Rank(g) < Rank(h)
  }

  lemma RankIsPlace(i: nat)
    requires i < |CUT_ORDER|
    ensures Rank(CUT_ORDER[i]) == i + 1
  {
  }

  lemma PlaceOf(g: Stage)
    ensures Rank(g) <= |CUT_ORDER| && Rank(g) > 0 && CUT_ORDER[Rank(g) - 1] == g
  {
  }

  lemma MembersCons(tier: seq<Field>, never: seq<Field>, i: nat)
    requires i < |CUT_ORDER|
    ensures var g := CUT_ORDER[i];
            Members(tier, never, i) == (if FieldOf(g) in tier && FieldOf(g) !in never then [g] else []) + Members(tier, never, i + 1)
  {
  }

  /** A stage of the tier has its turn in the pass before any of a higher rank. */
  lemma {:induction false} MembersByRank(tier: seq<Field>, never: seq<Field>, i: nat, n: nat, g: Stage)
    requires i <= |CUT_ORDER| && n < |Members(tier, never, i)| && FieldOf(g) in tier && FieldOf(g) !in never
    requires i < Rank(g) < Rank(Members(tier, never, i)[n])
    ensures exists j | 0 <= j < n :: Members(tier, never, i)[j] == g
    decreases |CUT_ORDER| - i
  {
    hide Rank, FieldOf, Members;
    PlaceOf(g);
    var at := CUT_ORDER[i];
    RankIsPlace(i);
    MembersCons(tier, never, i);
    var ms, rest := Members(tier, never, i), Members(tier, never, i + 1);
    if g == at {
      assert ms[0] == g;
    } else if FieldOf(at) in tier && FieldOf(at) !in never {
      MembersByRank(tier, never, i + 1, n - 1, g);
      var j :| 0 <= j < n - 1 && rest[j] == g;
      assert ms[j + 1] == g;
    } else {
      assert ms == rest;
      MembersByRank(tier, never, i + 1, n, g);
    }
  }

  lemma {:induction false} MembersHave(tier: seq<Field>, never: seq<Field>, i: nat, g: Stage)
    requires i < Rank(g) && FieldOf(g) in tier && FieldOf(g) !in never
    ensures i <= |CUT_ORDER| && g in Members(tier, never, i)
    decreases |CUT_ORDER| - i
  {
    hide Rank, FieldOf, Members;
    PlaceOf(g);
    RankIsPlace(i);
    MembersCons(tier, never, i);
    if g != CUT_ORDER[i] { MembersHave(tier, never, i + 1, g); }
  }

  /** What is sooner than a stage of the order, and enabled, stands before it. */
  lemma SoonerIsBefore(t: Tiers, n: nat, g: Stage)
    requires n < |Order(t)| && Enabled(t, g) && Sooner(t, g, Order(t)[n])
    requires FieldOf(Order(t)[n]) in t.first ==> n < |Members(t.first, t.never, 0)|
    ensures exists j | 0 <= j < n :: Order(t)[j] == g
  {
    hide Rank, FieldOf, Members;
    var a, b := Members(t.first, t.never, 0), Members(t.late, t.never, 0);
    var h := Order(t)[n];
    RankPositive(g);
    if n < |a| {
      assert h == a[n];
      MembersAre(t.first, t.never, 0, h);
      MembersByRank(t.first, t.never, 0, n, g);
      var j :| 0 <= j < n && a[j] == g;
      assert Order(t)[j] == g;
    } else {
      assert h == b[n - |a|];
      MembersAre(t.late, t.never, 0, h);
      if FieldOf(g) in t.first {
        MembersHave(t.first, t.never, 0, g);
        var j :| 0 <= j < |a| && a[j] == g;
        assert Order(t)[j] == g;
      } else {
        MembersByRank(t.late, t.never, 0, n - |a|, g);
        var j :| 0 <= j < n - |a| && b[j] == g;
        assert Order(t)[|a| + j] == g;
      }
    }
  }

  /** A stage of the first tier stands in the first tier's part of the order. */
  lemma FirstHas(t: Tiers, n: nat) returns (j: nat)
    requires n < |Order(t)| && FieldOf(Order(t)[n]) in t.first
    ensures j < |Members(t.first, t.never, 0)| <= |Order(t)| && Order(t)[j] == Order(t)[n]
  {
    hide Rank, FieldOf, Members;
    var a, g := Members(t.first, t.never, 0), Order(t)[n];
    RankPositive(g);
    if g in a { MembersAre(t.first, t.never, 0, g); } else { MembersAre(t.late, t.never, 0, g); }
    MembersHave(t.first, t.never, 0, g);
    j :| 0 <= j < |a| && a[j] == g;
  }

  lemma RankPositive(g: Stage)
    ensures 0 < Rank(g)
  {
  }

  lemma {:induction false} CutsSomething(m: Scale, order: seq<Stage>, c: Doc, steps: seq<Taken>, i: nat)
    requires Walked(m, order, c, steps) && Playable(c, steps) && i < |steps|
    ensures Playable(c, steps[..i]) && Units(steps[i].stage, Play(c, steps[..i])) > 0
    decreases |order|
  {
    hide Units, Cut;
    PlayablePrefix(c, steps, i);
    if Units(order[0], c) == 0 {
      CutsSomething(m, order[1..], c, steps, i);
    } else if i > 0 {
      CutsSomething(m, order[1..], Cut(order[0], c, steps[0].k), steps[1..], i - 1);
      assert steps[..i][0] == steps[0] && steps[..i][1..] == steps[1..][..i - 1];
    }
  }

  /** While a stage cuts, every enabled stage that is sooner has nothing left: those of the first tier
      before any other, and within a tier narrative, tool pointers, file pointers, questions,
      alternatives, decisions, next step. */
  lemma CutsInTurn(m: Scale, t: Tiers, c: Doc, steps: seq<Taken>, i: nat, g: Stage)
    requires Walked(m, Order(t), c, steps) && Playable(c, steps) && i < |steps|
    requires Enabled(t, g) && Sooner(t, g, steps[i].stage)
    ensures Playable(c, steps[..i]) && Units(g, Play(c, steps[..i])) == 0
  {
    hide Units, Walked, Playable, Play, Order, Sooner, Enabled;
    var n := EarlierExhausted(m, Order(t), c, steps, i);
    CutsSomething(m, Order(t), c, steps, i);
    if FieldOf(steps[i].stage) in t.first { var j := FirstHas(t, n); }
    SoonerIsBefore(t, n, g);
  }

  lemma {:induction false} WalkedOut(m: Scale, order: seq<Stage>, c: Doc, steps: seq<Taken>, g: Stage)
    requires Walked(m, order, c, steps) && Playable(c, steps) && !m.Fits(Play(c, steps)) && g in order
    ensures Units(g, Play(c, steps)) == 0
    decreases |order|
  {
    hide Units, Cut;
    if Units(order[0], c) == 0 {
      if g == order[0] { ZeroPlays(g, c, steps); } else { WalkedOut(m, order[1..], c, steps, g); }
    } else {
      var d := Cut(order[0], c, steps[0].k);
      AllCut(order[0], c);
      if g == order[0] { ZeroPlays(g, d, steps[1..]); } else { WalkedOut(m, order[1..], d, steps[1..], g); }
    }
  }

  /** A result still over budget has nothing left in any enabled stage. */
  lemma OverBudgetIsBare(m: Scale, t: Tiers, c: Doc, steps: seq<Taken>, r: Doc, drops: seq<Drop>, g: Stage)
    requires Outcome(m, Order(t), c, steps, r, drops) && m.size(r) > m.budget && Enabled(t, g)
    ensures Units(g, r) == 0
  {
    hide Units, Walked, Playable, Play, Reports, Reference, Shrinking, Members, FieldOf, Rank;
    RankPositive(g);
    if FieldOf(g) in t.first { MembersHave(t.first, t.never, 0, g); } else { MembersHave(t.late, t.never, 0, g); }
    WalkedOut(m, Order(t), c, steps, g);
  }

  // ------------------------------------------------------------------------------------------
  // What is left alone
  // ------------------------------------------------------------------------------------------

  predicate Same(f: Field, c: Doc, r: Doc) {
    match f
    case FNarrative => r.narrative == c.narrative
    case FPointers => r.tools == c.tools && r.files == c.files
    case FQuestions => r.questions == c.questions
    case FDecisions => r.decisions == c.decisions
    case FWork => r.nextStep == c.nextStep
    case FOther => true
  }

  lemma CutElsewhere(f: Field, g: Stage, c: Doc, k: nat)
    requires k <= Units(g, c)
    ensures var r := Cut(g, c, k); r.tier1 == c.tier1 && r.rest == c.rest && (FieldOf(g) != f ==> Same(f, c, r))
  {
  }

  lemma {:induction false} PlayElsewhere(f: Field, c: Doc, steps: seq<Taken>)
    requires Playable(c, steps) && forall t | t in steps :: FieldOf(t.stage) != f
    ensures Same(f, c, Play(c, steps))
    decreases |steps|
  {
    hide Units, Cut;
    if steps != [] {
      CutElsewhere(f, steps[0].stage, c, steps[0].k);
      PlayElsewhere(f, Cut(steps[0].stage, c, steps[0].k), steps[1..]);
    }
  }

  lemma {:induction false} TierOneStays(c: Doc, steps: seq<Taken>)
    requires Playable(c, steps)
    ensures Play(c, steps).tier1 == c.tier1 && Play(c, steps).rest == c.rest
    decreases |steps|
  {
    hide Units, Cut;
    if steps != [] {
      CutElsewhere(FOther, steps[0].stage, c, steps[0].k);
      TierOneStays(Cut(steps[0].stage, c, steps[0].k), steps[1..]);
    }
  }

  lemma {:induction false} WalkedStages(m: Scale, order: seq<Stage>, c: Doc, steps: seq<Taken>)
    requires Walked(m, order, c, steps)
    ensures forall t | t in steps :: t.stage in order
    decreases |order|
  {
    hide Units, Cut;
    if order != [] {
      if Units(order[0], c) == 0 { WalkedStages(m, order[1..], c, steps); }
      else if !m.Fits(Cut(order[0], c, steps[0].k)) { WalkedStages(m, order[1..], Cut(order[0], c, steps[0].k), steps[1..]); }
    }
  }

  lemma {:induction false} MembersAre(tier: seq<Field>, never: seq<Field>, i: nat, g: Stage)
    requires i <= |CUT_ORDER| && g in Members(tier, never, i)
    ensures FieldOf(g) in tier && FieldOf(g) !in never
    decreases |CUT_ORDER| - i
  {
    if g in Members(tier, never, i + 1) { MembersAre(tier, never, i + 1, g); }
  }

  /** Tier 1 is never cut; nor is a field listed under Never, or under neither of the other tiers. */
  lemma LeftAlone(m: Scale, t: Tiers, c: Doc, steps: seq<Taken>, r: Doc, drops: seq<Drop>, f: Field)
    requires Outcome(m, Order(t), c, steps, r, drops)
    ensures r.tier1 == c.tier1 && r.rest == c.rest
    ensures f in t.never || (f !in t.first && f !in t.late) ==> Same(f, c, r)
  {
    hide Walked, Playable, Play, Reports, Members, Same, Reference, Shrinking;
    TierOneStays(c, steps);
    if f in t.never || (f !in t.first && f !in t.late) {
      WalkedStages(m, Order(t), c, steps);
      forall s | s in steps ensures FieldOf(s.stage) != f {
        if s.stage in Members(t.first, t.never, 0) { MembersAre(t.first, t.never, 0, s.stage); }
        else { MembersAre(t.late, t.never, 0, s.stage); }
      }
      PlayElsewhere(f, c, steps);
    }
  }

  // ------------------------------------------------------------------------------------------
  // What is reported
  // ------------------------------------------------------------------------------------------

  function StageOf(d: Drop): Stage
    requires !d.BudgetExceeded?
  {
    match d
    case NarrativeDrop => Narrative
    case ToolDrop(_) => Tools
    case FileDrop(_) => Files
    case QuestionDrop(_, _) => Questions
    case AlternativesDrop(_) => Alternatives
    case DecisionDrop(_) => Decisions
    case NextStepDrop => NextStep
  }

  /** The entries of one stage. */
  function Only(ds: seq<Drop>, g: Stage): seq<Drop> {
    if ds == [] then []
    else (if !ds[0].BudgetExceeded? && StageOf(ds[0]) == g then [ds[0]] else []) + Only(ds[1..], g)
  }

  lemma {:induction false} OnlyJoin(a: seq<Drop>, b: seq<Drop>, g: Stage)
    ensures Only(a + b, g) == Only(a, g) + Only(b, g)
  {
    hide StageOf;
    if a == [] {
      assert a + b == b && [] + Only(b, g) == Only(b, g);
    } else {
      OnlyJoin(a[1..], b, g);
      assert (a + b)[0] == a[0] && (a + b)[1..] == a[1..] + b;
      var first: seq<Drop> := if !a[0].BudgetExceeded? && StageOf(a[0]) == g then [a[0]] else [];
      assert Only(a + b, g) == first + (Only(a[1..], g) + Only(b, g));
      assert first + (Only(a[1..], g) + Only(b, g)) == first + Only(a[1..], g) + Only(b, g);
    }
  }

  /** All of one stage. */
  lemma {:induction false} OnlyAll(ds: seq<Drop>, g: Stage, h: Stage)
    requires forall d | d in ds :: !d.BudgetExceeded? && StageOf(d) == h
    ensures Only(ds, g) == if g == h then ds else []
  {
    if ds != [] { OnlyAll(ds[1..], g, h); }
  }

  /** The elements of a stage, as they would be reported, in document order. */
  function Entries(g: Stage, c: Doc): (r: seq<Drop>)
    requires g != Alternatives
    ensures |r| == Units(g, c)
  {
    match g
    case Narrative => if c.narrative == "" then [] else [NarrativeDrop]
    case Tools => seq(|c.tools|, i requires 0 <= i < |c.tools| => ToolDrop(c.tools[i]))
    case Files => seq(|c.files|, i requires 0 <= i < |c.files| => FileDrop(c.files[i]))
    case Questions => seq(|c.questions|, i requires 0 <= i < |c.questions| => QuestionDrop(i, c.questions[i]))
    case Decisions => seq(|c.decisions|, i requires 0 <= i < |c.decisions| => DecisionDrop(c.decisions[i].id))
    case NextStep => if c.nextStep == "" then [] else [NextStepDrop]
  }

  /** Those after the first `keep`, the last first. */
  function Backwards(es: seq<Drop>, keep: nat): seq<Drop>
    requires keep <= |es|
  {
    if keep == |es| then [] else [es[|es| - 1]] + Backwards(es[..|es| - 1], keep)
  }

  lemma {:induction false} BackwardsJoin(es: seq<Drop>, i: nat, j: nat)
    requires j <= i <= |es|
    ensures Backwards(es, i) + Backwards(es[..i], j) == Backwards(es, j)
  {
    if i < |es| {
      BackwardsJoin(es[..|es| - 1], i, j);
      assert es[..|es| - 1][..i] == es[..i];
    } else {
      assert es[..i] == es;
    }
  }

  lemma {:induction false} BackwardsIn(es: seq<Drop>, keep: nat, d: Drop)
    requires keep <= |es| && d in Backwards(es, keep)
    ensures d in es
  {
    if d != es[|es| - 1] { BackwardsIn(es[..|es| - 1], keep, d); }
  }

  lemma {:induction false} TailIsBackwards<T>(xs: seq<T>, keep: nat, entry: (nat, T) -> Drop, es: seq<Drop>)
    requires keep <= |xs| == |es| && forall i | 0 <= i < |xs| :: es[i] == entry(i, xs[i])
    ensures TailDrops(xs, keep, entry) == Backwards(es, keep)
    decreases |xs|
  {
    if keep < |xs| { TailIsBackwards(xs[..|xs| - 1], keep, entry, es[..|es| - 1]); }
  }

  /** A report names exactly the elements cut, from the last. */
  lemma ReportIsBackwards(g: Stage, c: Doc, k: nat)
    requires g != Alternatives && k <= Units(g, c)
    ensures Report(g, c, k) == Backwards(Entries(g, c), Units(g, c) - k)
  {
    hide Backwards, TailDrops;
    match g
    case Tools => TailIsBackwards(c.tools, |c.tools| - k, ToolEntry, Entries(g, c));
    case Files => TailIsBackwards(c.files, |c.files| - k, FileEntry, Entries(g, c));
    case Questions => TailIsBackwards(c.questions, |c.questions| - k, QuestionEntry, Entries(g, c));
    case Decisions => TailIsBackwards(c.decisions, |c.decisions| - k, DecisionEntry, Entries(g, c));
    case Narrative => OneBackwards(Entries(g, c));
    case NextStep => OneBackwards(Entries(g, c));
    case Alternatives =>
  }

  lemma OneBackwards(es: seq<Drop>)
    requires |es| <= 1
    ensures Backwards(es, |es|) == [] && Backwards(es, 0) == es
  {
    if es != [] { assert es == [es[0]]; }
  }

  /** A cut shortens its own stage's elements and leaves every other stage's. */
  lemma CutEntries(g: Stage, h: Stage, c: Doc, k: nat)
    requires g != Alternatives && k <= Units(h, c)
    ensures Entries(g, Cut(h, c, k)) == if g == h then Entries(g, c)[..Units(g, c) - k] else Entries(g, c)
  {
  }

  lemma {:induction false} AlternativesKind(xs: seq<Decision>)
    ensures forall d | d in AlternativesDrops(xs) :: d.AlternativesDrop?
  {
    if xs != [] { AlternativesKind(xs[..|xs| - 1]); }
  }

  lemma ReportKind(g: Stage, c: Doc, k: nat)
    requires k <= Units(g, c)
    ensures forall d | d in Report(g, c, k) :: !d.BudgetExceeded? && StageOf(d) == g
  {
    hide Backwards;
    if g == Alternatives { AlternativesKind(c.decisions); }
    else {
      ReportIsBackwards(g, c, k);
      forall d | d in Report(g, c, k) ensures !d.BudgetExceeded? && StageOf(d) == g {
        BackwardsIn(Entries(g, c), Units(g, c) - k, d);
      }
    }
  }

  /** For every stage that cuts elements: what is left is what was there less its tail, and the entries
      reported are exactly that tail. */
  lemma {:induction false} Conserved(g: Stage, c: Doc, steps: seq<Taken>)
    requires g != Alternatives && Playable(c, steps)
    ensures var r := Play(c, steps);
            && Units(g, r) <= Units(g, c) && Entries(g, r) == Entries(g, c)[..Units(g, r)]
            && Only(Reports(c, steps), g) == Backwards(Entries(g, c), Units(g, r))
    decreases |steps|
  {
    hide Units, Cut, Report, Entries, Backwards;
    if steps == [] {
      assert Entries(g, c)[..Units(g, c)] == Entries(g, c);
      NoneBackwards(Entries(g, c));
    } else {
      var h, k := steps[0].stage, steps[0].k;
      var d := Cut(h, c, k);
      var r := Play(c, steps);
      Conserved(g, d, steps[1..]);
      CutEntries(g, h, c, k);
      OnlyJoin(Report(h, c, k), Reports(d, steps[1..]), g);
      ReportKind(h, c, k);
      OnlyAll(Report(h, c, k), g, h);
      if g == h {
        var es := Entries(g, c);
        ReportIsBackwards(g, c, k);
        BackwardsJoin(es, Units(g, c) - k, Units(g, r));
        assert es[..Units(g, c) - k][..Units(g, r)] == es[..Units(g, r)];
      }
    }
  }

  lemma NoneBackwards(es: seq<Drop>)
    ensures Backwards(es, |es|) == []
  {
  }

  /** For every outcome: kept plus dropped is the original, stage by stage; and the budget is reported
      exceeded exactly when the result is over it. */
  lemma DropsConserve(m: Scale, t: Tiers, c: Doc, steps: seq<Taken>, r: Doc, drops: seq<Drop>, g: Stage)
    requires Outcome(m, Order(t), c, steps, r, drops)
    ensures g != Alternatives ==> && Units(g, r) <= Units(g, c) && Entries(g, r) == Entries(g, c)[..Units(g, r)]
                                  && Only(drops, g) == Backwards(Entries(g, c), Units(g, r))
    ensures (exists d | d in drops :: d.BudgetExceeded?) <==> m.size(r) > m.budget
  {
    hide Walked, Playable, Play, Reports, Order, Reference, Shrinking, Entries, Backwards, Units;
    if g != Alternatives {
      Conserved(g, c, steps);
      var last: seq<Drop> := if m.Fits(r) then [] else [BudgetExceeded(m.size(r), m.budget)];
      OnlyJoin(Reports(c, steps), last, g);
      assert Only(last, g) == [] by { LastIsNone(m, r, g); }
    }
    ReportsKinds(c, steps);
    if !m.Fits(r) { assert BudgetExceeded(m.size(r), m.budget) in drops; }
  }

  lemma LastIsNone(m: Scale, r: Doc, g: Stage)
    ensures Only([BudgetExceeded(m.size(r), m.budget)], g) == [] && Only([], g) == []
  {
  }

  lemma {:induction false} ReportsKinds(c: Doc, steps: seq<Taken>)
    requires Playable(c, steps)
    ensures forall d | d in Reports(c, steps) :: !d.BudgetExceeded?
    decreases |steps|
  {
    hide Units, Cut, Report;
    if steps != [] {
      ReportKind(steps[0].stage, c, steps[0].k);
      ReportsKinds(Cut(steps[0].stage, c, steps[0].k), steps[1..]);
    }
  }

  // Alternatives, which go all at once

  /** No decision is up for cutting before the alternatives are. */
  predicate AlternativesFirst(order: seq<Stage>) {
    order == [] || order[0] == Alternatives || (order[0] != Decisions && AlternativesFirst(order[1..]))
  }

  lemma {:induction false} OrderHasAlternativesFirst(tier: seq<Field>, never: seq<Field>, i: nat, later: seq<Stage>)
    requires i <= |CUT_ORDER| && i != 5 && AlternativesFirst(later)
    ensures AlternativesFirst(Members(tier, never, i) + later)
    decreases |CUT_ORDER| - i
  {
    hide Members;
    if i == |CUT_ORDER| {
      MembersEnd(tier, never);
      assert [] + later == later;
    } else {
      MembersStep(tier, never, i, later);
      var rest := Members(tier, never, i + 1) + later;
      StartsWith(CUT_ORDER[i], rest);
      if i == 4 {
        MembersStep(tier, never, 5, later);
        OrderHasAlternativesFirst(tier, never, 6, later);
      } else {
        OrderHasAlternativesFirst(tier, never, i + 1, later);
      }
    }
  }

  lemma StartsWith(g: Stage, rest: seq<Stage>)
    ensures AlternativesFirst([g] + rest) <==> g == Alternatives || (g != Decisions && AlternativesFirst(rest))
  {
    assert ([g] + rest)[1..] == rest;
  }

  lemma EmptiedHasNone(ds: seq<Decision>)
    ensures !HasAlternatives(Emptied(ds))
  {
  }

  /** Once no decision has alternatives, none is reported, and decisions are only cut from the tail. */
  lemma {:induction false} NoAlternatives(m: Scale, order: seq<Stage>, c: Doc, steps: seq<Taken>)
    requires Walked(m, order, c, steps) && Playable(c, steps) && Units(Alternatives, c) == 0
    ensures Only(Reports(c, steps), Alternatives) == []
    ensures var r := Play(c, steps); |r.decisions| <= |c.decisions| && r.decisions == c.decisions[..|r.decisions|]
    decreases |order|
  {
    hide Units, Report, Only, Cut;
    if order == [] {
      assert Only([], Alternatives) == [] by { LastIsNone(m, c, Alternatives); }
    } else if Units(order[0], c) == 0 {
      NoAlternatives(m, order[1..], c, steps);
    } else {
      OneStepOn(m, order, c, steps);
      var d := Cut(order[0], c, steps[0].k);
      ZeroStays(Alternatives, order[0], c, steps[0].k);
      DecisionsAfter(order[0], c, steps[0].k);
      NoAlternatives(m, if m.Fits(d) then [] else order[1..], d, steps[1..]);
      OnlyJoin(Report(order[0], c, steps[0].k), Reports(d, steps[1..]), Alternatives);
      ReportKind(order[0], c, steps[0].k);
      OnlyAll(Report(order[0], c, steps[0].k), Alternatives, order[0]);
    }
  }

  lemma OneStepOn(m: Scale, order: seq<Stage>, c: Doc, steps: seq<Taken>)
    requires Walked(m, order, c, steps) && order != [] && Units(order[0], c) > 0
    ensures steps != [] && steps[0].stage == order[0] && steps[0].k <= Units(order[0], c)
    ensures var d := Cut(order[0], c, steps[0].k); Walked(m, if m.Fits(d) then [] else order[1..], d, steps[1..])
  {
    hide Units, Cut;
  }

  lemma DecisionsAfter(g: Stage, c: Doc, k: nat)
    requires k <= Units(g, c)
    ensures var d := Cut(g, c, k);
            && (g != Alternatives ==> |d.decisions| <= |c.decisions| && d.decisions == c.decisions[..|d.decisions|])
            && (g != Alternatives && g != Decisions ==> d.decisions == c.decisions)
            && (g == Alternatives && k == 1 ==> d.decisions == Emptied(c.decisions) && Report(g, c, k) == AlternativesDrops(c.decisions))
  {
  }

  /** Either the alternatives stayed, or every decision lost them at once, each that had any reported once. */
  ghost predicate AllOrNothing(c: Doc, r: Doc, drops: seq<Drop>) {
    var n := |r.decisions|;
    n <= |c.decisions| &&
    ((r.decisions == c.decisions[..n] && Only(drops, Alternatives) == []) ||
     (r.decisions == Emptied(c.decisions)[..n] && Only(drops, Alternatives) == AlternativesDrops(c.decisions)))
  }

  lemma {:induction false} AlternativesWalk(m: Scale, order: seq<Stage>, c: Doc, steps: seq<Taken>)
    requires Walked(m, order, c, steps) && Playable(c, steps) && AlternativesFirst(order)
    ensures AllOrNothing(c, Play(c, steps), Reports(c, steps))
    decreases |order|
  {
    hide Units, Report, Only, Cut;
    if order == [] || (order[0] == Alternatives && Units(order[0], c) == 0) {
      if order == [] { LastIsNone(m, c, Alternatives); } else { NoAlternatives(m, order, c, steps); }
    } else if Units(order[0], c) == 0 {
      AlternativesWalk(m, order[1..], c, steps);
    } else {
      OneStepOn(m, order, c, steps);
      var k := steps[0].k;
      var d := Cut(order[0], c, k);
      DecisionsAfter(order[0], c, k);
      OnlyJoin(Report(order[0], c, k), Reports(d, steps[1..]), Alternatives);
      ReportKind(order[0], c, k);
      OnlyAll(Report(order[0], c, k), Alternatives, order[0]);
      if order[0] == Alternatives {
        OneUnit(c, k);
        EmptiedHasNone(c.decisions);
        NoneLeft(d);
        NoAlternatives(m, if m.Fits(d) then [] else order[1..], d, steps[1..]);
      } else {
        AlternativesWalk(m, if m.Fits(d) then [] else order[1..], d, steps[1..]);
      }
    }
  }

  lemma OneUnit(c: Doc, k: nat)
    requires Units(Alternatives, c) > 0 && k <= Units(Alternatives, c)
    ensures k <= 1
  {
  }

  lemma NoneLeft(c: Doc)
    requires !HasAlternatives(c.decisions)
    ensures Units(Alternatives, c) == 0
  {
  }

  lemma AlternativesConserve(m: Scale, t: Tiers, c: Doc, steps: seq<Taken>, r: Doc, drops: seq<Drop>)
    requires Outcome(m, Order(t), c, steps, r, drops)
    ensures AllOrNothing(c, r, drops)
  {
    hide Walked, Playable, Play, Reports, Reference, Shrinking, Members, Only;
    OrderHasAlternativesFirst(t.late, t.never, 0, []);
    assert Members(t.late, t.never, 0) + [] == Members(t.late, t.never, 0);
    OrderHasAlternativesFirst(t.first, t.never, 0, Members(t.late, t.never, 0));
    AlternativesWalk(m, Order(t), c, steps);
    var last: seq<Drop> := if m.Fits(r) then [] else [BudgetExceeded(m.size(r), m.budget)];
    OnlyJoin(Reports(c, steps), last, Alternatives);
    LastIsNone(m, r, Alternatives);
  }
}
