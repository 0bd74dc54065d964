/** The whole selection of representations: the reserve, the greedy run over gains that may also rise, the forced
    carries, and the guards of its callers. */
module ProposeRuns {
  import opened Basics
  import opened GreedyEngine
  import opened Propose
  import BlockSelect

  /** What every proposal is: an overflow exactly when the mandatory records cannot be carried, and then it
      names one and nothing else; acceptable otherwise, at the objective's value, with every archivable item
      that was not delivered named. */
  ghost predicate Answers(s: Solver, q: Proposal) {
    && (q.overflow <==> Infeasible(s))
    && (q.overflow ==> q.chosen == [] && q.tokens == 0 && q.value == 0.0 && q.archive == [q.item] && exists c | c in s.cands :: Binds(c) && c.item == q.item)
    && (!q.overflow ==> Acceptable(s, q) && q.value == Reported(s, q.chosen))
    && (!q.overflow ==> forall i | 0 <= i < |s.cands| ::
          s.cands[i].item in q.archive <==> s.cands[i].item !in Delivered(q.chosen) && HasArchive(s.cands[i]))
  }

  /** The proposal is what the greedy run `ms` over all legal moves chose, and what carrying the binding candidates
      on top of it takes.  Each move was allowed when it was taken, none that was always worth more was passed
      over for it, and none that was always worth something is left. */
  ghost predicate FollowsRun(s: Solver, q: Proposal, moves: seq<Move>, ms: seq<nat>) {
    var p := RepProblem(s, moves);
    && AllMoves(s, moves) && AllowedRun(p, EMPTY, s.budget, ms) && NonePassed(p, EMPTY, s.budget, ms) && Settled(p, EMPTY, s.budget, ms)
    && (NoNeeds(s) && Modest(s) ==> GreedyRun(p, EMPTY, s.budget, ms))
    && exists chosen :: ForcedBeyond(s, After(p, EMPTY, ms), chosen) && q.chosen == ChosenList(s, chosen, |s.cands|) && chosen.Keys == Delivered(q.chosen)
  }

  /** The selection: the reserve first, the greedy run, the forced carries, and the proposal read off. */
  method ProposeSelection(s: Solver) returns (q: Proposal, ghost moves: seq<Move>, ghost ms: seq<nat>)
    requires WellFormed(s)
    ensures Answers(s, q)
    ensures !q.overflow ==> FollowsRun(s, q, moves, ms)
  {
    hide Infeasible, Reserve, WellFormed, Feasible, ChosenCost, Binding, Acceptable, AllowedRun, After, Spent, Archivable, HasArchive, Reported,
      NonePassed, Settled, GreedyRun, LiveShrinks, Exact, ForcedBeyond, AllMoves, NoNeeds, Modest, Binds;
    moves, ms := [], [];
    ReserveDecides(s);
    var v := ReserveScan(s, {}, s.budget);
    if v.Offends? {
      OffenderBinds(s, {}, 0, s.budget);
      OffenderIs(s, v.item);
      q := Overflow(v.item);
      return;
    }
    var listed := ListMoves(s);
    moves := listed;
    var p := RepProblem(s, listed);
    RepLiveShrinks(s, listed);
    if NoNeeds(s) && Modest(s) { RepExact(s, listed); }
    CovStarts();
    var r := RunLazyGreedy(p, EMPTY, s.budget, CovOk);
    ms := r.accepted;
    RunSound(s, listed, r.accepted);
    SpentNothing(s, listed);
    var c := CarryMandatory(s, r.st, r.spent);
    q := Assemble(s, c.st.chosen, r.iters);
    forall i | 0 <= i < |s.cands| ensures Archivable(s.cands[i]) <==> HasArchive(s.cands[i]) { ArchivableHas(s.cands[i]); }
    ListDelivers(s, c.st.chosen);
  }

  lemma OffenderIs(s: Solver, d: Item)
    requires exists k | 0 <= k < |s.cands| :: Binding(s, k) && s.cands[k].item == d
    ensures exists c | c in s.cands :: Binds(c) && c.item == d
  {
    hide Binding, Binds;
    var k :| 0 <= k < |s.cands| && Binding(s, k) && s.cands[k].item == d;
    BindingBinds(s, k);
    assert s.cands[k] in s.cands;
  }

  lemma ListDelivers(s: Solver, chosen: map<Item, Rep>)
    requires WellFormed(s) && Feasible(s, chosen)
    ensures Delivered(ChosenList(s, chosen, |s.cands|)) == chosen.Keys
  {
    hide IndexOf, Feasible, WellFormed;
    var n := |s.cands|;
    ChosenItems(s, chosen);
    forall d | d in chosen ensures d in Delivered(ChosenList(s, chosen, n)) {
      IndexOfWhere(s, d);
      ListHolds(s, chosen, n, IndexOf(s, d, n));
      assert chosen[d].item == d;
    }
    forall d | d in Delivered(ChosenList(s, chosen, n)) ensures d in chosen {
      var r :| r in ChosenList(s, chosen, n) && r.item == d;
      var k :| 0 <= k < |ChosenList(s, chosen, n)| && ChosenList(s, chosen, n)[k] == r;
      var i := ListFrom(s, chosen, n, k);
      assert chosen[s.cands[i].item].item == s.cands[i].item;
    }
  }

  // ------------------------------------------------------------------------------------------
  // What the engine asks of the moves
  // ------------------------------------------------------------------------------------------

  /** `t` beyond `have` is deliverable, and pulls in nothing from outside. */
  ghost predicate Supplied(s: Solver, have: set<Item>, t: set<Item>) {
    forall d | d in t && d !in have :: MinRep(s, d).Some? && Met(s, MinRep(s, d).value.needs, t)
  }

  lemma {:induction false} CloseWithin(s: Solver, have: set<Item>, queue: seq<Item>, t: set<Item>)
    requires Supplied(s, have, t) && Met(s, queue, t)
    ensures Close(s, have, queue).Some?
    decreases |ItemsOf(s) - have|, |queue|
  {
    hide MinRep, IsCand, ItemsOf;
    if queue != [] {
      var d := queue[0];
      if d in have || !IsCand(s, d) {
        CloseWithin(s, have, queue[1..], t);
      } else {
        CandInItems(s, d);
        assert ItemsOf(s) - (have + {d}) < ItemsOf(s) - have;
        SmallerSet(ItemsOf(s) - (have + {d}), ItemsOf(s) - have);
        assert Met(s, queue[1..] + MinRep(s, d).value.needs, t);
        CloseWithin(s, have + {d}, queue[1..] + MinRep(s, d).value.needs, t);
      }
    }
  }

  /** Having more never makes a closure fail. */
  lemma CloseMonotone(s: Solver, have: set<Item>, more: set<Item>, queue: seq<Item>)
    requires WellFormed(s) && Close(s, have, queue).Some? && have <= more
    ensures Close(s, more, queue).Some?
  {
    hide MinRep, IsCand, ItemsOf, Close;
    CloseSound(s, have, queue);
    var rs := Close(s, have, queue).value;
    var t := have + Delivered(rs) + more;
    forall d | d in t && d !in more ensures MinRep(s, d).Some? && Met(s, MinRep(s, d).value.needs, t) {
      var r :| r in rs && r.item == d;
    }
    CloseWithin(s, more, queue, t);
  }

  lemma {:induction false} ApplyKeeps(st: RepState, bundle: seq<Rep>)
    ensures st.chosen.Keys <= Apply(st, bundle).chosen.Keys && Delivered(bundle) <= Apply(st, bundle).chosen.Keys
    decreases |bundle|
  {
    if bundle != [] {
      ApplyKeeps(ApplyOne(st, bundle[0]), bundle[1..]);
      assert bundle == [bundle[0]] + bundle[1..];
      DeliveredCons(bundle[0], bundle[1..]);
    }
  }

  /** A representation that was chosen ends all moves of its item, and no item is ever unchosen. */
  lemma RepLiveShrinks(s: Solver, moves: seq<Move>)
    requires WellFormed(s)
    ensures LiveShrinks(RepProblem(s, moves))
  {
    hide Reserve, BundleFor, CostOf, Apply, BundleGain;
    var p := RepProblem(s, moves);
    forall st: RepState, m: nat | m < p.moves ensures !p.live(p.accept(st, m), m) && st.chosen.Keys <= p.accept(st, m).chosen.Keys {
      TakenDies(s, moves, st, m);
    }
  }

  lemma TakenDies(s: Solver, moves: seq<Move>, st: RepState, m: nat)
    requires WellFormed(s) && m < |moves|
    ensures var p := RepProblem(s, moves); !p.live(p.accept(st, m), m) && st.chosen.Keys <= p.accept(st, m).chosen.Keys
  {
    hide Reserve, Close, CostOf, Apply, BundleGain, Allowed;
    var mv := moves[m];
    var b := BundleFor(s, mv, st);
    if b.Some? {
      ApplyKeeps(st, b.value);
      assert b.value[0] in b.value;
    } else if BundleFor(s, mv, EMPTY).Some? {
      var main := s.cands[mv.cand].reps[mv.rep];
      CloseMonotone(s, EMPTY.chosen.Keys + {main.item}, st.chosen.Keys + {main.item}, main.needs);
    }
  }

  /** No representation requires another candidate. */
  ghost predicate NoNeeds(s: Solver) {
    forall i, j | 0 <= i < |s.cands| && 0 <= j < |s.cands[i].reps| :: forall d | d in s.cands[i].reps[j].needs :: !IsCand(s, d)
  }

  /** The penalty is one, and no weight is beyond what counts as a gain. */
  ghost predicate Modest(s: Solver) { s.penalty >= 0.0 && forall c | c in s.cands :: c.weight <= MAX_FINITE_GAIN }

  /** Coverage is on record only for chosen items. */
  ghost predicate CovOk(st: RepState) { st.cov.Keys <= st.chosen.Keys }

  lemma CovStarts()
    ensures CovOk(EMPTY)
  {
  }

  lemma {:induction false} CloseNothing(s: Solver, have: set<Item>, queue: seq<Item>)
    requires forall d | d in queue :: !IsCand(s, d)
    ensures Close(s, have, queue) == Some([])
  {
    hide IsCand;
    if queue != [] { CloseNothing(s, have, queue[1..]); }
  }

  lemma LoneBundle(s: Solver, mv: Move, st: RepState)
    requires NoNeeds(s) && MoveOk(s, mv)
    ensures BundleFor(s, mv, st) == Some([s.cands[mv.cand].reps[mv.rep]])
  {
    hide Close, IsCand, Allowed;
    var main := s.cands[mv.cand].reps[mv.rep];
    CloseNothing(s, st.chosen.Keys + {main.item}, main.needs);
    assert [main] + [] == [main];
  }

  /** What a single representation adds while its item is unchosen. */
  function LoneGain(s: Solver, r: Rep, st: RepState): real {
    WeightOf(s, r.item) * Satur(r.coverage) - (if r.root != 0 && RootCount(st, r.root) > 0 then s.penalty else 0.0)
  }

  lemma LoneGainIs(s: Solver, r: Rep, st: RepState)
    requires r.item !in st.cov
    ensures BundleGain(s, [r], st) == LoneGain(s, r, st)
  {
    hide WeightOf;
    var b := [r];
    assert b[..0] == [] && Rooted(b[..0]) == [] && CoverGain(s, b[..0], st) == 0.0 && Redelivered(b[..0], st) == 0;
    assert Satur(CovOf(st, r.item)) == 0.0 && CovOf(st, r.item) + r.coverage == r.coverage;
    assert CoverGain(s, b, st) == WeightOf(s, r.item) * (Satur(r.coverage) - 0.0);
    assert s.penalty * 1.0 == s.penalty && s.penalty * 0.0 == 0.0;
  }

  lemma WeightIsModest(s: Solver, d: Item, c: real)
    requires Modest(s)
    ensures 0.0 <= WeightOf(s, d) * Satur(c) <= MAX_FINITE_GAIN
  {
    hide IndexOf;
    var w, x := WeightOf(s, d), Satur(c);
    IndexOfWhere(s, d);
    var i := IndexOf(s, d, |s.cands|);
    assert i >= 0 ==> s.cands[i] in s.cands;
    Scaled(w, x);
  }

  lemma Scaled(w: real, x: real)
    requires 0.0 <= w && 0.0 <= x <= 1.0
    ensures 0.0 <= w * x <= w
  {
  }

  lemma MovesAre(s: Solver, moves: seq<Move>)
    ensures RepProblem(s, moves).moves == |moves| && RepProblem(s, moves).lazy
  {
  }

  lemma CovKept(s: Solver, moves: seq<Move>, st: RepState, m: nat)
    requires NoNeeds(s) && CovOk(st) && m < |moves|
    ensures var st' := RepProblem(s, moves).accept(st, m);
            CovOk(st') && st.chosen.Keys <= st'.chosen.Keys && forall x | x in st.roots :: x in st'.roots && st'.roots[x] >= st.roots[x]
  {
    hide Reserve, Close, CostOf, BundleGain, NoNeeds;
    if MoveOk(s, moves[m]) {
      LoneBundle(s, moves[m], st);
      var r := s.cands[moves[m].cand].reps[moves[m].rep];
      assert [r][1..] == [] && Apply(st, [r]) == ApplyOne(st, r);
    }
  }

  /** A move's gain where its item is unchosen, and in general nothing where there is no move. */
  lemma MoveGain(s: Solver, moves: seq<Move>, st: RepState, n: nat)
    requires NoNeeds(s) && n < |moves|
    ensures var g := RepProblem(s, moves).gain(st, n);
            if MoveOk(s, moves[n]) then g == BundleGain(s, [s.cands[moves[n].cand].reps[moves[n].rep]], st) else g == 0.0
  {
    hide Reserve, Close, CostOf, BundleGain, NoNeeds, Apply;
    if MoveOk(s, moves[n]) { LoneBundle(s, moves[n], st); }
  }

  lemma GainsOnlyShrink(s: Solver, moves: seq<Move>, st: RepState, m: nat, n: nat)
    requires WellFormed(s) && NoNeeds(s) && Modest(s) && CovOk(st) && m < |moves| && n < |moves|
    requires var p := RepProblem(s, moves); p.live(p.accept(st, m), n) && Worth(p, p.accept(st, m), n) > 0.0
    ensures var p := RepProblem(s, moves); Worth(p, p.accept(st, m), n) <= Worth(p, st, n)
  {
    hide RepProblem, NoNeeds, Modest, WellFormed, BundleGain, LoneGain, WeightOf, FiniteGain;
    var p := RepProblem(s, moves);
    var st' := p.accept(st, m);
    CovKept(s, moves, st, m);
    MoveGain(s, moves, st, n);
    MoveGain(s, moves, st', n);
    LiveIs(s, moves, st', n);
    var r := s.cands[moves[n].cand].reps[moves[n].rep];
    LoneGainIs(s, r, st);
    LoneGainIs(s, r, st');
    LoneShrinks(s, r, st, st');
    FiniteGainIs(LoneGain(s, r, st));
    FiniteGainIs(LoneGain(s, r, st'));
  }

  lemma LiveIs(s: Solver, moves: seq<Move>, st: RepState, n: nat)
    requires WellFormed(s) && n < |moves| && RepProblem(s, moves).live(st, n)
    ensures MoveOk(s, moves[n]) && s.cands[moves[n].cand].reps[moves[n].rep].item !in st.chosen
  {
    hide Reserve, Close, CostOf, BundleGain, Apply;
  }

  lemma LoneShrinks(s: Solver, r: Rep, st: RepState, st': RepState)
    requires Modest(s) && forall x | x in st.roots :: x in st'.roots && st'.roots[x] >= st.roots[x]
    ensures LoneGain(s, r, st') <= LoneGain(s, r, st) <= MAX_FINITE_GAIN
  {
    hide WeightOf, Satur;
    WeightIsModest(s, r.item, r.coverage);
  }

  /** Without requirements between candidates, gains shrink. */
  lemma RepExact(s: Solver, moves: seq<Move>)
    requires WellFormed(s) && NoNeeds(s) && Modest(s)
    ensures Exact(RepProblem(s, moves), CovOk)
  {
    hide RepProblem, NoNeeds, Modest, WellFormed, LiveShrinks, Worth;
    RepLiveShrinks(s, moves);
    var p := RepProblem(s, moves);
    MovesAre(s, moves);
    forall st: RepState, m: nat | CovOk(st) && m < p.moves ensures CovOk(p.accept(st, m)) { CovKept(s, moves, st, m); }
    forall st: RepState, m: nat, n: nat | CovOk(st) && m < p.moves && n < p.moves && p.live(p.accept(st, m), n) && Worth(p, p.accept(st, m), n) > 0.0
      ensures Worth(p, p.accept(st, m), n) <= Worth(p, st, n)
    {
      GainsOnlyShrink(s, moves, st, m, n);
    }
  }

  // ------------------------------------------------------------------------------------------
  // A gain is a difference of the declared objective
  // ------------------------------------------------------------------------------------------

  /** The objective before it is clamped. */
  function Raw(s: Solver, rs: seq<Rep>): real { Cover(s, rs) - s.penalty * ((|Rooted(rs)| - |Roots(rs)|) as real) }

  /** The selection's books: one coverage per item, and each root as often as it was delivered. */
  ghost predicate Booked(st: RepState, rs: seq<Rep>) {
    st.chosen.Keys == st.cov.Keys == Delivered(rs) && (forall x | x in Rooted(rs) :: RootCount(st, x) > 0) && forall x | x in st.roots :: x in Rooted(rs)
  }

  lemma {:induction false} CoverConcat(s: Solver, a: seq<Rep>, b: seq<Rep>)
    ensures Cover(s, a + b) == Cover(s, a) + Cover(s, b)
  {
    hide ItemCover;
    if b == [] {
      assert a + b == a;
    } else {
      CoverConcat(s, a, b[..|b| - 1]);
      assert (a + b)[..|a + b| - 1] == a + b[..|b| - 1];
    }
  }

  lemma {:induction false} NewCover(s: Solver, b: seq<Rep>, st: RepState)
    requires forall r | r in b :: r.item !in st.cov
    ensures CoverGain(s, b, st) == Cover(s, b)
  {
    hide WeightOf;
    if b != [] {
      var init, r := b[..|b| - 1], b[|b| - 1];
      NewCover(s, init, st);
      assert r in b && CovOf(st, r.item) == 0.0 && Satur(0.0) == 0.0 && 0.0 + r.coverage == r.coverage;
      assert WeightOf(s, r.item) * (Satur(r.coverage) - 0.0) == WeightOf(s, r.item) * Satur(r.coverage);
    }
  }

  lemma {:induction false} NewRoots(a: seq<Rep>, b: seq<Rep>, st: RepState)
    requires Booked(st, a)
    ensures |Rooted(a + b)| - |Roots(a + b)| == |Rooted(a)| - |Roots(a)| + Redelivered(b, st)
    ensures forall x :: x in Rooted(a + b) <==> x in Rooted(a) || x in Rooted(b)
  {
    hide Rooted, Roots;
    if b == [] {
      assert a + b == a;
      NoRoots();
    } else {
      var init, r := b[..|b| - 1], b[|b| - 1];
      NewRoots(a, init, st);
      RootedSnoc(a + init, r);
      RootedSnoc(init, r);
      assert a + b == (a + init) + [r] && b == init + [r];
      assert r.root in Rooted(a) ==> RootCount(st, r.root) > 0;
    }
  }

  lemma RootedSnoc(rs: seq<Rep>, r: Rep)
    ensures Rooted(rs + [r]) == Rooted(rs) + if r.root != 0 then [r.root] else []
    ensures |Rooted(rs + [r])| - |Roots(rs + [r])| == |Rooted(rs)| - |Roots(rs)| + if r.root != 0 && r.root in Rooted(rs) then 1 else 0
  {
    var all := rs + [r];
    assert all[..|rs|] == rs && all[|rs|] == r && all[..|rs| + 1] == all;
    RootedStep(all, |rs|);
    if r.root != 0 && r.root in Rooted(rs) { assert Roots(rs) + {r.root} == Roots(rs); }
    if r.root == 0 { assert Roots(rs) + {} == Roots(rs); }
  }

  /** What the engine measures of a bundle of new items is what it adds to the objective of what was chosen. */
  lemma GainIsDifference(s: Solver, rs: seq<Rep>, b: seq<Rep>, st: RepState)
    requires Booked(st, rs) && forall r | r in b :: r.item !in st.cov
    ensures BundleGain(s, b, st) == Raw(s, rs + b) - Raw(s, rs)
  {
    hide Cover, Rooted, Roots, CoverGain, Redelivered;
    CoverConcat(s, rs, b);
    NewCover(s, b, st);
    NewRoots(rs, b, st);
    Spread(s.penalty, (|Rooted(rs)| - |Roots(rs)|) as real, Redelivered(b, st) as real);
  }

  lemma Spread(l: real, a: real, b: real)
    ensures l * (a + b) == l * a + l * b
  {
  }

  /** The books of what was applied. */
  lemma {:induction false} BookedApply(st: RepState, rs: seq<Rep>, b: seq<Rep>)
    requires Booked(st, rs)
    ensures Booked(Apply(st, b), rs + b)
    decreases |b|
  {
    if b == [] {
      assert rs + b == rs;
    } else {
      BookedOne(st, rs, b[0]);
      BookedApply(ApplyOne(st, b[0]), rs + [b[0]], b[1..]);
      assert rs + [b[0]] + b[1..] == rs + b;
    }
  }

  lemma BookedOne(st: RepState, rs: seq<Rep>, r: Rep)
    requires Booked(st, rs)
    ensures Booked(ApplyOne(st, r), rs + [r])
  {
    hide Rooted, Roots;
    var all := rs + [r];
    RootedSnoc(rs, r);
    assert forall x :: x in all <==> x in rs || x == r;
    assert Delivered(all) == Delivered(rs) + {r.item};
  }

  /** What a run delivers, in order. */
  function Deliveries(s: Solver, moves: seq<Move>, ms: seq<nat>): seq<Rep> {
    if ms == [] then []
    else
      var init, m := ms[..|ms| - 1], ms[|ms| - 1];
      var b := if m < |moves| then BundleFor(s, moves[m], After(RepProblem(s, moves), EMPTY, init)) else None;
      Deliveries(s, moves, init) + if b.Some? then b.value else []
  }

  lemma {:induction false} RunBooked(s: Solver, moves: seq<Move>, ms: seq<nat>)
    ensures Booked(After(RepProblem(s, moves), EMPTY, ms), Deliveries(s, moves, ms))
  {
    hide BundleFor, Apply, Booked, BundleGain, Reserve, CostOf;
    if ms == [] {
      NothingBooked();
    } else {
      var init, m := ms[..|ms| - 1], ms[|ms| - 1];
      RunBooked(s, moves, init);
      var st := After(RepProblem(s, moves), EMPTY, init);
      var b := if m < |moves| then BundleFor(s, moves[m], st) else None;
      if b.Some? { BookedApply(st, Deliveries(s, moves, init), b.value); }
      else { assert Deliveries(s, moves, init) + [] == Deliveries(s, moves, init); }
    }
  }

  /** At every point of a run, the gain of a live move is what its bundle adds to the declared objective of what
      has been delivered. */
  lemma MoveGainIsDifference(s: Solver, moves: seq<Move>, ms: seq<nat>, n: nat)
    requires WellFormed(s) && n < |moves| && RepProblem(s, moves).live(After(RepProblem(s, moves), EMPTY, ms), n)
    ensures var p, rs := RepProblem(s, moves), Deliveries(s, moves, ms);
            var b := BundleFor(s, moves[n], After(p, EMPTY, ms));
            b.Some? && p.gain(After(p, EMPTY, ms), n) == Raw(s, rs + b.value) - Raw(s, rs)
  {
    hide After, Deliveries, BundleGain, Raw, Booked, Reserve, CostOf, Apply, Close;
    var st := After(RepProblem(s, moves), EMPTY, ms);
    RunBooked(s, moves, ms);
    LiveIs(s, moves, st, n);
    var mv := moves[n];
    var main := s.cands[mv.cand].reps[mv.rep];
    CloseMonotone(s, EMPTY.chosen.Keys + {main.item}, st.chosen.Keys + {main.item}, main.needs);
    var b := BundleFor(s, mv, st).value;
    assert IsBundle(s, mv.cand, mv.rep, st.chosen.Keys, b);
    BundleFacts(s, mv.cand, mv.rep, st.chosen.Keys, b);
    FreshItems(st.chosen.Keys, b);
    assert st.cov.Keys == st.chosen.Keys by { BooksAgree(st, Deliveries(s, moves, ms)); }
    GainIsDifference(s, Deliveries(s, moves, ms), b, st);
  }

  lemma BooksAgree(st: RepState, rs: seq<Rep>)
    requires Booked(st, rs)
    ensures st.cov.Keys == st.chosen.Keys
  {
  }

  lemma {:induction false} FreshItems(have: set<Item>, b: seq<Rep>)
    requires Fresh(have, b)
    ensures forall r | r in b :: r.item !in have
    decreases |b|
  {
    if b != [] {
      FreshItems(have + {b[0].item}, b[1..]);
      assert forall r | r in b :: r == b[0] || r in b[1..];
    }
  }

  lemma NothingBooked()
    ensures Booked(EMPTY, [])
  {
  }

  // The selector's guards

  datatype Answer = Declined(why: BlockSelect.Refusal) | Answered(q: Proposal)

  /** The lowest price among the first `n` deliverable representations. */
  function LowestPrice(reps: seq<Rep>, n: nat): Option<int>
    requires n <= |reps|
  {
    if n == 0 then None
    else
      var p, r := LowestPrice(reps, n - 1), reps[n - 1];
      if r.kind != ArchiveOnly && (p.None? || r.cost < p.value) then Some(r.cost) else p
  }

  function AsBlock(c: Cand): BlockSelect.Block {
    var p := LowestPrice(c.reps, |c.reps|);
    BlockSelect.Block(c.item, c.pos, if p.Some? then p.value else 0, 0, false)
  }

  /** The call as its caller sees it: the selector's constructor refuses it, or it is answered soundly. */
  method ProposeFor(p: int, s: Solver, pSelection: bool) returns (a: Answer, ghost moves: seq<Move>, ghost ms: seq<nat>)
    requires WellFormed(s)
    ensures a == Declined(BlockSelect.BeforeP) <==> exists k | 0 <= k < |s.cands| :: s.cands[k].pos < p
    ensures a == Declined(BlockSelect.NoPSelection) <==> !pSelection && forall k | 0 <= k < |s.cands| :: s.cands[k].pos >= p
    ensures a.Answered? ==> Answers(s, a.q) && (!a.q.overflow ==> FollowsRun(s, a.q, moves, ms))
  {
    hide WellFormed, Answers, FollowsRun;
    moves, ms := [], [];
    var blocks := seq(|s.cands|, k requires 0 <= k < |s.cands| => AsBlock(s.cands[k]));
    assert forall k | 0 <= k < |s.cands| :: blocks[k].pos == s.cands[k].pos;
    var c := BlockSelect.NewSelector(p, blocks, map[], map[], s.penalty, true, pSelection);
    if c.Refused? {
      a := Declined(c.why);
      return;
    }
    var q;
    q, moves, ms := ProposeSelection(s);
    a := Answered(q);
  }

}
