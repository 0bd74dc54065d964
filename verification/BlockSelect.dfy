/** Block selection: coverage that saturates per content root, less a redundancy penalty, maximized
    greedily under a token budget.  Gains are exact reals. */
module BlockSelect {
  import opened GreedyEngine

  type Id = string

  /** `root` 0 is the zero hash: no recorded content root. */
  datatype Block = Block(id: Id, pos: int, tokens: int, root: nat, superseded: bool)

  datatype Group = ByRoot(root: nat) | ById(id: Id)

  /** `penalty` is the weight lambda of redundancy. */
  datatype Selector = Selector(p: int, blocks: seq<Block>, value: map<Id, real>, penalty: real)

  datatype Selection = Selection(keep: seq<Id>, dropped: seq<Id>, tokens: int, value: real, iters: nat)

  function GroupOf(b: Block): Group { if b.root == 0 then ById(b.id) else ByRoot(b.root) }

  function Value(s: Selector, b: Block): real { if b.id in s.value then s.value[b.id] else 0.0 }

  /** Contributions come out of the constructor saturated. */
  ghost predicate ValuesOk(s: Selector) { forall id | id in s.value :: 0.0 <= s.value[id] <= 1.0 }

  ghost predicate DistinctIds(s: Selector) {
    forall i, j | 0 <= i < j < |s.blocks| :: s.blocks[i].id != s.blocks[j].id
  }

  datatype Refusal = BeforeP | NoPSelection

  datatype Constructed = Built(sel: Selector, lazy: bool) | Refused(why: Refusal)

  /** A contribution: the delta score, else the slice score, else nothing. */
  function Resolve(id: Id, delta: map<Id, real>, scores: map<Id, real>): real {
    if id in delta then Satur(delta[id]) else if id in scores then Satur(scores[id]) else 0.0
  }

  // The order of ids

  predicate Before(a: Id, b: Id) { b != [] && (a == [] || a[0] < b[0] || (a[0] == b[0] && Before(a[1..], b[1..]))) }

  lemma {:induction false} BeforeTotal(a: Id, b: Id)
    ensures !(Before(a, b) && Before(b, a)) && (Before(a, b) || Before(b, a) || a == b)
  {
    if a != [] && b != [] && a[0] == b[0] {
      BeforeTotal(a[1..], b[1..]);
      assert a == [a[0]] + a[1..] && b == [b[0]] + b[1..];
    }
  }

  lemma {:induction false} BeforeTransitive(a: Id, b: Id, c: Id)
    requires Before(a, b) && Before(b, c)
    ensures Before(a, c)
  {
    if a != [] && a[0] == b[0] == c[0] { BeforeTransitive(a[1..], b[1..], c[1..]); }
  }

  predicate SortedById(bs: seq<Block>) { forall i, j | 0 <= i < j < |bs| :: !Before(bs[j].id, bs[i].id) }

  /** The blocks of one id, in order. */
  function Sharing(bs: seq<Block>, id: Id): seq<Block> {
    if bs == [] then [] else Sharing(bs[..|bs| - 1], id) + if bs[|bs| - 1].id == id then [bs[|bs| - 1]] else []
  }

  /** The result of a stable sort by id. */
  ghost predicate IsSortOf(bs: seq<Block>, from: seq<Block>) {
    SortedById(bs) && multiset(bs) == multiset(from) && forall id :: Sharing(bs, id) == Sharing(from, id)
  }

  /** After everything its id does not precede. */
  function Insert(bs: seq<Block>, b: Block): seq<Block> {
    if bs == [] || !Before(b.id, bs[|bs| - 1].id) then bs + [b] else Insert(bs[..|bs| - 1], b) + [bs[|bs| - 1]]
  }

  lemma {:induction false} InsertShares(bs: seq<Block>, b: Block, id: Id)
    ensures Sharing(Insert(bs, b), id) == Sharing(bs + [b], id)
  {
    hide Before;
    assert (bs + [b])[..|bs|] == bs;
    if bs != [] && Before(b.id, bs[|bs| - 1].id) {
      var body, last := bs[..|bs| - 1], bs[|bs| - 1];
      InsertShares(body, b, id);
      assert (body + [b])[..|body|] == body;
      assert (Insert(body, b) + [last])[..|Insert(body, b)|] == Insert(body, b);
      BeforeTotal(b.id, last.id);
    }
  }

  lemma {:induction false} InsertSorts(bs: seq<Block>, b: Block)
    requires SortedById(bs)
    ensures SortedById(Insert(bs, b)) && multiset(Insert(bs, b)) == multiset(bs) + multiset{b}
  {
    hide Before;
    if bs == [] || !Before(b.id, bs[|bs| - 1].id) {
      forall i | 0 <= i < |bs| ensures !Before(b.id, bs[i].id) { NotBefore(bs, b, i); }
    } else {
      var body, last := bs[..|bs| - 1], bs[|bs| - 1];
      InsertSorts(body, b);
      assert bs == body + [last];
      var r := Insert(body, b);
      forall i | 0 <= i < |r| ensures !Before(last.id, r[i].id) {
        assert r[i] in multiset(r);
        assert r[i] == b || r[i] in body;
        BeforeTotal(b.id, last.id);
      }
    }
  }

  lemma NotBefore(bs: seq<Block>, b: Block, i: nat)
    requires SortedById(bs) && i < |bs| && !Before(b.id, bs[|bs| - 1].id)
    ensures !Before(b.id, bs[i].id)
  {
    hide Before;
    var last := bs[|bs| - 1];
    BeforeTotal(bs[i].id, last.id);
    if Before(b.id, bs[i].id) && Before(bs[i].id, last.id) { BeforeTransitive(b.id, bs[i].id, last.id); }
  }

  lemma IsSortStep(sorted: seq<Block>, bs: seq<Block>, i: nat)
    requires i < |bs| && IsSortOf(sorted, bs[..i])
    ensures IsSortOf(Insert(sorted, bs[i]), bs[..i + 1])
  {
    hide Before, Insert, SortedById;
    assert bs[..i + 1] == bs[..i] + [bs[i]];
    InsertSorts(sorted, bs[i]);
    forall id ensures Sharing(Insert(sorted, bs[i]), id) == Sharing(bs[..i + 1], id) {
      InsertShares(sorted, bs[i], id);
      assert (sorted + [bs[i]])[..|sorted|] == sorted && bs[..i + 1][..i] == bs[..i];
    }
  }

  method SortById(bs: seq<Block>) returns (sorted: seq<Block>)
    ensures IsSortOf(sorted, bs)
  {
    hide IsSortOf, Insert;
    sorted := [];
    assert IsSortOf(sorted, bs[..0]) by { NothingSorted(bs); }
    for i := 0 to |bs|
      invariant IsSortOf(sorted, bs[..i])
    {
      IsSortStep(sorted, bs, i);
      sorted := Insert(sorted, bs[i]);
    }
    assert bs[..|bs|] == bs;
  }

  lemma NothingSorted(bs: seq<Block>)
    ensures IsSortOf([], bs[..0])
  {
    assert bs[..0] == [];
  }

  /** The constructor's two guards, in their order, the candidates sorted by id, and the resolution of each
      contribution. */
  method NewSelector(p: int, blocks: seq<Block>, scores: map<Id, real>, delta: map<Id, real>, penalty: real,
                     lazy: bool, pSelection: bool) returns (c: Constructed)
    ensures c == Refused(BeforeP) <==> exists k | 0 <= k < |blocks| :: blocks[k].pos < p
    ensures c == Refused(NoPSelection) <==> !pSelection && forall k | 0 <= k < |blocks| :: blocks[k].pos >= p
    ensures c.Built? ==> ValuesOk(c.sel) && IsSortOf(c.sel.blocks, blocks) && c.sel.p == p && c.sel.penalty == penalty && c.lazy == lazy
    ensures c.Built? ==> forall b | b in c.sel.blocks :: b.id in c.sel.value
    ensures c.Built? ==> forall b | b in c.sel.blocks && b.id in delta :: c.sel.value[b.id] == Clamp(delta[b.id])
    ensures c.Built? ==> forall b | b in c.sel.blocks && b.id !in delta && b.id in scores :: c.sel.value[b.id] == Clamp(scores[b.id])
    ensures c.Built? ==> forall b | b in c.sel.blocks && b.id !in delta && b.id !in scores :: c.sel.value[b.id] == 0.0
  {
    hide IsSortOf, Resolve, Clamp;
    for i := 0 to |blocks|
      invariant forall k | 0 <= k < i :: blocks[k].pos >= p
    {
      if blocks[i].pos < p { return Refused(BeforeP); }
    }
    if !pSelection { return Refused(NoPSelection); }
    var sorted := SortById(blocks);
    var value: map<Id, real> := map[];
    for i := 0 to |sorted|
      invariant forall id | id in value :: 0.0 <= value[id] <= 1.0
      invariant forall k | 0 <= k < i :: sorted[k].id in value && value[sorted[k].id] == Resolve(sorted[k].id, delta, scores)
      invariant forall k | 0 <= k < i :: value[sorted[k].id] ==
                  (if sorted[k].id in delta then Clamp(delta[sorted[k].id]) else if sorted[k].id in scores then Clamp(scores[sorted[k].id]) else 0.0)
    {
      ResolveBounds(sorted[i].id, delta, scores);
      ResolvePrecedes(sorted[i].id, delta, scores);
      value := value[sorted[i].id := Resolve(sorted[i].id, delta, scores)];
    }
    return Built(Selector(p, sorted, value, penalty), lazy);
  }

  /** The nearest of 0 and 1 to a number outside them. */
  function Clamp(v: real): (c: real)
    ensures 0.0 <= c <= 1.0 && (0.0 <= v <= 1.0 ==> c == v) && (v <= 0.0 ==> c == 0.0) && (v >= 1.0 ==> c == 1.0)
  {
    if v <= 0.0 then 0.0 else if v >= 1.0 then 1.0 else v
  }

  /** A delta score comes before a slice score. */
  lemma ResolvePrecedes(id: Id, delta: map<Id, real>, scores: map<Id, real>)
    ensures Resolve(id, delta, scores) == if id in delta then Clamp(delta[id]) else if id in scores then Clamp(scores[id]) else 0.0
  {
  }

  lemma ResolveBounds(id: Id, delta: map<Id, real>, scores: map<Id, real>)
    ensures 0.0 <= Resolve(id, delta, scores) <= 1.0
  {
  }

  // ------------------------------------------------------------------------------------------
  // The declared objective
  // ------------------------------------------------------------------------------------------

  /** What the kept blocks deliver of one group, before saturation. */
  function GroupCov(s: Selector, bs: seq<Block>, g: Group): real {
    if bs == [] then 0.0
    else GroupCov(s, bs[..|bs| - 1], g) + (if GroupOf(bs[|bs| - 1]) == g then Value(s, bs[|bs| - 1]) else 0.0)
  }

  function GroupCount(bs: seq<Block>, g: Group): nat {
    if bs == [] then 0
    else GroupCount(bs[..|bs| - 1], g) + (if GroupOf(bs[|bs| - 1]) == g then 1 else 0)
  }

  /** The groups delivered, each once. */
  function Groups(bs: seq<Block>): seq<Group> {
    if bs == [] then []
    else
      var gs, g := Groups(bs[..|bs| - 1]), GroupOf(bs[|bs| - 1]);
      if g in gs then gs else gs + [g]
  }

  function CoverOver(s: Selector, bs: seq<Block>, gs: seq<Group>): real {
    if gs == [] then 0.0 else CoverOver(s, bs, gs[..|gs| - 1]) + Satur(GroupCov(s, bs, gs[|gs| - 1]))
  }

  function Coverage(s: Selector, bs: seq<Block>): real { CoverOver(s, bs, Groups(bs)) }

  /** Superseded blocks, and blocks that re-deliver a group already held. */
  function Redundancy(bs: seq<Block>): nat {
    if bs == [] then 0
    else
      var b, rest := bs[|bs| - 1], bs[..|bs| - 1];
      Redundancy(rest) + (if b.superseded then 1 else 0) + (if GroupCount(rest, GroupOf(b)) > 0 then 1 else 0)
  }

  function Objective(s: Selector, bs: seq<Block>): real { Coverage(s, bs) - s.penalty * (Redundancy(bs) as real) }

  // ------------------------------------------------------------------------------------------
  // The running state
  // ------------------------------------------------------------------------------------------

  datatype BlockState = BlockState(kept: set<nat>, cov: map<Group, real>, count: map<Group, nat>)

  function CovAt(st: BlockState, g: Group): real { if g in st.cov then st.cov[g] else 0.0 }

  function CountAt(st: BlockState, g: Group): nat { if g in st.count then st.count[g] else 0 }

  function GainOf(s: Selector, b: Block, st: BlockState): real {
    var g := GroupOf(b);
    var red := (if b.superseded then 1.0 else 0.0) + (if CountAt(st, g) > 0 then 1.0 else 0.0);
    Satur(CovAt(st, g) + Value(s, b)) - Satur(CovAt(st, g)) - s.penalty * red
  }

  function Keep(s: Selector, st: BlockState, i: nat): BlockState {
    if i >= |s.blocks| then st
    else
      var g := GroupOf(s.blocks[i]);
      BlockState(st.kept + {i}, st.cov[g := CovAt(st, g) + Value(s, s.blocks[i])], st.count[g := CountAt(st, g) + 1])
  }

  const NOTHING_KEPT := BlockState({}, map[], map[])

  function SelectProblem(s: Selector): Problem<BlockState> {
    Problem(|s.blocks|, true,
            (st: BlockState, i: nat) => if i < |s.blocks| then GainOf(s, s.blocks[i], st) else 0.0,
            (st: BlockState, i: nat) => if i < |s.blocks| then s.blocks[i].tokens else 0,
            (st: BlockState, i: nat, cost: int, spent: int) => true,
            (st: BlockState, i: nat) => i !in st.kept,
            (st: BlockState, i: nat) => Keep(s, st, i))
  }

  ghost predicate NonNegative(st: BlockState) { forall g | g in st.cov :: st.cov[g] >= 0.0 }

  /** Saturating coverage has diminishing returns. */
  lemma SaturConcave(had: real, more: real, v: real)
    requires had >= 0.0 && more >= 0.0 && v >= 0.0
    ensures Satur(had + more + v) - Satur(had + more) <= Satur(had + v) - Satur(had)
    ensures 0.0 <= Satur(had + v) - Satur(had) <= 1.0
  {
  }

  lemma RedundancyCosts(penalty: real, a: real, b: real)
    requires penalty >= 0.0 && a <= b
    ensures penalty * a <= penalty * b
  {
  }

  lemma GainShrinks(s: Selector, st: BlockState, m: nat, n: nat)
    requires s.penalty >= 0.0 && ValuesOk(s) && NonNegative(st) && m < |s.blocks| && n < |s.blocks|
    ensures GainOf(s, s.blocks[n], Keep(s, st, m)) <= GainOf(s, s.blocks[n], st) <= 1.0
  {
    var st', b := Keep(s, st, m), s.blocks[n];
    var g := GroupOf(b);
    var red := (if b.superseded then 1.0 else 0.0) + (if CountAt(st, g) > 0 then 1.0 else 0.0);
    var red' := (if b.superseded then 1.0 else 0.0) + (if CountAt(st', g) > 0 then 1.0 else 0.0);
    RedundancyCosts(s.penalty, red, red');
    RedundancyCosts(s.penalty, 0.0, red);
    var more := if GroupOf(s.blocks[m]) == g then Value(s, s.blocks[m]) else 0.0;
    assert CovAt(st', g) == CovAt(st, g) + more;
    SaturConcave(CovAt(st, g), more, Value(s, b));
  }

  /** With a nonnegative penalty the selection problem is exact for the engine, lazy or eager. */
  lemma SelectExact(s: Selector)
    requires s.penalty >= 0.0 && ValuesOk(s)
    ensures Exact(SelectProblem(s), NonNegative)
  {
    var p := SelectProblem(s);
    forall st: BlockState, m: nat, n: nat | NonNegative(st) && m < p.moves && n < p.moves && Worth(p, p.accept(st, m), n) > 0.0
      ensures Worth(p, p.accept(st, m), n) <= Worth(p, st, n)
    {
      GainShrinks(s, st, m, n);
      GainShrinks(s, p.accept(st, m), m, n);
    }
  }

  // ------------------------------------------------------------------------------------------
  // What a run delivers
  // ------------------------------------------------------------------------------------------

  predicate InRange(s: Selector, ms: seq<nat>) { forall k | 0 <= k < |ms| :: ms[k] < |s.blocks| }

  function Taken(s: Selector, ms: seq<nat>): (bs: seq<Block>)
    requires InRange(s, ms)
    ensures |bs| == |ms| && forall k | 0 <= k < |ms| :: bs[k] == s.blocks[ms[k]]
  {
    if ms == [] then [] else Taken(s, ms[..|ms| - 1]) + [s.blocks[ms[|ms| - 1]]]
  }

  function TokenSum(bs: seq<Block>): int {
    if bs == [] then 0 else TokenSum(bs[..|bs| - 1]) + bs[|bs| - 1].tokens
  }

  lemma {:induction false} StateTracks(s: Selector, ms: seq<nat>, g: Group)
    requires InRange(s, ms)
    ensures var st := After(SelectProblem(s), NOTHING_KEPT, ms);
            CovAt(st, g) == GroupCov(s, Taken(s, ms), g) && CountAt(st, g) == GroupCount(Taken(s, ms), g)
  {
    if ms != [] {
      var init := ms[..|ms| - 1];
      StateTracks(s, init, g);
      assert Taken(s, ms)[..|ms| - 1] == Taken(s, init);
    }
  }

  lemma {:induction false} KeptTracks(s: Selector, ms: seq<nat>)
    requires InRange(s, ms)
    ensures forall m: nat :: m in After(SelectProblem(s), NOTHING_KEPT, ms).kept <==> m in ms
  {
    if ms != [] {
      var init := ms[..|ms| - 1];
      KeptTracks(s, init);
      assert ms == init + [ms[|ms| - 1]];
    }
  }

  lemma {:induction false} SpentTracks(s: Selector, ms: seq<nat>)
    requires InRange(s, ms)
    ensures Spent(SelectProblem(s), NOTHING_KEPT, ms) == TokenSum(Taken(s, ms))
  {
    hide After;
    if ms != [] {
      var init := ms[..|ms| - 1];
      SpentTracks(s, init);
      assert Taken(s, ms)[..|ms| - 1] == Taken(s, init);
    }
  }

  /** The sum of what each accepted move was measured to add when it was accepted. */
  function GainSum(s: Selector, ms: seq<nat>): real
    requires InRange(s, ms)
  {
    if ms == [] then 0.0
    else
      var init := ms[..|ms| - 1];
      GainSum(s, init) + GainOf(s, s.blocks[ms[|ms| - 1]], After(SelectProblem(s), NOTHING_KEPT, init))
  }

  predicate Unique(gs: seq<Group>) { forall i, j | 0 <= i < j < |gs| :: gs[i] != gs[j] }

  lemma {:induction false} GroupsFacts(bs: seq<Block>)
    ensures Unique(Groups(bs))
    ensures forall g :: g in Groups(bs) <==> GroupCount(bs, g) > 0
  {
    if bs != [] {
      GroupsFacts(bs[..|bs| - 1]);
      var gs, g := Groups(bs[..|bs| - 1]), GroupOf(bs[|bs| - 1]);
      if g !in gs { assert forall x :: x in gs + [g] <==> x in gs || x == g; }
    }
  }

  lemma {:induction false} UncountedUncovered(s: Selector, bs: seq<Block>, g: Group)
    requires GroupCount(bs, g) == 0
    ensures GroupCov(s, bs, g) == 0.0
  {
    if bs != [] { UncountedUncovered(s, bs[..|bs| - 1], g); }
  }

  /** Adding one block moves the coverage sum in that block's group only. */
  lemma {:induction false} CoverOverSnoc(s: Selector, bs: seq<Block>, b: Block, gs: seq<Group>)
    requires Unique(gs)
    ensures CoverOver(s, bs + [b], gs) - CoverOver(s, bs, gs)
         == if GroupOf(b) in gs then Satur(GroupCov(s, bs, GroupOf(b)) + Value(s, b)) - Satur(GroupCov(s, bs, GroupOf(b))) else 0.0
  {
    if gs != [] {
      var init, g := gs[..|gs| - 1], gs[|gs| - 1];
      CoverOverSnoc(s, bs, b, init);
      assert (bs + [b])[..|bs|] == bs;
      assert gs == init + [g];
      assert GroupOf(b) in gs <==> GroupOf(b) in init || GroupOf(b) == g;
      assert forall i | 0 <= i < |init| :: init[i] == gs[i] != g;
    }
  }

  lemma CoverageSnoc(s: Selector, bs: seq<Block>, b: Block)
    ensures var c := GroupCov(s, bs, GroupOf(b));
            Coverage(s, bs + [b]) == Coverage(s, bs) + (Satur(c + Value(s, b)) - Satur(c))
  {
    hide GroupCov, GroupCount, CoverOver, GroupOf, Value;
    var bs', g := bs + [b], GroupOf(b);
    assert bs'[..|bs|] == bs;
    GroupsFacts(bs);
    CoverOverSnoc(s, bs, b, Groups(bs));
    if g !in Groups(bs) {
      UncountedUncovered(s, bs, g);
      GroupCovSnoc(s, bs, b);
      CoverOverPush(s, bs', Groups(bs), g);
    }
  }

  lemma GroupCovSnoc(s: Selector, bs: seq<Block>, b: Block)
    ensures GroupCov(s, bs + [b], GroupOf(b)) == GroupCov(s, bs, GroupOf(b)) + Value(s, b)
  {
    assert (bs + [b])[..|bs|] == bs;
  }

  lemma CoverOverPush(s: Selector, bs: seq<Block>, gs: seq<Group>, g: Group)
    ensures CoverOver(s, bs, gs + [g]) == CoverOver(s, bs, gs) + Satur(GroupCov(s, bs, g))
  {
    assert (gs + [g])[..|gs|] == gs;
  }

  /** What one more block adds to the objective. */
  lemma ObjectiveSnoc(s: Selector, bs: seq<Block>, b: Block)
    ensures var c, red := GroupCov(s, bs, GroupOf(b)), (if b.superseded then 1.0 else 0.0) + (if GroupCount(bs, GroupOf(b)) > 0 then 1.0 else 0.0);
            Objective(s, bs + [b]) == Objective(s, bs) + (Satur(c + Value(s, b)) - Satur(c) - s.penalty * red)
  {
    hide Coverage, GroupCov, GroupCount, Value, GroupOf;
    CoverageSnoc(s, bs, b);
    var red := (if b.superseded then 1 else 0) + (if GroupCount(bs, GroupOf(b)) > 0 then 1 else 0);
    assert (bs + [b])[..|bs|] == bs;
    assert Redundancy(bs + [b]) == Redundancy(bs) + red;
    Distribute(s.penalty, Redundancy(bs), red);
  }

  lemma Distribute(l: real, a: nat, b: nat)
    ensures l * ((a + b) as real) == l * (a as real) + l * (b as real)
  {
  }

  /** The objective, evaluated from the kept blocks alone, is the sum of the accepted gains. */
  lemma {:induction false} ObjectiveIsGainSum(s: Selector, ms: seq<nat>)
    requires InRange(s, ms)
    ensures Objective(s, Taken(s, ms)) == GainSum(s, ms)
  {
    hide Objective, After;
    if ms == [] {
      ObjectiveOfNothing(s);
    } else {
      var init, b := ms[..|ms| - 1], s.blocks[ms[|ms| - 1]];
      ObjectiveIsGainSum(s, init);
      assert Taken(s, ms) == Taken(s, init) + [b];
      ObjectiveSnoc(s, Taken(s, init), b);
      StateTracks(s, init, GroupOf(b));
    }
  }

  lemma ObjectiveOfNothing(s: Selector)
    ensures Objective(s, []) == 0.0
  {
  }

  lemma {:induction false} GainSumNonNegative(s: Selector, budget: int, ms: seq<nat>)
    requires InRange(s, ms) && AllowedRun(SelectProblem(s), NOTHING_KEPT, budget, ms)
    ensures GainSum(s, ms) >= 0.0
  {
    hide After, Spent, GainOf, Affordable;
    if ms != [] {
      var init, last := ms[..|ms| - 1], ms[|ms| - 1];
      var p := SelectProblem(s);
      assert forall k | 0 <= k < |init| :: init[..k] == ms[..k];
      GainSumNonNegative(s, budget, init);
      assert Eligible(p, After(p, NOTHING_KEPT, ms[..|ms| - 1]), Spent(p, NOTHING_KEPT, ms[..|ms| - 1]), budget, ms[|ms| - 1]);
    }
  }

  lemma AllowedInRange(s: Selector, budget: int, ms: seq<nat>)
    requires AllowedRun(SelectProblem(s), NOTHING_KEPT, budget, ms)
    ensures InRange(s, ms)
    ensures ms != [] ==> Spent(SelectProblem(s), NOTHING_KEPT, ms) <= budget
  {
    var p := SelectProblem(s);
    forall k | 0 <= k < |ms| ensures ms[k] < |s.blocks| {
      assert Eligible(p, After(p, NOTHING_KEPT, ms[..k]), Spent(p, NOTHING_KEPT, ms[..k]), budget, ms[k]);
    }
    if ms != [] {
      var k := |ms| - 1;
      assert Eligible(p, After(p, NOTHING_KEPT, ms[..k]), Spent(p, NOTHING_KEPT, ms[..k]), budget, ms[k]);
    }
  }

  // ------------------------------------------------------------------------------------------
  // The independent valuation
  // ------------------------------------------------------------------------------------------

  /** Whether some of the first `n` blocks has this id, and the last that does. */
  predicate Known(s: Selector, id: Id, n: nat)
    requires n <= |s.blocks|
  {
    exists k | 0 <= k < n :: s.blocks[k].id == id
  }

  function Lookup(s: Selector, id: Id, n: nat): (b: Block)
    requires n <= |s.blocks| && Known(s, id, n)
    ensures b.id == id
  {
    if s.blocks[n - 1].id == id then s.blocks[n - 1] else Lookup(s, id, n - 1)
  }

  /** The blocks a list of ids names, unknown ids skipped. */
  function Named(s: Selector, keep: seq<Id>): seq<Block> {
    if keep == [] then []
    else
      var rest, id := Named(s, keep[..|keep| - 1]), keep[|keep| - 1];
      if Known(s, id, |s.blocks|) then rest + [Lookup(s, id, |s.blocks|)] else rest
  }

  method IndexById(s: Selector) returns (byId: map<Id, Block>)
    ensures Indexed(s, byId)
  {
    byId := map[];
    for i := 0 to |s.blocks|
      invariant forall id :: id in byId <==> Known(s, id, i)
      invariant forall id | id in byId :: byId[id] == Lookup(s, id, i)
    {
      forall id ensures Known(s, id, i + 1) <==> Known(s, id, i) || id == s.blocks[i].id {
        if Known(s, id, i) { var k :| 0 <= k < i && s.blocks[k].id == id; assert 0 <= k < i + 1; }
        if id == s.blocks[i].id { assert 0 <= i < i + 1; }
      }
      byId := byId[s.blocks[i].id := s.blocks[i]];
    }
  }

  lemma NamedStep(s: Selector, keep: seq<Id>, i: nat)
    requires i < |keep|
    ensures Named(s, keep[..i + 1])
         == if Known(s, keep[i], |s.blocks|) then Named(s, keep[..i]) + [Lookup(s, keep[i], |s.blocks|)] else Named(s, keep[..i])
  {
    hide Known, Lookup;
    assert keep[..i + 1][..i] == keep[..i];
  }

  lemma AccountSnoc(s: Selector, bs: seq<Block>, b: Block)
    ensures forall g :: GroupCov(s, bs + [b], g) == GroupCov(s, bs, g) + (if GroupOf(b) == g then Value(s, b) else 0.0)
    ensures forall g :: GroupCount(bs + [b], g) == GroupCount(bs, g) + (if GroupOf(b) == g then 1 else 0)
    ensures Redundancy(bs + [b])
         == Redundancy(bs) + (if b.superseded then 1 else 0) + (if GroupCount(bs, GroupOf(b)) > 0 then 1 else 0)
    ensures Groups(bs + [b]) == if GroupOf(b) in Groups(bs) then Groups(bs) else Groups(bs) + [GroupOf(b)]
  {
    assert (bs + [b])[..|bs|] == bs;
  }

  function At(cov: map<Group, real>, g: Group): real { if g in cov then cov[g] else 0.0 }

  function CountIn(count: map<Group, nat>, g: Group): nat { if g in count then count[g] else 0 }

  /** The three running tallies describe `bs`. */
  ghost predicate Tallied(s: Selector, bs: seq<Block>, cov: map<Group, real>, count: map<Group, nat>, red: nat) {
    && (forall g :: At(cov, g) == GroupCov(s, bs, g) && CountIn(count, g) == GroupCount(bs, g))
    && red == Redundancy(bs)
  }

  lemma TallyStep(s: Selector, bs: seq<Block>, b: Block, cov: map<Group, real>, count: map<Group, nat>, red: nat)
    requires Tallied(s, bs, cov, count, red)
    ensures var g := GroupOf(b);
            Tallied(s, bs + [b], cov[g := At(cov, g) + Value(s, b)], count[g := CountIn(count, g) + 1],
                    red + (if b.superseded then 1 else 0) + (if CountIn(count, g) > 0 then 1 else 0))
  {
    hide GroupCov, GroupCount, Redundancy, Value, GroupOf;
    AccountSnoc(s, bs, b);
  }

  ghost predicate Indexed(s: Selector, byId: map<Id, Block>) {
    && (forall id :: id in byId <==> Known(s, id, |s.blocks|))
    && (forall id | id in byId :: byId[id] == Lookup(s, id, |s.blocks|))
  }

  lemma NamedBy(s: Selector, keep: seq<Id>, byId: map<Id, Block>, i: nat)
    requires i < |keep| && Indexed(s, byId)
    ensures Named(s, keep[..i + 1])
         == if keep[i] in byId then Named(s, keep[..i]) + [byId[keep[i]]] else Named(s, keep[..i])
  {
    hide Known, Lookup, Named;
    NamedStep(s, keep, i);
  }

  /** Saturated coverage, each group counted once, in the order the kept ids first name it. */
  method SumGroups(s: Selector, keep: seq<Id>, byId: map<Id, Block>, cov: map<Group, real>) returns (total: real)
    requires Indexed(s, byId)
    requires forall g :: At(cov, g) == GroupCov(s, Named(s, keep), g)
    ensures total == Coverage(s, Named(s, keep))
  {
    hide Indexed, GroupCov, CoverOver, Named, Groups, GroupOf;
    ghost var all, done: seq<Block> := Named(s, keep), [];
    total := 0.0;
    var seen: set<Group> := {};
    NothingNamed(s, keep);
    for i := 0 to |keep|
      invariant done == Named(s, keep[..i])
      invariant forall g :: g in seen <==> g in Groups(done)
      invariant total == CoverOver(s, all, Groups(done))
    {
      NamedBy(s, keep, byId, i);
      if keep[i] in byId {
        var g := GroupOf(byId[keep[i]]);
        AccountSnoc(s, done, byId[keep[i]]);
        if g !in seen {
          CoverOverPush(s, all, Groups(done), g);
          seen := seen + {g};
          total := total + Satur(At(cov, g));
        }
        done := done + [byId[keep[i]]];
      }
    }
    assert keep[..|keep|] == keep;
  }

  /** Re-evaluates the objective from the kept ids alone. */
  method ValueOf(s: Selector, keep: seq<Id>) returns (v: real)
    ensures v == Objective(s, Named(s, keep))
  {
    hide Coverage, Redundancy, Named, Tallied, Indexed;
    var byId := IndexById(s);
    var cov: map<Group, real>, count: map<Group, nat>, red: nat := map[], map[], 0;
    ghost var done: seq<Block> := [];
    NothingNamed(s, keep);
    for i := 0 to |keep|
      invariant done == Named(s, keep[..i])
      invariant Tallied(s, done, cov, count, red)
    {
      NamedBy(s, keep, byId, i);
      if keep[i] in byId {
        var b := byId[keep[i]];
        var g := GroupOf(b);
        TallyStep(s, done, b, cov, count, red);
        if b.superseded { red := red + 1; }
        if CountIn(count, g) > 0 { red := red + 1; }
        cov := cov[g := At(cov, g) + Value(s, b)];
        count := count[g := CountIn(count, g) + 1];
        done := done + [b];
      }
    }
    assert keep[..|keep|] == keep;
    TalliedMeans(s, done, cov, count, red);
    v := SumGroups(s, keep, byId, cov);
    v := v - s.penalty * (red as real);
  }

  lemma TalliedMeans(s: Selector, bs: seq<Block>, cov: map<Group, real>, count: map<Group, nat>, red: nat)
    requires Tallied(s, bs, cov, count, red)
    ensures forall g :: At(cov, g) == GroupCov(s, bs, g)
    ensures red == Redundancy(bs)
  {
    hide GroupCov, GroupCount, Redundancy;
  }

  lemma NothingNamed(s: Selector, keep: seq<Id>)
    ensures Named(s, keep[..0]) == [] && Groups([]) == []
    ensures CoverOver(s, Named(s, keep), []) == 0.0
    ensures Tallied(s, [], map[], map[], 0)
  {
  }

  // ------------------------------------------------------------------------------------------
  // Selection
  // ------------------------------------------------------------------------------------------

  function Ids(bs: seq<Block>): seq<Id> { seq(|bs|, k requires 0 <= k < |bs| => bs[k].id) }

  /** The blocks a run left behind, in candidate order. */
  function Others(s: Selector, ms: seq<nat>, n: nat): seq<Id>
    requires n <= |s.blocks|
  {
    if n == 0 then [] else Others(s, ms, n - 1) + (if n - 1 in ms then [] else [s.blocks[n - 1].id])
  }

  lemma {:induction false} LookupDistinct(s: Selector, k: nat, n: nat)
    requires DistinctIds(s) && k < n <= |s.blocks|
    ensures Known(s, s.blocks[k].id, n) && Lookup(s, s.blocks[k].id, n) == s.blocks[k]
  {
    if k < n - 1 { LookupDistinct(s, k, n - 1); }
  }

  lemma {:induction false} NamedTaken(s: Selector, ms: seq<nat>)
    requires DistinctIds(s) && InRange(s, ms)
    ensures Named(s, Ids(Taken(s, ms))) == Taken(s, ms)
  {
    hide Known, Lookup;
    if ms != [] {
      var init, last := ms[..|ms| - 1], ms[|ms| - 1];
      NamedTaken(s, init);
      LookupDistinct(s, last, |s.blocks|);
      assert Ids(Taken(s, ms))[..|ms| - 1] == Ids(Taken(s, init));
    }
  }

  /** What a selection over the accepted indices `ms` must say. */
  ghost predicate Describes(s: Selector, sel: Selection, ms: seq<nat>) {
    && InRange(s, ms)
    && sel.keep == Ids(Taken(s, ms))
    && sel.dropped == Others(s, ms, |s.blocks|)
    && sel.tokens == TokenSum(Taken(s, ms))
    && sel.value == Objective(s, Named(s, sel.keep))
    && (DistinctIds(s) ==> sel.value == Objective(s, Taken(s, ms)))
  }

  /** Selects greedily; `ms` are the accepted candidate indices. */
  method Select(s: Selector, lazy: bool, budget: int) returns (sel: Selection, ghost ms: seq<nat>)
    ensures Describes(s, sel, ms)
    ensures AllowedRun(SelectProblem(s), NOTHING_KEPT, budget, ms)
    ensures budget >= 0 ==> sel.tokens <= budget
    ensures DistinctIds(s) ==> sel.value == GainSum(s, ms) >= 0.0
    ensures Harmless(s) && ValuesOk(s) && s.penalty >= 0.0 ==> sel.value >= GainSum(s, ms) >= 0.0
    ensures s.penalty >= 0.0 && ValuesOk(s) ==> GreedyRun(SelectProblem(s), NOTHING_KEPT, budget, ms) && Greedy(s, budget, ms)
    ensures |s.blocks| <= sel.iters <= Measurements(SelectProblem(s), NOTHING_KEPT, ms, |ms| + 1)
    ensures s.penalty >= 0.0 && ValuesOk(s) && !lazy ==> sel.iters == Measurements(SelectProblem(s), NOTHING_KEPT, ms, |ms| + 1)
  {
    hide AllowedRun, GreedyRun, Exact, After, Spent, Objective, GainSum, Named, Measurements, LiveMoves, Harmless, Taken, TokenSum, DistinctIds, ValuesOk, Greedy;
    var p := SelectProblem(s);
    if s.penalty >= 0.0 && ValuesOk(s) {
      SelectExact(s);
      ExactMode(p, lazy, NonNegative);
    }
    var r := RunLazyGreedy(p.(lazy := lazy), NOTHING_KEPT, budget, NonNegative);
    ms := r.accepted;
    AllLive(s, lazy);
    MeasurementsMode(p, lazy, NOTHING_KEPT, ms, |ms| + 1);
    RunMode(p, lazy, NOTHING_KEPT, budget, ms);
    AfterMode(p, lazy, NOTHING_KEPT, ms);
    RunFacts(s, budget, ms);
    if s.penalty >= 0.0 && ValuesOk(s) { GreedyByGain(s, budget, ms); }
    var keep, tokens := KeepList(s, r.accepted);
    var dropped: seq<Id> := [];
    for i := 0 to |s.blocks|
      invariant dropped == Others(s, ms, i)
    {
      if i !in r.st.kept { dropped := dropped + [s.blocks[i].id]; }
    }
    var value := ValueOf(s, keep);
    sel := Selection(keep, dropped, tokens, value, r.iters);
  }

  /** What an allowed run spends, keeps and is worth. */
  lemma RunFacts(s: Selector, budget: int, ms: seq<nat>)
    requires AllowedRun(SelectProblem(s), NOTHING_KEPT, budget, ms)
    ensures InRange(s, ms) && (forall m: nat :: m in After(SelectProblem(s), NOTHING_KEPT, ms).kept <==> m in ms)
    ensures budget >= 0 ==> TokenSum(Taken(s, ms)) <= budget
    ensures DistinctIds(s) ==> RunValue(s, ms) == Objective(s, Taken(s, ms)) == GainSum(s, ms) >= 0.0
    ensures Harmless(s) && ValuesOk(s) && s.penalty >= 0.0 ==> RunValue(s, ms) >= GainSum(s, ms) >= 0.0
  {
    hide AllowedRun, After, Objective, GainSum, Named, Harmless, DistinctIds, ValuesOk;
    AllowedInRange(s, budget, ms);
    KeptTracks(s, ms);
    SpentTracks(s, ms);
    ObjectiveIsGainSum(s, ms);
    GainSumNonNegative(s, budget, ms);
    if DistinctIds(s) { NamedTaken(s, ms); }
    if Harmless(s) && ValuesOk(s) && s.penalty >= 0.0 { HarmlessIsNonNegative(s, budget, ms); }
  }

  function UpTo(n: nat): (xs: set<nat>)
    ensures |xs| == n && forall m: nat :: m in xs <==> m < n
  {
    if n == 0 then {} else UpTo(n - 1) + {n - 1}
  }

  lemma AllLive(s: Selector, lazy: bool)
    ensures |LiveMoves(SelectProblem(s).(lazy := lazy), NOTHING_KEPT)| == |s.blocks|
  {
    assert LiveMoves(SelectProblem(s).(lazy := lazy), NOTHING_KEPT) == UpTo(|s.blocks|);
  }

  lemma TakenStep(s: Selector, ms: seq<nat>, i: nat)
    requires InRange(s, ms) && i < |ms|
    ensures Taken(s, ms[..i + 1]) == Taken(s, ms[..i]) + [s.blocks[ms[i]]]
    ensures TokenSum(Taken(s, ms[..i + 1])) == TokenSum(Taken(s, ms[..i])) + s.blocks[ms[i]].tokens
  {
    assert ms[..i + 1][..i] == ms[..i];
    assert Taken(s, ms[..i + 1])[..i] == Taken(s, ms[..i]);
  }

  method KeepList(s: Selector, ms: seq<nat>) returns (keep: seq<Id>, tokens: int)
    requires InRange(s, ms)
    ensures keep == Ids(Taken(s, ms)) && tokens == TokenSum(Taken(s, ms))
  {
    hide Taken, TokenSum;
    keep, tokens := [], 0;
    ghost var bs: seq<Block> := [];
    NothingTaken(s, ms);
    for i := 0 to |ms|
      invariant bs == Taken(s, ms[..i]) && keep == Ids(bs) && tokens == TokenSum(bs)
    {
      TakenStep(s, ms, i);
      keep, tokens := keep + [s.blocks[ms[i]].id], tokens + s.blocks[ms[i]].tokens;
      bs := bs + [s.blocks[ms[i]]];
    }
    assert ms[..|ms|] == ms;
  }

  lemma NothingTaken(s: Selector, ms: seq<nat>)
    ensures Taken(s, ms[..0]) == [] && TokenSum([]) == 0
  {
  }

  /** Lazy and eager selection agree on what is kept, what is dropped, its tokens and its value, and lazily no
      more gains are measured. */
  method SelectBothWays(s: Selector, budget: int) returns (lazy: Selection, eager: Selection)
    requires s.penalty >= 0.0 && ValuesOk(s)
    ensures lazy.(iters := 0) == eager.(iters := 0)
    ensures |s.blocks| <= lazy.iters <= eager.iters
  {
    hide GreedyRun, AllowedRun, GainSum, Measurements;
    ghost var ms, ns;
    lazy, ms := Select(s, true, budget);
    eager, ns := Select(s, false, budget);
    GreedyRunUnique(SelectProblem(s), NOTHING_KEPT, budget, ms, ns);
  }

  // ------------------------------------------------------------------------------------------
  // "A zero budget keeps nothing": exactly when that is so
  // ------------------------------------------------------------------------------------------

  /** What a block is worth to an empty selection. */
  function FirstGain(s: Selector, b: Block): real { Value(s, b) - (if b.superseded then s.penalty else 0.0) }

  lemma FirstGainIsGain(s: Selector, k: nat)
    requires s.penalty >= 0.0 && ValuesOk(s) && k < |s.blocks|
    ensures Worth(SelectProblem(s), NOTHING_KEPT, k) > 0.0 <==> FirstGain(s, s.blocks[k]) > 0.0
  {
    var b := s.blocks[k];
    assert 0.0 <= Value(s, b) <= 1.0;
    assert s.penalty * 1.0 == s.penalty && s.penalty * 0.0 == 0.0;
    assert GainOf(s, b, NOTHING_KEPT) == FirstGain(s, b);
  }

  /** A greedy run on a zero budget is empty if and only if no free block is worth anything. */
  lemma ZeroBudget(s: Selector, ms: seq<nat>)
    requires s.penalty >= 0.0 && ValuesOk(s)
    requires GreedyRun(SelectProblem(s), NOTHING_KEPT, 0, ms)
    ensures ms == [] <==> forall k | 0 <= k < |s.blocks| :: s.blocks[k].tokens != 0 || FirstGain(s, s.blocks[k]) <= 0.0
  {
    hide Worth, FirstGain;
    var p := SelectProblem(s);
    forall k | 0 <= k < |s.blocks|
      ensures Eligible(p, NOTHING_KEPT, 0, 0, k) <==> s.blocks[k].tokens == 0 && FirstGain(s, s.blocks[k]) > 0.0
    {
      FirstGainIsGain(s, k);
    }
    if ms != [] {
      assert ms[..0] == [];
      assert Best(p, After(p, NOTHING_KEPT, ms[..0]), Spent(p, NOTHING_KEPT, ms[..0]), 0, ms[0]);
    }
  }

  /** A free block is kept on a zero budget. */
  lemma ZeroBudgetCanKeep()
    ensures var s := Selector(0, [Block("b", 0, 0, 0, false)], map["b" := 1.0], 0.0);
            GreedyRun(SelectProblem(s), NOTHING_KEPT, 0, [0])
  {
    var s := Selector(0, [Block("b", 0, 0, 0, false)], map["b" := 1.0], 0.0);
    var p := SelectProblem(s);
    var ms: seq<nat> := [0];
    assert ms[..0] == [];
    FirstGainIsGain(s, 0);
    assert Best(p, NOTHING_KEPT, 0, 0, 0);
    assert After(p, NOTHING_KEPT, ms) == Keep(s, NOTHING_KEPT, 0);
    assert 0 in Keep(s, NOTHING_KEPT, 0).kept;
  }

  // ------------------------------------------------------------------------------------------
  // "Value is never negative": exactly when that is so
  // ------------------------------------------------------------------------------------------

  /** The block the valuation takes for the one at `i`: the last of its id. */
  function Shadow(s: Selector, i: nat): Block
    requires i < |s.blocks|
  {
    KnownAt(s, i);
    Lookup(s, s.blocks[i].id, |s.blocks|)
  }

  lemma KnownAt(s: Selector, i: nat)
    requires i < |s.blocks|
    ensures Known(s, s.blocks[i].id, |s.blocks|)
  {
  }

  /** No shadow is superseded unless its block is, and shadows share a group only if their blocks do. */
  ghost predicate Harmless(s: Selector) {
    && (forall i: nat | i < |s.blocks| :: Shadow(s, i).superseded ==> s.blocks[i].superseded)
    && (forall i: nat, j: nat | i < |s.blocks| && j < |s.blocks| && GroupOf(Shadow(s, i)) == GroupOf(Shadow(s, j)) ::
          GroupOf(s.blocks[i]) == GroupOf(s.blocks[j]))
  }

  function Shadows(s: Selector, ms: seq<nat>): (bs: seq<Block>)
    requires InRange(s, ms)
    ensures |bs| == |ms| && forall k | 0 <= k < |ms| :: bs[k] == Shadow(s, ms[k])
  {
    if ms == [] then [] else Shadows(s, ms[..|ms| - 1]) + [Shadow(s, ms[|ms| - 1])]
  }

  lemma {:induction false} NamedAreShadows(s: Selector, ms: seq<nat>)
    requires InRange(s, ms)
    ensures Named(s, Ids(Taken(s, ms))) == Shadows(s, ms)
  {
    hide Known, Lookup;
    if ms != [] {
      var init, last := ms[..|ms| - 1], ms[|ms| - 1];
      NamedAreShadows(s, init);
      KnownAt(s, last);
      assert Ids(Taken(s, ms))[..|ms| - 1] == Ids(Taken(s, init));
    }
  }

  /** What the shadows have of the shadow's group, the blocks have of the block's. */
  lemma {:induction false} ShadowCovers(s: Selector, ms: seq<nat>, i: nat)
    requires InRange(s, ms) && i < |s.blocks| && Harmless(s) && ValuesOk(s)
    ensures 0.0 <= GroupCov(s, Shadows(s, ms), GroupOf(Shadow(s, i))) <= GroupCov(s, Taken(s, ms), GroupOf(s.blocks[i]))
    ensures GroupCount(Shadows(s, ms), GroupOf(Shadow(s, i))) <= GroupCount(Taken(s, ms), GroupOf(s.blocks[i]))
  {
    hide Lookup, Known, GroupOf;
    if ms != [] {
      var init, last := ms[..|ms| - 1], ms[|ms| - 1];
      ShadowCovers(s, init, i);
      assert Shadows(s, ms)[..|ms| - 1] == Shadows(s, init) && Taken(s, ms)[..|ms| - 1] == Taken(s, init);
      assert Shadow(s, last).id == s.blocks[last].id;
    }
  }

  /** With harmless shadows the reported value is at least the sum of accepted gains. */
  lemma {:induction false} HarmlessValue(s: Selector, ms: seq<nat>)
    requires InRange(s, ms) && Harmless(s) && ValuesOk(s) && s.penalty >= 0.0
    ensures Objective(s, Shadows(s, ms)) >= Objective(s, Taken(s, ms))
  {
    hide Objective, GroupCov, GroupCount, GroupOf, Shadow, Harmless, ValuesOk;
    if ms != [] {
      var init, last := ms[..|ms| - 1], ms[|ms| - 1];
      HarmlessValue(s, init);
      var b, c := s.blocks[last], Shadow(s, last);
      assert Taken(s, ms) == Taken(s, init) + [b] && Shadows(s, ms) == Shadows(s, init) + [c];
      ObjectiveSnoc(s, Taken(s, init), b);
      ObjectiveSnoc(s, Shadows(s, init), c);
      ShadowCovers(s, init, last);
      ShadowGain(s, last, GroupCov(s, Shadows(s, init), GroupOf(c)), GroupCov(s, Taken(s, init), GroupOf(b)),
                 GroupCount(Shadows(s, init), GroupOf(c)), GroupCount(Taken(s, init), GroupOf(b)));
    }
  }

  lemma ShadowGain(s: Selector, i: nat, less: real, more: real, few: nat, many: nat)
    requires i < |s.blocks| && Harmless(s) && ValuesOk(s) && s.penalty >= 0.0 && 0.0 <= less <= more && few <= many
    ensures var b, c := s.blocks[i], Shadow(s, i);
            var red := (if b.superseded then 1.0 else 0.0) + (if many > 0 then 1.0 else 0.0);
            var red' := (if c.superseded then 1.0 else 0.0) + (if few > 0 then 1.0 else 0.0);
            Satur(less + Value(s, c)) - Satur(less) - s.penalty * red' >= Satur(more + Value(s, b)) - Satur(more) - s.penalty * red
  {
    hide Lookup, Known;
    var b, c := s.blocks[i], Shadow(s, i);
    var red := (if b.superseded then 1.0 else 0.0) + (if many > 0 then 1.0 else 0.0);
    var red' := (if c.superseded then 1.0 else 0.0) + (if few > 0 then 1.0 else 0.0);
    assert c.id == b.id && red' <= red;
    RedundancyCosts(s.penalty, red', red);
    SaturConcave(less, more - less, Value(s, b));
  }

  /** What is reported for a run. */
  ghost function RunValue(s: Selector, ms: seq<nat>): real
    requires InRange(s, ms)
  {
    Objective(s, Named(s, Ids(Taken(s, ms))))
  }

  lemma HarmlessIsNonNegative(s: Selector, budget: int, ms: seq<nat>)
    requires InRange(s, ms) && Harmless(s) && ValuesOk(s) && s.penalty >= 0.0 && AllowedRun(SelectProblem(s), NOTHING_KEPT, budget, ms)
    ensures RunValue(s, ms) >= GainSum(s, ms) >= 0.0
  {
    hide Objective, Named, Harmless, AllowedRun, GainSum;
    NamedAreShadows(s, ms);
    HarmlessValue(s, ms);
    ObjectiveIsGainSum(s, ms);
    GainSumNonNegative(s, budget, ms);
  }

  /** Whatever the contributions, the penalty and the budget. */
  ghost predicate NeverNegative(blocks: seq<Block>) {
    forall s: Selector, budget: int, ms: seq<nat> |
      s.blocks == blocks && ValuesOk(s) && s.penalty >= 0.0 && InRange(s, ms) && GreedyRun(SelectProblem(s), NOTHING_KEPT, budget, ms) ::
      RunValue(s, ms) >= 0.0
  }

  lemma GreedyIsAllowed(s: Selector, budget: int, ms: seq<nat>)
    requires GreedyRun(SelectProblem(s), NOTHING_KEPT, budget, ms)
    ensures AllowedRun(SelectProblem(s), NOTHING_KEPT, budget, ms)
  {
    hide Eligible, After, Spent;
    var p := SelectProblem(s);
    forall k | 0 <= k < |ms| ensures Eligible(p, After(p, NOTHING_KEPT, ms[..k]), Spent(p, NOTHING_KEPT, ms[..k]), budget, ms[k]) {
      assert Best(p, After(p, NOTHING_KEPT, ms[..k]), Spent(p, NOTHING_KEPT, ms[..k]), budget, ms[k]);
    }
  }

  lemma {:induction false} LookupSame(s: Selector, t: Selector, id: Id, n: nat)
    requires s.blocks == t.blocks && n <= |s.blocks| && Known(s, id, n)
    ensures Known(t, id, n) && Lookup(s, id, n) == Lookup(t, id, n)
  {
    if s.blocks[n - 1].id != id { LookupSame(s, t, id, n - 1); }
  }

  lemma HarmlessSame(s: Selector, t: Selector)
    requires s.blocks == t.blocks && Harmless(s)
    ensures Harmless(t)
  {
    hide Lookup, Known;
    forall i: nat | i < |s.blocks| ensures Shadow(s, i) == Shadow(t, i) {
      KnownAt(s, i);
      LookupSame(s, t, s.blocks[i].id, |s.blocks|);
    }
  }

  /** A selector over the blocks in which only these two ids count, and redundancy costs more than they give. */
  function Harsh(s: Selector, a: Id, b: Id): Selector { Selector(s.p, s.blocks, map[a := 1.0, b := 1.0], 2.0) }

  lemma {:induction false} GatheredGroups(bs: seq<Block>, g: Group)
    requires bs != [] && forall b | b in bs :: GroupOf(b) == g
    ensures Groups(bs) == [g] && GroupCount(bs, g) == |bs| && Redundancy(bs) >= |bs| - 1
    ensures (forall b | b in bs :: b.superseded) ==> Redundancy(bs) >= |bs|
  {
    var init, last := bs[..|bs| - 1], bs[|bs| - 1];
    assert bs == init + [last];
    if init != [] { GatheredGroups(init, g); }
  }

  /** Blocks of one group that are redundant at all have a negative value. */
  lemma GatheredValue(s: Selector, bs: seq<Block>, g: Group)
    requires s.penalty == 2.0 && bs != [] && (forall b | b in bs :: GroupOf(b) == g) && (|bs| >= 2 || forall b | b in bs :: b.superseded)
    ensures Objective(s, bs) < 0.0
  {
    GatheredGroups(bs, g);
    CoverOverPush(s, bs, [], g);
    assert [] + [g] == [g];
    assert Coverage(s, bs) == Satur(GroupCov(s, bs, g)) <= 1.0;
  }

  /** Only blocks of those ids are kept. */
  lemma HarshKeeps(s: Selector, a: Id, b: Id, budget: int, ms: seq<nat>, k: nat)
    requires AllowedRun(SelectProblem(Harsh(s, a, b)), NOTHING_KEPT, budget, ms) && k < |ms|
    ensures ms[k] < |s.blocks| && (s.blocks[ms[k]].id == a || s.blocks[ms[k]].id == b)
  {
    hide After, Spent;
    var h := Harsh(s, a, b);
    var p := SelectProblem(h);
    var st := After(p, NOTHING_KEPT, ms[..k]);
    assert Eligible(p, st, Spent(p, NOTHING_KEPT, ms[..k]), budget, ms[k]);
    assert GainOf(h, h.blocks[ms[k]], st) > 0.0;
  }

  lemma {:induction false} TokensCover(bs: seq<Block>, i: nat, j: nat)
    requires i < |bs| && j < |bs| && forall b | b in bs :: b.tokens >= 0
    ensures 0 <= bs[i].tokens <= TokenSum(bs) && (i != j ==> bs[i].tokens + bs[j].tokens <= TokenSum(bs))
  {
    var init := bs[..|bs| - 1];
    if i < |init| && j < |init| { TokensCover(init, i, j); }
    else if i < |init| { TokensCover(init, i, i); }
    else if j < |init| { TokensCover(init, j, j); }
    else if init != [] { TokensCover(init, 0, 0); }
  }

  lemma HarshStarts(s: Selector, a: Id, b: Id, i: nat, ms: seq<nat>)
    requires i < |s.blocks| && (s.blocks[i].id == a || s.blocks[i].id == b) && !s.blocks[i].superseded && forall c | c in s.blocks :: c.tokens >= 0
    requires GreedyRun(SelectProblem(Harsh(s, a, b)), NOTHING_KEPT, TokenSum(s.blocks), ms)
    ensures ms != []
  {
    var h := Harsh(s, a, b);
    FirstGainIsGain(h, i);
    TokensCover(s.blocks, i, i);
    assert ms == [] ==> Eligible(SelectProblem(h), NOTHING_KEPT, 0, TokenSum(s.blocks), i);
  }

  /** After one block, an unsuperseded one of another group is still worth keeping. */
  lemma HarshGoesOn(s: Selector, a: Id, b: Id, k: nat, i: nat)
    requires k < |s.blocks| && i < |s.blocks| && (s.blocks[i].id == a || s.blocks[i].id == b) && !s.blocks[i].superseded
    requires GroupOf(s.blocks[k]) != GroupOf(s.blocks[i]) && forall c | c in s.blocks :: c.tokens >= 0
    ensures !GreedyRun(SelectProblem(Harsh(s, a, b)), NOTHING_KEPT, TokenSum(s.blocks), [k])
  {
    var h, ms: seq<nat> := Harsh(s, a, b), [k];
    var p := SelectProblem(h);
    var st := Keep(h, NOTHING_KEPT, k);
    assert [] + ms == ms;
    RunSnoc(p, NOTHING_KEPT, [], k);
    assert After(p, NOTHING_KEPT, ms) == st && Spent(p, NOTHING_KEPT, ms) == s.blocks[k].tokens;
    TokensCover(s.blocks, k, i);
    assert GainOf(h, h.blocks[i], st) == 1.0;
    assert Eligible(p, st, s.blocks[k].tokens, TokenSum(s.blocks), i);
  }

  lemma SelectLiveShrinks(s: Selector)
    ensures LiveShrinks(SelectProblem(s))
  {
  }

  /** Two unsuperseded blocks of different groups, or one block twice, whose shadows share a group: if there are
      two of them, or the shadow is superseded, some selection has a negative value. */
  lemma ShadowsGoNegative(s: Selector, i: nat, j: nat)
    requires i < |s.blocks| && j < |s.blocks| && !s.blocks[i].superseded && !s.blocks[j].superseded && forall c | c in s.blocks :: c.tokens >= 0
    requires GroupOf(Shadow(s, i)) == GroupOf(Shadow(s, j))
    requires (i == j && Shadow(s, i).superseded) || GroupOf(s.blocks[i]) != GroupOf(s.blocks[j])
    ensures !NeverNegative(s.blocks)
  {
    hide GreedyRun, AllowedRun, Objective, Named, After, Spent, Shadow, GroupOf;
    var a, b := s.blocks[i].id, s.blocks[j].id;
    var h, budget := Harsh(s, a, b), TokenSum(s.blocks);
    SelectLiveShrinks(h);
    var ms := GreedyRunExists(SelectProblem(h), NOTHING_KEPT, budget);
    GreedyIsAllowed(h, budget, ms);
    AllowedInRange(h, budget, ms);
    HarshStarts(s, a, b, i, ms);
    if |ms| == 1 && i != j {
      assert ms == [ms[0]];
      HarshGoesOn(s, a, b, ms[0], if GroupOf(s.blocks[ms[0]]) != GroupOf(s.blocks[i]) then i else j);
      assert false;
    }
    NamedAreShadows(h, ms);
    HarshShadows(s, i, j, budget, ms);
    GatheredValue(h, Shadows(h, ms), GroupOf(Shadow(s, i)));
    assert RunValue(h, ms) < 0.0;
  }

  lemma HarshShadows(s: Selector, i: nat, j: nat, budget: int, ms: seq<nat>)
    requires i < |s.blocks| && j < |s.blocks| && GroupOf(Shadow(s, i)) == GroupOf(Shadow(s, j))
    requires var h := Harsh(s, s.blocks[i].id, s.blocks[j].id);
             AllowedRun(SelectProblem(h), NOTHING_KEPT, budget, ms) && InRange(h, ms)
    ensures var h := Harsh(s, s.blocks[i].id, s.blocks[j].id);
            forall c | c in Shadows(h, ms) :: GroupOf(c) == GroupOf(Shadow(s, i)) && (c == Shadow(s, i) || c == Shadow(s, j))
  {
    hide AllowedRun, Lookup, Known, GroupOf;
    var a, b := s.blocks[i].id, s.blocks[j].id;
    var h := Harsh(s, a, b);
    forall c | c in Shadows(h, ms) ensures c == Shadow(s, i) || c == Shadow(s, j) {
      var k :| 0 <= k < |ms| && c == Shadow(h, ms[k]);
      HarshKeeps(s, a, b, budget, ms, k);
      KnownAt(s, i);
      KnownAt(s, j);
      LookupSame(s, h, a, |s.blocks|);
      LookupSame(s, h, b, |s.blocks|);
    }
  }

  lemma {:induction false} ShadowIsLast(s: Selector, id: Id, n: nat) returns (k: nat)
    requires n <= |s.blocks| && Known(s, id, n)
    ensures k < n && s.blocks[k].id == id && Lookup(s, id, n) == s.blocks[k]
  {
    if s.blocks[n - 1].id == id { k := n - 1; } else { k := ShadowIsLast(s, id, n - 1); }
  }

  /** Over blocks of which none is superseded while a later one has its id, the reported value is never negative
      if and only if shadows are harmless. */
  lemma ValueNeverNegative(s: Selector)
    requires (forall c | c in s.blocks :: c.tokens >= 0) && forall i: nat | i < |s.blocks| && s.blocks[i].superseded :: Shadow(s, i) == s.blocks[i]
    ensures NeverNegative(s.blocks) <==> Harmless(s)
  {
    hide GreedyRun, GroupOf, Shadow, RunValue;
    if Harmless(s) {
      forall t: Selector, budget: int, ms: seq<nat> |
        t.blocks == s.blocks && ValuesOk(t) && t.penalty >= 0.0 && InRange(t, ms) && GreedyRun(SelectProblem(t), NOTHING_KEPT, budget, ms)
        ensures RunValue(t, ms) >= 0.0
      {
        HarmlessSame(s, t);
        GreedyIsAllowed(t, budget, ms);
        HarmlessIsNonNegative(t, budget, ms);
      }
    } else if i: nat :| i < |s.blocks| && Shadow(s, i).superseded && !s.blocks[i].superseded {
      ShadowsGoNegative(s, i, i);
    } else {
      var i: nat, j: nat :| i < |s.blocks| && j < |s.blocks| && GroupOf(Shadow(s, i)) == GroupOf(Shadow(s, j)) && GroupOf(s.blocks[i]) != GroupOf(s.blocks[j]);
      if s.blocks[i].superseded { LastGoesNegative(s, j); }
      else if s.blocks[j].superseded { LastGoesNegative(s, i); }
      else { ShadowsGoNegative(s, i, j); }
    }
  }

  /** A block and its own shadow, of different groups and neither superseded. */
  lemma LastGoesNegative(s: Selector, i: nat)
    requires i < |s.blocks| && !s.blocks[i].superseded && !Shadow(s, i).superseded && GroupOf(s.blocks[i]) != GroupOf(Shadow(s, i))
    requires forall c | c in s.blocks :: c.tokens >= 0
    ensures !NeverNegative(s.blocks)
  {
    hide NeverNegative, GroupOf, Lookup, Known;
    KnownAt(s, i);
    var k := ShadowIsLast(s, s.blocks[i].id, |s.blocks|);
    assert Shadow(s, k) == Shadow(s, i) == s.blocks[k];
    ShadowsGoNegative(s, i, k);
  }

  const SHADOWED := Selector(0, [Block("b", 0, 1, 0, false), Block("b", 0, 1, 0, true)], map["b" := 0.5], 1.0)

  /** Two blocks of one id, the second superseded: the first is kept and valued as the second. */
  lemma ValueCanBeNegative()
    ensures GreedyRun(SelectProblem(SHADOWED), NOTHING_KEPT, 2, [0]) && Objective(SHADOWED, Named(SHADOWED, ["b"])) == -0.5
  {
    hide Objective, Named, Best, Eligible;
    var p := SelectProblem(SHADOWED);
    var ms: seq<nat> := [0];
    assert ms[..0] == [] && [] + ms == ms;
    RunSnoc(p, NOTHING_KEPT, [], 0);
    FirstIsBest();
    NothingMore();
    OneValued();
  }

  lemma FirstIsBest()
    ensures Best(SelectProblem(SHADOWED), NOTHING_KEPT, 0, 2, 0)
  {
    FirstGainIsGain(SHADOWED, 0);
    FirstGainIsGain(SHADOWED, 1);
    assert FirstGain(SHADOWED, SHADOWED.blocks[0]) == 0.5 && FirstGain(SHADOWED, SHADOWED.blocks[1]) == -0.5;
  }

  lemma NothingMore()
    ensures Stuck(SelectProblem(SHADOWED), Keep(SHADOWED, NOTHING_KEPT, 0), 1, 2)
  {
    assert GainOf(SHADOWED, SHADOWED.blocks[1], Keep(SHADOWED, NOTHING_KEPT, 0)) == -1.5;
  }

  lemma OneValued()
    ensures Objective(SHADOWED, Named(SHADOWED, ["b"])) == -0.5
  {
    hide Objective, GroupCov, GroupCount;
    var s := SHADOWED;
    var keep, b := ["b"], s.blocks[1];
    assert s.blocks[1].id == "b" && Known(s, "b", 2) && Lookup(s, "b", 2) == b;
    assert keep[..0] == [] && Named(s, keep) == [] + [b];
    ObjectiveOfNothing(s);
    ObjectiveSnoc(s, [], b);
    assert GroupCov(s, [], GroupOf(b)) == 0.0 && GroupCount([], GroupOf(b)) == 0 by { NothingGrouped(s, GroupOf(b)); }
  }

  lemma NothingGrouped(s: Selector, g: Group)
    ensures GroupCov(s, [], g) == 0.0 && GroupCount([], g) == 0
  {
  }

  // ------------------------------------------------------------------------------------------
  // The selection over gains alone
  // ------------------------------------------------------------------------------------------

  /** They hold the same bytes: a common root, or no root and one id. */
  predicate SameBytes(a: Block, b: Block) { a.root == b.root && (a.root != 0 || a.id == b.id) }

  /** What blocks of the same bytes as `b` contribute together, and how many they are. */
  function Contributed(s: Selector, bs: seq<Block>, b: Block): real {
    if bs == [] then 0.0
    else
      var c := bs[|bs| - 1];
      Contributed(s, bs[..|bs| - 1], b) + (if SameBytes(b, c) && c.id in s.value then s.value[c.id] else 0.0)
  }

  function Copies(bs: seq<Block>, b: Block): nat {
    if bs == [] then 0 else Copies(bs[..|bs| - 1], b) + (if SameBytes(b, bs[|bs| - 1]) then 1 else 0)
  }

  /** What `b` adds to the kept `bs`: coverage capped at one, less the penalty if it is superseded and again if
      its bytes are there already. */
  function Adds(s: Selector, bs: seq<Block>, b: Block): real {
    var had, v := Contributed(s, bs, b), if b.id in s.value then s.value[b.id] else 0.0;
    var waste := (if b.superseded then 1.0 else 0.0) + (if Copies(bs, b) > 0 then 1.0 else 0.0);
    Clamp(had + v) - Clamp(had) - s.penalty * waste
  }

  lemma {:induction false} GroupIsBytes(s: Selector, bs: seq<Block>, b: Block)
    ensures GroupCov(s, bs, GroupOf(b)) == Contributed(s, bs, b) && GroupCount(bs, GroupOf(b)) == Copies(bs, b)
  {
    if bs != [] { GroupIsBytes(s, bs[..|bs| - 1], b); }
  }

  lemma ClampIsSatur(v: real)
    ensures Clamp(v) == Satur(v)
  {
  }

  /** The declared objective: nothing for nothing, and for one block more what it adds. */
  lemma ObjectiveAdds(s: Selector, bs: seq<Block>, b: Block)
    ensures Objective(s, []) == 0.0 && Objective(s, bs + [b]) == Objective(s, bs) + Adds(s, bs, b)
  {
    hide Objective, GroupCov, GroupCount, GroupOf, Contributed, Copies, Clamp, Satur;
    ObjectiveOfNothing(s);
    ObjectiveSnoc(s, bs, b);
    GroupIsBytes(s, bs, b);
    ClampIsSatur(Contributed(s, bs, b) + Value(s, b));
    ClampIsSatur(Contributed(s, bs, b));
  }

  /** It still fits: its tokens are a price, and are left of the budget. */
  predicate Fits(s: Selector, budget: int, kept: seq<nat>, i: nat)
    requires InRange(s, kept)
  {
    i < |s.blocks| && i !in kept && 0 <= s.blocks[i].tokens <= budget - TokenSum(Taken(s, kept))
  }

  /** Each block kept had the highest gain of those that fit, the first of equals, and it was positive; in the
      end no block that fits has a positive gain. */
  ghost predicate Greedy(s: Selector, budget: int, ms: seq<nat>)
    requires InRange(s, ms)
  {
    && (forall k: nat | k < |ms| ::
          var kept := ms[..k];
          && Fits(s, budget, kept, ms[k]) && Adds(s, Taken(s, kept), s.blocks[ms[k]]) > 0.0
          && forall j: nat | j != ms[k] && Fits(s, budget, kept, j) ::
               var mine, other := Adds(s, Taken(s, kept), s.blocks[ms[k]]), Adds(s, Taken(s, kept), s.blocks[j]);
               mine > other || (mine == other && ms[k] < j))
    && forall j: nat | Fits(s, budget, ms, j) :: Adds(s, Taken(s, ms), s.blocks[j]) <= 0.0
  }

  /** The engine's measure of a move is what its block adds, if that is positive at all. */
  lemma WorthIsAdds(s: Selector, ms: seq<nat>, i: nat)
    requires InRange(s, ms) && i < |s.blocks| && s.penalty >= 0.0 && ValuesOk(s)
    ensures var w, a := Worth(SelectProblem(s), After(SelectProblem(s), NOTHING_KEPT, ms), i), Adds(s, Taken(s, ms), s.blocks[i]);
            (w > 0.0 <==> a > 0.0) && (a > 0.0 ==> w == a)
  {
    hide After, GroupCov, GroupCount, Contributed, Copies, Satur, Clamp, FiniteGain;
    var b, st := s.blocks[i], After(SelectProblem(s), NOTHING_KEPT, ms);
    StateTracks(s, ms, GroupOf(b));
    GroupIsBytes(s, Taken(s, ms), b);
    var had := Contributed(s, Taken(s, ms), b);
    ClampIsSatur(had + Value(s, b));
    ClampIsSatur(had);
    assert GainOf(s, b, st) == Adds(s, Taken(s, ms), b);
    var waste := (if b.superseded then 1.0 else 0.0) + (if Copies(Taken(s, ms), b) > 0 then 1.0 else 0.0);
    RedundancyCosts(s.penalty, 0.0, waste);
    FiniteGainIs(GainOf(s, b, st));
  }

  /** Fitting is being live and affordable. */
  lemma FitsIsEligible(s: Selector, budget: int, ms: seq<nat>, i: nat)
    requires InRange(s, ms) && s.penalty >= 0.0 && ValuesOk(s)
    ensures var p := SelectProblem(s);
            Eligible(p, After(p, NOTHING_KEPT, ms), Spent(p, NOTHING_KEPT, ms), budget, i) <==>
            Fits(s, budget, ms, i) && Adds(s, Taken(s, ms), s.blocks[i]) > 0.0
  {
    hide After, Spent, Adds, Worth;
    KeptTracks(s, ms);
    SpentTracks(s, ms);
    if i < |s.blocks| { WorthIsAdds(s, ms, i); }
  }

  /** The engine's greedy run is greedy by what blocks add. */
  lemma GreedyByGain(s: Selector, budget: int, ms: seq<nat>)
    requires InRange(s, ms) && s.penalty >= 0.0 && ValuesOk(s) && GreedyRun(SelectProblem(s), NOTHING_KEPT, budget, ms)
    ensures Greedy(s, budget, ms)
  {
    hide After, Spent, Adds, Worth, Eligible;
    var p := SelectProblem(s);
    forall k: nat | k < |ms|
      ensures var kept := ms[..k];
              && Fits(s, budget, kept, ms[k]) && Adds(s, Taken(s, kept), s.blocks[ms[k]]) > 0.0
              && forall j: nat | j != ms[k] && Fits(s, budget, kept, j) ::
                   var mine, other := Adds(s, Taken(s, kept), s.blocks[ms[k]]), Adds(s, Taken(s, kept), s.blocks[j]);
                   mine > other || (mine == other && ms[k] < j)
    {
      BestByGain(s, budget, ms[..k], ms[k]);
    }
    forall j: nat | Fits(s, budget, ms, j) ensures Adds(s, Taken(s, ms), s.blocks[j]) <= 0.0 { FitsIsEligible(s, budget, ms, j); }
  }

  lemma BestByGain(s: Selector, budget: int, kept: seq<nat>, i: nat)
    requires InRange(s, kept) && i < |s.blocks| && s.penalty >= 0.0 && ValuesOk(s)
    requires var p := SelectProblem(s); Best(p, After(p, NOTHING_KEPT, kept), Spent(p, NOTHING_KEPT, kept), budget, i)
    ensures Fits(s, budget, kept, i) && Adds(s, Taken(s, kept), s.blocks[i]) > 0.0
    ensures forall j: nat | j != i && Fits(s, budget, kept, j) ::
              var mine, other := Adds(s, Taken(s, kept), s.blocks[i]), Adds(s, Taken(s, kept), s.blocks[j]);
              mine > other || (mine == other && i < j)
  {
    hide After, Spent, Adds, Worth, Eligible;
    FitsIsEligible(s, budget, kept, i);
    WorthIsAdds(s, kept, i);
    forall j: nat | j != i && Fits(s, budget, kept, j)
      ensures var mine, other := Adds(s, Taken(s, kept), s.blocks[i]), Adds(s, Taken(s, kept), s.blocks[j]);
              mine > other || (mine == other && i < j)
    {
      FitsIsEligible(s, budget, kept, j);
      WorthIsAdds(s, kept, j);
    }
  }
}
