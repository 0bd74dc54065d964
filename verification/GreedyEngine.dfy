/** The lazy-greedy engine both selection surfaces run on: spend a budget by repeatedly taking the
    best affordable move, re-measuring a stale upper bound only when it reaches the top. */
module GreedyEngine {

  /** The seam between the engine and an objective.  The objective's mutable state is the value `S`
      the engine threads through. */
  datatype Problem<!S> = Problem(
    moves: nat,
    lazy: bool,
    gain: (S, nat) -> real,
    cost: (S, nat) -> int,
    afford: (S, nat, int, int) -> bool,
    live: (S, nat) -> bool,
    accept: (S, nat) -> S)

  datatype Entry = Entry(move: nat, gain: real, epoch: nat)

  datatype Outcome<S> = Outcome(accepted: seq<nat>, spent: int, iters: nat, st: S)

  const MAX_FINITE_GAIN: real := 1000000000000000000.0

  /** A gain nobody can order counts as nothing. */
  function FiniteGain(v: real): real {
    if v > MAX_FINITE_GAIN || v < -MAX_FINITE_GAIN then 0.0 else v
  }

  /** Short of the bound a gain is what it is; beyond it, nothing. */
  lemma FiniteGainIs(v: real)
    ensures -1000000000000000000.0 <= v <= 1000000000000000000.0 ==> FiniteGain(v) == v
    ensures v > 1000000000000000000.0 || v < -1000000000000000000.0 ==> FiniteGain(v) == 0.0
  {
  }

  /** Coverage saturates at one, and a negative one counts as none. */
  function Satur(v: real): real { if v < 0.0 then 0.0 else if v > 1.0 then 1.0 else v }

  function Worth<S>(p: Problem<S>, st: S, m: nat): real { FiniteGain(p.gain(st, m)) }

  /** Descending gain, then ascending index. */
  predicate Less(a: Entry, b: Entry) { a.gain > b.gain || (a.gain == b.gain && a.move < b.move) }

  // ------------------------------------------------------------------------------------------
  // What a greedy run is
  // ------------------------------------------------------------------------------------------

  predicate Affordable<S>(p: Problem<S>, st: S, spent: int, budget: int, m: nat) {
    var c := p.cost(st, m);
    c >= 0 && spent + c <= budget && p.afford(st, m, c, spent)
  }

  predicate Eligible<S>(p: Problem<S>, st: S, spent: int, budget: int, m: nat) {
    m < p.moves && p.live(st, m) && Worth(p, st, m) > 0.0 && Affordable(p, st, spent, budget, m)
  }

  predicate Beats<S>(p: Problem<S>, st: S, m: nat, n: nat) {
    Worth(p, st, m) > Worth(p, st, n) || (Worth(p, st, m) == Worth(p, st, n) && m < n)
  }

  ghost predicate Best<S>(p: Problem<S>, st: S, spent: int, budget: int, m: nat) {
    Eligible(p, st, spent, budget, m) &&
    forall n: nat | n != m && Eligible(p, st, spent, budget, n) :: Beats(p, st, m, n)
  }

  function After<S>(p: Problem<S>, st: S, ms: seq<nat>): S {
    if ms == [] then st else p.accept(After(p, st, ms[..|ms| - 1]), ms[|ms| - 1])
  }

  function Spent<S>(p: Problem<S>, st: S, ms: seq<nat>): int {
    if ms == [] then 0
    else Spent(p, st, ms[..|ms| - 1]) + p.cost(After(p, st, ms[..|ms| - 1]), ms[|ms| - 1])
  }

  /** Every acceptance was allowed when it was made. */
  ghost predicate AllowedRun<S>(p: Problem<S>, st: S, budget: int, ms: seq<nat>) {
    forall k | 0 <= k < |ms| :: Eligible(p, After(p, st, ms[..k]), Spent(p, st, ms[..k]), budget, ms[k])
  }

  /** Every acceptance was the best move of its moment. */
  ghost predicate BestRun<S>(p: Problem<S>, st: S, budget: int, ms: seq<nat>) {
    forall k | 0 <= k < |ms| :: Best(p, After(p, st, ms[..k]), Spent(p, st, ms[..k]), budget, ms[k])
  }

  ghost predicate Stuck<S>(p: Problem<S>, st: S, spent: int, budget: int) {
    forall m: nat :: !Eligible(p, st, spent, budget, m)
  }

  /** The greedy selection: best moves until none is left. */
  ghost predicate GreedyRun<S>(p: Problem<S>, st: S, budget: int, ms: seq<nat>) {
    BestRun(p, st, budget, ms) && Stuck(p, After(p, st, ms), Spent(p, st, ms), budget)
  }

  lemma BestUnique<S>(p: Problem<S>, st: S, spent: int, budget: int, m: nat, n: nat)
    requires Best(p, st, spent, budget, m) && Best(p, st, spent, budget, n)
    ensures m == n
  {
    assert m != n ==> Beats(p, st, m, n) && Beats(p, st, n, m);
  }

  lemma {:induction false} BestRunPrefix<S>(p: Problem<S>, st: S, budget: int, ms: seq<nat>, ns: seq<nat>, k: nat)
    requires BestRun(p, st, budget, ms) && BestRun(p, st, budget, ns)
    requires k <= |ms| && k <= |ns|
    ensures ms[..k] == ns[..k]
  {
    hide Best;
    if k > 0 {
      BestRunPrefix(p, st, budget, ms, ns, k - 1);
      var at, spent := After(p, st, ms[..k - 1]), Spent(p, st, ms[..k - 1]);
      assert Best(p, at, spent, budget, ms[k - 1]) && Best(p, at, spent, budget, ns[k - 1]);
      BestUnique(p, at, spent, budget, ms[k - 1], ns[k - 1]);
    }
  }

  /** There is only one greedy run. */
  lemma GreedyRunUnique<S>(p: Problem<S>, st: S, budget: int, ms: seq<nat>, ns: seq<nat>)
    requires GreedyRun(p, st, budget, ms) && GreedyRun(p, st, budget, ns)
    ensures ms == ns
  {
    if |ms| <= |ns| { StuckStops(p, st, budget, ms, ns); } else { StuckStops(p, st, budget, ns, ms); }
  }

  lemma StuckStops<S>(p: Problem<S>, st: S, budget: int, ms: seq<nat>, ns: seq<nat>)
    requires GreedyRun(p, st, budget, ms) && GreedyRun(p, st, budget, ns)
    requires |ms| <= |ns|
    ensures ms == ns
  {
    BestRunPrefix(p, st, budget, ms, ns, |ms|);
    assert ms[..|ms|] == ms;
    assert forall k | 0 <= k < |ns| ::
        Eligible(p, After(p, st, ns[..k]), Spent(p, st, ns[..k]), budget, ns[k]);
    assert ns[..|ns|] == ns;
  }

  lemma RunSnoc<S>(p: Problem<S>, st: S, ms: seq<nat>, m: nat)
    ensures After(p, st, ms + [m]) == p.accept(After(p, st, ms), m)
    ensures Spent(p, st, ms + [m]) == Spent(p, st, ms) + p.cost(After(p, st, ms), m)
  {
    assert (ms + [m])[..|ms|] == ms;
  }

  lemma AllowedSnoc<S>(p: Problem<S>, st: S, budget: int, ms: seq<nat>, m: nat)
    requires AllowedRun(p, st, budget, ms)
    requires Eligible(p, After(p, st, ms), Spent(p, st, ms), budget, m)
    ensures AllowedRun(p, st, budget, ms + [m])
  {
    hide Eligible;
    var ns := ms + [m];
    forall k | 0 <= k < |ns| ensures Eligible(p, After(p, st, ns[..k]), Spent(p, st, ns[..k]), budget, ns[k]) {
      assert ns[..k] == ms[..k];
      assert ms[..|ms|] == ms;
    }
  }

  lemma BestSnoc<S>(p: Problem<S>, st: S, budget: int, ms: seq<nat>, m: nat)
    requires BestRun(p, st, budget, ms)
    requires Best(p, After(p, st, ms), Spent(p, st, ms), budget, m)
    ensures BestRun(p, st, budget, ms + [m])
  {
    hide Best;
    var ns := ms + [m];
    forall k | 0 <= k < |ns| ensures Best(p, After(p, st, ns[..k]), Spent(p, st, ns[..k]), budget, ns[k]) {
      assert ns[..k] == ms[..k];
      assert ms[..|ms|] == ms;
    }
  }

  // ------------------------------------------------------------------------------------------
  // When the engine is exact
  // ------------------------------------------------------------------------------------------

  /** A move that was taken is spent, and moves never come back to life. */
  ghost predicate LiveShrinks<S(!new)>(p: Problem<S>) {
    && (forall st: S, m: nat, n: nat | m < p.moves && p.live(p.accept(st, m), n) :: p.live(st, n))
    && (forall st: S, m: nat | m < p.moves :: !p.live(p.accept(st, m), m))
  }

  /** As the set grows a gain that is still positive was at least as large before. */
  ghost predicate GainsShrink<S(!new)>(p: Problem<S>, inv: S -> bool) {
    forall st: S, m: nat, n: nat | inv(st) && m < p.moves && n < p.moves && p.live(p.accept(st, m), n) && Worth(p, p.accept(st, m), n) > 0.0 ::
      Worth(p, p.accept(st, m), n) <= Worth(p, st, n)
  }

  ghost predicate Preserved<S(!new)>(p: Problem<S>, inv: S -> bool) {
    forall st: S, m: nat | inv(st) && m < p.moves :: inv(p.accept(st, m))
  }

  ghost predicate Exact<S(!new)>(p: Problem<S>, inv: S -> bool) {
    LiveShrinks(p) && Preserved(p, inv) && (p.lazy ==> GainsShrink(p, inv))
  }

  // ------------------------------------------------------------------------------------------
  // The queue
  // ------------------------------------------------------------------------------------------

  predicate Holds(q: seq<Entry>, m: nat) { exists x | x in q :: x.move == m }

  function Stale(q: seq<Entry>, epoch: nat): nat {
    if q == [] then 0 else (if q[0].epoch != epoch then 1 else 0) + Stale(q[1..], epoch)
  }

  lemma {:induction false} StaleConcat(a: seq<Entry>, b: seq<Entry>, epoch: nat)
    ensures Stale(a + b, epoch) == Stale(a, epoch) + Stale(b, epoch)
  {
    if a == [] {
      assert a + b == b;
    } else {
      assert (a + b)[1..] == a[1..] + b;
      StaleConcat(a[1..], b, epoch);
    }
  }

  predicate Popped(q: seq<Entry>, rest: seq<Entry>, e: Entry) {
    && e in q
    && (forall x | x in rest :: x in q && !Less(x, e))
    && (forall x | x in q :: x == e || x in rest)
  }

  /** Removes the entry no other precedes, as a heap's pop does. */
  method PopBest(q: seq<Entry>, ghost epoch: nat) returns (e: Entry, rest: seq<Entry>)
    requires q != []
    ensures Popped(q, rest, e) && |rest| == |q| - 1
    ensures Stale(q, epoch) == Stale(rest, epoch) + Stale([e], epoch)
  {
    var best := 0;
    for i := 1 to |q|
      invariant 0 <= best < |q|
      invariant forall k | 0 <= k < i :: !Less(q[k], q[best])
    {
      if Less(q[i], q[best]) { best := i; }
    }
    e, rest := q[best], q[..best] + q[best + 1..];
    assert q == q[..best] + ([e] + q[best + 1..]);
    StaleConcat(q[..best], [e] + q[best + 1..], epoch);
    StaleConcat([e], q[best + 1..], epoch);
    StaleConcat(q[..best], q[best + 1..], epoch);
  }

  // ------------------------------------------------------------------------------------------
  // The engine's invariant
  // ------------------------------------------------------------------------------------------

  /** A fresh entry carries its true gain. */
  ghost predicate Measured<S>(p: Problem<S>, st: S, epoch: nat, q: seq<Entry>) {
    forall x | x in q :: x.move < p.moves && x.epoch <= epoch && (x.epoch == epoch ==> x.gain == Worth(p, st, x.move))
  }

  /** A deferred entry is fresh and does not fit now. */
  ghost predicate Waiting<S>(p: Problem<S>, st: S, spent: int, budget: int, epoch: nat, d: seq<Entry>) {
    forall x | x in d :: x.epoch == epoch && !Affordable(p, st, spent, budget, x.move)
  }

  /** A stale entry is an upper bound on any gain worth having. */
  ghost predicate Bounding<S>(p: Problem<S>, st: S, q: seq<Entry>) {
    forall x | x in q && p.live(st, x.move) && Worth(p, st, x.move) > 0.0 :: x.gain >= Worth(p, st, x.move)
  }

  ghost predicate Covered<S>(p: Problem<S>, st: S, q: seq<Entry>, d: seq<Entry>) {
    forall m: nat | m < p.moves && p.live(st, m) :: Holds(q + d, m)
  }

  /** A fresh, positive, affordable top of the queue is the best move there is. */
  lemma TopIsBest<S>(p: Problem<S>, st: S, spent: int, budget: int, epoch: nat, q: seq<Entry>, rest: seq<Entry>, e: Entry, d: seq<Entry>)
    requires Measured(p, st, epoch, q + d) && Waiting(p, st, spent, budget, epoch, d)
    requires Covered(p, st, q, d) && Bounding(p, st, q + d)
    requires Popped(q, rest, e) && e.epoch == epoch && e.gain > 0.0 && p.live(st, e.move)
    requires Affordable(p, st, spent, budget, e.move)
    ensures Best(p, st, spent, budget, e.move)
  {
    hide Affordable;
    forall n: nat | n != e.move && Eligible(p, st, spent, budget, n) ensures Beats(p, st, e.move, n) {
      var x :| x in q + d && x.move == n;
      assert x in q || x in d;
      assert x in q && x in rest;
    }
  }

  /** When the top is fresh and worth nothing, nothing is left to take. */
  lemma TopEndsRun<S>(p: Problem<S>, st: S, spent: int, budget: int, epoch: nat, q: seq<Entry>, rest: seq<Entry>, e: Entry, d: seq<Entry>)
    requires Measured(p, st, epoch, q + d) && Waiting(p, st, spent, budget, epoch, d)
    requires Covered(p, st, q, d) && Bounding(p, st, q + d)
    requires Popped(q, rest, e) && e.epoch == epoch && e.gain <= 0.0
    ensures Stuck(p, st, spent, budget)
  {
    hide Affordable;
    forall n: nat ensures !Eligible(p, st, spent, budget, n) {
      if n < p.moves && p.live(st, n) {
        var x :| x in q + d && x.move == n;
        assert x in q || x in d;
      }
    }
  }

  lemma EmptyEndsRun<S>(p: Problem<S>, st: S, spent: int, budget: int, epoch: nat, d: seq<Entry>)
    requires Waiting(p, st, spent, budget, epoch, d) && Covered(p, st, [], d)
    ensures Stuck(p, st, spent, budget)
  {
    hide Affordable;
    forall n: nat ensures !Eligible(p, st, spent, budget, n) {
      if n < p.moves && p.live(st, n) {
        var x :| x in [] + d && x.move == n;
        assert x in d;
      }
    }
  }

  // ------------------------------------------------------------------------------------------
  // How often a gain is measured
  // ------------------------------------------------------------------------------------------

  function LiveMoves<S>(p: Problem<S>, st: S): set<nat> { set m: nat | m < p.moves && p.live(st, m) }

  /** Every live move measured once against each of the first `n` accepted sets. */
  function Measurements<S>(p: Problem<S>, st: S, ms: seq<nat>, n: nat): nat
    requires n <= |ms| + 1
  {
    if n == 0 then 0 else Measurements(p, st, ms, n - 1) + |LiveMoves(p, After(p, st, ms[..n - 1]))|
  }

  lemma {:induction false} MeasurementsGrow<S>(p: Problem<S>, st: S, ms: seq<nat>, m: nat, n: nat)
    requires n <= |ms| + 1
    ensures Measurements(p, st, ms + [m], n) == Measurements(p, st, ms, n)
  {
    if n > 0 {
      MeasurementsGrow(p, st, ms, m, n - 1);
      assert (ms + [m])[..n - 1] == ms[..n - 1];
    }
  }

  function MovesIn(q: seq<Entry>): set<nat> { set x | x in q :: x.move }

  function FreshIn(q: seq<Entry>, epoch: nat): set<nat> { set x | x in q && x.epoch == epoch :: x.move }

  /** No move is queued twice. */
  predicate Solo(q: seq<Entry>) { |MovesIn(q)| == |q| }

  lemma {:induction false} AtMostEach(q: seq<Entry>)
    ensures |MovesIn(q)| <= |q|
  {
    if q != [] {
      AtMostEach(q[1..]);
      assert MovesIn(q) == MovesIn(q[1..]) + {q[0].move};
    }
  }

  /** `rest` is `q` without `e`. */
  predicate Without(q: seq<Entry>, rest: seq<Entry>, e: Entry) {
    |q| == |rest| + 1 && e in q && (forall x | x in q :: x == e || x in rest) && forall x | x in rest :: x in q
  }

  lemma SoloWithout(q: seq<Entry>, rest: seq<Entry>, e: Entry)
    requires Solo(q) && Without(q, rest, e)
    ensures Solo(rest) && e.move !in MovesIn(rest)
  {
    AtMostEach(rest);
    assert MovesIn(q) == MovesIn(rest) + {e.move};
    assert e.move in MovesIn(rest) ==> MovesIn(q) == MovesIn(rest);
  }

  lemma SoloWith(q: seq<Entry>, rest: seq<Entry>, e: Entry)
    requires Solo(rest) && e.move !in MovesIn(rest) && Without(q, rest, e)
    ensures Solo(q)
  {
    assert MovesIn(q) == MovesIn(rest) + {e.move};
  }

  /** What has been measured so far, at most once per accepted set; eagerly, everything. */
  ghost predicate CountOk<S>(p: Problem<S>, st0: S, acc: seq<nat>, st: S, epoch: nat, q: seq<Entry>, iters: nat) {
    && st == After(p, st0, acc) && Solo(q)
    && (forall x | x in q && x.epoch == epoch :: x.move < p.moves && p.live(st, x.move))
    && (forall x | x in q :: x.epoch <= epoch)
    && |LiveMoves(p, st0)| <= iters <= Measurements(p, st0, acc, |acc|) + |FreshIn(q, epoch)|
    && (!p.lazy ==> forall x | x in q :: x.epoch == epoch)
  }

  /** Eagerly the queue is always all the live moves, so the bound is met. */
  ghost predicate CountFull<S>(p: Problem<S>, st0: S, acc: seq<nat>, st: S, epoch: nat, q: seq<Entry>, iters: nat) {
    !p.lazy ==> iters == Measurements(p, st0, acc, |acc|) + |FreshIn(q, epoch)|
  }

  lemma FreshAreLive<S>(p: Problem<S>, st0: S, acc: seq<nat>, st: S, epoch: nat, q: seq<Entry>, iters: nat)
    requires CountOk(p, st0, acc, st, epoch, q, iters)
    ensures FreshIn(q, epoch) <= LiveMoves(p, st) && |FreshIn(q, epoch)| <= |LiveMoves(p, st)|
    ensures iters <= Measurements(p, st0, acc, |acc| + 1)
    ensures !p.lazy && (forall m: nat | m < p.moves && p.live(st, m) :: Holds(q, m)) ==> FreshIn(q, epoch) == LiveMoves(p, st)
  {
    SubsetSize(FreshIn(q, epoch), LiveMoves(p, st));
    assert acc[..|acc|] == acc;
  }

  lemma SubsetSize(a: set<nat>, b: set<nat>)
    requires a <= b
    ensures |a| <= |b|
  {
    assert b == a + (b - a);
  }

  /** A queue entry whose move is no longer live is stale, and dropping it loses no measurement. */
  lemma CountDrop<S>(p: Problem<S>, st0: S, acc: seq<nat>, st: S, epoch: nat, q: seq<Entry>, rest: seq<Entry>, e: Entry, iters: nat)
    requires CountOk(p, st0, acc, st, epoch, q, iters) && Without(q, rest, e) && !p.live(st, e.move)
    ensures CountOk(p, st0, acc, st, epoch, rest, iters) && FreshIn(rest, epoch) == FreshIn(q, epoch)
  {
    hide Solo, Measurements;
    SoloWithout(q, rest, e);
    assert FreshIn(rest, epoch) == FreshIn(q, epoch);
  }

  lemma CountReprice<S>(p: Problem<S>, st0: S, acc: seq<nat>, st: S, epoch: nat, q: seq<Entry>, rest: seq<Entry>, e: Entry, q': seq<Entry>,
                        e': Entry, iters: nat)
    requires CountOk(p, st0, acc, st, epoch, q, iters) && Without(q, rest, e) && Without(q', rest, e') && e'.move == e.move && e'.epoch == epoch
    requires e.epoch != epoch && e.move < p.moves && p.live(st, e.move)
    ensures CountOk(p, st0, acc, st, epoch, q', iters + 1)
  {
    hide Solo, Measurements;
    SoloWithout(q, rest, e);
    SoloWith(q', rest, e');
    assert FreshIn(q', epoch) == FreshIn(q, epoch) + {e.move};
  }

  lemma CountSame<S>(p: Problem<S>, st0: S, acc: seq<nat>, st: S, epoch: nat, q: seq<Entry>, q': seq<Entry>, iters: nat)
    requires CountOk(p, st0, acc, st, epoch, q, iters) && |q'| == |q| && forall x :: x in q' <==> x in q
    ensures CountOk(p, st0, acc, st, epoch, q', iters) && FreshIn(q', epoch) == FreshIn(q, epoch)
  {
    hide Measurements;
    assert MovesIn(q') == MovesIn(q);
    assert FreshIn(q', epoch) == FreshIn(q, epoch);
  }

  /** An acceptance makes everything stale, or measures everything anew. */
  lemma CountAccept<S>(p: Problem<S>, st0: S, acc: seq<nat>, st: S, epoch: nat, q: seq<Entry>, m: nat, q': seq<Entry>, iters: nat, more: nat)
    requires CountOk(p, st0, acc, st, epoch, q, iters) && Solo(q')
    requires if p.lazy then more == 0 && (forall x | x in q' :: x in q)
             else more == |q'| && forall x | x in q' :: x.epoch == epoch + 1 && x.move < p.moves && p.live(p.accept(st, m), x.move)
    ensures CountOk(p, st0, acc + [m], p.accept(st, m), epoch + 1, q', iters + more)
    ensures CountFull(p, st0, acc, st, epoch, q, iters) && (forall n: nat | n < p.moves && p.live(st, n) :: Holds(q, n)) ==>
              CountFull(p, st0, acc + [m], p.accept(st, m), epoch + 1, q', iters + more)
  {
    hide Without;
    RunSnoc(p, st0, acc, m);
    MeasurementsGrow(p, st0, acc, m, |acc| + 1);
    FreshAreLive(p, st0, acc, st, epoch, q, iters);
    assert acc[..|acc|] == acc;
    assert p.lazy ==> FreshIn(q', epoch + 1) == {};
    assert !p.lazy ==> FreshIn(q', epoch + 1) == MovesIn(q');
  }

  // ------------------------------------------------------------------------------------------
  // What holds of any objective
  // ------------------------------------------------------------------------------------------

  /** At some point of the run the move was worth at most `v`. */
  ghost predicate OnceAtMost<S>(p: Problem<S>, st: S, ms: seq<nat>, m: nat, v: real) {
    exists j | 0 <= j <= |ms| :: Worth(p, After(p, st, ms[..j]), m) <= v
  }

  /** The move can be taken after `ms`, as far as its price goes. */
  predicate Open<S>(p: Problem<S>, st: S, budget: int, ms: seq<nat>, m: nat) {
    m < p.moves && p.live(After(p, st, ms), m) && Affordable(p, After(p, st, ms), Spent(p, st, ms), budget, m)
  }

  /** Nothing that was always worth more was passed over for `e`. */
  ghost predicate Unpassed<S>(p: Problem<S>, st: S, budget: int, ms: seq<nat>, e: nat) {
    forall m: nat | m != e && Open(p, st, budget, ms, m) :: OnceAtMost(p, st, ms, m, Worth(p, After(p, st, ms), e))
  }

  /** Nothing that was always worth something is left. */
  ghost predicate Settled<S>(p: Problem<S>, st: S, budget: int, ms: seq<nat>) {
    forall m: nat | Open(p, st, budget, ms, m) :: OnceAtMost(p, st, ms, m, 0.0)
  }

  ghost predicate NonePassed<S>(p: Problem<S>, st: S, budget: int, ms: seq<nat>) {
    forall k | 0 <= k < |ms| :: Unpassed(p, st, budget, ms[..k], ms[k])
  }

  /** So a run starts with a move worth the most, and is empty only if there was none to take. */
  lemma RunStarts<S>(p: Problem<S>, st: S, budget: int, ms: seq<nat>, m: nat)
    requires NonePassed(p, st, budget, ms) && Settled(p, st, budget, ms) && Eligible(p, st, 0, budget, m)
    ensures ms != [] && (m == ms[0] || Worth(p, st, m) <= Worth(p, st, ms[0]))
  {
    hide Eligible, Affordable, Worth;
    StartOpen(p, st, budget, m);
    if ms != [] {
      assert ms[..0] == [] && Unpassed(p, st, budget, ms[..0], ms[0]);
    }
  }

  lemma StartOpen<S>(p: Problem<S>, st: S, budget: int, m: nat)
    requires Eligible(p, st, 0, budget, m)
    ensures After(p, st, []) == st && Open(p, st, budget, [], m) && forall v :: OnceAtMost(p, st, [], m, v) ==> Worth(p, st, m) <= v
    ensures !OnceAtMost(p, st, [], m, 0.0)
  {
  }

  /** Every queued gain was measured after some of the acceptances, and every live move is queued. */
  ghost predicate PastOk<S(!new)>(p: Problem<S>, st0: S, acc: seq<nat>, st: S, epoch: nat, q: seq<Entry>) {
    && st == After(p, st0, acc) && epoch == |acc|
    && (forall x | x in q :: x.epoch <= epoch && x.gain == Worth(p, After(p, st0, acc[..x.epoch]), x.move))
    && (LiveShrinks(p) ==> forall m: nat | m < p.moves && p.live(st, m) :: Holds(q, m))
  }

  lemma PastStart<S(!new)>(p: Problem<S>, st: S, q: seq<Entry>)
    requires Measured(p, st, 0, q) && (forall x | x in q :: x.epoch == 0) && Covered(p, st, q, [])
    ensures PastOk(p, st, [], st, 0, q + [])
  {
    hide Worth;
    assert q + [] == q;
    var none: seq<nat> := [];
    assert none[..0] == none;
  }

  lemma PastDrop<S(!new)>(p: Problem<S>, st0: S, acc: seq<nat>, st: S, epoch: nat, q: seq<Entry>, rest: seq<Entry>, e: Entry)
    requires PastOk(p, st0, acc, st, epoch, q) && Without(q, rest, e) && !p.live(st, e.move)
    ensures PastOk(p, st0, acc, st, epoch, rest)
  {
    hide Worth, After, LiveShrinks;
    if LiveShrinks(p) {
      forall m: nat | m < p.moves && p.live(st, m) ensures Holds(rest, m) {
        var x :| x in q && x.move == m;
      }
    }
  }

  lemma PastReprice<S(!new)>(p: Problem<S>, st0: S, acc: seq<nat>, st: S, epoch: nat, q: seq<Entry>, rest: seq<Entry>, e: Entry, q': seq<Entry>)
    requires PastOk(p, st0, acc, st, epoch, q) && Without(q, rest, e) && Without(q', rest, Entry(e.move, Worth(p, st, e.move), epoch))
    ensures PastOk(p, st0, acc, st, epoch, q')
  {
    hide Worth, After, LiveShrinks;
    assert acc[..|acc|] == acc;
    if LiveShrinks(p) {
      forall m: nat | m < p.moves && p.live(st, m) ensures Holds(q', m) {
        var x :| x in q && x.move == m;
        if x != e { assert x in q'; }
      }
    }
  }

  lemma PastSame<S(!new)>(p: Problem<S>, st0: S, acc: seq<nat>, st: S, epoch: nat, q: seq<Entry>, q': seq<Entry>)
    requires PastOk(p, st0, acc, st, epoch, q) && forall x :: x in q' <==> x in q
    ensures PastOk(p, st0, acc, st, epoch, q')
  {
    hide Worth, After, LiveShrinks;
    if LiveShrinks(p) {
      forall m: nat | m < p.moves && p.live(st, m) ensures Holds(q', m) {
        var x :| x in q && x.move == m;
        assert x in q';
      }
    }
  }

  lemma PastAccept<S(!new)>(p: Problem<S>, st0: S, acc: seq<nat>, st: S, epoch: nat, q: seq<Entry>, rest: seq<Entry>, e: Entry, q': seq<Entry>)
    requires PastOk(p, st0, acc, st, epoch, q) && Without(q, rest, e) && e.move < p.moves
    requires var st' := p.accept(st, e.move);
             if p.lazy then q' == rest
             else Measured(p, st', epoch + 1, q') && (forall x | x in q' :: x.epoch == epoch + 1) && forall m: nat | Holds(rest, m) && p.live(st', m) :: Holds(q', m)
    ensures PastOk(p, st0, acc + [e.move], p.accept(st, e.move), epoch + 1, q')
  {
    hide Worth, After;
    var ms := acc + [e.move];
    RunSnoc(p, st0, acc, e.move);
    assert ms[..|ms|] == ms && forall k | 0 <= k <= |acc| :: ms[..k] == acc[..k];
    if LiveShrinks(p) {
      forall m: nat | m < p.moves && p.live(p.accept(st, e.move), m) ensures Holds(q', m) {
        assert p.live(st, m) && m != e.move;
        var x :| x in q && x.move == m;
        assert x in rest && Holds(rest, m);
      }
    }
  }

  /** The top of the queue was not preferred to anything that was always worth more. */
  lemma TopIsUnpassed<S(!new)>(p: Problem<S>, st0: S, budget: int, acc: seq<nat>, st: S, epoch: nat, q: seq<Entry>, rest: seq<Entry>, e: Entry, d: seq<Entry>)
    requires PastOk(p, st0, acc, st, epoch, q + d) && LiveShrinks(p) && Popped(q, rest, e) && e.epoch == epoch
    requires Waiting(p, st, Spent(p, st0, acc), budget, epoch, d)
    ensures Unpassed(p, st0, budget, acc, e.move)
  {
    hide Worth, After, LiveShrinks, Spent;
    assert acc[..|acc|] == acc && e in q + d;
    forall m: nat | m != e.move && Open(p, st0, budget, acc, m) ensures OnceAtMost(p, st0, acc, m, Worth(p, st, e.move)) {
      var x :| x in q + d && x.move == m;
      assert x in q || x in d;
      assert x in rest;
      assert Worth(p, After(p, st0, acc[..x.epoch]), m) <= Worth(p, st, e.move);
    }
  }

  lemma TopSettles<S(!new)>(p: Problem<S>, st0: S, budget: int, acc: seq<nat>, st: S, epoch: nat, q: seq<Entry>, rest: seq<Entry>, e: Entry, d: seq<Entry>)
    requires PastOk(p, st0, acc, st, epoch, q + d) && LiveShrinks(p) && Waiting(p, st, Spent(p, st0, acc), budget, epoch, d)
    requires q == [] || (Popped(q, rest, e) && e.gain <= 0.0)
    ensures Settled(p, st0, budget, acc)
  {
    hide Worth, After, LiveShrinks, Spent;
    forall m: nat | Open(p, st0, budget, acc, m) ensures OnceAtMost(p, st0, acc, m, 0.0) {
      var x :| x in q + d && x.move == m;
      assert x in q || x in d;
      assert x in q && x.gain <= 0.0;
      assert Worth(p, After(p, st0, acc[..x.epoch]), m) <= 0.0;
    }
  }

  lemma NonePassedSnoc<S>(p: Problem<S>, st: S, budget: int, ms: seq<nat>, m: nat)
    requires NonePassed(p, st, budget, ms) && Unpassed(p, st, budget, ms, m)
    ensures NonePassed(p, st, budget, ms + [m])
  {
    hide Unpassed;
    var ns := ms + [m];
    forall k | 0 <= k < |ns| ensures Unpassed(p, st, budget, ns[..k], ns[k]) {
      assert ns[..k] == ms[..k];
      assert ms[..|ms|] == ms;
    }
  }

  lemma NoneAccepted<S>(p: Problem<S>, st: S, budget: int)
    ensures NonePassed(p, st, budget, [])
  {
  }

  // ------------------------------------------------------------------------------------------
  // The engine
  // ------------------------------------------------------------------------------------------

  /** The eager half: every surviving move is measured again. */
  method RepriceAll<S>(p: Problem<S>, st: S, epoch: nat, pending: seq<Entry>) returns (q: seq<Entry>, iters: nat)
    requires forall x | x in pending :: x.move < p.moves
    ensures Measured(p, st, epoch, q) && (forall x | x in q :: x.epoch == epoch)
    ensures forall m: nat | Holds(pending, m) && p.live(st, m) :: Holds(q, m)
    ensures |q| <= |pending| && iters == |q|
    ensures (forall x | x in q :: p.live(st, x.move)) && (Solo(pending) ==> Solo(q))
  {
    hide Solo;
    q, iters := [], 0;
    assert Solo(q) by { SoloNone(); }
    for i := 0 to |pending|
      invariant Measured(p, st, epoch, q) && (forall x | x in q :: x.epoch == epoch)
      invariant forall k | 0 <= k < i && p.live(st, pending[k].move) :: Holds(q, pending[k].move)
      invariant |q| <= i && iters == |q|
      invariant (forall x | x in q :: p.live(st, x.move)) && (forall x | x in q :: exists k | 0 <= k < i :: pending[k].move == x.move)
      invariant Solo(pending) ==> Solo(q)
    {
      var m := pending[i].move;
      if p.live(st, m) {
        iters := iters + 1;
        if Solo(pending) {
          SoloApart(pending);
          SoloPush(q, Entry(m, Worth(p, st, m), epoch));
        }
        PushHolds(q, Entry(m, Worth(p, st, m), epoch));
        q := q + [Entry(m, Worth(p, st, m), epoch)];
      }
    }
  }

  lemma SoloNone()
    ensures Solo([])
  {
  }

  lemma SoloApart(q: seq<Entry>)
    requires Solo(q)
    ensures forall i, j | 0 <= i < j < |q| :: q[i].move != q[j].move
  {
    forall i, j | 0 <= i < j < |q| ensures q[i].move != q[j].move {
      var rest := q[..j] + q[j + 1..];
      assert q == q[..j] + [q[j]] + q[j + 1..];
      assert rest[i] == q[i];
      SoloWithout(q, rest, q[j]);
    }
  }

  lemma SoloPush(q: seq<Entry>, e: Entry)
    requires Solo(q) && forall x | x in q :: x.move != e.move
    ensures Solo(q + [e])
  {
    SoloWith(q + [e], q, e);
  }

  lemma PushHolds(q: seq<Entry>, e: Entry)
    ensures Holds(q + [e], e.move)
    ensures forall m: nat | Holds(q, m) :: Holds(q + [e], m)
  {
    assert e in q + [e];
    forall m: nat | Holds(q, m) ensures Holds(q + [e], m) {
      var x :| x in q && x.move == m;
      assert x in q + [e];
    }
  }

  /** The first measurement of every live move. */
  method FillQueue<S>(p: Problem<S>, st: S) returns (q: seq<Entry>)
    ensures Measured(p, st, 0, q) && (forall x | x in q :: x.epoch == 0)
    ensures Covered(p, st, q, [])
    ensures Solo(q) && forall x | x in q :: p.live(st, x.move)
  {
    hide Solo;
    q := [];
    assert Solo(q) by { SoloNone(); }
    for m := 0 to p.moves
      invariant Measured(p, st, 0, q) && (forall x | x in q :: x.epoch == 0)
      invariant forall n: nat | n < m && p.live(st, n) :: Holds(q, n)
      invariant Solo(q) && forall x | x in q :: x.move < m && p.live(st, x.move)
    {
      if p.live(st, m) {
        SoloPush(q, Entry(m, Worth(p, st, m), 0));
        PushHolds(q, Entry(m, Worth(p, st, m), 0));
        q := q + [Entry(m, Worth(p, st, m), 0)];
      }
    }
    assert q + [] == q;
  }

  ghost predicate EngineInv<S(!new)>(p: Problem<S>, st0: S, budget: int, inv: S -> bool, acc: seq<nat>, st: S, spent: int,
                                     epoch: nat, q: seq<Entry>, d: seq<Entry>) {
    && st == After(p, st0, acc) && spent == Spent(p, st0, acc)
    && AllowedRun(p, st0, budget, acc)
    && Measured(p, st, epoch, q + d) && Waiting(p, st, spent, budget, epoch, d)
    && (Exact(p, inv) && inv(st0) ==>
          inv(st) && BestRun(p, st0, budget, acc) && Covered(p, st, q, d) && Bounding(p, st, q + d))
  }

  // What each turn of the loop keeps.

  lemma CoveredAfterPop<S>(p: Problem<S>, st: S, q: seq<Entry>, rest: seq<Entry>, e: Entry, d: seq<Entry>, q': seq<Entry>, d': seq<Entry>)
    requires Covered(p, st, q, d) && Popped(q, rest, e)
    requires forall x | x in rest + d :: x in q' + d'
    requires p.live(st, e.move) ==> Holds(q' + d', e.move)
    ensures Covered(p, st, q', d')
  {
    forall m: nat | m < p.moves && p.live(st, m) ensures Holds(q' + d', m) {
      var x :| x in q + d && x.move == m;
      if x in rest || x in d { assert x in rest + d; } else { assert x == e; }
    }
  }

  lemma DropInv<S(!new)>(p: Problem<S>, st0: S, budget: int, inv: S -> bool, acc: seq<nat>, st: S, spent: int, epoch: nat,
                         q: seq<Entry>, rest: seq<Entry>, e: Entry, d: seq<Entry>)
    requires EngineInv(p, st0, budget, inv, acc, st, spent, epoch, q, d) && Popped(q, rest, e)
    requires !p.live(st, e.move)
    ensures EngineInv(p, st0, budget, inv, acc, st, spent, epoch, rest, d)
  {
    hide Exact, AllowedRun, BestRun, Affordable, After, Spent, Worth, Less, Covered;
    assert forall x | x in rest + d :: x in q + d;
    if Exact(p, inv) && inv(st0) { CoveredAfterPop(p, st, q, rest, e, d, rest, d); }
  }

  lemma RepriceInv<S(!new)>(p: Problem<S>, st0: S, budget: int, inv: S -> bool, acc: seq<nat>, st: S, spent: int, epoch: nat,
                            q: seq<Entry>, rest: seq<Entry>, e: Entry, d: seq<Entry>)
    requires EngineInv(p, st0, budget, inv, acc, st, spent, epoch, q, d) && Popped(q, rest, e)
    ensures EngineInv(p, st0, budget, inv, acc, st, spent, epoch, rest + [Entry(e.move, Worth(p, st, e.move), epoch)], d)
  {
    hide Exact, AllowedRun, BestRun, Affordable, After, Spent, Worth, Less, Covered;
    var e' := Entry(e.move, Worth(p, st, e.move), epoch);
    var q' := rest + [e'];
    assert forall x | x in q' + d :: x in q + d || x == e';
    assert e in q + d;
    assert e' in q' + d;
    if Exact(p, inv) && inv(st0) { CoveredAfterPop(p, st, q, rest, e, d, q', d); }
  }

  lemma DeferInv<S(!new)>(p: Problem<S>, st0: S, budget: int, inv: S -> bool, acc: seq<nat>, st: S, spent: int, epoch: nat,
                          q: seq<Entry>, rest: seq<Entry>, e: Entry, d: seq<Entry>)
    requires EngineInv(p, st0, budget, inv, acc, st, spent, epoch, q, d) && Popped(q, rest, e)
    requires e.epoch == epoch && !Affordable(p, st, spent, budget, e.move)
    ensures EngineInv(p, st0, budget, inv, acc, st, spent, epoch, rest, d + [e])
  {
    hide Exact, AllowedRun, BestRun, Affordable, After, Spent, Worth, Less, Covered;
    assert forall x | x in rest + (d + [e]) :: x in q + d;
    assert e in rest + (d + [e]);
    if Exact(p, inv) && inv(st0) { CoveredAfterPop(p, st, q, rest, e, d, rest, d + [e]); }
  }

  /** The move taken was allowed, and on an exact problem it was the best there was. */
  lemma AcceptRun<S(!new)>(p: Problem<S>, st0: S, budget: int, inv: S -> bool, acc: seq<nat>, st: S, spent: int, epoch: nat,
                           q: seq<Entry>, rest: seq<Entry>, e: Entry, d: seq<Entry>)
    requires EngineInv(p, st0, budget, inv, acc, st, spent, epoch, q, d) && Popped(q, rest, e)
    requires e.epoch == epoch && e.gain > 0.0 && p.live(st, e.move) && Affordable(p, st, spent, budget, e.move)
    ensures p.accept(st, e.move) == After(p, st0, acc + [e.move])
    ensures spent + p.cost(st, e.move) == Spent(p, st0, acc + [e.move])
    ensures AllowedRun(p, st0, budget, acc + [e.move])
    ensures Exact(p, inv) && inv(st0) ==> inv(p.accept(st, e.move)) && BestRun(p, st0, budget, acc + [e.move])
  {
    hide Exact, AllowedRun, BestRun, Affordable, After, Spent, Worth, Less, Covered, Bounding;
    RunSnoc(p, st0, acc, e.move);
    assert e in q + d;
    AllowedSnoc(p, st0, budget, acc, e.move);
    if Exact(p, inv) && inv(st0) {
      TopIsBest(p, st, spent, budget, epoch, q, rest, e, d);
      BestSnoc(p, st0, budget, acc, e.move);
      StepPreserves(p, inv, st, e.move);
    }
  }

  lemma StepPreserves<S(!new)>(p: Problem<S>, inv: S -> bool, st: S, m: nat)
    requires Exact(p, inv) && inv(st) && m < p.moves
    ensures inv(p.accept(st, m))
    ensures !p.live(p.accept(st, m), m)
    ensures forall n: nat | p.live(p.accept(st, m), n) :: p.live(st, n)
    ensures p.lazy ==> forall n: nat | n < p.moves && p.live(p.accept(st, m), n) && Worth(p, p.accept(st, m), n) > 0.0 ::
                         Worth(p, p.accept(st, m), n) <= Worth(p, st, n)
  {
    hide Worth;
  }

  lemma AcceptLazy<S(!new)>(p: Problem<S>, st0: S, budget: int, inv: S -> bool, acc: seq<nat>, st: S, spent: int, epoch: nat,
                            q: seq<Entry>, rest: seq<Entry>, e: Entry, d: seq<Entry>)
    requires EngineInv(p, st0, budget, inv, acc, st, spent, epoch, q, d) && Popped(q, rest, e) && p.lazy
    requires e.epoch == epoch && e.gain > 0.0 && p.live(st, e.move) && Affordable(p, st, spent, budget, e.move)
    ensures EngineInv(p, st0, budget, inv, acc + [e.move], p.accept(st, e.move), spent + p.cost(st, e.move), epoch + 1, rest + d, [])
  {
    hide Exact, AllowedRun, BestRun, Affordable, After, Spent, Worth, Less;
    AcceptRun(p, st0, budget, inv, acc, st, spent, epoch, q, rest, e, d);
    assert (rest + d) + [] == rest + d;
    assert forall x | x in rest + d :: x in q + d;
    assert e in q + d;
    if Exact(p, inv) && inv(st0) {
      StepPreserves(p, inv, st, e.move);
      forall m: nat | m < p.moves && p.live(p.accept(st, e.move), m) ensures Holds((rest + d) + [], m) {
        var x :| x in q + d && x.move == m;
        assert x in rest || x in d;
      }
    }
  }

  lemma AcceptEager<S(!new)>(p: Problem<S>, st0: S, budget: int, inv: S -> bool, acc: seq<nat>, st: S, spent: int, epoch: nat,
                             q: seq<Entry>, rest: seq<Entry>, e: Entry, d: seq<Entry>, q': seq<Entry>)
    requires EngineInv(p, st0, budget, inv, acc, st, spent, epoch, q, d) && Popped(q, rest, e)
    requires e.epoch == epoch && e.gain > 0.0 && p.live(st, e.move) && Affordable(p, st, spent, budget, e.move)
    requires Measured(p, p.accept(st, e.move), epoch + 1, q') && (forall x | x in q' :: x.epoch == epoch + 1)
    requires forall m: nat | Holds(rest + d, m) && p.live(p.accept(st, e.move), m) :: Holds(q', m)
    ensures EngineInv(p, st0, budget, inv, acc + [e.move], p.accept(st, e.move), spent + p.cost(st, e.move), epoch + 1, q', [])
  {
    hide Exact, AllowedRun, BestRun, Affordable, After, Spent, Worth, Less;
    AcceptRun(p, st0, budget, inv, acc, st, spent, epoch, q, rest, e, d);
    assert q' + [] == q';
    assert e in q + d;
    if Exact(p, inv) && inv(st0) {
      StepPreserves(p, inv, st, e.move);
      forall m: nat | m < p.moves && p.live(p.accept(st, e.move), m) ensures Holds(q' + [], m) {
        var x :| x in q + d && x.move == m;
        assert x in rest || x in d;
        assert x in rest + d;
      }
    }
  }

  lemma EndInv<S(!new)>(p: Problem<S>, st0: S, budget: int, inv: S -> bool, acc: seq<nat>, st: S, spent: int, epoch: nat,
                        q: seq<Entry>, rest: seq<Entry>, e: Entry, d: seq<Entry>)
    requires EngineInv(p, st0, budget, inv, acc, st, spent, epoch, q, d)
    requires q == [] || (Popped(q, rest, e) && e.epoch == epoch && e.gain <= 0.0)
    ensures st == After(p, st0, acc) && spent == Spent(p, st0, acc) && AllowedRun(p, st0, budget, acc)
    ensures Exact(p, inv) && inv(st0) ==> GreedyRun(p, st0, budget, acc)
  {
    hide Exact, AllowedRun, BestRun, After, Spent, Worth, Affordable, Covered;
    if Exact(p, inv) && inv(st0) {
      if q == [] { EmptyEndsRun(p, st, spent, budget, epoch, d); }
      else { TopEndsRun(p, st, spent, budget, epoch, q, rest, e, d); }
    }
  }

  lemma StartInv<S(!new)>(p: Problem<S>, st0: S, budget: int, inv: S -> bool, q: seq<Entry>)
    requires Measured(p, st0, 0, q) && (forall x | x in q :: x.epoch == 0) && Covered(p, st0, q, [])
    ensures EngineInv(p, st0, budget, inv, [], st0, 0, 0, q, [])
  {
    hide Exact, Worth, Covered;
    assert q + [] == q;
  }

  /** Spends `budget`, taking the highest-gain affordable move until nothing positive still fits.
      On an exact problem the result is THE greedy run, lazy or eager. */
  method RunLazyGreedy<S(!new)>(p: Problem<S>, st0: S, budget: int, ghost inv: S -> bool) returns (r: Outcome<S>)
    ensures r.st == After(p, st0, r.accepted) && r.spent == Spent(p, st0, r.accepted)
    ensures AllowedRun(p, st0, budget, r.accepted)
    ensures Exact(p, inv) && inv(st0) ==> GreedyRun(p, st0, budget, r.accepted)
    ensures |LiveMoves(p, st0)| <= r.iters <= Measurements(p, st0, r.accepted, |r.accepted| + 1)
    ensures Exact(p, inv) && inv(st0) && !p.lazy ==> r.iters == Measurements(p, st0, r.accepted, |r.accepted| + 1)
    ensures LiveShrinks(p) ==> NonePassed(p, st0, budget, r.accepted) && Settled(p, st0, budget, r.accepted)
  {
    hide EngineInv, Exact, PastOk, NonePassed, Settled, LiveShrinks, Unpassed, GreedyRun, AllowedRun, Affordable, Worth, Stale, After, Spent, CountOk, CountFull, Measurements, LiveMoves, Solo,
      Covered, Measured;
    var q := FillQueue(p, st0);
    StartInv(p, st0, budget, inv, q);
    StartCount(p, st0, q);
    PastStart(p, st0, q);
    NoneAccepted(p, st0, budget);
    var acc: seq<nat>, d: seq<Entry> := [], [];
    var st, spent := st0, 0;
    var iters: nat, epoch: nat := |q|, 0;
    while q != []
      invariant EngineInv(p, st0, budget, inv, acc, st, spent, epoch, q, d)
      invariant CountOk(p, st0, acc, st, epoch, q + d, iters)
      invariant Exact(p, inv) && inv(st0) ==> CountFull(p, st0, acc, st, epoch, q + d, iters)
      invariant PastOk(p, st0, acc, st, epoch, q + d) && (LiveShrinks(p) ==> NonePassed(p, st0, budget, acc))
      decreases |q| + |d|, Stale(q, epoch), |q|
    {
      var e, rest := PopBest(q, epoch);
      StaleOne(e, epoch);
      PopWithout(q, rest, e, d);
      if !p.live(st, e.move) {
        CountDrop(p, st0, acc, st, epoch, q + d, rest + d, e, iters);
        SameFull(p, st0, acc, st, epoch, q + d, rest + d, iters);
        PastDrop(p, st0, acc, st, epoch, q + d, rest + d, e);
        DropInv(p, st0, budget, inv, acc, st, spent, epoch, q, rest, e, d);
        q := rest;
      } else if e.epoch != epoch {
        var e' := Entry(e.move, Worth(p, st, e.move), epoch);
        StaleConcat(rest, [e'], epoch);
        StaleOne(e', epoch);
        RepriceInv(p, st0, budget, inv, acc, st, spent, epoch, q, rest, e, d);
        PendingMoves(p, st0, budget, inv, acc, st, spent, epoch, q, rest, e, d);
        PopWithout(rest + [e'], rest, e', d);
        StaleIsLazy(p, st0, acc, st, epoch, q + d, e, iters, rest + [e'] + d);
        CountReprice(p, st0, acc, st, epoch, q + d, rest + d, e, rest + [e'] + d, e', iters);
        PastReprice(p, st0, acc, st, epoch, q + d, rest + d, e, rest + [e'] + d);
        q, iters := rest + [e'], iters + 1;
      } else if e.gain <= 0.0 {
        EndInv(p, st0, budget, inv, acc, st, spent, epoch, q, rest, e, d);
        EndCount(p, st0, budget, inv, acc, st, spent, epoch, q, d, iters);
        if LiveShrinks(p) {
          WaitingNow(p, st0, budget, inv, acc, st, spent, epoch, q, d);
          TopSettles(p, st0, budget, acc, st, epoch, q, rest, e, d);
        }
        return Outcome(acc, spent, iters, st);
      } else if p.cost(st, e.move) < 0 || spent + p.cost(st, e.move) > budget || !p.afford(st, e.move, p.cost(st, e.move), spent) {
        assert !Affordable(p, st, spent, budget, e.move) by { AffordableIs(p, st, spent, budget, e.move); }
        DeferInv(p, st0, budget, inv, acc, st, spent, epoch, q, rest, e, d);
        CountSame(p, st0, acc, st, epoch, q + d, rest + (d + [e]), iters);
        SameFull(p, st0, acc, st, epoch, q + d, rest + (d + [e]), iters);
        PastSame(p, st0, acc, st, epoch, q + d, rest + (d + [e]));
        q, d := rest, d + [e];
      } else {
        AffordableIs(p, st, spent, budget, e.move);
        var c, st' := p.cost(st, e.move), p.accept(st, e.move);
        SoloWithout(q + d, rest + d, e) by { CountSolo(p, st0, acc, st, epoch, q + d, iters); }
        HeldAll(p, st0, budget, inv, acc, st, spent, epoch, q, d);
        PendingMoves(p, st0, budget, inv, acc, st, spent, epoch, q, rest, e, d);
        if LiveShrinks(p) {
          WaitingNow(p, st0, budget, inv, acc, st, spent, epoch, q, d);
          TopIsUnpassed(p, st0, budget, acc, st, epoch, q, rest, e, d);
          NonePassedSnoc(p, st0, budget, acc, e.move);
        }
        if p.lazy {
          AcceptLazy(p, st0, budget, inv, acc, st, spent, epoch, q, rest, e, d);
          CountAccept(p, st0, acc, st, epoch, q + d, e.move, rest + d, iters, 0);
          PastAccept(p, st0, acc, st, epoch, q + d, rest + d, e, rest + d);
          q := rest + d;
        } else {
          var q', more := RepriceAll(p, st', epoch + 1, rest + d);
          AcceptEager(p, st0, budget, inv, acc, st, spent, epoch, q, rest, e, d, q');
          MeasuredInRange(p, st', epoch + 1, q');
          CountAccept(p, st0, acc, st, epoch, q + d, e.move, q', iters, more);
          PastAccept(p, st0, acc, st, epoch, q + d, rest + d, e, q');
          q, iters := q', iters + more;
        }
        acc, st, spent, epoch, d := acc + [e.move], st', spent + c, epoch + 1, [];
        assert q + d == q;
      }
    }
    EndInv(p, st0, budget, inv, acc, st, spent, epoch, q, [], Entry(0, 0.0, 0), d);
    EndCount(p, st0, budget, inv, acc, st, spent, epoch, q, d, iters);
    if LiveShrinks(p) {
      WaitingNow(p, st0, budget, inv, acc, st, spent, epoch, q, d);
      TopSettles(p, st0, budget, acc, st, epoch, q, [], Entry(0, 0.0, 0), d);
    }
    return Outcome(acc, spent, iters, st);
  }

  lemma WaitingNow<S(!new)>(p: Problem<S>, st0: S, budget: int, inv: S -> bool, acc: seq<nat>, st: S, spent: int, epoch: nat, q: seq<Entry>, d: seq<Entry>)
    requires EngineInv(p, st0, budget, inv, acc, st, spent, epoch, q, d)
    ensures Waiting(p, st, Spent(p, st0, acc), budget, epoch, d)
  {
    hide Exact, AllowedRun, BestRun, After, Spent, Worth, Affordable;
  }

  lemma AffordableIs<S>(p: Problem<S>, st: S, spent: int, budget: int, m: nat)
    ensures Affordable(p, st, spent, budget, m) <==>
            p.cost(st, m) >= 0 && spent + p.cost(st, m) <= budget && p.afford(st, m, p.cost(st, m), spent)
  {
  }

  lemma StartCount<S>(p: Problem<S>, st: S, q: seq<Entry>)
    requires Measured(p, st, 0, q) && (forall x | x in q :: x.epoch == 0) && Covered(p, st, q, []) && Solo(q) && forall x | x in q :: p.live(st, x.move)
    ensures CountOk(p, st, [], st, 0, q + [], |q|) && CountFull(p, st, [], st, 0, q + [], |q|)
  {
    assert q + [] == q;
    assert MovesIn(q) == LiveMoves(p, st) && FreshIn(q, 0) == MovesIn(q);
  }

  lemma PopWithout(q: seq<Entry>, rest: seq<Entry>, e: Entry, d: seq<Entry>)
    requires |q| == |rest| + 1 && e in q && (forall x | x in q :: x == e || x in rest) && forall x | x in rest :: x in q
    ensures Without(q + d, rest + d, e)
    ensures |rest + (d + [e])| == |q + d| && forall x :: x in rest + (d + [e]) <==> x in q + d
  {
  }

  lemma CountSolo<S>(p: Problem<S>, st0: S, acc: seq<nat>, st: S, epoch: nat, q: seq<Entry>, iters: nat)
    requires CountOk(p, st0, acc, st, epoch, q, iters)
    ensures Solo(q)
  {
  }

  lemma SameFull<S>(p: Problem<S>, st0: S, acc: seq<nat>, st: S, epoch: nat, q: seq<Entry>, q': seq<Entry>, iters: nat)
    requires FreshIn(q', epoch) == FreshIn(q, epoch)
    ensures CountFull(p, st0, acc, st, epoch, q, iters) ==> CountFull(p, st0, acc, st, epoch, q', iters)
  {
  }

  lemma StaleIsLazy<S>(p: Problem<S>, st0: S, acc: seq<nat>, st: S, epoch: nat, q: seq<Entry>, e: Entry, iters: nat, q': seq<Entry>)
    requires CountOk(p, st0, acc, st, epoch, q, iters) && e in q && e.epoch != epoch
    ensures CountFull(p, st0, acc, st, epoch, q', iters + 1)
  {
  }

  lemma HeldAll<S(!new)>(p: Problem<S>, st0: S, budget: int, inv: S -> bool, acc: seq<nat>, st: S, spent: int, epoch: nat, q: seq<Entry>, d: seq<Entry>)
    requires EngineInv(p, st0, budget, inv, acc, st, spent, epoch, q, d)
    ensures Exact(p, inv) && inv(st0) ==> forall m: nat | m < p.moves && p.live(st, m) :: Holds(q + d, m)
  {
    hide Exact, AllowedRun, BestRun, After, Spent, Worth;
  }

  lemma MeasuredInRange<S>(p: Problem<S>, st: S, epoch: nat, q: seq<Entry>)
    requires Measured(p, st, epoch, q)
    ensures forall x | x in q :: x.move < p.moves
  {
  }

  lemma EndCount<S(!new)>(p: Problem<S>, st0: S, budget: int, inv: S -> bool, acc: seq<nat>, st: S, spent: int, epoch: nat, q: seq<Entry>,
                          d: seq<Entry>, iters: nat)
    requires EngineInv(p, st0, budget, inv, acc, st, spent, epoch, q, d) && CountOk(p, st0, acc, st, epoch, q + d, iters)
    ensures |LiveMoves(p, st0)| <= iters <= Measurements(p, st0, acc, |acc| + 1)
    ensures Exact(p, inv) && inv(st0) && !p.lazy && CountFull(p, st0, acc, st, epoch, q + d, iters) ==>
              iters == Measurements(p, st0, acc, |acc| + 1)
  {
    hide EngineInv, Exact, Solo, LiveMoves;
    HeldAll(p, st0, budget, inv, acc, st, spent, epoch, q, d);
    FreshAreLive(p, st0, acc, st, epoch, q + d, iters);
    assert acc[..|acc|] == acc;
  }

  lemma StaleOne(e: Entry, epoch: nat)
    ensures Stale([e], epoch) == if e.epoch != epoch then 1 else 0
  {
  }

  lemma PendingMoves<S(!new)>(p: Problem<S>, st0: S, budget: int, inv: S -> bool, acc: seq<nat>, st: S, spent: int, epoch: nat,
                              q: seq<Entry>, rest: seq<Entry>, e: Entry, d: seq<Entry>)
    requires EngineInv(p, st0, budget, inv, acc, st, spent, epoch, q, d) && Popped(q, rest, e)
    ensures e.move < p.moves && forall x | x in rest + d :: x.move < p.moves
  {
    hide Exact, AllowedRun, BestRun, After, Spent, Worth;
    assert e in q + d && forall x | x in rest + d :: x in q + d;
  }

  // ------------------------------------------------------------------------------------------
  // There is a greedy run
  // ------------------------------------------------------------------------------------------

  lemma BestExists<S>(p: Problem<S>, st: S, spent: int, budget: int, some: nat) returns (m: nat)
    requires Eligible(p, st, spent, budget, some)
    ensures Best(p, st, spent, budget, m)
  {
    hide Affordable, Worth;
    m := some;
    for k := 0 to p.moves
      invariant Eligible(p, st, spent, budget, m)
      invariant forall n: nat | n < k && n != m && Eligible(p, st, spent, budget, n) :: Beats(p, st, m, n)
    {
      if Eligible(p, st, spent, budget, k) && k != m && !Beats(p, st, m, k) { m := k; }
    }
  }

  lemma GreedyRunExists<S(!new)>(p: Problem<S>, st: S, budget: int) returns (ms: seq<nat>)
    requires LiveShrinks(p)
    ensures GreedyRun(p, st, budget, ms)
  {
    hide Eligible, Best, Spent;
    ms := [];
    while !Stuck(p, After(p, st, ms), Spent(p, st, ms), budget)
      invariant BestRun(p, st, budget, ms)
      decreases |LiveMoves(p, After(p, st, ms))|
    {
      var at, spent := After(p, st, ms), Spent(p, st, ms);
      var some: nat :| Eligible(p, at, spent, budget, some);
      var m := BestExists(p, at, spent, budget, some);
      BestSnoc(p, st, budget, ms, m);
      RunSnoc(p, st, ms, m);
      FewerLive(p, at, spent, budget, m);
      ms := ms + [m];
    }
  }

  lemma FewerLive<S(!new)>(p: Problem<S>, st: S, spent: int, budget: int, m: nat)
    requires LiveShrinks(p) && Best(p, st, spent, budget, m)
    ensures |LiveMoves(p, p.accept(st, m))| < |LiveMoves(p, st)|
  {
    hide Affordable, Worth;
    var a, b := LiveMoves(p, p.accept(st, m)), LiveMoves(p, st);
    assert m in b && m !in a && a <= b - {m};
    SubsetSize(a, b - {m});
  }

  // ------------------------------------------------------------------------------------------
  // What a run is does not depend on how the engine looked for it
  // ------------------------------------------------------------------------------------------

  lemma {:induction false} AfterMode<S>(p: Problem<S>, lazy: bool, st: S, ms: seq<nat>)
    ensures After(p.(lazy := lazy), st, ms) == After(p, st, ms)
    ensures Spent(p.(lazy := lazy), st, ms) == Spent(p, st, ms)
  {
    if ms != [] { AfterMode(p, lazy, st, ms[..|ms| - 1]); }
  }

  lemma {:induction false} MeasurementsMode<S>(p: Problem<S>, lazy: bool, st: S, ms: seq<nat>, n: nat)
    requires n <= |ms| + 1
    ensures Measurements(p.(lazy := lazy), st, ms, n) == Measurements(p, st, ms, n)
  {
    if n > 0 {
      MeasurementsMode(p, lazy, st, ms, n - 1);
      AfterMode(p, lazy, st, ms[..n - 1]);
      assert LiveMoves(p.(lazy := lazy), After(p, st, ms[..n - 1])) == LiveMoves(p, After(p, st, ms[..n - 1]));
    }
  }

  lemma EligibleMode<S>(p: Problem<S>, lazy: bool, st: S, spent: int, budget: int, m: nat)
    ensures Eligible(p.(lazy := lazy), st, spent, budget, m) <==> Eligible(p, st, spent, budget, m)
    ensures Best(p.(lazy := lazy), st, spent, budget, m) <==> Best(p, st, spent, budget, m)
  {
    var p' := p.(lazy := lazy);
    assert forall n: nat :: Eligible(p', st, spent, budget, n) <==> Eligible(p, st, spent, budget, n);
    assert forall n: nat :: Beats(p', st, m, n) <==> Beats(p, st, m, n);
  }

  lemma RunMode<S>(p: Problem<S>, lazy: bool, st: S, budget: int, ms: seq<nat>)
    ensures AllowedRun(p.(lazy := lazy), st, budget, ms) <==> AllowedRun(p, st, budget, ms)
    ensures GreedyRun(p.(lazy := lazy), st, budget, ms) <==> GreedyRun(p, st, budget, ms)
  {
    hide Eligible, Best, After, Spent;
    var p' := p.(lazy := lazy);
    AfterMode(p, lazy, st, ms);
    forall k | 0 <= k < |ms|
      ensures Eligible(p', After(p', st, ms[..k]), Spent(p', st, ms[..k]), budget, ms[k])
         <==> Eligible(p, After(p, st, ms[..k]), Spent(p, st, ms[..k]), budget, ms[k])
      ensures Best(p', After(p', st, ms[..k]), Spent(p', st, ms[..k]), budget, ms[k])
         <==> Best(p, After(p, st, ms[..k]), Spent(p, st, ms[..k]), budget, ms[k])
    {
      AfterMode(p, lazy, st, ms[..k]);
      EligibleMode(p, lazy, After(p, st, ms[..k]), Spent(p, st, ms[..k]), budget, ms[k]);
    }
    forall m: nat
      ensures Eligible(p', After(p, st, ms), Spent(p, st, ms), budget, m)
         <==> Eligible(p, After(p, st, ms), Spent(p, st, ms), budget, m)
    {
      EligibleMode(p, lazy, After(p, st, ms), Spent(p, st, ms), budget, m);
    }
  }

  lemma ExactMode<S(!new)>(p: Problem<S>, lazy: bool, inv: S -> bool)
    requires Exact(p, inv) && p.lazy
    ensures Exact(p.(lazy := lazy), inv)
  {
  }
}
