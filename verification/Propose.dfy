/** Representation selection: at most one representation per item, dependency closure, and a running
    reserve that keeps room for the mandatory records. */
module Propose {
  import opened Basics
  import opened GreedyEngine
  import BlockSelect

  type Item = string

  datatype Kind = ExactSpan | Capsule | Pointer | ArchiveOnly

  datatype Qualification = Uncertain | Current | Stale

  datatype Rep = Rep(item: Item, kind: Kind, coverage: real, cost: int, needs: seq<Item>, root: nat, qual: Qualification)

  datatype Cand = Cand(item: Item, pos: int, weight: real, mandatory: bool, reps: seq<Rep>)

  /** `penalty` is the weight lambda of redundancy. */
  datatype Solver = Solver(cands: seq<Cand>, budget: int, penalty: real)

  /** What the contract asks of a candidate set. */
  ghost predicate WellFormed(s: Solver) {
    && (forall i, j | 0 <= i < j < |s.cands| :: s.cands[i].item != s.cands[j].item)
    && (forall i, j | 0 <= i < |s.cands| && 0 <= j < |s.cands[i].reps| ::
          s.cands[i].reps[j].item == s.cands[i].item && s.cands[i].reps[j].cost >= 0)
  }

  /** An item binds only at evidence that is still current. */
  predicate Binding(s: Solver, i: nat)
    requires i < |s.cands|
  {
    s.cands[i].mandatory &&
    exists j | 0 <= j < |s.cands[i].reps| :: s.cands[i].reps[j].kind != ArchiveOnly && s.cands[i].reps[j].qual == Current
  }

  predicate Allowed(s: Solver, i: nat, j: nat)
    requires i < |s.cands| && j < |s.cands[i].reps|
  {
    s.cands[i].reps[j].kind != ArchiveOnly && (Binding(s, i) ==> s.cands[i].reps[j].qual == Current)
  }

  /** The first cheapest allowed representation among the first `n`, or -1. */
  function CheapestOf(s: Solver, i: nat, n: nat): (r: int)
    requires i < |s.cands| && n <= |s.cands[i].reps|
    ensures -1 <= r < n
    ensures r >= 0 ==> Allowed(s, i, r) &&
                       (forall j | 0 <= j < n && Allowed(s, i, j) :: s.cands[i].reps[r].cost <= s.cands[i].reps[j].cost) &&
                       forall j | 0 <= j < r && Allowed(s, i, j) :: s.cands[i].reps[r].cost < s.cands[i].reps[j].cost
    ensures r < 0 ==> forall j | 0 <= j < n :: !Allowed(s, i, j)
  {
    if n == 0 then -1
    else
      var best := CheapestOf(s, i, n - 1);
      if Allowed(s, i, n - 1) && (best < 0 || s.cands[i].reps[n - 1].cost < s.cands[i].reps[best].cost) then n - 1 else best
  }

  /** Where an item's candidate is, or -1: an item that is no candidate is already in the prefix. */
  function IndexOf(s: Solver, d: Item, n: nat): (i: int)
    requires n <= |s.cands|
    ensures -1 <= i < n
    ensures i >= 0 ==> s.cands[i].item == d
    ensures i < 0 ==> forall k | 0 <= k < n :: s.cands[k].item != d
  {
    if n == 0 then -1
    else
      var i := IndexOf(s, d, n - 1);
      if i >= 0 then i else if s.cands[n - 1].item == d then n - 1 else -1
  }

  predicate IsCand(s: Solver, d: Item) { IndexOf(s, d, |s.cands|) >= 0 }

  /** The representation a dependency is carried at. */
  function MinRep(s: Solver, d: Item): (r: Option<Rep>)
    ensures r.Some? ==> IsCand(s, d)
  {
    var i := IndexOf(s, d, |s.cands|);
    if i < 0 then None
    else
      var j := CheapestOf(s, i, |s.cands[i].reps|);
      if j < 0 then None else Some(s.cands[i].reps[j])
  }

  lemma IndexOfItem(s: Solver, i: nat)
    requires WellFormed(s) && i < |s.cands|
    ensures IndexOf(s, s.cands[i].item, |s.cands|) == i
  {
  }

  lemma MinRepFacts(s: Solver, d: Item)
    requires WellFormed(s) && MinRep(s, d).Some?
    ensures MinRep(s, d).value.item == d && MinRep(s, d).value.cost >= 0
  {
  }

  // ------------------------------------------------------------------------------------------
  // Dependency closure
  // ------------------------------------------------------------------------------------------

  function ItemsOf(s: Solver): set<Item> { set c | c in s.cands :: c.item }

  lemma CandInItems(s: Solver, d: Item)
    ensures IsCand(s, d) <==> d in ItemsOf(s)
  {
    var i := IndexOf(s, d, |s.cands|);
    if i >= 0 { assert s.cands[i] in s.cands; }
  }

  /** The breadth-first closure: everything `queue` pulls in that `have` does not hold, in the order
      it is reached, or None when some required item cannot be delivered. */
  function Close(s: Solver, have: set<Item>, queue: seq<Item>): (r: Option<seq<Rep>>)
    decreases |ItemsOf(s) - have|, |queue|
  {
    if queue == [] then Some([])
    else
      var d := queue[0];
      if d in have || !IsCand(s, d) then Close(s, have, queue[1..])
      else
        var m := MinRep(s, d);
        if m.None? then None
        else
          CandInItems(s, d);
          assert ItemsOf(s) - (have + {d}) < ItemsOf(s) - have;
          SmallerSet(ItemsOf(s) - (have + {d}), ItemsOf(s) - have);
          var rest := Close(s, have + {d}, queue[1..] + m.value.needs);
          if rest.None? then None else Some([m.value] + rest.value)
  }

  lemma SmallerSet(a: set<Item>, b: set<Item>)
    requires a < b
    ensures |a| < |b|
  {
    var x :| x in b && x !in a;
    Fewer(a, b, x);
  }

  function Delivered(rs: seq<Rep>): set<Item> { set r | r in rs :: r.item }

  function CostOf(rs: seq<Rep>): int { if rs == [] then 0 else rs[0].cost + CostOf(rs[1..]) }

  /** Every requirement that is a candidate is in `t`. */
  predicate Met(s: Solver, needs: seq<Item>, t: set<Item>) { forall d | d in needs && IsCand(s, d) :: d in t }

  /** Carrying every item of `t` at its cheapest pulls in nothing outside `t`. */
  ghost predicate Closed(s: Solver, t: set<Item>) {
    forall d | d in t && MinRep(s, d).Some? :: Met(s, MinRep(s, d).value.needs, t)
  }

  /** The same for what `t` holds beyond `have`. */
  ghost predicate ClosedBeyond(s: Solver, have: set<Item>, t: set<Item>) {
    forall d | d in t && d !in have && MinRep(s, d).Some? :: Met(s, MinRep(s, d).value.needs, t)
  }

  lemma DeliveredCons(r: Rep, rs: seq<Rep>)
    ensures Delivered([r] + rs) == {r.item} + Delivered(rs)
  {
    assert forall x :: x in [r] + rs <==> x == r || x in rs;
  }

  /** What a successful closure delivers. */
  lemma {:induction false} CloseSound(s: Solver, have: set<Item>, queue: seq<Item>)
    requires WellFormed(s) && Close(s, have, queue).Some?
    ensures var rs := Close(s, have, queue).value;
            && Delivered(rs) !! have && Delivered(rs) <= ItemsOf(s)
            && (forall r | r in rs :: MinRep(s, r.item) == Some(r) && Met(s, r.needs, have + Delivered(rs)))
            && Met(s, queue, have + Delivered(rs))
    decreases |ItemsOf(s) - have|, |queue|
  {
    hide MinRep, IsCand, ItemsOf;
    if queue != [] {
      var d := queue[0];
      if d in have || !IsCand(s, d) {
        CloseSound(s, have, queue[1..]);
      } else {
        var m := MinRep(s, d);
        CandInItems(s, d);
        assert ItemsOf(s) - (have + {d}) < ItemsOf(s) - have;
        SmallerSet(ItemsOf(s) - (have + {d}), ItemsOf(s) - have);
        CloseSound(s, have + {d}, queue[1..] + m.value.needs);
        var rest := Close(s, have + {d}, queue[1..] + m.value.needs).value;
        MinRepFacts(s, d);
        DeliveredCons(m.value, rest);
        assert have + {d} + Delivered(rest) == have + Delivered([m.value] + rest);
        assert forall x | x in m.value.needs :: x in queue[1..] + m.value.needs;
        assert forall x | x in queue :: x == d || x in queue[1..] + m.value.needs;
      }
    }
  }

  /** It delivers nothing that was not needed, and fails only over an item that was. */
  lemma {:induction false} CloseLeast(s: Solver, have: set<Item>, queue: seq<Item>, t: set<Item>)
    requires WellFormed(s) && have <= t && ClosedBeyond(s, have, t) && Met(s, queue, t)
    ensures Close(s, have, queue).Some? ==> Delivered(Close(s, have, queue).value) <= t
    ensures Close(s, have, queue).None? ==> exists d | d in t :: IsCand(s, d) && MinRep(s, d).None?
    decreases |ItemsOf(s) - have|, |queue|
  {
    hide MinRep, IsCand, ItemsOf;
    if queue != [] {
      var d := queue[0];
      if d in have || !IsCand(s, d) {
        CloseLeast(s, have, queue[1..], t);
      } else {
        var m := MinRep(s, d);
        assert d in t;
        if m.Some? {
          CandInItems(s, d);
          assert ItemsOf(s) - (have + {d}) < ItemsOf(s) - have;
          SmallerSet(ItemsOf(s) - (have + {d}), ItemsOf(s) - have);
          assert Met(s, queue[1..] + m.value.needs, t);
          CloseLeast(s, have + {d}, queue[1..] + m.value.needs, t);
          var rest := Close(s, have + {d}, queue[1..] + m.value.needs);
          MinRepFacts(s, d);
          if rest.Some? { DeliveredCons(m.value, rest.value); }
        }
      }
    }
  }

  // ------------------------------------------------------------------------------------------
  // What the mandatory records come to
  // ------------------------------------------------------------------------------------------

  function MinCost(s: Solver, d: Item): int { if MinRep(s, d).Some? then MinRep(s, d).value.cost else 0 }

  /** The cheapest price of the items of `t` among the first `n` candidates. */
  function PriceOf(s: Solver, t: set<Item>, n: nat): int
    requires n <= |s.cands|
  {
    if n == 0 then 0
    else PriceOf(s, t, n - 1) + (if s.cands[n - 1].item in t then MinCost(s, s.cands[n - 1].item) else 0)
  }

  function Price(s: Solver, t: set<Item>): int { PriceOf(s, t, |s.cands|) }

  /** The items every delivery of the binding candidates must contain: the least closed set around
      them. */
  ghost function Needed(s: Solver): set<Item> {
    set d | d in ItemsOf(s) && forall t: set<Item> | HoldsBinding(s, t) && Closed(s, t) :: d in t
  }

  ghost predicate HoldsBinding(s: Solver, t: set<Item>) {
    forall i | 0 <= i < |s.cands| && Binding(s, i) :: s.cands[i].item in t
  }

  ghost predicate AnyBinding(s: Solver) { exists i | 0 <= i < |s.cands| :: Binding(s, i) }

  /** The binding candidates cannot all be carried. */
  ghost predicate Infeasible(s: Solver) {
    AnyBinding(s) && ((exists d | d in Needed(s) :: MinRep(s, d).None?) || Price(s, Needed(s)) > s.budget)
  }

  lemma {:induction false} PriceOfMonotone(s: Solver, t: set<Item>, u: set<Item>, n: nat)
    requires WellFormed(s) && t <= u && n <= |s.cands|
    ensures 0 <= PriceOf(s, t, n) <= PriceOf(s, u, n)
  {
    hide MinRep;
    if n > 0 {
      var d := s.cands[n - 1].item;
      if MinRep(s, d).Some? { MinRepFacts(s, d); }
      PriceOfMonotone(s, t, u, n - 1);
    }
  }

  lemma {:induction false} PriceOfAdd(s: Solver, t: set<Item>, i: nat, n: nat)
    requires WellFormed(s) && i < |s.cands| && n <= |s.cands| && s.cands[i].item !in t
    ensures PriceOf(s, t + {s.cands[i].item}, n) == PriceOf(s, t, n) + (if i < n then MinCost(s, s.cands[i].item) else 0)
  {
    hide MinCost;
    if n > 0 { PriceOfAdd(s, t, i, n - 1); }
  }

  lemma PriceAdd(s: Solver, t: set<Item>, d: Item)
    requires WellFormed(s) && d !in t && MinRep(s, d).Some?
    ensures Price(s, t + {d}) == Price(s, t) + MinRep(s, d).value.cost
  {
    hide PriceOf;
    PriceOfAdd(s, t, IndexOf(s, d, |s.cands|), |s.cands|);
  }

  /** A closure costs what its items add to the price. */
  lemma {:induction false} CloseCost(s: Solver, have: set<Item>, queue: seq<Item>)
    requires WellFormed(s) && Close(s, have, queue).Some?
    ensures var rs := Close(s, have, queue).value;
            CostOf(rs) == Price(s, have + Delivered(rs)) - Price(s, have)
    decreases |ItemsOf(s) - have|, |queue|
  {
    hide MinRep, IsCand, ItemsOf, Price;
    if queue == [] {
      assert have + Delivered([]) == have;
    } else {
      var d := queue[0];
      if d in have || !IsCand(s, d) {
        CloseCost(s, have, queue[1..]);
      } else {
        var m := MinRep(s, d);
        CandInItems(s, d);
        assert ItemsOf(s) - (have + {d}) < ItemsOf(s) - have;
        SmallerSet(ItemsOf(s) - (have + {d}), ItemsOf(s) - have);
        CloseCost(s, have + {d}, queue[1..] + m.value.needs);
        var rest := Close(s, have + {d}, queue[1..] + m.value.needs).value;
        MinRepFacts(s, d);
        DeliveredCons(m.value, rest);
        assert have + {d} + Delivered(rest) == have + Delivered([m.value] + rest);
        PriceAdd(s, have, d);
      }
    }
  }

  // ------------------------------------------------------------------------------------------
  // The reserve
  // ------------------------------------------------------------------------------------------

  /** Candidate `i` at its cheapest, with whatever it pulls in that `have` lacks. */
  function Cheapest(s: Solver, i: nat, have: set<Item>): Option<seq<Rep>>
    requires i < |s.cands|
  {
    var m := MinRep(s, s.cands[i].item);
    if m.None? then None
    else
      var rest := Close(s, have + {s.cands[i].item}, m.value.needs);
      if rest.None? then None else Some([m.value] + rest.value)
  }

  /** Whether every binding candidate from the `i`-th on still fits into `room`, dependencies shared. */
  datatype Verdict = Fits(have: set<Item>, room: int) | Offends(item: Item)

  function Reserve(s: Solver, have: set<Item>, i: nat, room: int): Verdict
    requires i <= |s.cands|
    decreases |s.cands| - i
  {
    if i == |s.cands| then Fits(have, room)
    else if !Binding(s, i) || s.cands[i].item in have then Reserve(s, have, i + 1, room)
    else
      var b := Cheapest(s, i, have);
      if b.None? || CostOf(b.value) > room then Offends(s.cands[i].item)
      else Reserve(s, have + Delivered(b.value), i + 1, room - CostOf(b.value))
  }

  /** A set whose items are all deliverable and pull in nothing from outside. */
  ghost predicate SelfContained(s: Solver, t: set<Item>) {
    t <= ItemsOf(s) && forall d | d in t :: MinRep(s, d).Some? && Met(s, MinRep(s, d).value.needs, t)
  }

  lemma CheapestSound(s: Solver, i: nat, have: set<Item>)
    requires WellFormed(s) && i < |s.cands| && s.cands[i].item !in have && Cheapest(s, i, have).Some?
    ensures var b := Cheapest(s, i, have).value;
            && s.cands[i].item in Delivered(b) && Delivered(b) !! have && Delivered(b) <= ItemsOf(s)
            && (forall r | r in b :: MinRep(s, r.item) == Some(r) && Met(s, r.needs, have + Delivered(b)))
            && CostOf(b) == Price(s, have + Delivered(b)) - Price(s, have)
  {
    hide MinRep, IsCand, ItemsOf, Price, Close;
    var d := s.cands[i].item;
    var m := MinRep(s, d).value;
    var have' := have + {d};
    CloseSound(s, have', m.needs);
    CloseCost(s, have', m.needs);
    MinRepFacts(s, d);
    CandInItems(s, d);
    var rest := Close(s, have', m.needs).value;
    DeliveredCons(m, rest);
    assert have' + Delivered(rest) == have + Delivered([m] + rest);
    PriceAdd(s, have, d);
  }

  lemma CheapestLeast(s: Solver, i: nat, have: set<Item>, t: set<Item>)
    requires WellFormed(s) && i < |s.cands| && s.cands[i].item !in have && have <= t && s.cands[i].item in t && ClosedBeyond(s, have, t)
    ensures Cheapest(s, i, have).Some? ==> Delivered(Cheapest(s, i, have).value) <= t
    ensures Cheapest(s, i, have).None? ==> exists d | d in t :: IsCand(s, d) && MinRep(s, d).None?
  {
    hide MinRep, IsCand, ItemsOf, Close;
    var d := s.cands[i].item;
    if MinRep(s, d).Some? {
      var m := MinRep(s, d).value;
      CloseLeast(s, have + {d}, m.needs, t);
      MinRepFacts(s, d);
      var rest := Close(s, have + {d}, m.needs);
      if rest.Some? { DeliveredCons(m, rest.value); }
    } else {
      IndexOfItem(s, i);
      ItemIsCand(s, i);
    }
  }

  lemma ItemIsCand(s: Solver, i: nat)
    requires WellFormed(s) && i < |s.cands|
    ensures IsCand(s, s.cands[i].item)
  {
    IndexOfItem(s, i);
  }

  /** A reserve that holds ends at a self-contained set around every binding candidate, and has paid
      for exactly what it added. */
  lemma {:induction false} ReserveSound(s: Solver, have: set<Item>, i: nat, room: int)
    requires WellFormed(s) && i <= |s.cands| && SelfContained(s, have) && Reserve(s, have, i, room).Fits?
    ensures var v := Reserve(s, have, i, room);
            && have <= v.have && SelfContained(s, v.have)
            && (forall k | i <= k < |s.cands| && Binding(s, k) :: s.cands[k].item in v.have)
            && v.room == room - (Price(s, v.have) - Price(s, have))
            && (v.have != have ==> v.room >= 0)
    decreases |s.cands| - i
  {
    hide MinRep, IsCand, ItemsOf, Price, Cheapest, Binding;
    if i < |s.cands| {
      if !Binding(s, i) || s.cands[i].item in have {
        ReserveSound(s, have, i + 1, room);
      } else {
        CheapestSound(s, i, have);
        var b := Cheapest(s, i, have).value;
        SelfContainedGrows(s, have, b);
        ReserveSound(s, have + Delivered(b), i + 1, room - CostOf(b));
      }
    }
  }

  lemma SelfContainedGrows(s: Solver, have: set<Item>, b: seq<Rep>)
    requires SelfContained(s, have) && Delivered(b) <= ItemsOf(s)
    requires forall r | r in b :: MinRep(s, r.item) == Some(r) && Met(s, r.needs, have + Delivered(b))
    ensures SelfContained(s, have + Delivered(b))
  {
    hide MinRep, IsCand, ItemsOf;
    var t := have + Delivered(b);
    forall d | d in t ensures MinRep(s, d).Some? && Met(s, MinRep(s, d).value.needs, t) {
      if d in Delivered(b) {
        var r :| r in b && r.item == d;
      }
    }
  }

  /** A reserve that fails names something inside any closed set around the binding candidates: an
      item that cannot be delivered, or too high a price. */
  lemma {:induction false} ReserveFails(s: Solver, have: set<Item>, i: nat, room: int, t: set<Item>)
    requires WellFormed(s) && i <= |s.cands| && SelfContained(s, have) && Reserve(s, have, i, room).Offends?
    requires have <= t && Closed(s, t) && HoldsBinding(s, t)
    ensures AnyBinding(s)
    ensures (exists d | d in t :: IsCand(s, d) && MinRep(s, d).None?) || room < Price(s, t) - Price(s, have)
    decreases |s.cands| - i
  {
    hide MinRep, IsCand, ItemsOf, Price, Cheapest, Binding;
    if !Binding(s, i) || s.cands[i].item in have {
      ReserveFails(s, have, i + 1, room, t);
    } else {
      CheapestLeast(s, i, have, t);
      var b := Cheapest(s, i, have);
      if b.Some? {
        CheapestSound(s, i, have);
        var have' := have + Delivered(b.value);
        PriceMonotone(s, have', t);
        if CostOf(b.value) <= room {
          SelfContainedGrows(s, have, b.value);
          ReserveFails(s, have', i + 1, room - CostOf(b.value), t);
        }
      }
    }
  }

  lemma PriceMonotone(s: Solver, t: set<Item>, u: set<Item>)
    requires WellFormed(s) && t <= u
    ensures 0 <= Price(s, t) <= Price(s, u)
  {
    PriceOfMonotone(s, t, u, |s.cands|);
  }

  lemma {:induction false} ReserveLeast(s: Solver, have: set<Item>, i: nat, room: int, t: set<Item>)
    requires WellFormed(s) && i <= |s.cands| && Reserve(s, have, i, room).Fits?
    requires have <= t && Closed(s, t) && HoldsBinding(s, t)
    ensures Reserve(s, have, i, room).have <= t
    decreases |s.cands| - i
  {
    hide MinRep, IsCand, ItemsOf, Cheapest, Binding;
    if i < |s.cands| {
      if !Binding(s, i) || s.cands[i].item in have {
        ReserveLeast(s, have, i + 1, room, t);
      } else {
        CheapestLeast(s, i, have, t);
        var b := Cheapest(s, i, have).value;
        ReserveLeast(s, have + Delivered(b), i + 1, room - CostOf(b), t);
      }
    }
  }

  lemma NeededIsLeast(s: Solver)
    requires WellFormed(s)
    ensures Closed(s, Needed(s)) && HoldsBinding(s, Needed(s))
    ensures forall t: set<Item> | HoldsBinding(s, t) && Closed(s, t) :: Needed(s) <= t
  {
    hide MinRep, IsCand, Binding, ItemsOf;
    var n := Needed(s);
    forall d | d in n && MinRep(s, d).Some? ensures Met(s, MinRep(s, d).value.needs, n) {
      forall e | e in MinRep(s, d).value.needs && IsCand(s, e) ensures e in n {
        CandInItems(s, e);
        forall t: set<Item> | HoldsBinding(s, t) && Closed(s, t) ensures e in t {
          assert d in t;
        }
      }
    }
    forall i | 0 <= i < |s.cands| && Binding(s, i) ensures s.cands[i].item in n {
      ItemIsCand(s, i);
      CandInItems(s, s.cands[i].item);
    }
  }

  /** The overflow test made before anything is bought fails exactly when the binding candidates,
      with everything they need and with dependencies shared, cannot be carried. */
  lemma ReserveDecides(s: Solver)
    requires WellFormed(s)
    ensures Reserve(s, {}, 0, s.budget).Offends? <==> Infeasible(s)
  {
    hide MinRep, IsCand, Binding, ItemsOf, Price, Reserve, Needed, Closed, HoldsBinding;
    var n := Needed(s);
    NeededIsLeast(s);
    PriceOfNothing(s);
    if Reserve(s, {}, 0, s.budget).Offends? {
      ReserveFails(s, {}, 0, s.budget, n);
    } else {
      var v := Reserve(s, {}, 0, s.budget);
      ReserveSound(s, {}, 0, s.budget);
      ReserveLeast(s, {}, 0, s.budget, n);
      SelfContainedIsClosed(s, v.have);
      assert v.have == n;
      if AnyBinding(s) { var i :| 0 <= i < |s.cands| && Binding(s, i); assert s.cands[i].item in v.have; }
    }
  }

  lemma SelfContainedIsClosed(s: Solver, t: set<Item>)
    requires SelfContained(s, t)
    requires forall k | 0 <= k < |s.cands| && Binding(s, k) :: s.cands[k].item in t
    ensures Closed(s, t) && HoldsBinding(s, t)
  {
  }

  lemma PriceOfNothing(s: Solver)
    ensures Price(s, {}) == 0
  {
    PriceOfNone(s, |s.cands|);
  }

  lemma {:induction false} PriceOfNone(s: Solver, n: nat)
    requires n <= |s.cands|
    ensures PriceOf(s, {}, n) == 0
  {
    if n > 0 { PriceOfNone(s, n - 1); }
  }

  // ------------------------------------------------------------------------------------------
  // The loops that compute the closure and the reserve
  // ------------------------------------------------------------------------------------------

  function Prepend(rs: seq<Rep>, o: Option<seq<Rep>>): Option<seq<Rep>> {
    if o.None? then None else Some(rs + o.value)
  }

  /** The breadth-first queue both `bundleFor` and `priceInto` run. */
  method CloseQueue(s: Solver, have0: set<Item>, queue0: seq<Item>) returns (r: Option<seq<Rep>>)
    ensures r == Close(s, have0, queue0)
  {
    hide MinRep, IsCand, ItemsOf;
    var have, queue, added: seq<Rep> := have0, queue0, [];
    assert forall rs: seq<Rep> :: [] + rs == rs;
    assert forall rs: seq<Rep> :: rs + [] == rs;
    while queue != []
      invariant Close(s, have0, queue0) == Prepend(added, Close(s, have, queue))
      decreases |ItemsOf(s) - have|, |queue|
    {
      var d := queue[0];
      queue := queue[1..];
      if d !in have && IsCand(s, d) {
        var m := MinRep(s, d);
        if m.None? { return None; }
        CandInItems(s, d);
        assert ItemsOf(s) - (have + {d}) < ItemsOf(s) - have;
        SmallerSet(ItemsOf(s) - (have + {d}), ItemsOf(s) - have);
        ghost var rest := Close(s, have + {d}, queue + m.value.needs);
        assert rest.Some? ==> added + ([m.value] + rest.value) == (added + [m.value]) + rest.value;
        have, added, queue := have + {d}, added + [m.value], queue + m.value.needs;
      }
    }
    return Some(added);
  }

  /** Prices the cheapest way to carry every binding candidate `have` lacks, dependencies shared. */
  method ReserveScan(s: Solver, have0: set<Item>, limit: int) returns (v: Verdict)
    ensures v == Reserve(s, have0, 0, limit)
  {
    hide Binding, MinRep, Close, CostOf;
    var have, total := have0, 0;
    for i := 0 to |s.cands|
      invariant Reserve(s, have0, 0, limit) == Reserve(s, have, i, limit - total)
    {
      var item := s.cands[i].item;
      if Binding(s, i) && item !in have {
        var m := MinRep(s, item);
        if m.None? { return Offends(item); }
        var rest := CloseQueue(s, have + {item}, m.value.needs);
        if rest.None? { return Offends(item); }
        var b := [m.value] + rest.value;
        total := total + CostOf(b);
        if total > limit { return Offends(item); }
        have := have + Delivered(b);
      }
    }
    return Fits(have, limit - total);
  }

  // ------------------------------------------------------------------------------------------
  // The running selection
  // ------------------------------------------------------------------------------------------

  datatype RepState = RepState(chosen: map<Item, Rep>, cov: map<Item, real>, roots: map<nat, nat>)

  const EMPTY := RepState(map[], map[], map[])

  function ApplyOne(st: RepState, r: Rep): (st': RepState)
    ensures st'.chosen == st.chosen[r.item := r]
  {
    var cov := st.cov[r.item := (if r.item in st.cov then st.cov[r.item] else 0.0) + r.coverage];
    var roots := if r.root == 0 then st.roots else st.roots[r.root := (if r.root in st.roots then st.roots[r.root] else 0) + 1];
    RepState(st.chosen[r.item := r], cov, roots)
  }

  /** Commits every representation of a bundle. */
  function Apply(st: RepState, bundle: seq<Rep>): RepState
    decreases |bundle|
  {
    if bundle == [] then st else Apply(ApplyOne(st, bundle[0]), bundle[1..])
  }

  datatype Move = Move(cand: nat, rep: nat)

  predicate MoveOk(s: Solver, m: Move) {
    m.cand < |s.cands| && m.rep < |s.cands[m.cand].reps| && Allowed(s, m.cand, m.rep)
  }

  /** The chosen representation and the cheapest closure of what it requires. */
  function BundleFor(s: Solver, m: Move, st: RepState): Option<seq<Rep>> {
    if !MoveOk(s, m) then None
    else
      var main := s.cands[m.cand].reps[m.rep];
      var rest := Close(s, st.chosen.Keys + {main.item}, main.needs);
      if rest.None? then None else Some([main] + rest.value)
  }

  function CovOf(st: RepState, d: Item): real { if d in st.cov then st.cov[d] else 0.0 }

  function RootCount(st: RepState, x: nat): nat { if x in st.roots then st.roots[x] else 0 }

  /** The weighted coverage a bundle adds. */
  function CoverGain(s: Solver, bundle: seq<Rep>, st: RepState): real {
    if bundle == [] then 0.0
    else
      var r := bundle[|bundle| - 1];
      CoverGain(s, bundle[..|bundle| - 1], st) + WeightOf(s, r.item) * (Satur(CovOf(st, r.item) + r.coverage) - Satur(CovOf(st, r.item)))
  }

  /** How many of a bundle's representations re-deliver an evidence root, chosen before or in the bundle. */
  function Redelivered(bundle: seq<Rep>, st: RepState): nat {
    if bundle == [] then 0
    else
      var init, r := bundle[..|bundle| - 1], bundle[|bundle| - 1];
      Redelivered(init, st) + (if r.root != 0 && (RootCount(st, r.root) > 0 || r.root in Rooted(init)) then 1 else 0)
  }

  function BundleGain(s: Solver, bundle: seq<Rep>, st: RepState): real { CoverGain(s, bundle, st) - s.penalty * (Redelivered(bundle, st) as real) }

  function RepProblem(s: Solver, moves: seq<Move>): Problem<RepState> {
    Problem(|moves|, true,
            (st: RepState, i: nat) =>
              if i < |moves| && BundleFor(s, moves[i], st).Some? then BundleGain(s, BundleFor(s, moves[i], st).value, st) else 0.0,
            (st: RepState, i: nat) =>
              if i < |moves| && BundleFor(s, moves[i], st).Some? then CostOf(BundleFor(s, moves[i], st).value) else s.budget + 1,
            (st: RepState, i: nat, cost: int, spent: int) =>
              i < |moves| && BundleFor(s, moves[i], st).Some? && s.budget - spent - cost >= 0 &&
              Reserve(s, st.chosen.Keys + Delivered(BundleFor(s, moves[i], st).value), 0, s.budget - spent - cost).Fits?,
            (st: RepState, i: nat) =>
              i < |moves| && BundleFor(s, moves[i], EMPTY).Some? && moves[i].cand < |s.cands| &&
              s.cands[moves[i].cand].item !in st.chosen,
            (st: RepState, i: nat) =>
              if i < |moves| && BundleFor(s, moves[i], st).Some? then Apply(st, BundleFor(s, moves[i], st).value) else st)
  }

  function ChosenCost(s: Solver, chosen: map<Item, Rep>, n: nat): int
    requires n <= |s.cands|
  {
    if n == 0 then 0
    else ChosenCost(s, chosen, n - 1) + (if s.cands[n - 1].item in chosen then chosen[s.cands[n - 1].item].cost else 0)
  }

  /** One allowed representation per chosen item, and every requirement met. */
  ghost predicate Feasible(s: Solver, chosen: map<Item, Rep>) {
    && chosen.Keys <= ItemsOf(s)
    && (forall i | 0 <= i < |s.cands| && s.cands[i].item in chosen ::
          exists j | 0 <= j < |s.cands[i].reps| :: Allowed(s, i, j) && chosen[s.cands[i].item] == s.cands[i].reps[j])
    && (forall d | d in chosen :: Met(s, chosen[d].needs, chosen.Keys))
  }

  /** The invariant of the whole call: feasible, priced exactly, and with room for what must still
      be carried. */
  ghost predicate Sound(s: Solver, st: RepState, spent: int) {
    && Feasible(s, st.chosen)
    && spent == ChosenCost(s, st.chosen, |s.cands|)
    && Reserve(s, st.chosen.Keys, 0, s.budget - spent).Fits?
  }

  /** The items of `bundle` are new to `have` and to each other. */
  predicate Fresh(have: set<Item>, bundle: seq<Rep>)
    decreases |bundle|
  {
    bundle == [] || (bundle[0].item !in have && Fresh(have + {bundle[0].item}, bundle[1..]))
  }

  lemma {:induction false} CloseFresh(s: Solver, have: set<Item>, queue: seq<Item>)
    requires WellFormed(s) && Close(s, have, queue).Some?
    ensures Fresh(have, Close(s, have, queue).value)
    decreases |ItemsOf(s) - have|, |queue|
  {
    hide MinRep, IsCand, ItemsOf;
    if queue != [] {
      var d := queue[0];
      if d in have || !IsCand(s, d) {
        CloseFresh(s, have, queue[1..]);
      } else {
        var m := MinRep(s, d);
        CandInItems(s, d);
        assert ItemsOf(s) - (have + {d}) < ItemsOf(s) - have;
        SmallerSet(ItemsOf(s) - (have + {d}), ItemsOf(s) - have);
        CloseFresh(s, have + {d}, queue[1..] + m.value.needs);
        MinRepFacts(s, d);
      }
    }
  }

  lemma {:induction false} ChosenCostAdd(s: Solver, chosen: map<Item, Rep>, r: Rep, n: nat)
    requires WellFormed(s) && n <= |s.cands| && r.item !in chosen
    ensures ChosenCost(s, chosen[r.item := r], n)
         == ChosenCost(s, chosen, n) + (if 0 <= IndexOf(s, r.item, |s.cands|) < n then r.cost else 0)
  {
    hide IndexOf;
    if n > 0 {
      ChosenCostAdd(s, chosen, r, n - 1);
      IndexOfItem(s, n - 1);
      IndexOfWhere(s, r.item);
    }
  }

  lemma IndexOfWhere(s: Solver, d: Item)
    ensures var i := IndexOf(s, d, |s.cands|); i < |s.cands| && (0 <= i ==> s.cands[i].item == d)
  {
  }

  lemma {:induction false} ApplyCost(s: Solver, st: RepState, bundle: seq<Rep>)
    requires WellFormed(s) && Fresh(st.chosen.Keys, bundle)
    requires forall r | r in bundle :: IsCand(s, r.item)
    ensures ChosenCost(s, Apply(st, bundle).chosen, |s.cands|) == ChosenCost(s, st.chosen, |s.cands|) + CostOf(bundle)
    decreases |bundle|
  {
    hide ChosenCost, IndexOf, ApplyOne, WellFormed;
    if bundle != [] {
      var r := bundle[0];
      assert ApplyOne(st, r).chosen.Keys == st.chosen.Keys + {r.item};
      ChosenCostAdd(s, st.chosen, r, |s.cands|);
      assert IsCand(s, r.item);
      IndexOfWhere(s, r.item);
      ApplyCost(s, ApplyOne(st, r), bundle[1..]);
    }
  }

  lemma {:induction false} ApplyFresh(st: RepState, bundle: seq<Rep>)
    requires Fresh(st.chosen.Keys, bundle)
    ensures var st' := Apply(st, bundle);
            && st'.chosen.Keys == st.chosen.Keys + Delivered(bundle)
            && (forall d | d in st.chosen :: st'.chosen[d] == st.chosen[d])
            && (forall r | r in bundle :: st'.chosen[r.item] == r)
    decreases |bundle|
  {
    hide ApplyOne;
    if bundle != [] {
      var r := bundle[0];
      var st1 := ApplyOne(st, r);
      assert st1.chosen.Keys == st.chosen.Keys + {r.item};
      assert bundle == [r] + bundle[1..];
      DeliveredCons(r, bundle[1..]);
      ApplyFresh(st1, bundle[1..]);
      assert r.item in st1.chosen;
    }
  }

  /** A bundle: one allowed representation of a candidate not yet chosen, and the closure of what it
      requires. */
  ghost predicate IsBundle(s: Solver, i: nat, j: nat, have: set<Item>, b: seq<Rep>) {
    && i < |s.cands| && j < |s.cands[i].reps| && Allowed(s, i, j) && s.cands[i].item !in have
    && var main := s.cands[i].reps[j];
       Close(s, have + {s.cands[i].item}, main.needs).Some? &&
       b == [main] + Close(s, have + {s.cands[i].item}, main.needs).value
  }

  lemma BundleFacts(s: Solver, i: nat, j: nat, have: set<Item>, b: seq<Rep>)
    requires WellFormed(s) && IsBundle(s, i, j, have, b)
    ensures Fresh(have, b) && Delivered(b) <= ItemsOf(s) && s.cands[i].item in Delivered(b)
    ensures forall r | r in b :: IsCand(s, r.item) && Met(s, r.needs, have + Delivered(b))
    ensures forall r | r in b :: r == s.cands[i].reps[j] || MinRep(s, r.item) == Some(r)
  {
    hide MinRep, Close, IndexOf, ItemsOf, Allowed;
    var main := s.cands[i].reps[j];
    var have' := have + {s.cands[i].item};
    CloseSound(s, have', main.needs);
    CloseFresh(s, have', main.needs);
    var rest := Close(s, have', main.needs).value;
    DeliveredCons(main, rest);
    ItemIsCand(s, i);
    CandInItems(s, s.cands[i].item);
    assert b[1..] == rest;
    assert have' + Delivered(rest) == have + Delivered(b);
    forall r | r in rest ensures IsCand(s, r.item) {
      assert r.item in Delivered(rest);
      CandInItems(s, r.item);
    }
    assert forall r | r in b :: r == main || r in rest;
  }

  lemma MinRepAllowed(s: Solver, i: nat)
    requires WellFormed(s) && i < |s.cands| && MinRep(s, s.cands[i].item).Some?
    ensures exists j | 0 <= j < |s.cands[i].reps| ::
              Allowed(s, i, j) && MinRep(s, s.cands[i].item).value == s.cands[i].reps[j]
  {
    IndexOfItem(s, i);
    var j := CheapestOf(s, i, |s.cands[i].reps|);
    assert Allowed(s, i, j) && MinRep(s, s.cands[i].item).value == s.cands[i].reps[j];
  }

  /** Buying a bundle keeps the selection feasible and adds exactly its cost. */
  lemma BundleKeeps(s: Solver, i: nat, j: nat, st: RepState, b: seq<Rep>)
    requires WellFormed(s) && Feasible(s, st.chosen) && IsBundle(s, i, j, st.chosen.Keys, b)
    ensures var st' := Apply(st, b);
            && Feasible(s, st'.chosen) && st'.chosen.Keys == st.chosen.Keys + Delivered(b)
            && ChosenCost(s, st'.chosen, |s.cands|) == ChosenCost(s, st.chosen, |s.cands|) + CostOf(b)
  {
    hide MinRep, Close, IndexOf, ItemsOf, Allowed, ChosenCost, Apply, Fresh, IsBundle;
    BundleFacts(s, i, j, st.chosen.Keys, b);
    ApplyFresh(st, b);
    ApplyCost(s, st, b);
    var st' := Apply(st, b);
    forall k | 0 <= k < |s.cands| && s.cands[k].item in st'.chosen
      ensures exists l | 0 <= l < |s.cands[k].reps| :: Allowed(s, k, l) && st'.chosen[s.cands[k].item] == s.cands[k].reps[l]
    {
      var d := s.cands[k].item;
      if d !in st.chosen {
        var r :| r in b && r.item == d;
        BundleRep(s, i, j, st.chosen.Keys, b, r, k);
      }
    }
    forall d | d in st'.chosen ensures Met(s, st'.chosen[d].needs, st'.chosen.Keys) {
      if d !in st.chosen {
        var r :| r in b && r.item == d;
      }
    }
  }

  lemma BundleRep(s: Solver, i: nat, j: nat, have: set<Item>, b: seq<Rep>, r: Rep, k: nat)
    requires WellFormed(s) && IsBundle(s, i, j, have, b) && r in b && k < |s.cands| && s.cands[k].item == r.item
    requires r == s.cands[i].reps[j] || MinRep(s, r.item) == Some(r)
    ensures exists l | 0 <= l < |s.cands[k].reps| :: Allowed(s, k, l) && r == s.cands[k].reps[l]
  {
    hide MinRep, Close, IndexOf;
    if r == s.cands[i].reps[j] {
      assert k == i;
    } else {
      MinRepAllowed(s, k);
    }
  }

  // ------------------------------------------------------------------------------------------
  // The whole call
  // ------------------------------------------------------------------------------------------

  lemma StepSound(s: Solver, moves: seq<Move>, st: RepState, spent: int, m: nat)
    requires WellFormed(s) && Sound(s, st, spent)
    requires Eligible(RepProblem(s, moves), st, spent, s.budget, m)
    ensures var p := RepProblem(s, moves);
            Sound(s, p.accept(st, m), spent + p.cost(st, m)) && spent + p.cost(st, m) <= s.budget
  {
    hide Reserve, Feasible, ChosenCost, Close, Apply, Worth;
    var mv := moves[m];
    var b := BundleFor(s, mv, st).value;
    assert IsBundle(s, mv.cand, mv.rep, st.chosen.Keys, b);
    BundleKeeps(s, mv.cand, mv.rep, st, b);
  }

  /** The reserve asked for before each purchase is still there at the end. */
  lemma {:induction false} RunSound(s: Solver, moves: seq<Move>, ms: seq<nat>)
    requires WellFormed(s) && Reserve(s, {}, 0, s.budget).Fits?
    requires AllowedRun(RepProblem(s, moves), EMPTY, s.budget, ms)
    ensures var p := RepProblem(s, moves);
            Sound(s, After(p, EMPTY, ms), Spent(p, EMPTY, ms)) && (ms != [] ==> Spent(p, EMPTY, ms) <= s.budget)
  {
    hide Reserve, Eligible, RepProblem;
    var p := RepProblem(s, moves);
    if ms == [] {
      NothingChosen(s);
      assert EMPTY.chosen.Keys == {};
    } else {
      var init := ms[..|ms| - 1];
      forall k | 0 <= k < |init| ensures Eligible(p, After(p, EMPTY, init[..k]), Spent(p, EMPTY, init[..k]), s.budget, init[k]) {
        assert init[..k] == ms[..k];
      }
      RunSound(s, moves, init);
      StepSound(s, moves, After(p, EMPTY, init), Spent(p, EMPTY, init), ms[|ms| - 1]);
    }
  }

  lemma NothingChosen(s: Solver)
    ensures Feasible(s, map[]) && ChosenCost(s, map[], |s.cands|) == 0
  {
    NothingCosts(s, |s.cands|);
  }

  lemma {:induction false} NothingCosts(s: Solver, n: nat)
    requires n <= |s.cands|
    ensures ChosenCost(s, map[], n) == 0
  {
    if n > 0 { NothingCosts(s, n - 1); }
  }

  /** By candidate, then by representation. */
  predicate InOrder(moves: seq<Move>) {
    forall a, b | 0 <= a < b < |moves| :: moves[a].cand < moves[b].cand || (moves[a].cand == moves[b].cand && moves[a].rep < moves[b].rep)
  }

  /** Every legal (candidate, representation) pair, in order. */
  ghost predicate AllMoves(s: Solver, moves: seq<Move>) { (forall m :: m in moves <==> MoveOk(s, m)) && InOrder(moves) }

  method ListMoves(s: Solver) returns (moves: seq<Move>)
    ensures AllMoves(s, moves)
  {
    moves := [];
    for i := 0 to |s.cands|
      invariant (forall m :: m in moves <==> MoveOk(s, m) && m.cand < i) && InOrder(moves)
    {
      for j := 0 to |s.cands[i].reps|
        invariant (forall m :: m in moves <==> MoveOk(s, m) && (m.cand < i || (m.cand == i && m.rep < j))) && InOrder(moves)
      {
        if Allowed(s, i, j) { moves := moves + [Move(i, j)]; }
      }
    }
  }

  datatype Carried = Carried(st: RepState, spent: int) | Lost(item: Item)

  predicate AllBound(s: Solver, chosen: map<Item, Rep>, n: nat)
    requires n <= |s.cands|
  {
    forall k | 0 <= k < n && Binding(s, k) :: s.cands[k].item in chosen
  }

  lemma CheapestIsBundle(s: Solver, i: nat, have: set<Item>) returns (j: nat)
    requires WellFormed(s) && i < |s.cands| && s.cands[i].item !in have && Cheapest(s, i, have).Some?
    ensures IsBundle(s, i, j, have, Cheapest(s, i, have).value)
  {
    hide Close, IndexOf, MinRep;
    MinRepAllowed(s, i);
    j :| 0 <= j < |s.cands[i].reps| && Allowed(s, i, j) && MinRep(s, s.cands[i].item).value == s.cands[i].reps[j];
  }

  /** What holds before the `i`-th candidate is looked at. */
  ghost predicate Carrying(s: Solver, st: RepState, spent: int, i: nat)
    requires i <= |s.cands|
  {
    && Feasible(s, st.chosen) && spent == ChosenCost(s, st.chosen, |s.cands|)
    && Reserve(s, st.chosen.Keys, i, s.budget - spent).Fits?
    && AllBound(s, st.chosen, i)
  }

  lemma CarrySkip(s: Solver, st: RepState, spent: int, i: nat)
    requires i < |s.cands| && Carrying(s, st, spent, i) && (!Binding(s, i) || s.cands[i].item in st.chosen)
    ensures Carrying(s, st, spent, i + 1)
  {
    hide Feasible, ChosenCost, Binding;
  }

  lemma ReserveStep(s: Solver, have: set<Item>, i: nat, room: int)
    requires i < |s.cands| && Binding(s, i) && s.cands[i].item !in have && Reserve(s, have, i, room).Fits?
    ensures var b := Cheapest(s, i, have);
            b.Some? && CostOf(b.value) <= room && Reserve(s, have + Delivered(b.value), i + 1, room - CostOf(b.value)).Fits?
  {
    hide Binding, Cheapest, CostOf, Delivered;
  }

  /** The reserve covers the next binding candidate, and what is left covers the rest. */
  lemma CarryOne(s: Solver, st: RepState, spent: int, i: nat)
    requires WellFormed(s) && i < |s.cands| && Carrying(s, st, spent, i)
    requires Binding(s, i) && s.cands[i].item !in st.chosen
    ensures var b := Cheapest(s, i, st.chosen.Keys);
            b.Some? && spent + CostOf(b.value) <= s.budget &&
            Carrying(s, Apply(st, b.value), spent + CostOf(b.value), i + 1)
  {
    hide Feasible, ChosenCost, Binding, Apply, Cheapest, WellFormed, Reserve, CostOf, Delivered, IsBundle;
    ReserveStep(s, st.chosen.Keys, i, s.budget - spent);
    var b := Cheapest(s, i, st.chosen.Keys);
    var j := CheapestIsBundle(s, i, st.chosen.Keys);
    BundleKeeps(s, i, j, st, b.value);
    BundleFacts(s, i, j, st.chosen.Keys, b.value);
  }

  /** What a selection holds beyond `st`: cheapest representations, and none that is not needed to carry the
      binding candidates on top of `st`. */
  ghost predicate ForcedBeyond(s: Solver, st: RepState, chosen: map<Item, Rep>) {
    && (forall d | d in st.chosen :: d in chosen && chosen[d] == st.chosen[d])
    && (forall d | d in chosen && d !in st.chosen :: MinRep(s, d) == Some(chosen[d]))
    && (forall t: set<Item> | st.chosen.Keys <= t && ClosedBeyond(s, st.chosen.Keys, t) && HoldsBinding(s, t) :: chosen.Keys <= t)
  }

  lemma ForcedOne(s: Solver, st0: RepState, st: RepState, i: nat)
    requires WellFormed(s) && i < |s.cands| && Binding(s, i) && s.cands[i].item !in st.chosen && Cheapest(s, i, st.chosen.Keys).Some?
    requires ForcedBeyond(s, st0, st.chosen)
    ensures ForcedBeyond(s, st0, Apply(st, Cheapest(s, i, st.chosen.Keys).value).chosen)
  {
    hide Binding, Apply, MinRep, Met, WellFormed, Close;
    var b := Cheapest(s, i, st.chosen.Keys).value;
    var j := CheapestIsBundle(s, i, st.chosen.Keys);
    CheapestSound(s, i, st.chosen.Keys);
    BundleFacts(s, i, j, st.chosen.Keys, b);
    ApplyFresh(st, b);
    var w := Apply(st, b).chosen;
    forall d | d in w && d !in st0.chosen ensures MinRep(s, d) == Some(w[d]) {
      if d !in st.chosen { var r :| r in b && r.item == d; }
    }
    forall t: set<Item> | st0.chosen.Keys <= t && ClosedBeyond(s, st0.chosen.Keys, t) && HoldsBinding(s, t) ensures w.Keys <= t {
      assert ClosedBeyond(s, st.chosen.Keys, t);
      CheapestLeast(s, i, st.chosen.Keys, t);
    }
  }

  /** Carries the binding candidates the greedy never reached.  The overflow that the loop still
      checks for never happens. */
  method CarryMandatory(s: Solver, st0: RepState, spent0: int) returns (c: Carried)
    requires WellFormed(s) && Sound(s, st0, spent0)
    ensures c.Carried? && Feasible(s, c.st.chosen) && AllBound(s, c.st.chosen, |s.cands|) && ForcedBeyond(s, st0, c.st.chosen)
    ensures c.spent == ChosenCost(s, c.st.chosen, |s.cands|) && (c.spent <= s.budget || c.spent == spent0)
  {
    hide Feasible, ChosenCost, Binding, Apply, Cheapest, WellFormed, Reserve, CostOf, ForcedBeyond;
    var st, spent, i := st0, spent0, 0;
    var lost, item := false, "";
    assert ForcedBeyond(s, st0, st.chosen) by { ForcedNone(s, st0); }
    while i < |s.cands| && !lost
      invariant 0 <= i <= |s.cands| && !lost
      invariant Carrying(s, st, spent, i) && ForcedBeyond(s, st0, st.chosen)
      invariant spent <= s.budget || spent == spent0
    {
      item := s.cands[i].item;
      if Binding(s, i) && item !in st.chosen {
        CarryOne(s, st, spent, i);
        var b := Cheapest(s, i, st.chosen.Keys);
        if b.None? || spent + CostOf(b.value) > s.budget {
          lost := true;
        } else {
          ForcedOne(s, st0, st, i);
          st, spent := Apply(st, b.value), spent + CostOf(b.value);
        }
      } else {
        CarrySkip(s, st, spent, i);
      }
      i := i + 1;
    }
    c := if lost then Lost(item) else Carried(st, spent);
  }

  lemma ForcedNone(s: Solver, st: RepState)
    ensures ForcedBeyond(s, st, st.chosen)
  {
  }

  datatype Proposal = Proposal(chosen: seq<Rep>, tokens: int, value: real, archive: seq<Item>, overflow: bool, item: Item, iters: nat)

  predicate Archivable(c: Cand) { exists j | 0 <= j < |c.reps| :: c.reps[j].kind == ArchiveOnly }

  /** It keeps a representation that stays out of the prompt. */
  ghost predicate HasArchive(c: Cand) { exists r | r in c.reps :: r.kind == ArchiveOnly }

  lemma ArchivableHas(c: Cand)
    ensures Archivable(c) <==> HasArchive(c)
  {
    if r :| r in c.reps && r.kind == ArchiveOnly {
      var j :| 0 <= j < |c.reps| && c.reps[j] == r;
    }
  }

  function ChosenList(s: Solver, chosen: map<Item, Rep>, n: nat): seq<Rep>
    requires n <= |s.cands|
  {
    if n == 0 then []
    else ChosenList(s, chosen, n - 1) + (if s.cands[n - 1].item in chosen then [chosen[s.cands[n - 1].item]] else [])
  }

  function ArchiveList(s: Solver, chosen: map<Item, Rep>, n: nat): seq<Item>
    requires n <= |s.cands|
  {
    if n == 0 then []
    else
      var c := s.cands[n - 1];
      ArchiveList(s, chosen, n - 1) + (if c.item !in chosen && Archivable(c) then [c.item] else [])
  }

  lemma {:induction false} CostOfConcat(a: seq<Rep>, b: seq<Rep>)
    ensures CostOf(a + b) == CostOf(a) + CostOf(b)
  {
    if a == [] {
      assert a + b == b;
    } else {
      assert (a + b)[1..] == a[1..] + b;
      CostOfConcat(a[1..], b);
    }
  }

  lemma {:induction false} ListCost(s: Solver, chosen: map<Item, Rep>, n: nat)
    requires n <= |s.cands|
    ensures CostOf(ChosenList(s, chosen, n)) == ChosenCost(s, chosen, n)
  {
    if n > 0 {
      ListCost(s, chosen, n - 1);
      var d := s.cands[n - 1].item;
      CostOfConcat(ChosenList(s, chosen, n - 1), if d in chosen then [chosen[d]] else []);
    }
  }

  /** Each chosen item's candidate contributes its representation, once and in order. */
  lemma {:induction false} ListHolds(s: Solver, chosen: map<Item, Rep>, n: nat, i: nat)
    requires i < n <= |s.cands| && s.cands[i].item in chosen
    ensures chosen[s.cands[i].item] in ChosenList(s, chosen, n)
  {
    if i < n - 1 { ListHolds(s, chosen, n - 1, i); }
  }

  lemma {:induction false} ListFrom(s: Solver, chosen: map<Item, Rep>, n: nat, k: nat) returns (i: nat)
    requires n <= |s.cands| && k < |ChosenList(s, chosen, n)|
    ensures i < n && s.cands[i].item in chosen && chosen[s.cands[i].item] == ChosenList(s, chosen, n)[k]
  {
    if k < |ChosenList(s, chosen, n - 1)| { i := ListFrom(s, chosen, n - 1, k); } else { i := n - 1; }
  }

  lemma {:induction false} ListDistinct(s: Solver, chosen: map<Item, Rep>, n: nat)
    requires WellFormed(s) && n <= |s.cands| && (forall d | d in chosen :: chosen[d].item == d)
    ensures forall i, j | 0 <= i < j < |ChosenList(s, chosen, n)| :: ChosenList(s, chosen, n)[i].item != ChosenList(s, chosen, n)[j].item
  {
    if n > 0 {
      ListDistinct(s, chosen, n - 1);
      var init := ChosenList(s, chosen, n - 1);
      forall k | 0 <= k < |init| ensures init[k].item != s.cands[n - 1].item {
        var i := ListFrom(s, chosen, n - 1, k);
      }
    }
  }

  /** A mandatory candidate that can be delivered at current evidence. */
  ghost predicate Binds(c: Cand) { c.mandatory && exists r | r in c.reps :: r.kind != ArchiveOnly && r.qual == Current }

  lemma BindingBinds(s: Solver, i: nat)
    requires i < |s.cands|
    ensures Binding(s, i) <==> Binds(s.cands[i])
  {
  }

  /** What a proposal that is not an overflow guarantees its consumer. */
  ghost predicate Acceptable(s: Solver, q: Proposal) {
    && (forall i, j | 0 <= i < j < |q.chosen| :: q.chosen[i].item != q.chosen[j].item)
    && (forall r | r in q.chosen :: r.kind != ArchiveOnly && exists i, j | 0 <= i < |s.cands| && 0 <= j < |s.cands[i].reps| ::
          s.cands[i].reps[j] == r && (Binds(s.cands[i]) ==> r.qual == Current))
    && (forall r, d | r in q.chosen && d in r.needs && IsCand(s, d) :: d in Delivered(q.chosen))
    && (forall c | c in s.cands && Binds(c) :: exists r | r in q.chosen :: r.item == c.item && r.qual == Current)
    && q.tokens == CostOf(q.chosen) && (q.tokens <= s.budget || q.tokens == 0)
  }

  lemma ChosenItems(s: Solver, chosen: map<Item, Rep>)
    requires WellFormed(s) && Feasible(s, chosen)
    ensures forall d | d in chosen :: chosen[d].item == d && IsCand(s, d)
  {
    forall d | d in chosen ensures chosen[d].item == d && IsCand(s, d) {
      CandInItems(s, d);
      var i := IndexOf(s, d, |s.cands|);
      assert s.cands[i].item in chosen;
    }
  }

  lemma ListedIs(s: Solver, chosen: map<Item, Rep>, r: Rep)
    requires WellFormed(s) && Feasible(s, chosen) && r in ChosenList(s, chosen, |s.cands|)
    ensures r.item in chosen && chosen[r.item] == r && r.kind != ArchiveOnly
    ensures exists i, j | 0 <= i < |s.cands| && 0 <= j < |s.cands[i].reps| :: s.cands[i].reps[j] == r && (Binds(s.cands[i]) ==> r.qual == Current)
  {
    hide ChosenList, IndexOf, Allowed, Binds;
    var n := |s.cands|;
    var k :| 0 <= k < |ChosenList(s, chosen, n)| && ChosenList(s, chosen, n)[k] == r;
    var i := ListFrom(s, chosen, n, k);
    var j :| 0 <= j < |s.cands[i].reps| && Allowed(s, i, j) && chosen[s.cands[i].item] == s.cands[i].reps[j];
    AllowedIs(s, i, j);
  }

  lemma ChosenIsListed(s: Solver, chosen: map<Item, Rep>, d: Item)
    requires WellFormed(s) && Feasible(s, chosen) && d in chosen
    ensures chosen[d] in ChosenList(s, chosen, |s.cands|) && chosen[d].item == d
  {
    hide ChosenList, IndexOf, Allowed, WellFormed;
    ChosenItems(s, chosen);
    IndexOfWhere(s, d);
    ListHolds(s, chosen, |s.cands|, IndexOf(s, d, |s.cands|));
  }

  lemma ChosenAcceptable(s: Solver, chosen: map<Item, Rep>, q: Proposal)
    requires WellFormed(s) && Feasible(s, chosen) && AllBound(s, chosen, |s.cands|)
    requires q.chosen == ChosenList(s, chosen, |s.cands|) && q.tokens == CostOf(q.chosen)
    requires q.tokens <= s.budget || q.tokens == 0
    ensures Acceptable(s, q)
  {
    hide ChosenList, CostOf, IndexOf, Allowed, Binding, Binds, WellFormed;
    var n := |s.cands|;
    ChosenItems(s, chosen);
    ListDistinct(s, chosen, n);
    forall r | r in q.chosen
      ensures r.item in chosen && chosen[r.item] == r && r.kind != ArchiveOnly
      ensures exists i, j | 0 <= i < n && 0 <= j < |s.cands[i].reps| :: s.cands[i].reps[j] == r && (Binds(s.cands[i]) ==> r.qual == Current)
    {
      ListedIs(s, chosen, r);
    }
    forall r, d | r in q.chosen && d in r.needs && IsCand(s, d) ensures d in Delivered(q.chosen) {
      assert chosen[r.item] == r;
      ChosenIsListed(s, chosen, d);
    }
    forall c | c in s.cands && Binds(c)
      ensures exists r | r in q.chosen :: r.item == c.item && r.qual == Current
    {
      var i :| 0 <= i < n && s.cands[i] == c;
      BindingBinds(s, i);
      BindingCurrent(s, chosen, i);
      ChosenIsListed(s, chosen, c.item);
    }
  }

  lemma AllowedIs(s: Solver, i: nat, j: nat)
    requires i < |s.cands| && j < |s.cands[i].reps| && Allowed(s, i, j)
    ensures s.cands[i].reps[j].kind != ArchiveOnly && (Binds(s.cands[i]) ==> s.cands[i].reps[j].qual == Current)
  {
    BindingBinds(s, i);
  }

  lemma BindingCurrent(s: Solver, chosen: map<Item, Rep>, i: nat)
    requires i < |s.cands| && Binding(s, i) && s.cands[i].item in chosen && Feasible(s, chosen)
    ensures chosen[s.cands[i].item].qual == Current
  {
    hide IndexOf;
  }

  lemma {:induction false} OffenderBinds(s: Solver, have: set<Item>, i: nat, room: int)
    requires i <= |s.cands| && Reserve(s, have, i, room).Offends?
    ensures exists k | 0 <= k < |s.cands| :: Binding(s, k) && s.cands[k].item == Reserve(s, have, i, room).item
    decreases |s.cands| - i
  {
    hide Binding, Cheapest;
    if !Binding(s, i) || s.cands[i].item in have {
      OffenderBinds(s, have, i + 1, room);
    } else {
      var b := Cheapest(s, i, have);
      if b.Some? && CostOf(b.value) <= room {
        OffenderBinds(s, have + Delivered(b.value), i + 1, room - CostOf(b.value));
      }
    }
  }

  /** The explicit overflow: nothing is selected, and the item that was lost is named. */
  function Overflow(item: Item): Proposal { Proposal([], 0, 0.0, [item], true, item, 0) }

  // ------------------------------------------------------------------------------------------
  // The objective
  // ------------------------------------------------------------------------------------------

  /** A negative weight counts as none, and so does an item that is no candidate. */
  function WeightOf(s: Solver, d: Item): real {
    var i := IndexOf(s, d, |s.cands|);
    if i >= 0 && s.cands[i].weight > 0.0 then s.cands[i].weight else 0.0
  }

  /** What an item is worth at that much coverage. */
  function ItemCover(s: Solver, d: Item, coverage: real): real { WeightOf(s, d) * Satur(coverage) }

  function Cover(s: Solver, rs: seq<Rep>): real {
    if rs == [] then 0.0 else Cover(s, rs[..|rs| - 1]) + ItemCover(s, rs[|rs| - 1].item, rs[|rs| - 1].coverage)
  }

  function Rooted(rs: seq<Rep>): seq<nat> {
    if rs == [] then [] else Rooted(rs[..|rs| - 1]) + if rs[|rs| - 1].root != 0 then [rs[|rs| - 1].root] else []
  }

  function Roots(rs: seq<Rep>): set<nat> { set x | x in Rooted(rs) }

  /** Redundancy is what is delivered beyond one representation per evidence root. */
  function Reported(s: Solver, rs: seq<Rep>): real {
    var v := Cover(s, rs) - s.penalty * ((|Rooted(rs)| - |Roots(rs)|) as real);
    if v < 0.0 then 0.0 else v
  }

  lemma CoverStep(s: Solver, rs: seq<Rep>, i: nat)
    requires i < |rs|
    ensures Cover(s, rs[..i + 1]) == Cover(s, rs[..i]) + ItemCover(s, rs[i].item, rs[i].coverage)
  {
    assert rs[..i + 1][..i] == rs[..i];
  }

  lemma RootedStep(rs: seq<Rep>, i: nat)
    requires i < |rs|
    ensures Rooted(rs[..i + 1]) == Rooted(rs[..i]) + if rs[i].root != 0 then [rs[i].root] else []
    ensures Roots(rs[..i + 1]) == Roots(rs[..i]) + if rs[i].root != 0 then {rs[i].root} else {}
  {
    assert rs[..i + 1][..i] == rs[..i];
  }

  /** A weight counts from zero up. */
  method WeightFor(s: Solver, d: Item) returns (w: real)
    ensures w == WeightOf(s, d)
    ensures w >= 0.0 && forall i | 0 <= i < |s.cands| && s.cands[i].item == d :: exists k | 0 <= k <= i :: s.cands[k].item == d && (w == s.cands[k].weight || (w == 0.0 && s.cands[k].weight <= 0.0))
  {
    for i := 0 to |s.cands|
      invariant IndexOf(s, d, i) < 0
    {
      if s.cands[i].item == d {
        FirstAt(s, d, i, |s.cands|);
        return if s.cands[i].weight > 0.0 then s.cands[i].weight else 0.0;
      }
    }
    return 0.0;
  }

  lemma {:induction false} FirstAt(s: Solver, d: Item, i: nat, n: nat)
    requires i < n <= |s.cands| && IndexOf(s, d, i) < 0 && s.cands[i].item == d
    ensures IndexOf(s, d, n) == i
  {
    if i < n - 1 { FirstAt(s, d, i, n - 1); }
  }

  /** Coverage, summed run by run of one item. */
  method CoverOf(s: Solver, rs: seq<Rep>) returns (cov: real)
    requires forall i, j | 0 <= i < j < |rs| :: rs[i].item != rs[j].item
    ensures cov == Cover(s, rs)
  {
    hide Cover, ItemCover;
    assert rs[..0] == [];
    NoValue(s);
    cov := 0.0;
    var i := 0;
    while i < |rs|
      invariant 0 <= i <= |rs| && cov == Cover(s, rs[..i])
    {
      var j, sum := i, 0.0;
      while j < |rs| && rs[j].item == rs[i].item
        invariant i <= j <= i + 1 <= |rs| && sum == if j == i then 0.0 else rs[i].coverage
      {
        sum := sum + rs[j].coverage;
        j := j + 1;
      }
      assert j == i + 1 && sum == rs[i].coverage;
      CoverStep(s, rs, i);
      var w := WeightFor(s, rs[i].item);
      WeightTimes(s, rs[i].item, sum, w);
      cov := cov + w * if sum < 0.0 then 0.0 else if sum > 1.0 then 1.0 else sum;
      i := j;
    }
    assert rs[..|rs|] == rs;
  }

  lemma RepeatStep(rs: seq<Rep>, i: nat)
    requires i < |rs|
    ensures var x := rs[i].root;
            && Roots(rs[..i + 1]) == (if x == 0 then Roots(rs[..i]) else Roots(rs[..i]) + {x})
            && |Rooted(rs[..i + 1])| - |Roots(rs[..i + 1])| ==
               |Rooted(rs[..i])| - |Roots(rs[..i])| + (if x != 0 && x in Roots(rs[..i]) then 1 else 0)
  {
    hide Rooted, Roots;
    RootedStep(rs, i);
    var x, had := rs[i].root, Roots(rs[..i]);
    assert had + {} == had;
    if x in had { assert had + {x} == had; }
  }

  /** Repeats of an evidence root, counted one by one. */
  method Repeats(rs: seq<Rep>) returns (dup: nat)
    ensures dup == |Rooted(rs)| - |Roots(rs)|
  {
    hide Rooted, Roots;
    assert rs[..0] == [];
    NoRoots();
    var roots: map<nat, nat> := map[];
    dup := 0;
    for k := 0 to |rs|
      invariant roots.Keys == Roots(rs[..k]) && (forall x | x in roots :: roots[x] > 0)
      invariant dup == |Rooted(rs[..k])| - |Roots(rs[..k])|
    {
      RepeatStep(rs, k);
      var x := rs[k].root;
      if x != 0 {
        if x in roots && roots[x] > 0 { dup := dup + 1; }
        roots := roots[x := (if x in roots then roots[x] else 0) + 1];
      }
    }
    assert rs[..|rs|] == rs;
  }

  method ValueOf(s: Solver, rs: seq<Rep>) returns (v: real)
    requires forall i, j | 0 <= i < j < |rs| :: rs[i].item != rs[j].item
    ensures v == Reported(s, rs)
  {
    hide Cover, Rooted, Roots;
    var cov := CoverOf(s, rs);
    var dup := Repeats(rs);
    v := cov - s.penalty * (dup as real);
    if v < 0.0 { v := 0.0; }
  }

  lemma WeightTimes(s: Solver, d: Item, sum: real, w: real)
    requires w == WeightOf(s, d)
    ensures ItemCover(s, d, sum) == w * if sum < 0.0 then 0.0 else if sum > 1.0 then 1.0 else sum
  {
    hide WeightOf;
  }

  lemma NoValue(s: Solver)
    ensures Cover(s, []) == 0.0
  {
  }

  lemma NoRoots()
    ensures Rooted([]) == [] && Roots([]) == {}
  {
  }

  lemma SpentNothing(s: Solver, moves: seq<Move>)
    ensures Spent(RepProblem(s, moves), EMPTY, []) == 0
  {
  }

  /** The proposal, read off the selection in candidate order. */
  method Assemble(s: Solver, chosen: map<Item, Rep>, iters: nat) returns (q: Proposal)
    requires WellFormed(s) && Feasible(s, chosen) && AllBound(s, chosen, |s.cands|)
    requires ChosenCost(s, chosen, |s.cands|) <= s.budget || ChosenCost(s, chosen, |s.cands|) == 0
    ensures !q.overflow && Acceptable(s, q) && q.value == Reported(s, q.chosen) && q.chosen == ChosenList(s, chosen, |s.cands|) && q.iters == iters
    ensures forall i | 0 <= i < |s.cands| ::
              s.cands[i].item in q.archive <==> s.cands[i].item !in Delivered(q.chosen) && Archivable(s.cands[i])
  {
    hide Feasible, ChosenCost, Binding, WellFormed, Archivable, CostOf, Reported;
    var picked: seq<Rep>, archive: seq<Item>, tokens := [], [], 0;
    for i := 0 to |s.cands|
      invariant picked == ChosenList(s, chosen, i) && archive == ArchiveList(s, chosen, i)
    {
      var c := s.cands[i];
      if c.item in chosen { picked := picked + [chosen[c.item]]; }
      else if Archivable(c) { archive := archive + [c.item]; }
    }
    CostOfNothing();
    for i := 0 to |picked|
      invariant tokens == CostOf(picked[..i])
    {
      CostOfConcat(picked[..i], [picked[i]]);
      CostOfSingle(picked[i]);
      assert picked[..i + 1] == picked[..i] + [picked[i]];
      tokens := tokens + picked[i].cost;
    }
    assert picked[..|picked|] == picked;
    ListCost(s, chosen, |s.cands|);
    ChosenAcceptable(s, chosen, Proposal(picked, tokens, 0.0, archive, false, "", iters));
    var value := ValueOf(s, picked);
    q := Proposal(picked, tokens, value, archive, false, "", iters);
    ArchiveFacts(s, chosen);
  }

  lemma CostOfNothing() ensures CostOf([]) == 0 {}

  lemma CostOfSingle(r: Rep) ensures CostOf([r]) == r.cost {}

  lemma ArchiveFacts(s: Solver, chosen: map<Item, Rep>)
    requires WellFormed(s) && Feasible(s, chosen)
    ensures forall i | 0 <= i < |s.cands| :: s.cands[i].item in ArchiveList(s, chosen, |s.cands|) <==>
              s.cands[i].item !in Delivered(ChosenList(s, chosen, |s.cands|)) && Archivable(s.cands[i])
  {
    hide Feasible, Archivable, IndexOf;
    var n := |s.cands|;
    ChosenItems(s, chosen);
    forall i | 0 <= i < n
      ensures s.cands[i].item in ArchiveList(s, chosen, n) <==> s.cands[i].item !in Delivered(ChosenList(s, chosen, n)) && Archivable(s.cands[i])
    {
      ArchiveHolds(s, chosen, n, i);
      var d := s.cands[i].item;
      if d in chosen { ListHolds(s, chosen, n, i); assert chosen[d].item == d; }
      if d in Delivered(ChosenList(s, chosen, n)) {
        var r :| r in ChosenList(s, chosen, n) && r.item == d;
        var k :| 0 <= k < |ChosenList(s, chosen, n)| && ChosenList(s, chosen, n)[k] == r;
        var l := ListFrom(s, chosen, n, k);
      }
    }
  }

  lemma {:induction false} ArchiveHolds(s: Solver, chosen: map<Item, Rep>, n: nat, i: nat)
    requires WellFormed(s) && n <= |s.cands| && i < |s.cands|
    ensures s.cands[i].item in ArchiveList(s, chosen, n) <==> i < n && s.cands[i].item !in chosen && Archivable(s.cands[i])
  {
    hide Archivable;
    if n > 0 { ArchiveHolds(s, chosen, n - 1, i); }
  }
}
