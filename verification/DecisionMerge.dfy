/** A draft's decisions: merged pass by pass, ordered own before foreign and newest first, and capped. */
module DecisionMerge {
  import opened Basics

  type Id = nat
  type Session = nat

  const NO_ID: Id := 0
  const MAX_DRAFT_DECISIONS := 64

  datatype Decision = Decision(id: Id, turn: int, text: string)

  /** A candidate of one pass; `recorded` is the time of the record a foreign one was minted from. */
  datatype Candidate = Candidate(d: Decision, isForeign: bool, recorded: int)

  /** How a decision ranks: the session's own by turn, another session's by the time it was recorded. */
  datatype Rank = Own(turn: int) | Foreign(at: int)

  // ------------------------------------------------------------------------------------------
  // Classification
  // ------------------------------------------------------------------------------------------

  /** An elimination record and the decision it mints, if it mints one. */
  datatype Elimination = Elimination(session: Session, at: int, mints: Option<Id>)

  predicate OwnMints(es: seq<Elimination>, s: Session, id: Id) {
    exists i | 0 <= i < |es| :: es[i].mints == Some(id) && es[i].session == s
  }

  /** A time some foreign record or candidate gives the decision. */
  predicate ForeignAt(es: seq<Elimination>, s: Session, cands: seq<Candidate>, id: Id, at: int) {
    || (exists i | 0 <= i < |es| :: es[i] == Elimination(es[i].session, at, Some(id)) && es[i].session != s)
    || (exists i | 0 <= i < |cands| :: cands[i].isForeign && cands[i].d.id == id && cands[i].recorded == at)
  }

  function Later(times: map<Id, int>, id: Id, at: int): map<Id, int> {
    if id !in times || at > times[id] then times[id := at] else times
  }

  /** `times` holds, for each id given a time by the first `n` records and `m` candidates, the newest. */
  ghost predicate Newest(times: map<Id, int>, es: seq<Elimination>, s: Session, cands: seq<Candidate>) {
    && (forall id | id in times :: ForeignAt(es, s, cands, id, times[id]))
    && (forall id, at | ForeignAt(es, s, cands, id, at) :: id in times && at <= times[id])
  }

  lemma NewestRecord(times: map<Id, int>, es: seq<Elimination>, s: Session, e: Elimination)
    requires Newest(times, es, s, [])
    ensures Newest(if e.mints.Some? && e.session != s then Later(times, e.mints.value, e.at) else times, es + [e], s, [])
  {
    var more := es + [e];
    assert more[|es|] == e && forall i | 0 <= i < |es| :: more[i] == es[i];
    forall id, at ensures ForeignAt(more, s, [], id, at) <==> ForeignAt(es, s, [], id, at) || (e == Elimination(e.session, at, Some(id)) && e.session != s) {
      if ForeignAt(es, s, [], id, at) {
        var i :| 0 <= i < |es| && es[i] == Elimination(es[i].session, at, Some(id)) && es[i].session != s;
        assert more[i] == es[i];
      }
    }
  }

  lemma NewestCandidate(times: map<Id, int>, es: seq<Elimination>, s: Session, cands: seq<Candidate>, c: Candidate)
    requires Newest(times, es, s, cands)
    ensures Newest(if c.isForeign then Later(times, c.d.id, c.recorded) else times, es, s, cands + [c])
  {
    var more := cands + [c];
    assert more[|cands|] == c && forall i | 0 <= i < |cands| :: more[i] == cands[i];
    forall id, at ensures ForeignAt(es, s, more, id, at) <==> ForeignAt(es, s, cands, id, at) || (c.isForeign && c.d.id == id && c.recorded == at) {
      if i :| 0 <= i < |cands| && cands[i].isForeign && cands[i].d.id == id && cands[i].recorded == at {
        assert more[i] == cands[i];
      }
    }
  }

  /** Foreign, and since when: an id no own record mints, at the newest time another session's record or
      this pass gives it, or else at the fork's start if it is inherited. */
  method ForeignDecisions(es: seq<Elimination>, s: Session, cands: seq<Candidate>, inherited: map<Id, int>)
    returns (times: map<Id, int>)
    ensures forall id | OwnMints(es, s, id) :: id !in times
    ensures forall id, at | !OwnMints(es, s, id) && ForeignAt(es, s, cands, id, at) :: id in times && at <= times[id]
    ensures forall id | id in times ::
              || ForeignAt(es, s, cands, id, times[id])
              || (id in inherited && times[id] == inherited[id] && forall at :: !ForeignAt(es, s, cands, id, at))
    ensures forall id | id in inherited && !OwnMints(es, s, id) :: id in times
  {
    var found: map<Id, int> := map[];
    var own: set<Id> := {};
    for i := 0 to |es|
      invariant Newest(found, es[..i], s, []) && forall id :: id in own <==> OwnMints(es[..i], s, id)
    {
      NewestRecord(found, es[..i], s, es[i]);
      assert es[..i + 1] == es[..i] + [es[i]];
      if es[i].mints.Some? {
        if es[i].session == s { own := own + {es[i].mints.value}; } else { found := Later(found, es[i].mints.value, es[i].at); }
      }
    }
    assert es[..|es|] == es;
    for i := 0 to |cands|
      invariant Newest(found, es, s, cands[..i])
    {
      NewestCandidate(found, es, s, cands[..i], cands[i]);
      assert cands[..i + 1] == cands[..i] + [cands[i]];
      if cands[i].isForeign { found := Later(found, cands[i].d.id, cands[i].recorded); }
    }
    assert cands[..|cands|] == cands;
    times := map id | id in found && id !in own :: found[id];
    times := map id | id in times.Keys + (inherited.Keys - own) :: if id in times then times[id] else inherited[id];
  }

  // ------------------------------------------------------------------------------------------
  // Order
  // ------------------------------------------------------------------------------------------

  /** Own before foreign, then newest first, then the smaller id. */
  predicate Before(rank: Id -> Rank, a: Id, b: Id) {
    match (rank(a), rank(b))
    case (Own(_), Foreign(_)) => true
    case (Foreign(_), Own(_)) => false
    case (Own(t), Own(u)) => t > u || (t == u && a < b)
    case (Foreign(t), Foreign(u)) => t > u || (t == u && a < b)
  }

  lemma BeforeOrders(rank: Id -> Rank, a: Id, b: Id, c: Id)
    ensures !(Before(rank, a, b) && Before(rank, b, a)) && (a != b ==> Before(rank, a, b) || Before(rank, b, a))
    ensures Before(rank, a, b) && Before(rank, b, c) ==> Before(rank, a, c)
  {
  }

  ghost predicate Ordered(rank: Id -> Rank, ids: seq<Id>) { forall i, j | 0 <= i < j < |ids| :: Before(rank, ids[i], ids[j]) }

  /** The first of `all`, up to the cap: in order, and anything left out comes after all of them. */
  ghost predicate FirstOf(rank: Id -> Rank, ids: seq<Id>, all: set<Id>) {
    && Ordered(rank, ids) && |ids| <= 64 && (forall x | x in ids :: x in all)
    && (forall x | x in all && x !in ids :: |ids| == 64 && forall y | y in ids :: Before(rank, y, x))
  }

  function Elements(ids: seq<Id>): set<Id> { set x | x in ids }

  lemma {:induction false} OrderedSize(rank: Id -> Rank, ids: seq<Id>)
    requires Ordered(rank, ids)
    ensures |Elements(ids)| == |ids|
  {
    if ids != [] {
      var rest, last := ids[..|ids| - 1], ids[|ids| - 1];
      OrderedSize(rank, rest);
      assert Elements(ids) == Elements(rest) + {last};
      assert last !in rest by {
        forall i | 0 <= i < |rest| ensures rest[i] != last {
          assert Before(rank, ids[i], ids[|ids| - 1]);
          BeforeOrders(rank, last, last, last);
        }
      }
    }
  }

  /** There is only one such list. */
  lemma {:induction false} FirstIsUnique(rank: Id -> Rank, a: seq<Id>, b: seq<Id>, all: set<Id>)
    requires FirstOf(rank, a, all) && FirstOf(rank, b, all)
    ensures a == b
  {
    hide Before;
    OrderedSize(rank, a);
    OrderedSize(rank, b);
    SameElements(rank, a, b, all);
    SameElements(rank, b, a, all);
    OrderedSame(rank, a, b);
  }

  lemma SameElements(rank: Id -> Rank, a: seq<Id>, b: seq<Id>, all: set<Id>)
    requires FirstOf(rank, a, all) && FirstOf(rank, b, all) && |Elements(a)| == |a| && |Elements(b)| == |b|
    ensures Elements(a) <= Elements(b)
  {
    hide Before;
    forall x | x in a ensures x in b {
      if x !in b {
        if forall y | y in b :: y in a {
          Fewer(Elements(b), Elements(a), x);
        } else {
          var y :| y in b && y !in a;
          assert Before(rank, y, x) && Before(rank, x, y);
          BeforeOrders(rank, x, y, x);
        }
      }
    }
  }

  lemma {:induction false} OrderedSame(rank: Id -> Rank, a: seq<Id>, b: seq<Id>)
    requires Ordered(rank, a) && Ordered(rank, b) && Elements(a) == Elements(b)
    ensures a == b
  {
    hide Before;
    OrderedSize(rank, a);
    OrderedSize(rank, b);
    if a != [] {
      HeadsSame(rank, a, b);
      TailElements(rank, a);
      TailElements(rank, b);
      OrderedSame(rank, a[1..], b[1..]);
      assert a == [a[0]] + a[1..] && b == [b[0]] + b[1..];
    }
  }

  lemma HeadsSame(rank: Id -> Rank, a: seq<Id>, b: seq<Id>)
    requires Ordered(rank, a) && Ordered(rank, b) && Elements(a) == Elements(b) && a != [] && b != []
    ensures a[0] == b[0]
  {
    hide Before;
    assert a[0] in Elements(b) && b[0] in Elements(a);
    var i :| 0 <= i < |b| && b[i] == a[0];
    var j :| 0 <= j < |a| && a[j] == b[0];
    BeforeOrders(rank, a[0], b[0], a[0]);
  }

  lemma TailElements(rank: Id -> Rank, a: seq<Id>)
    requires Ordered(rank, a) && a != []
    ensures Elements(a[1..]) == Elements(a) - {a[0]}
  {
    hide Before;
    forall x ensures x in a[1..] <==> x in a && x != a[0] {
      BeforeOrders(rank, x, x, x);
      if x in a && x != a[0] {
        var i :| 0 <= i < |a| && a[i] == x;
        assert a[1..][i - 1] == x;
      }
    }
  }

  // ------------------------------------------------------------------------------------------
  // Sorting and cutting
  // ------------------------------------------------------------------------------------------

  function Insert(rank: Id -> Rank, ids: seq<Id>, x: Id): seq<Id> {
    if ids == [] || !Before(rank, x, ids[|ids| - 1]) then ids + [x]
    else Insert(rank, ids[..|ids| - 1], x) + [ids[|ids| - 1]]
  }

  lemma {:induction false} InsertOrders(rank: Id -> Rank, ids: seq<Id>, x: Id)
    requires Ordered(rank, ids) && x !in ids
    ensures Ordered(rank, Insert(rank, ids, x)) && forall y :: y in Insert(rank, ids, x) <==> y in ids || y == x
  {
    hide Before;
    if ids == [] || !Before(rank, x, ids[|ids| - 1]) {
      forall i | 0 <= i < |ids| ensures Before(rank, ids[i], x) {
        BeforeOrders(rank, ids[i], ids[|ids| - 1], x);
        BeforeOrders(rank, ids[|ids| - 1], x, x);
      }
    } else {
      var rest, last := ids[..|ids| - 1], ids[|ids| - 1];
      assert forall y :: y in ids <==> y in rest || y == last;
      InsertOrders(rank, rest, x);
      var r := Insert(rank, rest, x);
      forall i | 0 <= i < |r| ensures Before(rank, r[i], last) {
        assert r[i] in r;
        if r[i] != x {
          var j :| 0 <= j < |rest| && rest[j] == r[i];
          assert Before(rank, ids[j], ids[|ids| - 1]);
        }
      }
    }
  }

  function Cap(ids: seq<Id>): seq<Id> { if |ids| > MAX_DRAFT_DECISIONS then ids[..MAX_DRAFT_DECISIONS] else ids }

  /** Capping what is already capped together with more is capping everything. */
  lemma CapAgain(rank: Id -> Rank, kept: seq<Id>, all: set<Id>, sorted: seq<Id>, more: set<Id>)
    requires FirstOf(rank, kept, all) && Ordered(rank, sorted) && forall x :: x in sorted <==> x in kept || x in more
    ensures FirstOf(rank, Cap(sorted), all + more)
  {
    hide Before;
    var ids := Cap(sorted);
    forall x | x in all + more && x !in ids ensures |ids| == MAX_DRAFT_DECISIONS && forall y | y in ids :: Before(rank, y, x) {
      if x in sorted { BeyondCap(rank, sorted, x); }
      else {
        OrderedSize(rank, kept);
        OrderedSize(rank, sorted);
        SubsetSize(Elements(kept), Elements(sorted));
        OrderedSize(rank, ids);
        forall y | y in ids ensures Before(rank, y, x) { NotBeyond(rank, kept, sorted, x, y); }
      }
    }
  }

  lemma BeyondCap(rank: Id -> Rank, sorted: seq<Id>, x: Id)
    requires Ordered(rank, sorted) && x in sorted && x !in Cap(sorted)
    ensures |Cap(sorted)| == MAX_DRAFT_DECISIONS && forall y | y in Cap(sorted) :: Before(rank, y, x)
  {
    var i :| 0 <= i < |sorted| && sorted[i] == x;
    var ids := Cap(sorted);
    assert forall j | 0 <= j < |ids| :: ids[j] == sorted[j];
    assert |ids| <= i;
  }

  /** Whatever is kept now precedes what the full list of before had already left out. */
  lemma NotBeyond(rank: Id -> Rank, kept: seq<Id>, sorted: seq<Id>, x: Id, y: Id)
    requires Ordered(rank, sorted) && Ordered(rank, kept) && |kept| == MAX_DRAFT_DECISIONS && (forall k | k in kept :: k in sorted && Before(rank, k, x))
    requires y in Cap(sorted) && |Elements(kept)| == |kept| && |Elements(Cap(sorted))| == |Cap(sorted)|
    ensures Before(rank, y, x)
  {
    hide Before;
    if y !in kept {
      if forall k | k in kept :: k in Cap(sorted) {
        Fewer(Elements(kept), Elements(Cap(sorted)), y);
        assert false;
      }
      var k :| k in kept && k !in Cap(sorted);
      BeyondCap(rank, sorted, k);
      BeforeOrders(rank, y, k, x);
    }
  }

  // ------------------------------------------------------------------------------------------
  // Merging
  // ------------------------------------------------------------------------------------------

  function Ids(ds: seq<Decision>): (r: seq<Id>)
    ensures |r| == |ds| && forall i | 0 <= i < |ds| :: r[i] == ds[i].id
  {
    seq(|ds|, i requires 0 <= i < |ds| => ds[i].id)
  }

  /** The comparison the sort makes. */
  predicate Precedes(times: map<Id, int>, a: Decision, b: Decision) {
    if a.id in times && b.id !in times then false
    else if a.id !in times && b.id in times then true
    else if a.id in times && times[a.id] != times[b.id] then times[a.id] > times[b.id]
    else if a.id !in times && a.turn != b.turn then a.turn > b.turn
    else a.id < b.id
  }

  /** The decision keeps its turn, and its classification. */
  predicate Agrees(rank: Id -> Rank, times: map<Id, int>, d: Decision) {
    rank(d.id) == if d.id in times then Foreign(times[d.id]) else Own(d.turn)
  }

  lemma PrecedesIsBefore(rank: Id -> Rank, times: map<Id, int>, a: Decision, b: Decision)
    requires Agrees(rank, times, a) && Agrees(rank, times, b)
    ensures Precedes(times, a, b) <==> Before(rank, a.id, b.id)
  {
  }

  function InsertDecision(times: map<Id, int>, ds: seq<Decision>, d: Decision): seq<Decision> {
    if ds == [] || !Precedes(times, d, ds[|ds| - 1]) then ds + [d]
    else InsertDecision(times, ds[..|ds| - 1], d) + [ds[|ds| - 1]]
  }

  lemma {:induction false} InsertIds(rank: Id -> Rank, times: map<Id, int>, ds: seq<Decision>, d: Decision)
    requires Agrees(rank, times, d) && forall x | x in ds :: Agrees(rank, times, x)
    ensures Ids(InsertDecision(times, ds, d)) == Insert(rank, Ids(ds), d.id)
    ensures forall x :: x in InsertDecision(times, ds, d) <==> x in ds || x == d
  {
    hide Agrees, Precedes, Before;
    if ds != [] {
      var rest, last := ds[..|ds| - 1], ds[|ds| - 1];
      assert ds == rest + [last] && Ids(ds)[..|ds| - 1] == Ids(rest);
      PrecedesIsBefore(rank, times, d, last);
      if Precedes(times, d, last) { InsertIds(rank, times, rest, d); }
    }
  }

  predicate Distinct(ds: seq<Decision>) { forall i, j | 0 <= i < j < |ds| :: ds[i].id != ds[j].id }

  ghost predicate Sorts(times: map<Id, int>, pool: seq<Decision>, sorted: seq<Decision>) {
    (forall i, j | 0 <= i < j < |sorted| :: Precedes(times, sorted[i], sorted[j])) && forall d :: d in sorted <==> d in pool
  }

  function TurnIn(ds: seq<Decision>, id: Id): int {
    if ds == [] then 0 else if ds[|ds| - 1].id == id then ds[|ds| - 1].turn else TurnIn(ds[..|ds| - 1], id)
  }

  /** How the decisions of one pass rank in it. */
  function PassRank(times: map<Id, int>, ds: seq<Decision>): Id -> Rank {
    (id: Id) => if id in times then Foreign(times[id]) else Own(TurnIn(ds, id))
  }

  lemma {:induction false} TurnsFound(ds: seq<Decision>, i: nat)
    requires Distinct(ds) && i < |ds|
    ensures TurnIn(ds, ds[i].id) == ds[i].turn
  {
    if i < |ds| - 1 { TurnsFound(ds[..|ds| - 1], i); }
  }

  lemma PassAgrees(times: map<Id, int>, ds: seq<Decision>)
    requires Distinct(ds)
    ensures forall d | d in ds :: Agrees(PassRank(times, ds), times, d)
  {
    forall d | d in ds ensures Agrees(PassRank(times, ds), times, d) {
      var i :| 0 <= i < |ds| && ds[i] == d;
      TurnsFound(ds, i);
    }
  }

  /** Stands for the library's stable sort; the ids are distinct, so the order decides everything. */
  method SortDecisions(times: map<Id, int>, ds: seq<Decision>) returns (sorted: seq<Decision>)
    requires Distinct(ds)
    ensures Sorts(times, ds, sorted) && Distinct(sorted)
  {
    hide Agrees, Before, InsertDecision, Insert, Precedes, PassRank;
    ghost var rank := PassRank(times, ds);
    PassAgrees(times, ds);
    sorted := [];
    for i := 0 to |ds|
      invariant Ordered(rank, Ids(sorted)) && forall d :: d in sorted <==> d in ds[..i]
    {
      assert ds[..i + 1] == ds[..i] + [ds[i]];
      assert forall x | x in sorted :: x in ds;
      InsertIds(rank, times, sorted, ds[i]);
      FreshId(sorted, ds, i);
      InsertOrders(rank, Ids(sorted), ds[i].id);
      sorted := InsertDecision(times, sorted, ds[i]);
    }
    assert ds[..|ds|] == ds;
    OrderedDistinct(rank, sorted);
    OrderedPrecedes(rank, times, sorted);
  }

  lemma OrderedPrecedes(rank: Id -> Rank, times: map<Id, int>, ds: seq<Decision>)
    requires forall d | d in ds :: Agrees(rank, times, d)
    ensures Ordered(rank, Ids(ds)) <==> forall i, j | 0 <= i < j < |ds| :: Precedes(times, ds[i], ds[j])
  {
    hide Agrees, Before, Precedes;
    forall i, j | 0 <= i < j < |ds| ensures Precedes(times, ds[i], ds[j]) <==> Before(rank, Ids(ds)[i], Ids(ds)[j]) {
      PrecedesIsBefore(rank, times, ds[i], ds[j]);
    }
  }

  lemma FreshId(sorted: seq<Decision>, ds: seq<Decision>, i: nat)
    requires i < |ds| && (forall d :: d in sorted <==> d in ds[..i]) && forall j, k | 0 <= j < k < |ds| :: ds[j].id != ds[k].id
    ensures ds[i].id !in Ids(sorted)
  {
    forall k | 0 <= k < |sorted| ensures sorted[k].id != ds[i].id {
      assert sorted[k] in ds[..i];
      var j :| 0 <= j < i && ds[..i][j] == sorted[k];
    }
  }

  /** The decisions with the first candidate of each new id after them. */
  function Pool(kept: seq<Decision>, cands: seq<Candidate>): seq<Decision> {
    if cands == [] then kept
    else
      var pool, d := Pool(kept, cands[..|cands| - 1]), cands[|cands| - 1].d;
      if d.id != NO_ID && d.id !in Ids(pool) then pool + [d] else pool
  }

  ghost function NewIds(cands: seq<Candidate>): set<Id> { set c | c in cands && c.d.id != NO_ID :: c.d.id }

  lemma {:induction false} PoolHolds(kept: seq<Decision>, cands: seq<Candidate>)
    requires Distinct(kept)
    ensures Distinct(Pool(kept, cands)) && forall x :: x in Ids(Pool(kept, cands)) <==> x in Ids(kept) || x in NewIds(cands)
    ensures forall d | d in Pool(kept, cands) :: d in kept || exists c | c in cands :: c.d == d && d.id != NO_ID
  {
    if cands != [] {
      var rest, c := cands[..|cands| - 1], cands[|cands| - 1];
      PoolHolds(kept, rest);
      assert cands == rest + [c];
      var pool := Pool(kept, rest);
      assert Ids(pool + [c.d]) == Ids(pool) + [c.d.id];
      assert NewIds(cands) == NewIds(rest) + if c.d.id != NO_ID then {c.d.id} else {};
      forall d | d in Pool(kept, cands) ensures d in kept || exists c | c in cands :: c.d == d && d.id != NO_ID {
        if d !in pool { assert c in cands && c.d == d; }
      }
    }
  }

  /** What was kept stays as it is, and of the candidates of one new id the first is taken. */
  lemma {:induction false} FirstWins(kept: seq<Decision>, cands: seq<Candidate>, i: nat)
    ensures forall d | d in kept :: d in Pool(kept, cands)
    ensures i < |cands| && cands[i].d.id != NO_ID && cands[i].d.id !in Ids(kept) && (forall j | 0 <= j < i :: cands[j].d.id != cands[i].d.id) ==>
              cands[i].d in Pool(kept, cands)
    decreases |cands|
  {
    if cands != [] {
      var rest := cands[..|cands| - 1];
      FirstWins(kept, rest, i);
      if i == |rest| && cands[i].d.id !in Ids(kept) && (forall j | 0 <= j < i :: cands[j].d.id != cands[i].d.id) {
        NotYetIn(kept, rest, cands[i].d.id);
      }
    }
  }

  lemma {:induction false} NotYetIn(kept: seq<Decision>, cands: seq<Candidate>, id: Id)
    requires id !in Ids(kept) && forall j | 0 <= j < |cands| :: cands[j].d.id != id
    ensures id !in Ids(Pool(kept, cands))
  {
    if cands != [] {
      var rest, d := cands[..|cands| - 1], cands[|cands| - 1].d;
      NotYetIn(kept, rest, id);
      assert Ids(Pool(kept, rest) + [d]) == Ids(Pool(kept, rest)) + [d.id];
    }
  }

  function CapDecisions(ds: seq<Decision>): seq<Decision> { if |ds| > MAX_DRAFT_DECISIONS then ds[..MAX_DRAFT_DECISIONS] else ds }

  /** One pass: what was kept and what is new, in the order of this pass, cut at the cap. */
  ghost predicate Merges(kept: seq<Decision>, cands: seq<Candidate>, times: map<Id, int>, ds: seq<Decision>) {
    exists sorted :: Sorts(times, Pool(kept, cands), sorted) && ds == CapDecisions(sorted)
  }

  class DraftDecisions {
    var decisions: seq<Decision>

    ghost predicate Valid()
      reads this
    {
      Distinct(decisions)
    }

    constructor ()
      ensures Valid() && decisions == []
    {
      decisions := [];
    }

    method MergeDecisions(cands: seq<Candidate>, times: map<Id, int>)
      requires Valid()
      modifies this
      ensures Valid() && Merges(old(decisions), cands, times, decisions)
    {
      var all := AddNew(decisions, cands);
      PoolHolds(decisions, cands);
      var sorted := SortDecisions(times, all);
      decisions := if |sorted| > MAX_DRAFT_DECISIONS then sorted[..MAX_DRAFT_DECISIONS] else sorted;
      assert decisions == CapDecisions(sorted);
    }
  }

  method AddNew(kept: seq<Decision>, cands: seq<Candidate>) returns (all: seq<Decision>)
    ensures all == Pool(kept, cands)
  {
    all := kept;
    var have := set x | x in Ids(kept);
    assert cands[..0] == [];
    for n := 0 to |cands|
      invariant all == Pool(kept, cands[..n]) && forall x :: x in have <==> x in Ids(all)
    {
      assert cands[..n + 1][..n] == cands[..n];
      var d := cands[n].d;
      if d.id != NO_ID && d.id !in have {
        assert Ids(all + [d]) == Ids(all) + [d.id];
        all := all + [d];
        have := have + {d.id};
      }
    }
    assert cands[..|cands|] == cands;
  }

  /** If ids keep their turn and classification, a pass over the first of everything offered leaves the
      first of everything offered. */
  lemma MergeKeepsFirst(rank: Id -> Rank, kept: seq<Decision>, offered: set<Id>, cands: seq<Candidate>, times: map<Id, int>, ds: seq<Decision>)
    requires FirstOf(rank, Ids(kept), offered) && Merges(kept, cands, times, ds) && forall d | d in kept :: Agrees(rank, times, d)
    requires forall c | c in cands && c.d.id != NO_ID :: Agrees(rank, times, c.d)
    ensures FirstOf(rank, Ids(ds), offered + NewIds(cands)) && forall d | d in ds :: d in kept || exists c | c in cands :: c.d == d && d.id != NO_ID
  {
    hide Agrees, Precedes, Before, NewIds;
    OrderedDistinct(rank, kept);
    PoolHolds(kept, cands);
    var sorted :| Sorts(times, Pool(kept, cands), sorted) && ds == CapDecisions(sorted);
    assert forall d | d in sorted :: Agrees(rank, times, d);
    OrderedPrecedes(rank, times, sorted);
    SameIds(Pool(kept, cands), sorted);
    CapAgain(rank, Ids(kept), offered, Ids(sorted), NewIds(cands));
    assert Ids(ds) == Cap(Ids(sorted));
  }

  lemma SameIds(a: seq<Decision>, b: seq<Decision>)
    requires forall d :: d in a <==> d in b
    ensures forall x :: x in Ids(a) <==> x in Ids(b)
  {
    forall x ensures x in Ids(a) <==> x in Ids(b) {
      if x in Ids(a) { IdFound(a, b, x); }
      if x in Ids(b) { IdFound(b, a, x); }
    }
  }

  lemma IdFound(a: seq<Decision>, b: seq<Decision>, x: Id)
    requires x in Ids(a) && forall d | d in a :: d in b
    ensures x in Ids(b)
  {
    var i :| 0 <= i < |a| && a[i].id == x;
    assert a[i] in b;
    var j :| 0 <= j < |b| && b[j] == a[i];
    assert Ids(b)[j] == x;
  }

  // Pass after pass

  datatype Pass = Pass(cands: seq<Candidate>, times: map<Id, int>)

  ghost predicate MergesAll(passes: seq<Pass>, ds: seq<Decision>) {
    if passes == [] then ds == []
    else
      var last := passes[|passes| - 1];
      exists kept :: MergesAll(passes[..|passes| - 1], kept) && Merges(kept, last.cands, last.times, ds)
  }

  ghost function Offered(passes: seq<Pass>): set<Id> {
    if passes == [] then {} else Offered(passes[..|passes| - 1]) + NewIds(passes[|passes| - 1].cands)
  }

  /** Every candidate of the passes so far keeps its turn and classification through the passes to come. */
  ghost predicate Steady(rank: Id -> Rank, passes: seq<Pass>) {
    forall i, j, c | 0 <= i <= j < |passes| && c in passes[i].cands && c.d.id != NO_ID :: Agrees(rank, passes[j].times, c.d)
  }

  predicate FromPass(p: Pass, d: Decision) { exists c | c in p.cands :: c.d == d && d.id != NO_ID }

  /** Any number of passes over steady decisions keeps the first 64 of everything ever offered: merging pass
      by pass is merging once. */
  lemma {:induction false} MergedIsFirst(rank: Id -> Rank, passes: seq<Pass>, ds: seq<Decision>)
    requires MergesAll(passes, ds) && Steady(rank, passes)
    ensures FirstOf(rank, Ids(ds), Offered(passes))
    ensures forall d | d in ds :: exists i | 0 <= i < |passes| :: FromPass(passes[i], d)
  {
    hide Agrees, Before, Merges, FirstOf, NewIds;
    if passes == [] {
      NothingFirst(rank);
    } else {
      var rest, last := passes[..|passes| - 1], passes[|passes| - 1];
      var kept :| MergesAll(rest, kept) && Merges(kept, last.cands, last.times, ds);
      MergedIsFirst(rank, rest, kept);
      forall d | d in kept ensures Agrees(rank, last.times, d) {
        var i :| 0 <= i < |rest| && FromPass(rest[i], d);
        var c :| c in rest[i].cands && c.d == d && d.id != NO_ID;
        assert c in passes[i].cands;
      }
      MergeKeepsFirst(rank, kept, Offered(rest), last.cands, last.times, ds);
      forall d | d in ds ensures exists i | 0 <= i < |passes| :: FromPass(passes[i], d) {
        if d in kept {
          var i :| 0 <= i < |rest| && FromPass(rest[i], d);
          assert FromPass(passes[i], d);
        } else {
          assert FromPass(passes[|passes| - 1], d);
        }
      }
    }
  }

  lemma NothingFirst(rank: Id -> Rank)
    ensures FirstOf(rank, Ids([]), {})
  {
  }

  lemma OrderedDistinct(rank: Id -> Rank, ds: seq<Decision>)
    requires Ordered(rank, Ids(ds))
    ensures forall i, j | 0 <= i < j < |ds| :: ds[i].id != ds[j].id
  {
    hide Before;
    forall i, j | 0 <= i < j < |ds| ensures ds[i].id != ds[j].id {
      assert Before(rank, Ids(ds)[i], Ids(ds)[j]);
      BeforeOrders(rank, ds[i].id, ds[i].id, ds[i].id);
    }
  }

  /** In any pass, a foreign decision never takes the place of one of the session's own. */
  lemma OwnComesFirst(kept: seq<Decision>, cands: seq<Candidate>, times: map<Id, int>, ds: seq<Decision>, mine: Decision, other: Decision)
    requires Merges(kept, cands, times, ds) && mine in Pool(kept, cands) && mine.id !in times && other in ds && other.id in times
    ensures mine in ds
  {
    hide Pool;
    var sorted :| Sorts(times, Pool(kept, cands), sorted) && ds == CapDecisions(sorted);
    var i :| 0 <= i < |sorted| && sorted[i] == mine;
    var j :| 0 <= j < |ds| && ds[j] == other;
    assert sorted[j] == other;
    assert !Precedes(times, other, mine);
    assert i < j && ds[i] == mine;
  }
}
