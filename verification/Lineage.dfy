/** The ancestry of a forked session: a walk over lineage records that ends on any of them, and a memo
    that is right whenever no recording is half done. */
module Lineage {
  import opened Basics

  type Session = nat
  type Thread = nat

  /** A record that cannot be read, or one that names a parent, or none. */
  datatype Record = Unreadable | Record(parent: Option<Session>, at: int)

  type Records = map<Session, Record>

  datatype Inherited = Inherited(session: Session, until: int)

  const NO_STAMP := 0x7FFF_FFFF_FFFF_FFFF

  datatype Answer = Answer(chain: seq<Inherited>, clean: bool)

  function Until(at: int): int { if at <= 0 then NO_STAMP else at }

  // ------------------------------------------------------------------------------------------
  // The walk
  // ------------------------------------------------------------------------------------------

  /** What the next record read says: go on to a parent, or stop. */
  datatype Move = Stop(clean: bool) | Go(to: Inherited)

  function MoveAt(rs: Records, cur: Session, visited: set<Session>): Move {
    if cur !in rs then Stop(true)
    else if rs[cur].Unreadable? then Stop(false)
    else if rs[cur].parent.None? || rs[cur].parent.value in visited then Stop(true)
    else Go(Inherited(rs[cur].parent.value, Until(rs[cur].at)))
  }

  function Parents(rs: Records): set<Session> { set s | s in rs && rs[s].Record? && rs[s].parent.Some? :: rs[s].parent.value }

  /** The rest of a walk: it ends, because every move visits another of finitely many parents. */
  function Walk(rs: Records, cur: Session, visited: set<Session>, out: seq<Inherited>): Answer
    decreases Parents(rs) - visited
  {
    var m := MoveAt(rs, cur, visited);
    if m.Stop? then Answer(out, m.clean)
    else
      assert m.to.session in Parents(rs) - visited;
      Walk(rs, m.to.session, visited + {m.to.session}, out + [m.to])
  }

  function Ancestry(rs: Records, s: Session): Answer { Walk(rs, s, {s}, []) }

  method AncestryOf(rs: Records, s: Session) returns (a: Answer)
    ensures a == Ancestry(rs, s)
  {
    var out: seq<Inherited> := [];
    var visited := {s};
    var cur := s;
    while true
      invariant Walk(rs, cur, visited, out) == Ancestry(rs, s)
      decreases Parents(rs) - visited
    {
      if cur !in rs { return Answer(out, true); }
      var rec := rs[cur];
      if rec.Unreadable? { return Answer(out, false); }
      if rec.parent.None? || rec.parent.value in visited { return Answer(out, true); }
      assert rec.parent.value in Parents(rs) - visited;
      var until := rec.at;
      if until <= 0 { until := NO_STAMP; }
      out := out + [Inherited(rec.parent.value, until)];
      visited := visited + {rec.parent.value};
      cur := rec.parent.value;
    }
  }

  /** The session the walk stands at after `i` moves. */
  function Cursor(s: Session, chain: seq<Inherited>, i: nat): Session
    requires i <= |chain|
  {
    if i == 0 then s else chain[i - 1].session
  }

  /** The recorded parent of `cur`, with the record's stamp. */
  predicate Link(rs: Records, cur: Session, to: Inherited) {
    cur in rs && rs[cur].Record? && rs[cur].parent == Some(to.session) && to.until == Until(rs[cur].at)
  }

  ghost predicate Linked(rs: Records, s: Session, chain: seq<Inherited>) {
    forall i :: 0 <= i < |chain| ==> Link(rs, Cursor(s, chain, i), chain[i])
  }

  ghost predicate Distinct(s: Session, chain: seq<Inherited>) {
    && (forall i :: 0 <= i < |chain| ==> chain[i].session != s)
    && (forall i, j :: 0 <= i < j < |chain| ==> chain[i].session != chain[j].session)
  }

  /** Each link is the recorded parent of the one before it, and no session comes twice. */
  ghost predicate IsChain(rs: Records, s: Session, chain: seq<Inherited>) { Linked(rs, s, chain) && Distinct(s, chain) }

  function Sessions(s: Session, chain: seq<Inherited>): set<Session> { {s} + set i | 0 <= i < |chain| :: chain[i].session }

  /** Why a walk may end at `last`: it has no record, one that cannot be read, or one without a parent, or
      its parent was there before. */
  ghost predicate EndsThere(rs: Records, s: Session, chain: seq<Inherited>, last: Session) {
    last !in rs || rs[last].Unreadable? || rs[last].parent.None? ||
    rs[last].parent.value == s || exists i :: 0 <= i < |chain| && chain[i].session == rs[last].parent.value
  }

  /** The ancestry is the chain of recorded parents, as far as it can be followed without a repeat; it is
      clean unless a record that cannot be read ended it. */
  lemma AncestryIsChain(rs: Records, s: Session)
    ensures var a := Ancestry(rs, s);
            var last := Cursor(s, a.chain, |a.chain|);
            && IsChain(rs, s, a.chain)
            && EndsThere(rs, s, a.chain, last)
            && (!a.clean <==> last in rs && rs[last].Unreadable?)
  {
    assert Sessions(s, []) == {s};
    WalkIsChain(rs, s, []);
  }

  /** Nothing else is such a chain. */
  lemma ChainIsAncestry(rs: Records, s: Session, chain: seq<Inherited>)
    requires IsChain(rs, s, chain) && EndsThere(rs, s, chain, Cursor(s, chain, |chain|))
    ensures Ancestry(rs, s).chain == chain
  {
    hide IsChain, Ancestry, EndsThere;
    AncestryIsChain(rs, s);
    var a := Ancestry(rs, s).chain;
    if |a| <= |chain| { ChainsAgree(rs, s, a, chain); } else { ChainsAgree(rs, s, chain, a); }
  }

  /** Of two chains from one session the shorter begins the longer, and goes on if the longer does. */
  lemma ChainsAgree(rs: Records, s: Session, a: seq<Inherited>, b: seq<Inherited>)
    requires IsChain(rs, s, a) && IsChain(rs, s, b) && |a| <= |b| && EndsThere(rs, s, a, Cursor(s, a, |a|))
    ensures a == b
  {
    hide Distinct, EndsThere;
    LinksAgree(rs, s, a, b, |a|);
    if |a| < |b| {
      NoRepeat(rs, s, a, b);
      assert false;
    }
  }

  lemma {:induction false} LinksAgree(rs: Records, s: Session, a: seq<Inherited>, b: seq<Inherited>, n: nat)
    requires Linked(rs, s, a) && Linked(rs, s, b) && n <= |a| && n <= |b|
    ensures forall j | 0 <= j < n :: a[j] == b[j]
  {
    if n > 0 {
      LinksAgree(rs, s, a, b, n - 1);
      assert Cursor(s, a, n - 1) == Cursor(s, b, n - 1);
      assert Link(rs, Cursor(s, a, n - 1), a[n - 1]) && Link(rs, Cursor(s, b, n - 1), b[n - 1]);
    }
  }

  lemma NoRepeat(rs: Records, s: Session, a: seq<Inherited>, b: seq<Inherited>)
    requires |a| < |b| && a == b[..|a|] && Linked(rs, s, b) && Distinct(s, b)
    ensures !EndsThere(rs, s, a, Cursor(s, a, |a|))
  {
    assert Cursor(s, a, |a|) == Cursor(s, b, |a|);
    assert Link(rs, Cursor(s, b, |a|), b[|a|]);
  }

  /** A record stamped `t` comes down with an inherited session. */
  predicate ComesDown(a: Inherited, t: int) { t <= a.until }

  /** Of an ancestor's records those come down that were there when its fork began; from a fork whose
      record has no stamp, all of them. */
  lemma UnstampedInheritsAll(rs: Records, s: Session, i: nat, t: int)
    requires i < |Ancestry(rs, s).chain| && t < 0x8000_0000_0000_0000
    ensures var a := Ancestry(rs, s).chain;
            var fork := Cursor(s, a, i);
            && fork in rs && rs[fork].Record? && (ComesDown(a[i], t) <==> rs[fork].at <= 0 || t <= rs[fork].at)
  {
    hide Ancestry, EndsThere, Distinct;
    AncestryIsChain(rs, s);
    var a := Ancestry(rs, s).chain;
    assert Link(rs, Cursor(s, a, i), a[i]);
  }

  lemma {:induction false} WalkIsChain(rs: Records, s: Session, out: seq<Inherited>)
    requires IsChain(rs, s, out)
    ensures var a := Walk(rs, Cursor(s, out, |out|), Sessions(s, out), out);
            && IsChain(rs, s, a.chain) && MoveAt(rs, Cursor(s, a.chain, |a.chain|), Sessions(s, a.chain)) == Stop(a.clean)
    decreases Parents(rs) - Sessions(s, out)
  {
    hide IsChain, Sessions;
    var cur, visited := Cursor(s, out, |out|), Sessions(s, out);
    var m := MoveAt(rs, cur, visited);
    if m.Go? {
      var next := out + [m.to];
      assert m.to.session in Parents(rs) - visited;
      Extends(rs, s, out, m.to);
      assert Cursor(s, next, |next|) == m.to.session;
      WalkIsChain(rs, s, next);
    }
  }

  lemma Extends(rs: Records, s: Session, out: seq<Inherited>, to: Inherited)
    requires IsChain(rs, s, out) && MoveAt(rs, Cursor(s, out, |out|), Sessions(s, out)) == Go(to)
    ensures IsChain(rs, s, out + [to]) && Sessions(s, out + [to]) == Sessions(s, out) + {to.session}
  {
    hide Linked, Distinct, Sessions, MoveAt;
    GoesOn(rs, Cursor(s, out, |out|), Sessions(s, out), to);
    LinkedOn(rs, s, out, to);
    DistinctOn(s, out, to);
    SessionsOn(s, out, to);
  }

  lemma LinkedOn(rs: Records, s: Session, out: seq<Inherited>, to: Inherited)
    requires Linked(rs, s, out) && Link(rs, Cursor(s, out, |out|), to)
    ensures Linked(rs, s, out + [to])
  {
    hide Link;
    var next := out + [to];
    forall i | 0 <= i < |next| ensures Link(rs, Cursor(s, next, i), next[i]) {
      assert Cursor(s, next, i) == Cursor(s, out, i);
    }
  }

  lemma DistinctOn(s: Session, out: seq<Inherited>, to: Inherited)
    requires Distinct(s, out) && to.session !in Sessions(s, out)
    ensures Distinct(s, out + [to])
  {
    assert forall i | 0 <= i < |out| :: out[i].session in Sessions(s, out);
  }

  lemma SessionsOn(s: Session, out: seq<Inherited>, to: Inherited)
    ensures Sessions(s, out + [to]) == Sessions(s, out) + {to.session}
  {
    var next := out + [to];
    forall x ensures x in Sessions(s, next) <==> x in Sessions(s, out) || x == to.session {
      assert next[|out|] == to;
      if x in Sessions(s, out) && x != s {
        var i :| 0 <= i < |out| && out[i].session == x;
        assert next[i].session == x;
      }
    }
  }

  lemma GoesOn(rs: Records, cur: Session, visited: set<Session>, to: Inherited)
    requires MoveAt(rs, cur, visited) == Go(to)
    ensures Link(rs, cur, to) && to.session !in visited
  {
  }

  // ------------------------------------------------------------------------------------------
  // The memo
  // ------------------------------------------------------------------------------------------

  /** A lookup in flight: the generation it loaded first, and how far it has come. */
  datatype Lookup =
    | Loaded(s: Session, gen: nat)
    | Walking(s: Session, gen: nat, cur: Session, visited: set<Session>, out: seq<Inherited>)
    | Finished(s: Session, gen: nat, answer: Answer)
    | Answered(s: Session, gen: nat, chain: seq<Inherited>)

  datatype Memo = Memo(gen: nat, chain: seq<Inherited>)

  /** `pending` recordings have written their file and not yet counted it. */
  datatype State = State(records: Records, pending: nat, gen: nat, memo: map<Session, Memo>, lookups: map<Thread, Lookup>)

  datatype Event =
    | Write(s: Session, r: Record)
    | Bump
    | Load(t: Thread, s: Session)
    | Check(t: Thread)
    | Read(t: Thread)
    | Keep(t: Thread)

  const EMPTY := State(map[], 0, 0, map[], map[])

  predicate Enabled(v: State, e: Event) {
    match e
    case Write(s, r) => true
    case Bump => v.pending > 0
    case Load(t, s) => t in v.lookups ==> v.lookups[t].Answered?
    case Check(t) => t in v.lookups && v.lookups[t].Loaded?
    case Read(t) => t in v.lookups && v.lookups[t].Walking?
    case Keep(t) => t in v.lookups && v.lookups[t].Finished?
  }

  predicate Hit(v: State, s: Session, gen: nat) { s in v.memo && v.memo[s].gen == gen }

  function AfterRead(rs: Records, l: Lookup): Lookup
    requires l.Walking?
  {
    var m := MoveAt(rs, l.cur, l.visited);
    if m.Stop? then Finished(l.s, l.gen, Answer(l.out, m.clean))
    else Walking(l.s, l.gen, m.to.session, l.visited + {m.to.session}, l.out + [m.to])
  }

  function Step(v: State, e: Event): State
    requires Enabled(v, e)
  {
    match e
    case Write(s, r) => v.(records := v.records[s := r], pending := v.pending + 1)
    case Bump => v.(pending := v.pending - 1, gen := v.gen + 1)
    case Load(t, s) => v.(lookups := v.lookups[t := Loaded(s, v.gen)])
    case Check(t) =>
      var l := v.lookups[t];
      if Hit(v, l.s, l.gen) then v.(lookups := v.lookups[t := Answered(l.s, l.gen, v.memo[l.s].chain)])
      else v.(lookups := v.lookups[t := Walking(l.s, l.gen, l.s, {l.s}, [])])
    case Read(t) => v.(lookups := v.lookups[t := AfterRead(v.records, v.lookups[t])])
    case Keep(t) =>
      var l := v.lookups[t];
      v.(lookups := v.lookups[t := Answered(l.s, l.gen, l.answer.chain)], memo := if l.answer.clean then v.memo[l.s := Memo(l.gen, l.answer.chain)] else v.memo)
  }

  /** Nothing half done, and the generation is the current one. */
  predicate Current(v: State, gen: nat) { v.pending == 0 && gen == v.gen }

  /** What a current lookup will find is what a walk now finds. */
  ghost predicate LookupOk(v: State, l: Lookup) {
    l.gen <= v.gen &&
    (Current(v, l.gen) ==>
       match l
       case Loaded(_, _) => true
       case Walking(s, _, cur, visited, out) => Walk(v.records, cur, visited, out) == Ancestry(v.records, s)
       case Finished(s, _, answer) => answer == Ancestry(v.records, s)
       case Answered(s, _, chain) => chain == Ancestry(v.records, s).chain)
  }

  ghost predicate MemoOk(v: State) {
    forall s | s in v.memo :: v.memo[s].gen <= v.gen && (Current(v, v.memo[s].gen) ==> Answer(v.memo[s].chain, true) == Ancestry(v.records, s))
  }

  ghost predicate Inv(v: State) { MemoOk(v) && forall t | t in v.lookups :: LookupOk(v, v.lookups[t]) }

  lemma StepInv(v: State, e: Event)
    requires Inv(v) && Enabled(v, e)
    ensures Inv(Step(v, e))
  {
    hide Ancestry;
    var w := Step(v, e);
    forall t | t in w.lookups ensures LookupOk(w, w.lookups[t]) {
      assert t in v.lookups ==> LookupOk(v, v.lookups[t]);
      if e == Read(t) { ReadOk(v, v.lookups[t]); }
      if e == Check(t) { WalkStarts(v.records, v.lookups[t].s); }
    }
    if e.Keep? { assert LookupOk(v, v.lookups[e.t]); }
  }

  lemma WalkStarts(rs: Records, s: Session)
    ensures Walk(rs, s, {s}, []) == Ancestry(rs, s)
  {
  }

  lemma ReadOk(v: State, l: Lookup)
    requires l.Walking? && LookupOk(v, l)
    ensures LookupOk(v, AfterRead(v.records, l))
  {
    hide Ancestry;
  }

  ghost predicate Runs(v: State, es: seq<Event>)
    decreases |es|
  {
    es == [] || (Enabled(v, es[0]) && Runs(Step(v, es[0]), es[1..]))
  }

  ghost function After(v: State, es: seq<Event>): State
    requires Runs(v, es)
    decreases |es|
  {
    if es == [] then v else After(Step(v, es[0]), es[1..])
  }

  lemma {:induction false} RunInv(v: State, es: seq<Event>)
    requires Inv(v) && Runs(v, es)
    ensures Inv(After(v, es))
    decreases |es|
  {
    hide Inv, Enabled, Step;
    if es != [] {
      StepInv(v, es[0]);
      RunInv(Step(v, es[0]), es[1..]);
    }
  }

  /** Over every interleaving of lookups and recordings: whenever no recording is between its write and
      its bump, a memo entry of the current generation is what a walk over the records finds. */
  lemma MemoIsAncestry(es: seq<Event>, s: Session)
    requires Runs(EMPTY, es)
    ensures var v := After(EMPTY, es);
            v.pending == 0 && s in v.memo && v.memo[s].gen == v.gen ==> Ancestry(v.records, s) == Answer(v.memo[s].chain, true)
  {
    hide Runs, After, Ancestry;
    assert Inv(EMPTY);
    RunInv(EMPTY, es);
  }

  /** So is what a lookup answers, from the memo or from its own walk, as long as nothing was recorded since
      it began. */
  lemma AnswerIsAncestry(es: seq<Event>, t: Thread)
    requires Runs(EMPTY, es)
    ensures var v := After(EMPTY, es);
            v.pending == 0 && t in v.lookups && v.lookups[t].Answered? && v.lookups[t].gen == v.gen ==>
              v.lookups[t].chain == Ancestry(v.records, v.lookups[t].s).chain
  {
    hide Runs, After, Ancestry;
    assert Inv(EMPTY);
    RunInv(EMPTY, es);
    var v := After(EMPTY, es);
    if t in v.lookups { assert LookupOk(v, v.lookups[t]); }
  }

  /** Between the write and the bump it need not be: a lookup may keep what it read before the write. */
  lemma MemoCanLag()
    ensures exists es, s :: Runs(EMPTY, es) &&
              var v := After(EMPTY, es); v.pending == 1 && s in v.memo && v.memo[s].gen == v.gen && Ancestry(v.records, s).chain != v.memo[s].chain
  {
    hide Runs, After, Ancestry;
    var r := Record(Some(6), 1);
    var es := [Load(0, 5), Check(0), Read(0), Keep(0), Write(5, r)];
    NoRun(EMPTY);
    RunOn(EMPTY, [], Load(0, 5));
    RunOn(EMPTY, [] + [Load(0, 5)], Check(0));
    RunOn(EMPTY, [] + [Load(0, 5)] + [Check(0)], Read(0));
    RunOn(EMPTY, [] + [Load(0, 5)] + [Check(0)] + [Read(0)], Keep(0));
    RunOn(EMPTY, [] + [Load(0, 5)] + [Check(0)] + [Read(0)] + [Keep(0)], Write(5, r));
    assert es == [] + [Load(0, 5)] + [Check(0)] + [Read(0)] + [Keep(0)] + [Write(5, r)];
    var v := After(EMPTY, es);
    AncestryIsChain(v.records, 5);
    assert MoveAt(v.records, 5, Sessions(5, [])).Go?;
  }

  lemma NoRun(v: State)
    ensures Runs(v, []) && After(v, []) == v
  {
  }

  lemma {:induction false} RunOn(v: State, es: seq<Event>, e: Event)
    requires Runs(v, es) && Enabled(After(v, es), e)
    ensures Runs(v, es + [e]) && After(v, es + [e]) == Step(After(v, es), e)
    decreases |es|
  {
    hide Enabled, Step;
    var more := es + [e];
    if es == [] {
      assert more[0] == e && more[1..] == [];
    } else {
      RunOn(Step(v, es[0]), es[1..], e);
      assert more[0] == es[0] && more[1..] == es[1..] + [e];
    }
  }
}
