/** Canonicalization as one pass of replacements over the original bytes, and its exact inverse. */
module Compose {
  import opened Regex
  import opened CanonTypes

  const MAX_INPUT_BYTES := 8 * 1024 * 1024

  datatype Candidate = Candidate(m: Match, rank: nat, owner: string)

  datatype Delta = Delta(offset: int, len: int, original: Text, cls: Class)

  datatype RestoreError = DeltaOrder(at: nat) | DeltaRange(at: nat)

  datatype Result<T> = Ok(value: T) | Err(error: RestoreError)

  /** No list of classes means all of them; a list always gains the structural ones. */
  function GateSet(strip: set<Class>, all: bool): set<Class> {
    if all then {Timestamps, Ansi, Pids, Addresses, TmpPaths, Durations, Crlf, Paths} else strip + {Crlf, Paths}
  }

  /** Line endings and paths are structural: they are in play whatever the list says, and the rest as it says. */
  lemma GateIs(strip: set<Class>, all: bool, c: Class)
    ensures c in GateSet(strip, all) <==> all || c == Crlf || c == Paths || c in strip
  {
  }

  // ------------------------------------------------------------------------------------------
  // Order
  // ------------------------------------------------------------------------------------------

  /** Ascending offset, then descending length, then registration order. */
  predicate Less(x: Candidate, y: Candidate) {
    if x.m.offset != y.m.offset then x.m.offset < y.m.offset
    else if x.m.len != y.m.len then x.m.len > y.m.len
    else x.rank < y.rank
  }

  predicate Sorted(cs: seq<Candidate>) { forall i, j | 0 <= i < j < |cs| :: !Less(cs[j], cs[i]) }

  /** `c` after everything not greater: a stable insertion. */
  function Insert(cs: seq<Candidate>, c: Candidate): seq<Candidate> {
    if cs == [] || !Less(c, cs[|cs| - 1]) then cs + [c]
    else Insert(cs[..|cs| - 1], c) + [cs[|cs| - 1]]
  }

  /** The order a stable sort leaves. */
  function Sort(cs: seq<Candidate>): seq<Candidate> {
    if cs == [] then [] else Insert(Sort(cs[..|cs| - 1]), cs[|cs| - 1])
  }

  lemma {:induction false} InsertElements(cs: seq<Candidate>, c: Candidate)
    ensures multiset(Insert(cs, c)) == multiset(cs) + multiset{c}
  {
    if cs != [] && Less(c, cs[|cs| - 1]) {
      InsertElements(cs[..|cs| - 1], c);
      assert cs == cs[..|cs| - 1] + [cs[|cs| - 1]];
    }
  }

  lemma {:induction false} InsertMembers(cs: seq<Candidate>, c: Candidate, x: Candidate)
    requires x in Insert(cs, c)
    ensures x == c || x in cs
  {
    hide Less;
    if cs != [] && Less(c, cs[|cs| - 1]) && x != cs[|cs| - 1] { InsertMembers(cs[..|cs| - 1], c, x); }
  }

  lemma {:induction false} InsertSorted(cs: seq<Candidate>, c: Candidate)
    requires Sorted(cs)
    ensures Sorted(Insert(cs, c))
  {
    hide Less;
    if cs == [] || !Less(c, cs[|cs| - 1]) {
      forall i | 0 <= i < |cs| ensures !Less(c, cs[i]) { LessAll(cs, c, i); }
    } else {
      var body, last := cs[..|cs| - 1], cs[|cs| - 1];
      InsertSorted(body, c);
      var r := Insert(body, c);
      forall i | 0 <= i < |r| ensures !Less(last, r[i]) {
        InsertMembers(body, c, r[i]);
        LessAsym(c, last);
      }
    }
  }

  lemma LessAsym(x: Candidate, y: Candidate)
    ensures Less(x, y) ==> !Less(y, x)
  {
  }

  lemma LessAll(cs: seq<Candidate>, c: Candidate, i: nat)
    requires Sorted(cs) && i < |cs| && !Less(c, cs[|cs| - 1])
    ensures !Less(c, cs[i])
  {
    assert i < |cs| - 1 ==> !Less(cs[|cs| - 1], cs[i]);
  }

  lemma {:induction false} SortSorts(cs: seq<Candidate>)
    ensures Sorted(Sort(cs)) && multiset(Sort(cs)) == multiset(cs)
  {
    if cs != [] {
      hide Sorted, Less, Insert;
      SortSorts(cs[..|cs| - 1]);
      InsertSorted(Sort(cs[..|cs| - 1]), cs[|cs| - 1]);
      InsertElements(Sort(cs[..|cs| - 1]), cs[|cs| - 1]);
      assert cs == cs[..|cs| - 1] + [cs[|cs| - 1]];
    }
  }

  /** After sorting, whatever starts earlier comes first; of those that start together the longer, and of equal
      spans the one registered first. */
  lemma SortOrders(cs: seq<Candidate>, i: nat, j: nat)
    requires i < j < |Sort(cs)|
    ensures var x, y := Sort(cs)[i], Sort(cs)[j];
            && x.m.offset <= y.m.offset && (x.m.offset == y.m.offset ==> x.m.len >= y.m.len)
            && (x.m.offset == y.m.offset && x.m.len == y.m.len ==> x.rank <= y.rank)
  {
    hide Sort;
    SortSorts(cs);
    assert !Less(Sort(cs)[j], Sort(cs)[i]);
  }

  /** Sorting keeps the relative order of candidates it does not distinguish, so it is THE stable sort. */
  function Alike(cs: seq<Candidate>, c: Candidate): seq<Candidate> {
    if cs == [] then []
    else Alike(cs[..|cs| - 1], c) + if !Less(cs[|cs| - 1], c) && !Less(c, cs[|cs| - 1]) then [cs[|cs| - 1]] else []
  }

  lemma {:induction false} InsertStable(cs: seq<Candidate>, c: Candidate, d: Candidate)
    ensures Alike(Insert(cs, c), d) == Alike(cs + [c], d)
  {
    assert (cs + [c])[..|cs|] == cs;
    if cs != [] && Less(c, cs[|cs| - 1]) {
      var body, last := cs[..|cs| - 1], cs[|cs| - 1];
      InsertStable(body, c, d);
      assert (body + [c])[..|body|] == body;
      assert (Insert(body, c) + [last])[..|Insert(body, c)|] == Insert(body, c);
      assert Insert(cs, c) == Insert(body, c) + [last];
    }
  }

  lemma {:induction false} SortStable(cs: seq<Candidate>, d: Candidate)
    ensures Alike(Sort(cs), d) == Alike(cs, d)
  {
    if cs != [] {
      var body, last := cs[..|cs| - 1], cs[|cs| - 1];
      SortStable(body, d);
      InsertStable(Sort(body), last, d);
      assert (Sort(body) + [last])[..|Sort(body)|] == Sort(body);
    }
  }

  // ------------------------------------------------------------------------------------------
  // Acceptance
  // ------------------------------------------------------------------------------------------

  /** In play, not an insertion, and not growing. */
  predicate Eligible(c: Candidate, gate: set<Class>) { c.m.cls in gate && |c.m.token| <= c.m.len && c.m.len != 0 }

  function Accept(cs: seq<Candidate>, gate: set<Class>, end: nat): (r: seq<Candidate>) {
    if cs == [] then []
    else if Eligible(cs[0], gate) && end <= cs[0].m.offset then [cs[0]] + Accept(cs[1..], gate, cs[0].m.End())
    else Accept(cs[1..], gate, end)
  }

  /** Spans after `from`, in order, apart, within `n` bytes and not growing. */
  predicate Spans(ms: seq<Candidate>, from: nat, n: nat) {
    if ms == [] then from <= n
    else from <= ms[0].m.offset && |ms[0].m.token| <= ms[0].m.len && Spans(ms[1..], ms[0].m.End(), n)
  }

  lemma {:induction false} AcceptedSpans(cs: seq<Candidate>, gate: set<Class>, end: nat, n: nat)
    requires end <= n && forall c | c in cs :: c.m.End() <= n
    ensures Spans(Accept(cs, gate, end), end, n)
    ensures forall c | c in Accept(cs, gate, end) :: c in cs && Eligible(c, gate) && end <= c.m.offset
  {
    if cs != [] {
      assert forall c | c in cs[1..] :: c in cs;
      if Eligible(cs[0], gate) && end <= cs[0].m.offset {
        AcceptedSpans(cs[1..], gate, cs[0].m.End(), n);
      } else {
        AcceptedSpans(cs[1..], gate, end, n);
      }
    }
  }

  /** The byte at which `x` starts is already taken by `a`. */
  predicate Covers(a: Candidate, x: Candidate) { a.m.offset <= x.m.offset < a.m.End() }

  /** What is left out of a sorted list is ineligible, starts before the list's bound, or starts inside
      an accepted span that comes first in the order. */
  lemma {:induction false} AcceptMaximal(cs: seq<Candidate>, gate: set<Class>, end: nat, x: Candidate)
    requires Sorted(cs) && x in cs && Eligible(x, gate)
    ensures || x in Accept(cs, gate, end) || x.m.offset < end
            || exists a | a in Accept(cs, gate, end) :: Covers(a, x) && !Less(x, a)
  {
    var c, rest := cs[0], cs[1..];
    if Eligible(c, gate) && end <= c.m.offset {
      var r := Accept(rest, gate, c.m.End());
      assert Accept(cs, gate, end) == [c] + r;
      if x != c {
        AcceptMaximal(rest, gate, c.m.End(), x);
        if x in r {
        } else if x.m.offset < c.m.End() {
          assert c in Accept(cs, gate, end) && Covers(c, x) && !Less(x, c);
        } else {
          var a :| a in r && Covers(a, x) && !Less(x, a);
          assert a in Accept(cs, gate, end);
        }
      }
    } else if x in rest {
      AcceptMaximal(rest, gate, end, x);
    }
  }

  /** The in-place filter: it writes behind the index it reads, and leaves the functional one. */
  method AcceptCandidates(a: array<Candidate>, gate: set<Class>) returns (kept: nat)
    modifies a
    ensures kept <= a.Length && a[..kept] == Accept(old(a[..]), gate, 0)
  {
    kept := 0;
    var end := 0;
    ghost var cs := a[..];
    for i := 0 to a.Length
      invariant kept <= i && a[i..] == cs[i..]
      invariant a[..kept] + Accept(cs[i..], gate, end) == Accept(cs, gate, 0)
    {
      var c := a[i];
      assert c == a[i..][0] && cs[i..][0] == c && cs[i..][1..] == cs[i + 1..] && a[i..][1..] == a[i + 1..];
      if c.m.cls !in gate {
      } else if |c.m.token| > c.m.len {
      } else if c.m.len == 0 {
      } else if c.m.offset < end {
      } else {
        ghost var before := a[..kept];
        a[kept] := c;
        assert a[..kept + 1] == before + [c];
        assert a[i + 1..] == cs[i + 1..];
        kept := kept + 1;
        end := c.m.End();
      }
    }
    assert cs[a.Length..] == [];
  }

  // ------------------------------------------------------------------------------------------
  // Application
  // ------------------------------------------------------------------------------------------

  /** The bytes from `from` on, with each span replaced. */
  function Apply(s: Text, ms: seq<Candidate>, from: nat): Text
    requires Spans(ms, from, |s|)
  {
    SpansFit(ms, from, |s|);
    if ms == [] then s[from..]
    else s[from..ms[0].m.offset] + ms[0].m.token + Apply(s, ms[1..], ms[0].m.End())
  }

  /** What each span said, at its place in the output; `base` bytes of output come before. */
  function Deltas(s: Text, ms: seq<Candidate>, from: nat, base: nat): seq<Delta>
    requires Spans(ms, from, |s|)
  {
    SpansFit(ms, from, |s|);
    if ms == [] then []
    else
      var c := ms[0].m;
      var at := base + (c.offset - from);
      [Delta(at, |c.token|, s[c.offset..c.End()], c.cls)] + Deltas(s, ms[1..], c.End(), at + |c.token|)
  }

  lemma {:induction false} SpansFit(ms: seq<Candidate>, from: nat, n: nat)
    requires Spans(ms, from, n)
    ensures from <= n && (ms != [] ==> ms[0].m.End() <= n)
  {
    if ms != [] { SpansFit(ms[1..], ms[0].m.End(), n); }
  }

  /** Replacing never grows. */
  lemma {:induction false} ApplyShrinks(s: Text, ms: seq<Candidate>, from: nat)
    requires Spans(ms, from, |s|)
    ensures from <= |s| && |Apply(s, ms, from)| <= |s| - from
  {
    SpansFit(ms, from, |s|);
    if ms != [] { ApplyShrinks(s, ms[1..], ms[0].m.End()); }
  }

  lemma {:induction false} SpansSuffix(ms: seq<Candidate>, from: nat, n: nat, k: nat)
    requires Spans(ms, from, n) && k <= |ms|
    ensures Spans(ms[k..], if k == 0 then from else ms[k - 1].m.End(), n)
  {
    if k > 0 {
      SpansSuffix(ms[1..], ms[0].m.End(), n, k - 1);
      assert ms[1..][k - 1..] == ms[k..];
    }
  }

  method ApplyMatches(s: Text, ms: seq<Candidate>, keep: bool) returns (out: Text, ds: seq<Delta>)
    requires Spans(ms, 0, |s|)
    ensures out == Apply(s, ms, 0)
    ensures ds == if keep then Deltas(s, ms, 0, 0) else []
  {
    hide Apply, Deltas;
    out, ds := [], [];
    var prev: nat := 0;
    for i := 0 to |ms|
      invariant Spans(ms[i..], prev, |s|)
      invariant out + Apply(s, ms[i..], prev) == Apply(s, ms, 0)
      invariant keep ==> ds + Deltas(s, ms[i..], prev, |out|) == Deltas(s, ms, 0, 0)
      invariant !keep ==> ds == []
    {
      var c := ms[i].m;
      assert ms[i..][0] == ms[i] && ms[i..][1..] == ms[i + 1..];
      ApplyStep(s, ms[i..], prev, out);
      DeltasStep(s, ms[i..], prev, |out|, ds);
      out := out + s[prev..c.offset];
      if keep { ds := ds + [Delta(|out|, |c.token|, s[c.offset..c.End()], c.cls)]; }
      out := out + c.token;
      prev := c.End();
    }
    ApplyEnd(s, prev);
    out := out + s[prev..];
  }

  lemma ApplyEnd(s: Text, from: nat)
    requires Spans([], from, |s|)
    ensures from <= |s| && Apply(s, [], from) == s[from..] && forall base: nat :: Deltas(s, [], from, base) == []
  {
  }

  lemma ApplyStep(s: Text, ms: seq<Candidate>, from: nat, out: Text)
    requires Spans(ms, from, |s|) && ms != []
    ensures from <= ms[0].m.offset <= ms[0].m.End() <= |s| && Spans(ms[1..], ms[0].m.End(), |s|)
    ensures out + Apply(s, ms, from) == out + s[from..ms[0].m.offset] + ms[0].m.token + Apply(s, ms[1..], ms[0].m.End())
  {
    SpansFit(ms, from, |s|);
  }

  lemma DeltasStep(s: Text, ms: seq<Candidate>, from: nat, base: nat, ds: seq<Delta>)
    requires Spans(ms, from, |s|) && ms != []
    ensures from <= ms[0].m.offset <= ms[0].m.End() <= |s| && Spans(ms[1..], ms[0].m.End(), |s|)
    ensures var c := ms[0].m;
            var at := base + (c.offset - from);
            ds + Deltas(s, ms, from, base) ==
            ds + [Delta(at, |c.token|, s[c.offset..c.End()], c.cls)] + Deltas(s, ms[1..], c.End(), at + |c.token|)
  {
    SpansFit(ms, from, |s|);
  }

  // ------------------------------------------------------------------------------------------
  // Restoration
  // ------------------------------------------------------------------------------------------

  /** Restores from delta `i` on, `prev` bytes of the canonical form being consumed. */
  function RestoreFrom(s: Text, ds: seq<Delta>, i: nat, prev: nat): Result<Text>
    requires i <= |ds| && prev <= |s|
    decreases |ds| - i
  {
    if i == |ds| then Ok(s[prev..])
    else
      var d := ds[i];
      if i > 0 && d.offset < ds[i - 1].offset then Err(DeltaOrder(i))
      else if d.offset < prev || d.len < 0 || d.offset < 0 || d.offset + d.len > |s| then Err(DeltaRange(i))
      else
        After(s[prev..d.offset] + d.original, RestoreFrom(s, ds, i + 1, d.offset + d.len))
  }

  function After(front: Text, r: Result<Text>): Result<Text> { if r.Ok? then Ok(front + r.value) else r }

  lemma AfterAfter(a: Text, b: Text, r: Result<Text>)
    ensures After(a, After(b, r)) == After(a + b, r)
  {
    if r.Ok? { assert a + (b + r.value) == a + b + r.value; }
  }

  lemma AfterNothing(r: Result<Text>)
    ensures After([], r) == r
  {
    if r.Ok? { assert [] + r.value == r.value; }
  }

  /** One well-placed delta. */
  lemma RestoreStep(s: Text, ds: seq<Delta>, i: nat, prev: nat)
    requires i < |ds| && 0 <= prev <= ds[i].offset && 0 <= ds[i].len && ds[i].offset + ds[i].len <= |s|
    requires i > 0 ==> ds[i - 1].offset <= ds[i].offset
    ensures RestoreFrom(s, ds, i, prev) ==
            After(s[prev..ds[i].offset] + ds[i].original, RestoreFrom(s, ds, i + 1, ds[i].offset + ds[i].len))
  {
  }

  /** Any list of deltas over any bytes is handled. */
  method Restore(s: Text, ds: seq<Delta>) returns (r: Result<Text>)
    ensures r == RestoreFrom(s, ds, 0, 0)
  {
    if |ds| == 0 {
      assert s[0..] == s;
      return Ok(s);
    }
    hide RestoreFrom;
    var out: Text := [];
    var prev: nat := 0;
    AfterNothing(RestoreFrom(s, ds, 0, 0));
    for i := 0 to |ds|
      invariant prev <= |s|
      invariant RestoreFrom(s, ds, 0, 0) == After(out, RestoreFrom(s, ds, i, prev))
    {
      var d := ds[i];
      if i > 0 && d.offset < ds[i - 1].offset { return Err(DeltaOrder(i)); }
      if d.offset < prev || d.len < 0 || d.offset < 0 || d.offset + d.len > |s| { return Err(DeltaRange(i)); }
      RestoreStep(s, ds, i, prev);
      AfterAfter(out, s[prev..d.offset] + d.original, RestoreFrom(s, ds, i + 1, d.offset + d.len));
      out := out + (s[prev..d.offset] + d.original);
      prev := d.offset + d.len;
    }
    return Ok(out + s[prev..]);
  }

  /** From delta `i` on, each starts at or after the end of the one before it and stays within the bytes. */
  predicate Orderly(ds: seq<Delta>, i: nat, n: nat) {
    && (forall j :: i <= j < |ds| ==> 0 <= ds[j].offset && 0 <= ds[j].len && ds[j].offset + ds[j].len <= n)
    && (forall j, k :: i <= j < k < |ds| ==> ds[j].offset + ds[j].len <= ds[k].offset)
  }

  /** Restore fails exactly on the lists that are not orderly. */
  lemma RestoreDecides(s: Text, ds: seq<Delta>)
    ensures RestoreFrom(s, ds, 0, 0).Ok? <==> Orderly(ds, 0, |s|)
  {
    if Orderly(ds, 0, |s|) { OrderlyRestores(s, ds, 0, 0); }
    if RestoreFrom(s, ds, 0, 0).Ok? { RestoredIsOrderly(s, ds, 0, 0); }
  }

  /** Where the delta before `i` ends. */
  function EndBefore(ds: seq<Delta>, i: nat): int
    requires i <= |ds|
  {
    if i == 0 then 0 else ds[i - 1].offset + ds[i - 1].len
  }

  /** Which delta is refused, and why: the first that breaks the order of the list; for starting before
      the one before it starts, whatever else is wrong with it, or else for starting before that one
      ends, or for leaving the bytes. */
  lemma RestoreFaults(s: Text, ds: seq<Delta>) returns (i: nat)
    requires !Orderly(ds, 0, |s|)
    ensures i < |ds| && Orderly(ds[..i], 0, |s|) && !Orderly(ds[..i + 1], 0, |s|)
    ensures var d := ds[i];
            && (RestoreFrom(s, ds, 0, 0) == Err(DeltaOrder(i)) <==> i > 0 && d.offset < ds[i - 1].offset)
            && (RestoreFrom(s, ds, 0, 0) == Err(DeltaRange(i)) <==>
                  && (i > 0 ==> ds[i - 1].offset <= d.offset)
                  && (d.offset < EndBefore(ds, i) || d.len < 0 || d.offset + d.len > |s|))
  {
    RestoreDecides(s, ds);
    i := FaultFrom(s, ds, 0, 0);
  }

  lemma {:induction false} FaultFrom(s: Text, ds: seq<Delta>, from: nat, prev: nat) returns (i: nat)
    requires from <= |ds| && prev <= |s| && !RestoreFrom(s, ds, from, prev).Ok? && Orderly(ds[..from], 0, |s|) && prev == EndBefore(ds, from)
    ensures from <= i < |ds| && Orderly(ds[..i], 0, |s|) && !Orderly(ds[..i + 1], 0, |s|)
    ensures RestoreFrom(s, ds, from, prev) ==
            if i > 0 && ds[i].offset < ds[i - 1].offset then Err(DeltaOrder(i)) else Err(DeltaRange(i))
    ensures ds[i].offset < EndBefore(ds, i) || ds[i].len < 0 || ds[i].offset + ds[i].len > |s|
    decreases |ds| - from
  {
    hide Orderly;
    var d := ds[from];
    OrderlyOn(ds, from, |s|);
    if d.offset < prev || d.len < 0 || d.offset + d.len > |s| {
      i := from;
    } else {
      i := FaultFrom(s, ds, from + 1, d.offset + d.len);
    }
  }

  /** One delta more is orderly exactly if it starts after the one before it and stays within the bytes. */
  lemma OrderlyOn(ds: seq<Delta>, i: nat, n: nat)
    requires i < |ds| && Orderly(ds[..i], 0, n)
    ensures Orderly(ds[..i + 1], 0, n) <==> EndBefore(ds, i) <= ds[i].offset && 0 <= ds[i].len && ds[i].offset + ds[i].len <= n
    ensures i > 0 ==> 0 <= ds[i - 1].offset && 0 <= ds[i - 1].len
  {
    var some, more := ds[..i], ds[..i + 1];
    if i > 0 { assert some[i - 1] == ds[i - 1] == more[i - 1]; }
    assert more[i] == ds[i];
    if EndBefore(ds, i) <= ds[i].offset && 0 <= ds[i].len && ds[i].offset + ds[i].len <= n {
      assert forall j | 0 <= j < i :: more[j] == some[j];
      forall j, k | 0 <= j < k < |more| ensures more[j].offset + more[j].len <= more[k].offset {
        if k == i && j < i - 1 { assert some[j].offset + some[j].len <= some[i - 1].offset; }
      }
    }
  }

  lemma {:induction false} OrderlyRestores(s: Text, ds: seq<Delta>, i: nat, prev: nat)
    requires i <= |ds| && prev <= |s| && Orderly(ds, 0, |s|) && (if i == 0 then prev == 0 else prev == ds[i - 1].offset + ds[i - 1].len)
    ensures RestoreFrom(s, ds, i, prev).Ok?
    decreases |ds| - i
  {
    if i < |ds| { OrderlyRestores(s, ds, i + 1, ds[i].offset + ds[i].len); }
  }

  lemma {:induction false} RestoredIsOrderly(s: Text, ds: seq<Delta>, i: nat, prev: nat)
    requires i <= |ds| && prev <= |s| && RestoreFrom(s, ds, i, prev).Ok?
    ensures Orderly(ds, i, |s|) && forall j :: i <= j < |ds| ==> prev <= ds[j].offset
    decreases |ds| - i
  {
    if i < |ds| { RestoredIsOrderly(s, ds, i + 1, ds[i].offset + ds[i].len); }
  }

  /** Restoring the deltas of `ms` from a canonical form that ends with theirs gives the input back. */
  lemma {:induction false} RoundTrip(s: Text, ms: seq<Candidate>, from: nat, front: Text, tail: Text, ds: seq<Delta>, i: nat)
    requires Spans(ms, from, |s|) && i <= |ds| && ds[i..] == Deltas(s, ms, from, |front|)
    requires i > 0 ==> ds[i - 1].offset <= |front|
    ensures from <= |s|
    ensures RestoreFrom(front + Apply(s, ms, from) + tail, ds, i, |front|) == Ok(s[from..] + tail)
    decreases |ms|
  {
    hide RestoreFrom;
    SpansFit(ms, from, |s|);
    var c := front + Apply(s, ms, from) + tail;
    if ms == [] {
      assert i == |ds|;
      assert c[|front|..] == s[from..] + tail;
      RestoreEnd(c, ds, |front|);
    } else {
      var m := ms[0].m;
      var gap := s[from..m.offset];
      var next := front + gap + m.token;
      assert ds[i] == ds[i..][0] == Delta(|front + gap|, |m.token|, s[m.offset..m.End()], m.cls);
      assert ds[i + 1..] == ds[i..][1..] == Deltas(s, ms[1..], m.End(), |next|);
      RoundTrip(s, ms[1..], m.End(), next, tail, ds, i + 1);
      Regroup(front, gap, m.token, Apply(s, ms[1..], m.End()), tail);
      RestoreStep(c, ds, i, |front|);
      assert s[from..] == gap + s[m.offset..m.End()] + s[m.End()..];
      assert gap + s[m.offset..m.End()] + (s[m.End()..] + tail) == s[from..] + tail;
    }
  }

  lemma RestoreEnd(s: Text, ds: seq<Delta>, prev: nat)
    requires prev <= |s|
    ensures RestoreFrom(s, ds, |ds|, prev) == Ok(s[prev..])
  {
  }

  lemma Regroup(front: Text, gap: Text, token: Text, rest: Text, tail: Text)
    ensures var c := front + (gap + token + rest) + tail;
            c == front + gap + token + rest + tail && c[|front|..|front + gap|] == gap
  {
  }

  // ------------------------------------------------------------------------------------------
  // Composition
  // ------------------------------------------------------------------------------------------

  function Head(s: Text): Text { if |s| <= MAX_INPUT_BYTES then s else s[..MAX_INPUT_BYTES] }

  function Tail(s: Text): Text { if |s| <= MAX_INPUT_BYTES then [] else s[MAX_INPUT_BYTES..] }

  /** The first eight megabytes are canonicalized, the rest is not looked at. */
  lemma HeadAndTail(s: Text)
    ensures Head(s) + Tail(s) == s && |Head(s)| <= 8388608 && (Tail(s) != [] ==> |Head(s)| == 8388608)
  {
  }

  predicate InRange(s: Text, cs: seq<Candidate>) { forall c | c in cs :: c.m.End() <= |Head(s)| }

  function Accepted(cs: seq<Candidate>, gate: set<Class>): seq<Candidate> { Accept(Sort(cs), gate, 0) }

  lemma AcceptedAreSpans(s: Text, cs: seq<Candidate>, gate: set<Class>)
    requires InRange(s, cs)
    ensures Spans(Accepted(cs, gate), 0, |Head(s)|)
  {
    SortSorts(cs);
    forall c | c in Sort(cs) ensures c.m.End() <= |Head(s)| {
      assert c in multiset(Sort(cs));
    }
    AcceptedSpans(Sort(cs), gate, 0, |Head(s)|);
  }

  function Canonical(s: Text, cs: seq<Candidate>, gate: set<Class>): Text
    requires InRange(s, cs)
  {
    AcceptedAreSpans(s, cs, gate);
    Apply(Head(s), Accepted(cs, gate), 0) + Tail(s)
  }

  function Record(s: Text, cs: seq<Candidate>, gate: set<Class>): seq<Delta>
    requires InRange(s, cs)
  {
    AcceptedAreSpans(s, cs, gate);
    Deltas(Head(s), Accepted(cs, gate), 0, 0)
  }

  method ComposeAll(s: Text, cands: array<Candidate>, gate: set<Class>, keep: bool)
    returns (canonical: Text, ds: seq<Delta>, accepted: seq<Candidate>)
    requires InRange(s, cands[..])
    modifies cands
    ensures canonical == Canonical(s, old(cands[..]), gate)
    ensures ds == if keep then Record(s, old(cands[..]), gate) else []
    ensures accepted == Accepted(old(cands[..]), gate)
  {
    ghost var cs := cands[..];
    AcceptedAreSpans(s, cs, gate);
    SortCandidates(cands);
    var kept := AcceptCandidates(cands, gate);
    accepted := cands[..kept];
    canonical, ds := ApplyMatches(Head(s), accepted, keep);
    canonical := canonical + Tail(s);
  }

  /** Stands for the library's stable sort. */
  method SortCandidates(a: array<Candidate>)
    modifies a
    ensures a[..] == Sort(old(a[..]))
  {
    var out: seq<Candidate> := [];
    for i := 0 to a.Length
      invariant a[..] == old(a[..]) && out == Sort(a[..i])
    {
      assert a[..i + 1][..i] == a[..i];
      out := Insert(out, a[i]);
    }
    assert a[..a.Length] == a[..];
    SortSorts(a[..]);
    assert |out| == |multiset(out)| == |multiset(a[..])|;
    forall k | 0 <= k < a.Length { a[k] := out[k]; }
    assert a[..] == out;
  }

  /** For any candidates within the scanned bytes, in any order and with any overlaps: the deltas give
      the input back byte for byte, and the output is no longer than the input. */
  lemma ComposeRestores(s: Text, cs: seq<Candidate>, gate: set<Class>)
    requires InRange(s, cs)
    ensures RestoreFrom(Canonical(s, cs, gate), Record(s, cs, gate), 0, 0) == Ok(s)
    ensures |Canonical(s, cs, gate)| <= |s|
  {
    AcceptedAreSpans(s, cs, gate);
    var ms, ds := Accepted(cs, gate), Record(s, cs, gate);
    assert ds[0..] == ds;
    RoundTrip(Head(s), ms, 0, [], Tail(s), ds, 0);
    assert [] + Apply(Head(s), ms, 0) + Tail(s) == Canonical(s, cs, gate);
    assert Head(s)[0..] + Tail(s) == s;
    ApplyShrinks(Head(s), ms, 0);
  }

  /** Every eligible candidate is applied, or starts inside an applied one that precedes it in the order;
      and nothing else is applied. */
  lemma AcceptedIsMaximal(cs: seq<Candidate>, gate: set<Class>, x: Candidate)
    requires x in cs
    ensures x in Accepted(cs, gate) ==> Eligible(x, gate)
    ensures Eligible(x, gate) && x !in Accepted(cs, gate) ==>
              exists a | a in Accepted(cs, gate) :: Covers(a, x) && !Less(x, a)
  {
    SortSorts(cs);
    assert x in multiset(cs) && x in multiset(Sort(cs));
    if Eligible(x, gate) { AcceptMaximal(Sort(cs), gate, 0, x); }
    else { OnlyEligible(Sort(cs), gate, 0, x); }
  }

  lemma {:induction false} OnlyEligible(cs: seq<Candidate>, gate: set<Class>, end: nat, x: Candidate)
    requires !Eligible(x, gate)
    ensures x !in Accept(cs, gate, end)
  {
    if cs != [] {
      OnlyEligible(cs[1..], gate, cs[0].m.End(), x);
      OnlyEligible(cs[1..], gate, end, x);
    }
  }

  // ------------------------------------------------------------------------------------------
  // Telling what is accepted
  // ------------------------------------------------------------------------------------------

  /** Every eligible candidate at or after `end` is among `es`, or starts inside one of them that
      precedes it in the order. */
  predicate Dominates(es: seq<Candidate>, cs: seq<Candidate>, gate: set<Class>, end: nat) {
    forall x | x in cs && Eligible(x, gate) && end <= x.m.offset && x !in es :: exists a | a in es :: Covers(a, x) && Less(a, x)
  }

  /** Later spans start at or after the end of the first. */
  lemma {:induction false} LaterSpans(es: seq<Candidate>, end: nat, n: nat, a: Candidate)
    requires Spans(es, end, n) && a in es
    ensures end <= a.m.offset && a.m.End() <= n
    ensures a == es[0] || es[0].m.End() <= a.m.offset
  {
    SpansFit(es, end, n);
    if a != es[0] { LaterSpans(es[1..], es[0].m.End(), n, a); }
  }

  /** Spans of the candidates that are in order, apart and dominate the rest are the ones accepted. */
  lemma {:induction false} AcceptIs(cs: seq<Candidate>, gate: set<Class>, end: nat, n: nat, es: seq<Candidate>)
    requires Sorted(cs) && Spans(es, end, n) && (forall a | a in es :: a in cs && Eligible(a, gate)) && Dominates(es, cs, gate, end)
    ensures Accept(cs, gate, end) == es
  {
    hide Sorted, Less, Covers, Dominates;
    assert forall k | 0 <= k < |es| :: es[k] in cs;
    if cs != [] {
      var c, rest := cs[0], cs[1..];
      RestSorted(cs, gate, end, es);
      if c in es {
        FirstIsLeast(cs, es, end, n);
        AcceptIsRest(cs, gate, end, n, es);
        AcceptIs(rest, gate, c.m.End(), n, es[1..]);
        LaterSpans(es, end, n, c);
      } else {
        FirstIsOut(cs, gate, end, es);
        assert forall a | a in es :: a in rest;
        AcceptIs(rest, gate, end, n, es);
      }
    }
  }

  lemma RestSorted(cs: seq<Candidate>, gate: set<Class>, end: nat, es: seq<Candidate>)
    requires Sorted(cs) && Dominates(es, cs, gate, end) && cs != []
    ensures Sorted(cs[1..]) && Dominates(es, cs[1..], gate, end)
  {
    hide Less, Covers, Eligible;
  }

  lemma FirstIsLeast(cs: seq<Candidate>, es: seq<Candidate>, end: nat, n: nat)
    requires Sorted(cs) && cs != [] && Spans(es, end, n) && (forall a | a in es :: a in cs && a.m.len > 0) && cs[0] in es
    ensures es[0] == cs[0]
  {
    LaterSpans(es, end, n, cs[0]);
    var i :| 0 <= i < |cs| && cs[i] == es[0];
    assert es[0] in es;
    assert i > 0 ==> !Less(cs[i], cs[0]);
  }

  lemma FirstIsOut(cs: seq<Candidate>, gate: set<Class>, end: nat, es: seq<Candidate>)
    requires Sorted(cs) && cs != [] && (forall a | a in es :: a in cs) && Dominates(es, cs, gate, end) && cs[0] !in es
    ensures !(Eligible(cs[0], gate) && end <= cs[0].m.offset)
  {
    assert forall a | a in es :: !Less(a, cs[0]);
  }

  lemma AcceptIsRest(cs: seq<Candidate>, gate: set<Class>, end: nat, n: nat, es: seq<Candidate>)
    requires Sorted(cs) && cs != [] && Spans(es, end, n) && Dominates(es, cs, gate, end) && es != [] && es[0] == cs[0]
    requires forall a | a in es :: a in cs && Eligible(a, gate)
    ensures Dominates(es[1..], cs[1..], gate, cs[0].m.End())
    ensures forall a | a in es[1..] :: a in cs[1..]
  {
    var c := cs[0];
    forall a | a in es[1..] ensures a in cs[1..] {
      LaterSpans(es[1..], c.m.End(), n, a);
      assert a in es && c in es && c.m.len > 0;
    }
    forall x | x in cs[1..] && Eligible(x, gate) && c.m.End() <= x.m.offset && x !in es[1..]
      ensures exists a | a in es[1..] :: Covers(a, x) && Less(a, x)
    {
      LaterSpans(es, end, n, c);
      assert x != c && x in cs && x !in es;
      var a :| a in es && Covers(a, x) && Less(a, x);
      assert a != c;
    }
  }
}
