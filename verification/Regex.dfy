/** Byte regular expressions under the leftmost-first, backtracking semantics of Go's regexp.

    The meaning of an expression at a position is the LIST of offsets it can end at, in the order a
    backtracking matcher tries them.  The match reported is the first entry; the rest is what the
    matcher falls back to when whatever follows rejects that entry. */
module Regex {

  type Byte = x: int | 0 <= x < 256

  type Text = seq<Byte>

  datatype Re =
    | Empty
    | Class(ok: set<int>)
    | Boundary
    | Cat(first: Re, second: Re)
    | Alt(left: Re, right: Re)
    | Star(body: Re)

  const DIGIT: set<int> := set c: int | 0x30 <= c <= 0x39

  /** `[0-9A-Za-z_]`, the class `\b` tests on each side of a position. */
  const WORD: set<int> :=
    (set c: int | 0x30 <= c <= 0x39) + (set c: int | 0x41 <= c <= 0x5A) +
    (set c: int | 0x61 <= c <= 0x7A) + {0x5F}

  function Ch(c: char): Re { Class({c as int}) }

  function Opt(r: Re): Re { Alt(r, Empty) }

  function Plus(r: Re): Re { Cat(r, Star(r)) }

  /** Greedy `r{0,n}`. */
  function UpTo(r: Re, n: nat): Re {
    if n == 0 then Empty else Alt(Cat(r, UpTo(r, n - 1)), Empty)
  }

  /** One byte from each set in turn, then `tail`. */
  function Chain(cs: seq<set<int>>, tail: Re): Re {
    if cs == [] then tail else Cat(Class(cs[0]), Chain(cs[1..], tail))
  }

  predicate WordAt(s: Text, i: int) { 0 <= i < |s| && s[i] in WORD }

  predicate AtBoundary(s: Text, i: int) { WordAt(s, i - 1) != WordAt(s, i) }

  predicate Within(es: seq<nat>, lo: int, hi: int) {
    forall k | 0 <= k < |es| :: lo <= es[k] <= hi
  }

  /** Every end `r` can reach from `i`, in backtracking order.  A repetition keeps going only while
      its body consumes something, and prefers one more round to stopping. */
  function Ends(r: Re, s: Text, i: nat): (es: seq<nat>)
    requires i <= |s|
    ensures Within(es, i, |s|)
    decreases r, |s| - i, 1, 0
  {
    match r
    case Empty => [i]
    case Class(ok) => if i < |s| && s[i] in ok then [i + 1] else []
    case Boundary => if AtBoundary(s, i) then [i] else []
    case Cat(a, b) => EndsAll(b, s, Ends(a, s, i))
    case Alt(a, b) => Ends(a, s, i) + Ends(b, s, i)
    case Star(a) => StarEnds(r, s, i, Ends(a, s, i)) + [i]
  }

  /** `r` started at each of `from`, in order. */
  function EndsAll(r: Re, s: Text, from: seq<nat>): (es: seq<nat>)
    requires Within(from, 0, |s|)
    ensures Within(es, 0, |s|)
    ensures forall lo: nat {:trigger Within(es, lo, |s|)} ::
              Within(from, lo, |s|) ==> Within(es, lo, |s|)
    decreases r, |s| + 1, 0, |from|
  {
    if from == [] then []
    else
      var rest := EndsAll(r, s, from[1..]);
      assert forall lo: nat | Within(from, lo, |s|) ::
          lo <= from[0] && Within(from[1..], lo, |s|) && Within(rest, lo, |s|);
      Ends(r, s, from[0]) + rest
  }

  function StarEnds(r: Re, s: Text, i: nat, from: seq<nat>): (es: seq<nat>)
    requires r.Star? && i <= |s|
    requires Within(from, i, |s|)
    ensures Within(es, i, |s|)
    decreases r, |s| - i, 0, |from|
  {
    if from == [] then []
    else if from[0] == i then StarEnds(r, s, i, from[1..])
    else Ends(r, s, from[0]) + StarEnds(r, s, i, from[1..])
  }

  /** The reported end of a priority list, or -1. */
  function First(es: seq<nat>): (e: int) { if es == [] then -1 else es[0] }

  /** `hi, hi - 1, .., lo`: what a greedy run of single bytes offers. */
  function Down(lo: nat, hi: int): (d: seq<nat>)
    ensures Within(d, lo, hi)
    decreases hi
  {
    if hi < lo then [] else [hi] + Down(lo, hi - 1)
  }

  /** How many bytes of `ok` run from `i`. */
  function Run(ok: set<int>, s: Text, i: nat): (n: nat)
    ensures i <= |s| ==> i + n <= |s|
    decreases |s| - i
  {
    if i < |s| && s[i] in ok then 1 + Run(ok, s, i + 1) else 0
  }

  lemma {:induction false} RunMaximal(ok: set<int>, s: Text, i: nat)
    ensures forall k | i <= k < i + Run(ok, s, i) :: k < |s| && s[k] in ok
    ensures i + Run(ok, s, i) < |s| ==> s[i + Run(ok, s, i)] !in ok
    decreases |s| - i
  {
    if i < |s| && s[i] in ok { RunMaximal(ok, s, i + 1); }
  }

  // ------------------------------------------------------------------------------------------
  // Algebra of the priority lists
  // ------------------------------------------------------------------------------------------

  lemma {:induction false} EndsAllConcat(r: Re, s: Text, xs: seq<nat>, ys: seq<nat>)
    requires Within(xs, 0, |s|) && Within(ys, 0, |s|)
    ensures EndsAll(r, s, xs + ys) == EndsAll(r, s, xs) + EndsAll(r, s, ys)
  {
    hide Ends, StarEnds;
    if xs == [] {
      assert xs + ys == ys;
    } else {
      assert (xs + ys)[1..] == xs[1..] + ys;
      EndsAllConcat(r, s, xs[1..], ys);
    }
  }

  lemma CatAlt(a: Re, b: Re, c: Re, s: Text, i: nat)
    requires i <= |s|
    ensures Ends(Cat(Alt(a, b), c), s, i) == Ends(Cat(a, c), s, i) + Ends(Cat(b, c), s, i)
  {
    EndsAllConcat(c, s, Ends(a, s, i), Ends(b, s, i));
  }

  lemma CatEnds(a: Re, b: Re, s: Text, i: nat)
    requires i <= |s|
    ensures Ends(Cat(a, b), s, i) == EndsAll(b, s, Ends(a, s, i))
  {
  }

  lemma AltEnds(a: Re, b: Re, s: Text, i: nat)
    requires i <= |s|
    ensures Ends(Alt(a, b), s, i) == Ends(a, s, i) + Ends(b, s, i)
  {
  }

  function When(c: bool, e: nat): seq<nat> { if c then [e] else [] }

  lemma ClassEnds(ok: set<int>, s: Text, i: nat)
    requires i <= |s|
    ensures Ends(Class(ok), s, i) == When(i < |s| && s[i] in ok, i + 1)
  {
  }

  lemma EmptyEnds(s: Text, i: nat)
    requires i <= |s|
    ensures Ends(Empty, s, i) == [i]
  {
  }

  lemma EndsAllNone(r: Re, s: Text)
    ensures EndsAll(r, s, []) == []
  {
  }

  lemma CatEmpty(c: Re, s: Text, i: nat)
    requires i <= |s|
    ensures Ends(Cat(Empty, c), s, i) == Ends(c, s, i)
  {
    assert EndsAll(c, s, [i]) == Ends(c, s, i) + EndsAll(c, s, []);
  }

  lemma CatOpt(a: Re, c: Re, s: Text, i: nat)
    requires i <= |s|
    ensures Ends(Cat(Opt(a), c), s, i) == Ends(Cat(a, c), s, i) + Ends(c, s, i)
  {
    hide Ends, EndsAll, StarEnds;
    CatAlt(a, Empty, c, s, i);
    CatEmpty(c, s, i);
  }

  lemma {:induction false} EndsAllCat(b: Re, c: Re, s: Text, from: seq<nat>)
    requires Within(from, 0, |s|)
    ensures EndsAll(Cat(b, c), s, from) == EndsAll(c, s, EndsAll(b, s, from))
  {
    hide Ends, StarEnds;
    if from != [] {
      CatEnds(b, c, s, from[0]);
      EndsAllCat(b, c, s, from[1..]);
      EndsAllConcat(c, s, Ends(b, s, from[0]), EndsAll(b, s, from[1..]));
    }
  }

  lemma CatAssoc(a: Re, b: Re, c: Re, s: Text, i: nat)
    requires i <= |s|
    ensures Ends(Cat(Cat(a, b), c), s, i) == Ends(Cat(a, Cat(b, c)), s, i)
  {
    EndsAllCat(b, c, s, Ends(a, s, i));
  }

  lemma CatClass(ok: set<int>, c: Re, s: Text, i: nat)
    requires i <= |s|
    ensures Ends(Cat(Class(ok), c), s, i)
         == if i < |s| && s[i] in ok then Ends(c, s, i + 1) else []
  {
    if i < |s| && s[i] in ok {
      assert EndsAll(c, s, [i + 1]) == Ends(c, s, i + 1) + EndsAll(c, s, []);
    }
  }

  predicate Fits(cs: seq<set<int>>, s: Text, i: nat) {
    i + |cs| <= |s| && forall k | 0 <= k < |cs| :: s[i + k] in cs[k]
  }

  lemma FitsCons(cs: seq<set<int>>, s: Text, i: nat)
    requires cs != []
    ensures Fits(cs, s, i) <==> i < |s| && s[i] in cs[0] && Fits(cs[1..], s, i + 1)
  {
    if Fits(cs, s, i) {
      assert s[i + 0] in cs[0];
      forall k | 0 <= k < |cs| - 1 ensures s[i + 1 + k] in cs[1..][k] {
        assert s[i + (k + 1)] in cs[k + 1];
      }
    }
    if i < |s| && s[i] in cs[0] && Fits(cs[1..], s, i + 1) {
      forall k | 0 <= k < |cs| ensures s[i + k] in cs[k] {
        if k > 0 { assert s[i + 1 + (k - 1)] in cs[1..][k - 1]; }
      }
    }
  }

  lemma {:induction false} ChainEnds(cs: seq<set<int>>, tail: Re, s: Text, i: nat)
    requires i <= |s|
    ensures Ends(Chain(cs, tail), s, i) == if Fits(cs, s, i) then Ends(tail, s, i + |cs|) else []
  {
    hide Ends, EndsAll, StarEnds;
    if cs != [] {
      FitsCons(cs, s, i);
      CatClass(cs[0], Chain(cs[1..], tail), s, i);
      if i < |s| { ChainEnds(cs[1..], tail, s, i + 1); }
    }
  }

  lemma {:induction false} DownSnoc(lo: nat, hi: int)
    requires lo <= hi
    ensures Down(lo, hi) == Down(lo + 1, hi) + [lo]
    decreases hi
  {
    if lo < hi { DownSnoc(lo, hi - 1); }
  }

  lemma StarStep(ok: set<int>, s: Text, i: nat)
    requires i < |s| && s[i] in ok
    ensures Ends(Star(Class(ok)), s, i) == Ends(Star(Class(ok)), s, i + 1) + [i]
  {
    var r := Star(Class(ok));
    assert StarEnds(r, s, i, [i + 1]) == Ends(r, s, i + 1) + StarEnds(r, s, i, []);
  }

  lemma StarStop(ok: set<int>, s: Text, i: nat)
    requires i <= |s| && (i < |s| ==> s[i] !in ok)
    ensures Ends(Star(Class(ok)), s, i) == [i]
  {
  }

  lemma {:induction false} StarClassEnds(ok: set<int>, s: Text, i: nat)
    requires i <= |s|
    ensures Ends(Star(Class(ok)), s, i) == Down(i, i + Run(ok, s, i))
    decreases |s| - i
  {
    hide Ends, EndsAll, StarEnds;
    if i < |s| && s[i] in ok {
      StarClassEnds(ok, s, i + 1);
      StarStep(ok, s, i);
      DownSnoc(i, i + Run(ok, s, i));
    } else {
      StarStop(ok, s, i);
    }
  }

  lemma PlusClassEnds(ok: set<int>, s: Text, i: nat)
    requires i <= |s|
    ensures Ends(Plus(Class(ok)), s, i) == Down(i + 1, i + Run(ok, s, i))
  {
    hide Ends, EndsAll, StarEnds;
    CatClass(ok, Star(Class(ok)), s, i);
    if i < |s| && s[i] in ok { StarClassEnds(ok, s, i + 1); }
  }

  function Min(a: int, b: int): int { if a <= b then a else b }

  lemma {:induction false} UpToEnds(ok: set<int>, n: nat, s: Text, i: nat)
    requires i <= |s|
    ensures Ends(UpTo(Class(ok), n), s, i) == Down(i, i + Min(n, Run(ok, s, i)))
  {
    hide Ends, EndsAll, StarEnds;
    EmptyEnds(s, i);
    if n > 0 {
      AltEnds(Cat(Class(ok), UpTo(Class(ok), n - 1)), Empty, s, i);
      CatClass(ok, UpTo(Class(ok), n - 1), s, i);
      if i < |s| && s[i] in ok {
        var top := i + Min(n, Run(ok, s, i));
        UpToEnds(ok, n - 1, s, i + 1);
        DownSnoc(i, top);
      }
    }
  }

  predicate NoMatch(r: Re, s: Text, i: nat)
    requires i <= |s|
  {
    Ends(r, s, i) == []
  }

  lemma EndsAllDown(r: Re, s: Text, lo: nat, hi: nat)
    requires lo <= hi <= |s|
    ensures EndsAll(r, s, Down(lo, hi)) == Ends(r, s, hi) + EndsAll(r, s, Down(lo, hi - 1))
  {
    assert Down(lo, hi)[1..] == Down(lo, hi - 1);
  }

  /** A greedy run followed by something that cannot start inside the run commits to the whole
      run. */
  lemma {:induction false} CommitLongest(c: Re, s: Text, lo: nat, hi: int)
    requires hi <= |s|
    requires forall k | lo <= k < hi :: NoMatch(c, s, k)
    ensures EndsAll(c, s, Down(lo, hi)) == if hi < lo then [] else Ends(c, s, hi)
    decreases hi
  {
    hide Ends, StarEnds;
    if lo <= hi {
      EndsAllDown(c, s, lo, hi);
      CommitLongest(c, s, lo, hi - 1);
      if lo < hi { assert NoMatch(c, s, hi - 1); }
    }
  }

  lemma PlusThen(ok: set<int>, c: Re, s: Text, i: nat)
    requires i <= |s|
    requires forall k | i < k < i + Run(ok, s, i) :: NoMatch(c, s, k)
    ensures Ends(Cat(Plus(Class(ok)), c), s, i)
         == if Run(ok, s, i) == 0 then [] else Ends(c, s, i + Run(ok, s, i))
  {
    hide Ends, EndsAll, StarEnds;
    var n := Run(ok, s, i);
    PlusClassEnds(ok, s, i);
    CatEnds(Plus(Class(ok)), c, s, i);
    CommitLongest(c, s, i + 1, i + n);
  }
}
