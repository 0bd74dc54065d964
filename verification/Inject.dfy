/** Stripping the tool's own injected spans out of a text, without letting the cut assemble a new tag. */
module Inject {

  datatype Spelling = Current | Legacy

  function Open(sp: Spelling): string {
    match sp
    case Current => "<!-- qompack:session-record seq="
    case Legacy => "<!-- qompack:injected seq="
  }

  function Close(sp: Spelling): string {
    match sp
    case Current => "<!-- /qompack:session-record -->"
    case Legacy => "<!-- /qompack:injected -->"
  }

  const TAG_SUFFIX := " -->"

  /** A close tag names the element its spelling opens. */
  lemma ClosesWhatItOpens(sp: Spelling, k: nat)
    requires 5 <= k < |Open(sp)| - 5
    ensures |Close(sp)| == |Open(sp)| && Close(sp)[k + 1] == Open(sp)[k]
  {
  }

  // ------------------------------------------------------------------------------------------
  // Searching
  // ------------------------------------------------------------------------------------------

  predicate At(p: string, s: string, i: nat) { i + |p| <= |s| && s[i..i + |p|] == p }

  predicate Contains(s: string, p: string) { exists i | 0 <= i <= |s| :: At(p, s, i) }

  /** The first occurrence at or after `i`, or -1. */
  function Index(s: string, p: string, i: nat): (r: int)
    requires i <= |s|
    ensures -1 <= r && (r >= 0 ==> i <= r && At(p, s, r))
    ensures forall k | i <= k && (r < 0 || k < r) :: !At(p, s, k)
    decreases |s| - i
  {
    if At(p, s, i) then i else if i < |s| then Index(s, p, i + 1) else -1
  }

  predicate Tagged(s: string) { Contains(s, Open(Current)) || Contains(s, Open(Legacy)) }

  /** A bracket opens each tag and occurs nowhere else in it. */
  lemma Bracketed(sp: Spelling)
    ensures |Open(sp)| > 0 && Open(sp)[0] == '<' && forall k | 0 < k < |Open(sp)| :: Open(sp)[k] != '<'
    ensures |Close(sp)| > 0 && Close(sp)[0] == '<' && forall k | 0 < k < |Close(sp)| :: Close(sp)[k] != '<'
  {
  }

  /** The spellings differ before either ends, so they never open at the same place. */
  lemma NeverBoth(s: string, i: nat)
    ensures !(At(Open(Current), s, i) && At(Open(Legacy), s, i))
  {
    assert At(Open(Current), s, i) ==> s[i..i + |Open(Current)|][13] == s[i + 13] == 's';
    assert At(Open(Legacy), s, i) ==> s[i..i + |Open(Legacy)|][13] == s[i + 13] == 'i';
  }

  datatype Hit = NoHit | Hit(at: nat, sp: Spelling)

  /** The earliest open prefix of either spelling. */
  function FirstOpen(s: string): (h: Hit)
    ensures h.NoHit? ==> forall k: nat, sp :: !At(Open(sp), s, k)
    ensures h.Hit? ==> At(Open(h.sp), s, h.at) && h.at <= |s| && forall k: nat, sp | k < h.at :: !At(Open(sp), s, k)
  {
    var c, l := Index(s, Open(Current), 0), Index(s, Open(Legacy), 0);
    assert forall k: nat | c < 0 || k < c :: !At(Open(Current), s, k);
    assert forall k: nat | l < 0 || k < l :: !At(Open(Legacy), s, k);
    if c >= 0 && (l < 0 || c <= l) then Hit(c, Current) else if l >= 0 then Hit(l, Legacy) else NoHit
  }

  lemma TaggedIsHit(s: string)
    ensures Tagged(s) <==> FirstOpen(s).Hit?
  {
    hide FirstOpen, Open;
    var h := FirstOpen(s);
    if h.Hit? { assert h.sp == Current || h.sp == Legacy; }
  }

  method NextOpen(s: string) returns (at: int, sp: Spelling)
    ensures if at < 0 then FirstOpen(s) == NoHit else FirstOpen(s) == Hit(at, sp)
  {
    hide Open, Index;
    at, sp := -1, Current;
    var all := [Current, Legacy];
    for n := 0 to 2
      invariant n == 0 ==> at == -1 && sp == Current
      invariant n == 1 ==> at == Index(s, Open(Current), 0) && sp == Current
      invariant n == 2 ==> if at < 0 then FirstOpen(s) == NoHit else FirstOpen(s) == Hit(at, sp)
    {
      var i := Index(s, Open(all[n]), 0);
      if i >= 0 && (at < 0 || i < at) { at, sp := i, all[n]; }
    }
  }

  // ------------------------------------------------------------------------------------------
  // One pass
  // ------------------------------------------------------------------------------------------

  /** What a pass keeps, chunk by chunk, and how many open tags it consumed. */
  datatype Cut = Cut(chunks: seq<string>, opens: nat)

  /** Where the span that opens at `at` ends: after its own spelling's first close tag; -1 if it has
      none, or if the open tag itself is not ended. */
  function SpanEnd(s: string, at: nat, sp: Spelling): (e: int)
    requires at <= |s|
    ensures e >= 0 ==> at < e <= |s|
  {
    var tagEnd := Index(s, TAG_SUFFIX, at);
    if tagEnd < 0 then -1
    else
      var closeAt := Index(s, Close(sp), tagEnd + |TAG_SUFFIX|);
      if closeAt < 0 then -1 else closeAt + |Close(sp)|
  }

  function Pass(s: string): Cut
    decreases |s|
  {
    var h := FirstOpen(s);
    if h.NoHit? then Cut([s], 0)
    else
      var e := SpanEnd(s, h.at, h.sp);
      if e < 0 then Cut([s[..h.at]], 1)
      else
        var rest := Pass(s[e..]);
        Cut([s[..h.at]] + rest.chunks, rest.opens + 1)
  }

  function Concat(cs: seq<string>): string { if cs == [] then "" else cs[0] + Concat(cs[1..]) }

  /** What one pass leaves. */
  function Once(s: string): string { Concat(Pass(s).chunks) }

  lemma ConcatFirst(c: string, cs: seq<string>)
    ensures Concat([c] + cs) == c + Concat(cs) && Concat([c]) == c
  {
    assert ([c] + cs)[1..] == cs;
    assert [c][1..] == [] && c + "" == c;
  }

  method StripOnce(s: string) returns (out: string, n: nat)
    ensures out == Once(s) && n == Pass(s).opens
  {
    hide FirstOpen, Open, Close, Index, At, Pass, Once;
    out, n := "", 0;
    var rest := s;
    while true
      invariant out + Once(rest) == Once(s) && n + Pass(rest).opens == Pass(s).opens
      decreases |rest|
    {
      PassStep(rest);
      var open, sp := NextOpen(rest);
      if open < 0 { return out + rest, n; }
      out := out + rest[..open];
      n := n + 1;
      var tagEnd := Index(rest, TAG_SUFFIX, open);
      if tagEnd < 0 { return; }
      FitsAt(TAG_SUFFIX, rest, tagEnd);
      var closeAt := Index(rest, Close(sp), tagEnd + |TAG_SUFFIX|);
      if closeAt < 0 { return; }
      rest := rest[closeAt + |Close(sp)|..];
    }
  }

  lemma FitsAt(p: string, s: string, i: nat)
    requires At(p, s, i)
    ensures i + |p| <= |s|
  {
  }

  /** How a pass begins. */
  lemma PassStep(s: string)
    ensures var h := FirstOpen(s);
            if h.NoHit? then Once(s) == s && Pass(s).opens == 0
            else
              var e := SpanEnd(s, h.at, h.sp);
              if e < 0 then Once(s) == s[..h.at] && Pass(s).opens == 1
              else Once(s) == s[..h.at] + Once(s[e..]) && Pass(s).opens == Pass(s[e..]).opens + 1
  {
    hide FirstOpen, SpanEnd, Concat;
    var h := FirstOpen(s);
    ConcatFirst(s, []);
    if h.Hit? {
      ConcatFirst(s[..h.at], []);
      var e := SpanEnd(s, h.at, h.sp);
      if e >= 0 { ConcatFirst(s[..h.at], Pass(s[e..]).chunks); }
    }
  }

  // ------------------------------------------------------------------------------------------
  // What a pass leaves
  // ------------------------------------------------------------------------------------------

  /** No chunk holds an open prefix. */
  lemma {:induction false} ChunksAreUntagged(s: string)
    ensures forall c | c in Pass(s).chunks :: !Tagged(c)
    decreases |s|
  {
    hide FirstOpen, SpanEnd, Tagged;
    var h := FirstOpen(s);
    if h.NoHit? { TaggedIsHit(s); }
    else {
      BeforeIsUntagged(s, h.at);
      var e := SpanEnd(s, h.at, h.sp);
      if e >= 0 { ChunksAreUntagged(s[e..]); }
    }
  }

  lemma BeforeIsUntagged(s: string, at: nat)
    requires at <= |s| && forall k: nat, sp | k < at :: !At(Open(sp), s, k)
    ensures !Tagged(s[..at])
  {
    hide Open;
    forall sp, k: nat | k <= at ensures !At(Open(sp), s[..at], k) {
      Bracketed(sp);
      if k + |Open(sp)| <= at {
        assert s[..at][k..k + |Open(sp)|] == s[k..k + |Open(sp)|];
        assert At(Open(sp), s[..at], k) ==> At(Open(sp), s, k);
      }
    }
  }

  /** Every occurrence in the output of what no chunk holds straddles a join. */
  lemma {:induction false} Straddles(cs: seq<string>, p: string, i: nat) returns (k: nat)
    requires At(p, Concat(cs), i) && |p| > 0 && forall c | c in cs :: !Contains(c, p)
    ensures 0 < k < |cs| && i < |Concat(cs[..k])| < i + |p|
  {
    var c, rest := cs[0], cs[1..];
    var all := Concat(cs);
    assert all == c + Concat(rest);
    assert i + |p| <= |c| ==> c[i..i + |p|] == all[i..i + |p|] && At(p, c, i);
    assert c in cs && (At(p, c, i) ==> Contains(c, p));
    assert i + |p| > |c|;
    if |c| <= i {
      assert all[i..i + |p|] == Concat(rest)[i - |c|..i - |c| + |p|];
      var j := Straddles(rest, p, i - |c|);
      k := j + 1;
      assert cs[..k] == [c] + rest[..j];
      ConcatFirst(c, rest[..j]);
    } else {
      k := 1;
      assert cs[..1] == [c];
      ConcatFirst(c, []);
      assert rest != [];
    }
  }

  /** The output is the input with bytes left out. */
  predicate IsSubsequence(a: string, b: string)
    decreases |b|
  {
    if a == "" then true
    else b != "" && ((a[0] == b[0] && IsSubsequence(a[1..], b[1..])) || IsSubsequence(a, b[1..]))
  }

  lemma {:induction false} SubsequenceAppend(a: string, b: string, c: string, d: string)
    requires IsSubsequence(a, b) && IsSubsequence(c, d)
    ensures IsSubsequence(a + c, b + d)
    decreases |b|
  {
    if b == "" {
      assert a + c == c && b + d == d;
    } else {
      assert (b + d)[1..] == b[1..] + d;
      if a != "" && a[0] == b[0] && IsSubsequence(a[1..], b[1..]) {
        SubsequenceAppend(a[1..], b[1..], c, d);
        assert (a + c)[1..] == a[1..] + c;
      } else {
        SubsequenceAppend(a, b[1..], c, d);
        SubsequenceLater(a + c, b + d);
      }
    }
  }

  lemma SubsequenceLater(a: string, b: string)
    requires b != "" && IsSubsequence(a, b[1..])
    ensures IsSubsequence(a, b)
  {
  }

  lemma {:induction false} SubsequenceSelf(a: string)
    ensures IsSubsequence(a, a)
  {
    if a != "" { SubsequenceSelf(a[1..]); }
  }

  /** Cutting a stretch out. */
  lemma SubsequenceCut(a: string, x: string, b: string, c: string)
    requires IsSubsequence(c, b)
    ensures IsSubsequence(a + c, a + x + b)
  {
    hide IsSubsequence;
    SubsequenceSelf(a);
    SubsequenceNone(x);
    SubsequenceAppend(a, a, "", x);
    assert a + "" == a;
    SubsequenceAppend(a, a + x, c, b);
  }

  lemma SubsequenceNone(x: string)
    ensures IsSubsequence("", x)
  {
  }

  lemma {:induction false} PassIsSubsequence(s: string)
    ensures IsSubsequence(Once(s), s)
    decreases |s|
  {
    hide FirstOpen, SpanEnd, Once, Pass, IsSubsequence, At, Open;
    var h := FirstOpen(s);
    PassStep(s);
    if h.NoHit? {
      SubsequenceSelf(s);
    } else {
      var e := SpanEnd(s, h.at, h.sp);
      if e < 0 {
        SubsequenceNone(s[|s|..]);
        CutOut(s, h.at, |s|, "");
        assert s[..h.at] + "" == s[..h.at];
      } else {
        PassIsSubsequence(s[e..]);
        CutOut(s, h.at, e, Once(s[e..]));
      }
    }
  }

  lemma CutOut(s: string, i: nat, j: nat, c: string)
    requires i <= j <= |s| && IsSubsequence(c, s[j..])
    ensures IsSubsequence(s[..i] + c, s)
  {
    hide IsSubsequence;
    SubsequenceCut(s[..i], s[i..j], s[j..], c);
    assert s == s[..i] + s[i..j] + s[j..];
  }

  // ------------------------------------------------------------------------------------------
  // Splices
  // ------------------------------------------------------------------------------------------

  /** Removes open prefixes, and only them, until there is none. */
  function Neutral(s: string): string
    decreases |s|
  {
    var h := FirstOpen(s);
    if h.NoHit? then s
    else
      Bracketed(h.sp);
      Neutral(s[..h.at] + s[h.at + |Open(h.sp)|..])
  }

  /** The spellings of the prefixes that go, in the order they are found. */
  function Spliced(s: string): seq<Spelling>
    decreases |s|
  {
    var h := FirstOpen(s);
    if h.NoHit? then []
    else
      Bracketed(h.sp);
      [h.sp] + Spliced(s[..h.at] + s[h.at + |Open(h.sp)|..])
  }

  function PrefixBytes(sps: seq<Spelling>): nat { if sps == [] then 0 else |Open(sps[0])| + PrefixBytes(sps[1..]) }

  /** What goes is one prefix per count, and not a byte more. */
  lemma {:induction false} SplicesAreBytes(s: string)
    ensures |s| == |Neutral(s)| + PrefixBytes(Spliced(s))
    decreases |s|
  {
    hide FirstOpen, Open;
    var h := FirstOpen(s);
    if h.Hit? {
      Bracketed(h.sp);
      SplicesAreBytes(s[..h.at] + s[h.at + |Open(h.sp)|..]);
    }
  }

  /** `n` prefixes go, each and every one of them an open prefix, and nothing else. */
  method NeutralizeSplices(s: string) returns (out: string, n: nat)
    ensures out == Neutral(s) && n == |Spliced(s)| && |s| == |out| + PrefixBytes(Spliced(s))
  {
    hide FirstOpen, Open, PrefixBytes;
    out, n := s, 0;
    SplicesAreBytes(s);
    while true
      invariant Neutral(out) == Neutral(s) && n + |Spliced(out)| == |Spliced(s)|
      decreases |out|
    {
      var open, sp := NextOpen(out);
      if open < 0 { return; }
      Bracketed(sp);
      out := out[..open] + out[open + |Open(sp)|..];
      n := n + 1;
    }
  }

  lemma {:induction false} NeutralIsUntagged(s: string)
    ensures !Tagged(Neutral(s)) && IsSubsequence(Neutral(s), s)
    decreases |s|
  {
    hide FirstOpen, Open, Tagged, IsSubsequence;
    var h := FirstOpen(s);
    if h.NoHit? {
      TaggedIsHit(s);
      SubsequenceSelf(s);
    } else {
      Bracketed(h.sp);
      var a, x, b := s[..h.at], Open(h.sp), s[h.at + |Open(h.sp)|..];
      NeutralIsUntagged(a + b);
      SubsequenceSelf(b);
      SubsequenceCut(a, x, b, b);
      assert s == a + x + b;
      SubsequenceTrans(Neutral(a + b), a + b, s);
    }
  }

  lemma {:induction false} SubsequenceTrans(a: string, b: string, c: string)
    requires IsSubsequence(a, b) && IsSubsequence(b, c)
    ensures IsSubsequence(a, c)
    decreases |c|
  {
    if a != "" {
      if b[0] == c[0] && IsSubsequence(b[1..], c[1..]) {
        if a[0] == b[0] && IsSubsequence(a[1..], b[1..]) { SubsequenceTrans(a[1..], b[1..], c[1..]); }
        else { SubsequenceTrans(a, b[1..], c[1..]); }
      } else {
        SubsequenceTrans(a, b, c[1..]);
      }
    }
  }

  // ------------------------------------------------------------------------------------------
  // Stripping
  // ------------------------------------------------------------------------------------------

  function Strip(s: string): string { if Pass(s).opens == 0 then Once(s) else Neutral(Once(s)) }

  method StripInjectionsCount(s: string) returns (out: string, n: nat)
    ensures out == Strip(s) && (n == 0 <==> !Tagged(s))
    ensures n == Pass(s).opens + (if Tagged(s) then |Spliced(Once(s))| else 0)
  {
    hide FirstOpen, Tagged, Pass, Neutral, Spliced;
    out, n := StripOnce(s);
    PassStep(s);
    TaggedIsHit(s);
    if n == 0 { return; }
    var m;
    out, m := NeutralizeSplices(out);
    n := n + m;
  }

  /** A text without open prefixes is left as it is. */
  lemma UntaggedIsKept(s: string)
    requires !Tagged(s)
    ensures Strip(s) == s && Neutral(s) == s
  {
    hide FirstOpen, Tagged;
    TaggedIsHit(s);
    PassStep(s);
  }

  /** For every text: no open prefix of either spelling is left, nothing is added or moved, and a
      second stripping changes nothing. */
  lemma StripSettles(s: string)
    ensures !Tagged(Strip(s)) && IsSubsequence(Strip(s), s) && Strip(Strip(s)) == Strip(s)
  {
    hide FirstOpen, Tagged, IsSubsequence, Once, Pass, Neutral;
    PassIsSubsequence(s);
    NeutralIsUntagged(Once(s));
    SubsequenceTrans(Neutral(Once(s)), Once(s), s);
    TaggedIsHit(s);
    PassStep(s);
    UntaggedIsKept(Strip(s));
  }

  /** Every open prefix in what one pass leaves straddles a join the pass made: it is an artifact, not
      something that was written. */
  lemma TagsAreArtifacts(s: string, sp: Spelling, i: nat) returns (k: nat)
    requires At(Open(sp), Once(s), i)
    ensures var cs := Pass(s).chunks; 0 < k < |cs| && i < |Concat(cs[..k])| < i + |Open(sp)|
  {
    hide Pass, Open, At, Concat, Contains;
    ChunksAreUntagged(s);
    Bracketed(sp);
    assert sp == Current || sp == Legacy;
    k := Straddles(Pass(s).chunks, Open(sp), i);
  }

  // ------------------------------------------------------------------------------------------
  // Wrapping
  // ------------------------------------------------------------------------------------------

  function Digits(n: nat): (d: string)
    ensures |d| > 0 && forall k | 0 <= k < |d| :: '0' <= d[k] <= '9'
  {
    var last := ['0' + (n % 10) as char];
    if n < 10 then last else Digits(n / 10) + last
  }

  function OpenTag(sp: Spelling, n: nat, version: nat): string { Open(sp) + Digits(n) + " ver=" + Digits(version) + TAG_SUFFIX }

  function Wrap(sp: Spelling, n: nat, version: nat, body: string): string { OpenTag(sp, n, version) + body + Close(sp) }

  lemma IndexIs(s: string, p: string, i: nat, r: nat)
    requires i <= r && r + |p| <= |s| && s[r..r + |p|] == p && forall k | i <= k < r :: !At(p, s, k)
    ensures Index(s, p, i) == r
  {
    hide Index;
    assert At(p, s, r);
  }

  /** What starts with a bracket and has no other cannot begin in `x` and reach a bracket right after it. */
  lemma NoOverlap(p: string, x: string, y: string, k: nat)
    requires |p| > 0 && p[0] == '<' && (forall j | 0 < j < |p| :: p[j] != '<') && y != "" && y[0] == '<'
    requires k < |x| && !Contains(x, p)
    ensures !At(p, x + y, k)
  {
    var s := x + y;
    if k + |p| <= |x| {
      assert s[k..k + |p|] == x[k..k + |p|];
      assert At(p, s, k) ==> At(p, x, k);
    } else if k + |p| <= |s| {
      assert s[k..k + |p|][|x| - k] == s[|x|];
    }
  }

  /** No space is followed by a dash. */
  predicate NoArrow(x: string) { forall k | 0 <= k < |x| - 1 :: x[k] == ' ' ==> x[k + 1] != '-' }

  lemma OpenHasNoArrow(sp: Spelling)
    ensures NoArrow(Open(sp)) && NoArrow(" ver=")
  {
    match sp
    case Current => OneSpace("<!-- qompack:session-record seq=", 27);
    case Legacy => OneSpace("<!-- qompack:injected seq=", 21);
  }

  /** After the comment's own, the only space of an open prefix comes before its "seq=". */
  lemma OneSpace(x: string, at: nat)
    requires 5 < at < |x| - 1 && x[at + 1] == 's' && x[5] == 'q'
    requires forall k | 0 <= k < |x| && k != 4 && k != at :: x[k] != ' '
    ensures NoArrow(x)
  {
  }

  lemma NoArrowJoin(x: string, y: string)
    requires NoArrow(x) && NoArrow(y) && y != "" && (x != "" ==> x[|x| - 1] != ' ' || y[0] != '-')
    ensures NoArrow(x + y)
  {
    var s := x + y;
    forall k | 0 <= k < |s| - 1 ensures s[k] == ' ' ==> s[k + 1] != '-' {
      if k >= |x| {
        var j := k - |x|;
        assert s[k] == y[j] && s[k + 1] == y[j + 1];
      }
    }
  }

  function TagHead(sp: Spelling, n: nat, version: nat): string { Open(sp) + Digits(n) + (" ver=" + Digits(version)) }

  lemma HeadHasNoArrow(sp: Spelling, n: nat, version: nat)
    ensures var x := TagHead(sp, n, version); NoArrow(x) && |x| > 0 && x[|x| - 1] != ' ' && x[0] == '<'
  {
    hide Open, Digits;
    Bracketed(sp);
    OpenHasNoArrow(sp);
    NoArrowJoin(Open(sp), Digits(n));
    NoArrowJoin(" ver=", Digits(version));
    NoArrowJoin(Open(sp) + Digits(n), " ver=" + Digits(version));
  }

  /** The open tag ends where its head does. */
  lemma TagEnds(a: string, head: string, rest: string)
    requires NoArrow(head) && |head| > 0 && head[|head| - 1] != ' '
    ensures Index(a + head + TAG_SUFFIX + rest, TAG_SUFFIX, |a|) == |a| + |head|
  {
    hide NoArrow;
    var s := a + head + TAG_SUFFIX + rest;
    var r := |a| + |head|;
    forall k | |a| <= k < r ensures !At(TAG_SUFFIX, s, k) {
      assert At(TAG_SUFFIX, s, k) ==> s[k] == s[k..k + 4][0] == ' ' && s[k + 1] == s[k..k + 4][1] == '-';
      NoArrowAt(head, k - |a|);
      assert s[k] == head[k - |a|] && (k + 1 < r ==> s[k + 1] == head[k + 1 - |a|]);
    }
    assert s[r..r + 4] == TAG_SUFFIX;
    IndexIs(s, TAG_SUFFIX, |a|, r);
  }

  lemma NoArrowAt(x: string, k: nat)
    requires NoArrow(x) && k < |x|
    ensures x[k] == ' ' && k + 1 < |x| ==> x[k + 1] != '-'
  {
  }

  /** The span ends at the first close tag after its open tag: the body has none. */
  lemma BodyEnds(front: string, body: string, sp: Spelling, rest: string)
    requires !Contains(body, Close(sp))
    ensures Index(front + body + Close(sp) + rest, Close(sp), |front|) == |front| + |body|
  {
    hide Close, Contains;
    Bracketed(sp);
    var c := Close(sp);
    var s := front + body + c + rest;
    var r := |front| + |body|;
    assert s == front + (body + (c + rest));
    assert s[r..r + |c|] == c;
    forall k | |front| <= k < r ensures !At(c, s, k) {
      hide At;
      NoOverlap(c, body, c + rest, k - |front|);
      ShiftAt(c, front, body + (c + rest), k - |front|);
    }
    IndexIs(s, c, |front|, r);
  }

  lemma ShiftAt(p: string, x: string, y: string, k: nat)
    ensures At(p, x + y, |x| + k) <==> At(p, y, k)
  {
    if k + |p| <= |y| { assert (x + y)[|x| + k..|x| + k + |p|] == y[k..k + |p|]; }
  }

  /** The first open prefix is the one that was written. */
  lemma OpensThere(a: string, sp: Spelling, rest: string)
    requires !Tagged(a)
    ensures FirstOpen(a + Open(sp) + rest) == Hit(|a|, sp)
  {
    hide Open, FirstOpen, Contains;
    var s := a + Open(sp) + rest;
    assert s[|a|..|a| + |Open(sp)|] == Open(sp);
    assert At(Open(sp), s, |a|);
    forall k: nat, q | k < |a| ensures !At(Open(q), s, k) {
      Bracketed(q);
      Bracketed(sp);
      assert q == Current || q == Legacy;
      NoOverlap(Open(q), a, Open(sp) + rest, k);
      assert s == a + (Open(sp) + rest);
    }
    NeverBoth(s, |a|);
  }

  /** A wrapped body between texts that hold no open prefix, apart or joined, strips to those texts. */
  lemma WrapStrips(sp: Spelling, n: nat, version: nat, body: string, a: string, b: string)
    requires !Tagged(a) && !Tagged(b) && !Tagged(a + b) && !Contains(body, Close(sp))
    ensures Strip(a + Wrap(sp, n, version, body) + b) == a + b
  {
    hide Open, Close, FirstOpen, Contains, Tagged, Index, Once, Pass, Neutral, Digits, NoArrow, SpanEnd;
    var s := a + Wrap(sp, n, version, body) + b;
    var head := TagHead(sp, n, version);
    var front := a + head + TAG_SUFFIX;
    Layout(sp, n, version, body, a, b);
    OpensThere(a, sp, Digits(n) + (" ver=" + Digits(version)) + TAG_SUFFIX + body + Close(sp) + b);
    HeadHasNoArrow(sp, n, version);
    TagEnds(a, head, body + Close(sp) + b);
    BodyEnds(front, body, sp, b);
    var e := |front| + |body| + |Close(sp)|;
    EndsAt(s, |a|, sp, |a| + |head|, |front| + |body|);
    PassStep(s);
    assert s[e..] == b && s[..|a|] == a;
    TaggedIsHit(b);
    PassStep(b);
    UntaggedIsKept(a + b);
  }

  /** The span that opens at `at` is closed by the close tag at `k`: the first of its own spelling after
      the first tag suffix. */
  predicate ClosedAt(s: string, at: nat, sp: Spelling, i: nat, k: nat) {
    && at <= i && At(TAG_SUFFIX, s, i) && (forall j | at <= j < i :: !At(TAG_SUFFIX, s, j))
    && i + |TAG_SUFFIX| <= k && At(Close(sp), s, k) && (forall j | i + |TAG_SUFFIX| <= j < k :: !At(Close(sp), s, j))
  }

  /** A span goes with both its tags and everything between them; the pass goes on behind it. */
  lemma ClosedSpanGoes(a: string, sp: Spelling, rest: string, i: nat, k: nat)
    requires !Tagged(a) && ClosedAt(a + Open(sp) + rest, |a|, sp, i, k)
    ensures var s := a + Open(sp) + rest;
            var e := k + |Close(sp)|;
            e <= |s| && Once(s) == a + Once(s[e..]) && Pass(s).opens == 1 + Pass(s[e..]).opens
  {
    hide Open, Close, FirstOpen, Tagged, Index, Once, Pass, SpanEnd;
    var s := a + Open(sp) + rest;
    OpensThere(a, sp, rest);
    IndexIs(s, TAG_SUFFIX, |a|, i);
    IndexIs(s, Close(sp), i + |TAG_SUFFIX|, k);
    EndsAt(s, |a|, sp, i, k);
    PassStep(s);
    assert s[..|a|] == a;
  }

  /** A span whose open tag is not ended, or that no close tag of its own spelling follows, goes to the
      end of the text: whatever follows, only what stood before it is kept. */
  lemma UnfinishedSpanGoes(a: string, sp: Spelling, rest: string)
    requires !Tagged(a)
    requires var s := a + Open(sp) + rest;
             forall i, k | |a| <= i && At(TAG_SUFFIX, s, i) && i + |TAG_SUFFIX| <= k :: !At(Close(sp), s, k)
    ensures Strip(a + Open(sp) + rest) == a && Pass(a + Open(sp) + rest).opens == 1
  {
    hide Open, Close, FirstOpen, Tagged, Index, Once, Pass, SpanEnd, Neutral, At;
    var s := a + Open(sp) + rest;
    OpensThere(a, sp, rest);
    NeverEnds(s, |a|, sp);
    PassStep(s);
    assert s[..|a|] == a;
    UntaggedIsKept(a);
  }

  lemma NeverEnds(s: string, at: nat, sp: Spelling)
    requires at <= |s|
    requires forall i, k | at <= i && At(TAG_SUFFIX, s, i) && i + |TAG_SUFFIX| <= k :: !At(Close(sp), s, k)
    ensures SpanEnd(s, at, sp) < 0
  {
    hide Index, Close, At;
    var i := Index(s, TAG_SUFFIX, at);
    if i >= 0 { FitsAt(TAG_SUFFIX, s, i); }
  }

  lemma EndsAt(s: string, at: nat, sp: Spelling, tagEnd: nat, closeAt: nat)
    requires at <= |s| && Index(s, TAG_SUFFIX, at) == tagEnd && tagEnd + |TAG_SUFFIX| <= |s|
    requires Index(s, Close(sp), tagEnd + |TAG_SUFFIX|) == closeAt
    ensures SpanEnd(s, at, sp) == closeAt + |Close(sp)|
  {
  }

  lemma Layout(sp: Spelling, n: nat, version: nat, body: string, a: string, b: string)
    ensures var s := a + Wrap(sp, n, version, body) + b;
            var head := TagHead(sp, n, version);
            && s == a + Open(sp) + (Digits(n) + (" ver=" + Digits(version)) + TAG_SUFFIX + body + Close(sp) + b)
            && s == a + head + TAG_SUFFIX + (body + Close(sp) + b)
            && s == (a + head + TAG_SUFFIX) + body + Close(sp) + b
  {
    hide Open, Close, Digits;
    Reassociate(a, Open(sp), Digits(n), " ver=", Digits(version), TAG_SUFFIX, body, Close(sp), b);
  }

  lemma Reassociate(a: string, o: string, n: string, w: string, v: string, t: string, body: string, c: string, b: string)
    ensures var s := a + (o + n + w + v + t + body + c) + b;
            var head := o + n + (w + v);
            s == a + o + (n + (w + v) + t + body + c + b) && s == a + head + t + (body + c + b) && s == (a + head + t) + body + c + b
  {
  }
}
