/** Content-defined chunking: a rolling fingerprint that forgets after 64 bytes, cut points that depend
    only on what follows a boundary, and the parameters both rest on. */
module FastCdc {

  type Byte = x: int | 0 <= x < 256

  type Gear = Byte -> bv64

  const GEAR_WINDOW := 64
  const TARGET_FLOOR := 256
  const TARGET_CEILING := 1024 * 1024
  const MASK_WIDTH_DELTA := 1

  // ------------------------------------------------------------------------------------------
  // Parameters
  // ------------------------------------------------------------------------------------------

  datatype Params = Params(min: int, target: int, max: int)

  const DEFAULT_PARAMS := Params(1024, 4096, 16384)

  predicate IsPow2(n: int)
    decreases n
  {
    n == 1 || (n > 1 && n % 2 == 0 && IsPow2(n / 2))
  }

  /** The highest set bit alone. */
  function FloorPow2(n: nat): (r: nat)
    requires n > 0
    ensures IsPow2(r) && r <= n < 2 * r
  {
    if n == 1 then 1 else 2 * FloorPow2(n / 2)
  }

  function Max2(a: int, b: int): int { if a > b then a else b }

  function Min2(a: int, b: int): int { if a < b then a else b }

  function Clamp(v: int, lo: int, hi: int): int { Min2(Max2(v, lo), hi) }

  function Normalized(p: Params): Params {
    var asked := if p.target <= 0 then DEFAULT_PARAMS.target else p.target;
    var target := Clamp(FloorPow2(asked), TARGET_FLOOR, TARGET_CEILING);
    var least := Max2(Max2(p.min, GEAR_WINDOW), target / 8);
    var min := if least >= target then target / 4 else least;
    var longest := if p.max <= 0 then 4 * target else p.max;
    Params(min, target, Clamp(longest, 2 * target, 16 * target))
  }

  /** What the scan needs. */
  predicate Usable(p: Params) {
    && GEAR_WINDOW <= p.min < p.target <= p.max / 2
    && IsPow2(p.target) && TARGET_FLOOR <= p.target <= TARGET_CEILING
    && p.target / 8 <= p.min && p.max <= 16 * p.target
  }

  lemma {:induction false} Pow2Is(n: nat)
    requires n > 0 && IsPow2(n)
    ensures FloorPow2(n) == n
  {
    if n > 1 { Pow2Is(n / 2); }
  }

  lemma Bounds2()
    ensures IsPow2(TARGET_FLOOR) && IsPow2(TARGET_CEILING)
  {
    assert IsPow2(1) && IsPow2(2) && IsPow2(4) && IsPow2(8) && IsPow2(16) && IsPow2(32) && IsPow2(64) && IsPow2(128) && IsPow2(256);
    assert IsPow2(512) && IsPow2(1024) && IsPow2(2048) && IsPow2(4096) && IsPow2(8192) && IsPow2(16384) && IsPow2(32768);
    assert IsPow2(65536) && IsPow2(131072) && IsPow2(262144) && IsPow2(524288) && IsPow2(1048576);
  }

  /** Any parameters become usable ones, usable ones stay as they are, and the defaults are. */
  lemma NormalizedIsUsable(p: Params)
    ensures Usable(Normalized(p)) && Normalized(Normalized(p)) == Normalized(p)
    ensures Usable(p) ==> Normalized(p) == p
    ensures Normalized(DEFAULT_PARAMS) == DEFAULT_PARAMS
  {
    hide FloorPow2;
    Bounds2();
    UsableStays(Normalized(p));
    if Usable(p) { UsableStays(p); }
    assert Usable(DEFAULT_PARAMS);
    UsableStays(DEFAULT_PARAMS);
  }

  lemma UsableStays(p: Params)
    requires Usable(p)
    ensures Normalized(p) == p
  {
    hide FloorPow2;
    Pow2Is(p.target);
  }

  /** The target is the largest power of two not above the one asked for, within its bounds; the minimum is what
      was asked, raised to the window and an eighth of the target, or a quarter of it if that leaves nothing to
      scan; the maximum stays between two and sixteen targets, four by default. */
  lemma NormalizedIs(p: Params)
    ensures var t, asked := Normalized(p).target, if p.target <= 0 then 4096 else p.target;
            IsPow2(t) && 256 <= t <= 1048576 && (asked < 256 ==> t == 256) && (asked >= 1048576 ==> t == 1048576) &&
            (256 <= asked < 1048576 ==> t <= asked < 2 * t)
    ensures var t, m := Normalized(p).target, Normalized(p).min;
            (p.min >= t ==> m == t / 4) && (p.min < t ==> m >= p.min && m >= 64 && m >= t / 8 && (m == p.min || m == 64 || m == t / 8))
    ensures var t, m := Normalized(p).target, Normalized(p).max;
            (p.max <= 0 ==> m == 4 * t) && (0 < p.max < 2 * t ==> m == 2 * t) && (2 * t <= p.max <= 16 * t ==> m == p.max) && (p.max > 16 * t ==> m == 16 * t)
  {
    hide FloorPow2;
    Bounds2();
    var asked := if p.target <= 0 then 4096 else p.target;
    if asked >= 1048576 && FloorPow2(asked) < 1048576 { Pow2Gap(FloorPow2(asked), 1048576); }
  }

  /** Between powers of two there is a factor of two. */
  lemma {:induction false} Pow2Gap(a: nat, b: nat)
    requires IsPow2(a) && IsPow2(b) && a < b
    ensures 2 * a <= b
  {
    if a > 1 { Pow2Gap(a / 2, b / 2); }
  }

  // ------------------------------------------------------------------------------------------
  // The fingerprint
  // ------------------------------------------------------------------------------------------

  /** One byte further. */
  function Roll1(fp: bv64, x: bv64): bv64 { (fp << 1) ^ x }

  /** The fingerprint after the bytes `s[i..j]`. */
  function Roll(gear: Gear, fp: bv64, s: seq<Byte>, i: nat, j: nat): bv64
    requires i <= j <= |s|
    decreases j - i
  {
    if i == j then fp else Roll(gear, Roll1(fp, gear(s[i])), s, i + 1, j)
  }

  function Xor(a: bv64, b: bv64): bv64 { a ^ b }
  function Left1(d: bv64): bv64 { d << 1 }
  function Left2(d: bv64): bv64 { d << 2 }
  function Left4(d: bv64): bv64 { d << 4 }
  function Left8(d: bv64): bv64 { d << 8 }
  function Left16(d: bv64): bv64 { d << 16 }
  function Left32(d: bv64): bv64 { d << 32 }

  lemma Twice1(d: bv64)
    ensures Left1(Left1(d)) == Left2(d)
  {
  }

  lemma Twice2(d: bv64)
    ensures Left2(Left2(d)) == Left4(d)
  {
  }

  lemma Twice4(d: bv64)
    ensures Left4(Left4(d)) == Left8(d)
  {
  }

  lemma Twice8(d: bv64)
    ensures Left8(Left8(d)) == Left16(d)
  {
  }

  lemma Twice16(d: bv64)
    ensures Left16(Left16(d)) == Left32(d)
  {
  }

  lemma Twice32(d: bv64)
    ensures Left32(Left32(d)) == 0
  {
  }

  /** Shifting twice is shifting twice as far; twice by half the word leaves nothing. */
  lemma Doubling(d: bv64)
    ensures Left1(Left1(d)) == Left2(d) && Left2(Left2(d)) == Left4(d) && Left4(Left4(d)) == Left8(d)
    ensures Left8(Left8(d)) == Left16(d) && Left16(Left16(d)) == Left32(d) && Left32(Left32(d)) == 0
  {
    hide Left1, Left2, Left4, Left8, Left16, Left32;
    Twice1(d);
    Twice2(d);
    Twice4(d);
    Twice8(d);
    Twice16(d);
    Twice32(d);
  }

  /** `n` single shifts. */
  function Shift(d: bv64, n: nat): bv64
    decreases n
  {
    if n == 0 then d else Shift(Left1(d), n - 1)
  }

  lemma {:induction false} ShiftAdd(d: bv64, m: nat, n: nat)
    ensures Shift(d, m + n) == Shift(Shift(d, m), n)
    decreases m
  {
    hide Left1;
    if m > 0 { ShiftAdd(Left1(d), m - 1, n); }
  }

  lemma Shift4(d: bv64)
    ensures Shift(d, 4) == Left4(d)
  {
    hide Left1, Left2, Left4;
    assert Shift(d, 4) == Left1(Left1(Left1(Left1(d)))) by {
      assert Shift(Left1(Left1(d)), 2) == Shift(Left1(Left1(Left1(d))), 1);
    }
    Doubling(d);
    Doubling(Left2(d));
  }

  lemma Shift16(d: bv64)
    ensures Shift(d, 16) == Left16(d)
  {
    hide Left4, Left8, Left16, Shift;
    ShiftAdd(d, 4, 4);
    ShiftAdd(d, 8, 8);
    ShiftAdd(Left8(d), 4, 4);
    Shift4(d);
    Shift4(Left4(d));
    Doubling(d);
    Shift4(Left8(d));
    Shift4(Left4(Left8(d)));
    Doubling(Left8(d));
  }

  /** Sixty-four shifts leave nothing of a 64-bit word. */
  lemma ShiftOut(d: bv64)
    ensures Shift(d, 64) == 0
  {
    hide Left16, Left32, Shift;
    ShiftAdd(d, 16, 16);
    ShiftAdd(d, 32, 32);
    ShiftAdd(Left32(d), 16, 16);
    Shift16(d);
    Shift16(Left16(d));
    Doubling(d);
    Shift16(Left32(d));
    Shift16(Left16(Left32(d)));
    Doubling(Left32(d));
  }

  lemma Roll1Diff(f: bv64, g: bv64, x: bv64)
    ensures Xor(Roll1(f, x), Roll1(g, x)) == Left1(Xor(f, g))
  {
  }

  /** Two fingerprints rolled over the same bytes differ by their difference, shifted once per byte. */
  lemma {:induction false} RollDiff(gear: Gear, f: bv64, g: bv64, s: seq<Byte>, i: nat, j: nat)
    requires i <= j <= |s|
    ensures Xor(Roll(gear, f, s, i, j), Roll(gear, g, s, i, j)) == Shift(Xor(f, g), j - i)
    decreases j - i
  {
    hide Roll1, Xor, Left1;
    if i < j {
      var x := gear(s[i]);
      Roll1Diff(f, g, x);
      RollDiff(gear, Roll1(f, x), Roll1(g, x), s, i + 1, j);
    }
  }

  lemma Equal(x: bv64, y: bv64)
    requires Xor(x, y) == 0
    ensures x == y
  {
  }

  // What the fingerprint is

  lemma XorLaws(a: bv64, b: bv64, c: bv64)
    ensures Xor(Xor(a, b), c) == Xor(a, Xor(b, c)) && Xor(a, b) == Xor(b, a) && Xor(a, 0) == a
  {
    hide Xor;
    XorGroups(a, b, c);
    XorSwaps(a, b);
    XorNone(a);
  }

  lemma XorGroups(a: bv64, b: bv64, c: bv64)
    ensures Xor(Xor(a, b), c) == Xor(a, Xor(b, c))
  {
  }

  lemma XorSwaps(a: bv64, b: bv64)
    ensures Xor(a, b) == Xor(b, a)
  {
  }

  lemma XorNone(a: bv64)
    ensures Xor(a, 0) == a
  {
  }

  lemma LeftXor(a: bv64, b: bv64)
    ensures Left1(Xor(a, b)) == Xor(Left1(a), Left1(b)) && Left1(0) == 0
  {
  }

  lemma Roll1Is(fp: bv64, x: bv64)
    ensures Roll1(fp, x) == Xor(Left1(fp), x)
  {
  }

  /** The last `m` bytes of the first `n`, each byte's gear shifted once for every byte after it, all joined by xor. */
  function Window(gear: Gear, s: seq<Byte>, n: nat, m: nat): bv64
    requires m <= n <= |s|
  {
    if m == 0 then 0 else Xor(Window(gear, s, n, m - 1), Shift(gear(s[n - m]), m - 1))
  }

  lemma {:induction false} WindowMoves(gear: Gear, s: seq<Byte>, n: nat, m: nat)
    requires m <= n < |s|
    ensures Window(gear, s, n + 1, m + 1) == Xor(Left1(Window(gear, s, n, m)), gear(s[n]))
  {
    hide Xor, Left1;
    if m == 0 {
      LeftXor(0, 0);
      assert Window(gear, s, n + 1, 0) == 0 && Shift(gear(s[n]), 0) == gear(s[n]);
    } else {
      var a, x := Window(gear, s, n, m - 1), Shift(gear(s[n - m]), m - 1);
      WindowMoves(gear, s, n, m - 1);
      ShiftAdd(gear(s[n - m]), m - 1, 1);
      assert Shift(x, 1) == Shift(Left1(x), 0) == Left1(x);
      LeftXor(a, x);
      XorLaws(Left1(a), gear(s[n]), Left1(x));
      XorLaws(Left1(a), Left1(x), gear(s[n]));
      XorLaws(gear(s[n]), Left1(x), 0);
    }
  }

  /** Bytes further back than the window are shifted out. */
  lemma {:induction false} WindowEnds(gear: Gear, s: seq<Byte>, n: nat, m: nat)
    requires GEAR_WINDOW <= m <= n <= |s|
    ensures Window(gear, s, n, m) == Window(gear, s, n, GEAR_WINDOW)
  {
    hide Xor, Shift;
    if m > GEAR_WINDOW {
      WindowEnds(gear, s, n, m - 1);
      var x := gear(s[n - m]);
      ShiftAdd(x, m - 1 - 64, 64);
      ShiftOut(Shift(x, m - 1 - 64));
      XorLaws(Window(gear, s, n, m - 1), 0, 0);
    }
  }

  /** The fingerprint is the xor of the last 64 bytes' gears, each shifted left by its distance from the end. */
  lemma {:induction false} FingerprintIs(gear: Gear, s: seq<Byte>, n: nat)
    requires n <= |s|
    ensures Roll(gear, 0, s, 0, n) == Window(gear, s, n, if n < 64 then n else 64)
  {
    hide Xor, Left1, Roll1, Shift, Window;
    FullWindow(gear, s, n);
    if n >= 64 { WindowEnds(gear, s, n, n); }
  }

  lemma {:induction false} FullWindow(gear: Gear, s: seq<Byte>, n: nat)
    requires n <= |s|
    ensures Roll(gear, 0, s, 0, n) == Window(gear, s, n, n)
  {
    hide Xor, Left1, Roll1, Shift;
    if n > 0 {
      FullWindow(gear, s, n - 1);
      RollNext(gear, 0, s, 0, n - 1);
      Roll1Is(Roll(gear, 0, s, 0, n - 1), gear(s[n - 1]));
      WindowMoves(gear, s, n - 1, n - 1);
    }
  }

  /** Sixty-four bytes erase any starting fingerprint. */
  lemma WindowForgets(gear: Gear, f: bv64, g: bv64, s: seq<Byte>, i: nat)
    requires i + GEAR_WINDOW <= |s|
    ensures Roll(gear, f, s, i, i + GEAR_WINDOW) == Roll(gear, g, s, i, i + GEAR_WINDOW)
  {
    hide Roll, Shift, Xor;
    RollDiff(gear, f, g, s, i, i + GEAR_WINDOW);
    ShiftOut(Xor(f, g));
    Equal(Roll(gear, f, s, i, i + GEAR_WINDOW), Roll(gear, g, s, i, i + GEAR_WINDOW));
  }

  lemma {:induction false} RollJoin(gear: Gear, fp: bv64, s: seq<Byte>, i: nat, j: nat, k: nat)
    requires i <= j <= k <= |s|
    ensures Roll(gear, fp, s, i, k) == Roll(gear, Roll(gear, fp, s, i, j), s, j, k)
    decreases j - i
  {
    hide Roll1;
    if i < j { RollJoin(gear, Roll1(fp, gear(s[i])), s, i + 1, j, k); }
  }

  /** One byte more at the end. */
  lemma RollNext(gear: Gear, fp: bv64, s: seq<Byte>, i: nat, j: nat)
    requires i <= j < |s|
    ensures Roll(gear, fp, s, i, j + 1) == Roll1(Roll(gear, fp, s, i, j), gear(s[j]))
  {
    hide Roll1;
    RollJoin(gear, fp, s, i, j, j + 1);
  }

  // ------------------------------------------------------------------------------------------
  // Masks
  // ------------------------------------------------------------------------------------------

  const ONES: bv64 := 0xFFFF_FFFF_FFFF_FFFF

  /** The `n` most significant bits: all ones, shifted left by the rest. */
  function TopBits(n: nat): bv64
    requires n <= 64
  {
    Shift(ONES, 64 - n)
  }

  function TrailingZeros(n: nat): nat
    requires n > 0
  {
    if n % 2 == 1 then 0 else 1 + TrailingZeros(n / 2)
  }

  function And(a: bv64, b: bv64): bv64 { a & b }

  predicate Within(few: bv64, many: bv64) { few & many == few }

  lemma WithinShifts(x: bv64)
    ensures Within(Left1(ONES), ONES) && (Within(Left1(x), x) ==> Within(Left1(Left1(x)), Left1(x)))
  {
  }

  lemma WithinTwice(x: bv64)
    ensures Within(Left1(x), x) && Within(Left1(Left1(x)), Left1(x)) ==> Within(Left1(Left1(x)), x)
  {
  }

  /** Shifting a run of leading ones only takes bits away. */
  lemma {:induction false} ShiftedOnes(n: nat)
    ensures Within(Left1(Shift(ONES, n)), Shift(ONES, n)) && Shift(ONES, n + 1) == Left1(Shift(ONES, n))
  {
    hide Left1, Within;
    ShiftAdd(ONES, n, 1);
    if n == 0 {
      WithinShifts(ONES);
    } else {
      ShiftedOnes(n - 1);
      WithinShifts(Shift(ONES, n - 1));
    }
  }

  lemma TopBit()
    ensures Shift(ONES, 63) == 0x8000_0000_0000_0000
  {
    hide Shift, Left1, Left4, Left16;
    ShiftAdd(ONES, 48, 15);
    ShiftAdd(ONES, 32, 16);
    ShiftAdd(ONES, 16, 16);
    Shift16(ONES);
    Shift16(Left16(ONES));
    Shift16(Left16(Left16(ONES)));
    ThreeSixteens();
    var x: bv64 := 0xFFFF_0000_0000_0000;
    ShiftAdd(x, 12, 3);
    ShiftAdd(x, 8, 4);
    ShiftAdd(x, 4, 4);
    Shift4(x);
    Shift4(Left4(x));
    Shift4(Left4(Left4(x)));
    ThreeFours();
    ThreeOnes();
  }

  lemma ThreeSixteens()
    ensures Left16(Left16(Left16(ONES))) == 0xFFFF_0000_0000_0000
  {
  }

  lemma ThreeFours()
    ensures Left4(Left4(Left4(0xFFFF_0000_0000_0000))) == 0xF000_0000_0000_0000
  {
  }

  lemma ThreeOnes()
    ensures Shift(0xF000_0000_0000_0000, 3) == 0x8000_0000_0000_0000
  {
    assert Shift(0xF000_0000_0000_0000, 3) == Left1(Left1(Left1(0xF000_0000_0000_0000)));
  }

  predicate HasTopBit(x: bv64) { x & 0x8000_0000_0000_0000 != 0 }

  lemma TopBitWithin(few: bv64, many: bv64)
    requires HasTopBit(few) && Within(few, many)
    ensures HasTopBit(many)
  {
  }

  /** As long as not all are shifted out, a run of ones begins at the top. */
  lemma {:induction false} OnesLead(m: nat, k: nat)
    requires m + k == 63
    ensures HasTopBit(Shift(ONES, m))
    decreases k
  {
    hide Shift, Left1, Within, HasTopBit;
    if k == 0 {
      TopBit();
      assert HasTopBit(0x8000_0000_0000_0000) by { TopBitIsOne(); }
    } else {
      OnesLead(m + 1, k - 1);
      ShiftedOnes(m);
      TopBitWithin(Shift(ONES, m + 1), Shift(ONES, m));
    }
  }

  lemma TopBitIsOne()
    ensures HasTopBit(0x8000_0000_0000_0000)
  {
  }

  /** A mask of `n` leading ones, and nothing after them. */
  ghost predicate LeadingOnes(mask: bv64, n: nat) { (forall k: nat | k < n :: HasTopBit(Shift(mask, k))) && Shift(mask, n) == 0 }

  lemma TopBitsLead(n: nat)
    requires n <= 64
    ensures LeadingOnes(TopBits(n), n)
  {
    hide Shift, HasTopBit;
    forall k: nat | k < n ensures HasTopBit(Shift(TopBits(n), k)) {
      ShiftAdd(ONES, 64 - n, k);
      OnesLead(64 - n + k, 63 - (64 - n + k));
    }
    ShiftAdd(ONES, 64 - n, n);
    ShiftOut(ONES);
  }

  function Pow2(n: nat): nat { if n == 0 then 1 else 2 * Pow2(n - 1) }

  lemma {:induction false} ZerosArePower(n: nat)
    requires IsPow2(n)
    ensures Pow2(TrailingZeros(n)) == n
  {
    if n > 1 { ZerosArePower(n / 2); }
  }

  /** The lenient mask's bits are among the strict one's. */
  lemma MasksNest(w: nat)
    requires 1 <= w < 64
    ensures Within(TopBits(w - MASK_WIDTH_DELTA), TopBits(w + MASK_WIDTH_DELTA))
  {
    hide Left1, Within, Shift;
    ShiftedOnes(63 - w);
    ShiftedOnes(64 - w);
    WithinTwice(Shift(ONES, 63 - w));
  }

  lemma WithinClears(fp: bv64, few: bv64, many: bv64)
    requires Within(few, many) && And(fp, many) == 0
    ensures And(fp, few) == 0
  {
  }

  lemma {:induction false} ZerosRange(n: nat, lo: nat, hi: nat, w: nat)
    requires IsPow2(n) && IsPow2(lo) && IsPow2(hi) && lo <= n <= hi && TrailingZeros(lo) == w
    ensures w <= TrailingZeros(n) <= TrailingZeros(hi)
    decreases n
  {
    if lo > 1 { ZerosRange(n / 2, lo / 2, hi / 2, w - 1); }
    else if n > 1 { ZerosRange(n / 2, 1, hi / 2, 0); }
  }

  lemma ZerosTable()
    ensures TrailingZeros(256) == 8 && TrailingZeros(1048576) == 20
  {
    assert TrailingZeros(1) == 0 && TrailingZeros(2) == 1 && TrailingZeros(4) == 2 && TrailingZeros(8) == 3 && TrailingZeros(16) == 4;
    assert TrailingZeros(32) == 5 && TrailingZeros(64) == 6 && TrailingZeros(128) == 7 && TrailingZeros(256) == 8 && TrailingZeros(512) == 9;
    assert TrailingZeros(1024) == 10 && TrailingZeros(2048) == 11 && TrailingZeros(4096) == 12 && TrailingZeros(8192) == 13;
    assert TrailingZeros(16384) == 14 && TrailingZeros(32768) == 15 && TrailingZeros(65536) == 16 && TrailingZeros(131072) == 17;
    assert TrailingZeros(262144) == 18 && TrailingZeros(524288) == 19;
  }

  /** A usable target's width leaves room for both masks. */
  lemma WidthFits(p: Params)
    requires Usable(p)
    ensures 8 <= TrailingZeros(p.target) <= 20
  {
    Bounds2();
    ZerosTable();
    ZerosRange(p.target, TARGET_FLOOR, TARGET_CEILING, 8);
  }

  // ------------------------------------------------------------------------------------------
  // The cut
  // ------------------------------------------------------------------------------------------

  /** A chunker: usable parameters, a gear table, and the two masks. */
  datatype Chunker = Chunker(p: Params, gear: Gear, maskS: bv64, maskL: bv64)

  ghost predicate Ready(c: Chunker) {
    Usable(c.p) && Within(c.maskL, c.maskS)
  }

  function New(p: Params, gear: Gear): (c: Chunker)
    ensures Usable(c.p)
  {
    var np := Normalized(p);
    NormalizedIsUsable(p);
    WidthFits(np);
    var width := TrailingZeros(np.target);
    Chunker(np, gear, TopBits(width + MASK_WIDTH_DELTA), TopBits(width - MASK_WIDTH_DELTA))
  }

  lemma NewIsReady(p: Params, gear: Gear)
    ensures Ready(New(p, gear)) && New(p, gear).p == Normalized(p) && New(p, gear).gear == gear
  {
    hide TopBits, Within, TrailingZeros, Normalized, IsPow2;
    NormalizedIsUsable(p);
    WidthFits(Normalized(p));
    MasksNest(TrailingZeros(Normalized(p).target));
  }

  /** One bit more than the target's width is tested before it, and one bit less after. */
  lemma MaskWidths(p: Params, gear: Gear) returns (w: nat)
    ensures Pow2(w) == New(p, gear).p.target && 8 <= w <= 20
    ensures LeadingOnes(New(p, gear).maskS, w + 1) && LeadingOnes(New(p, gear).maskL, w - 1)
  {
    hide TopBits, LeadingOnes, Normalized, Pow2, TrailingZeros;
    NormalizedIsUsable(p);
    WidthFits(Normalized(p));
    w := TrailingZeros(Normalized(p).target);
    ZerosArePower(Normalized(p).target);
    TopBitsLead(w + 1);
    TopBitsLead(w - 1);
  }

  /** The fingerprint of everything up to and including byte `i`. */
  function Print(c: Chunker, s: seq<Byte>, i: nat): bv64
    requires i < |s|
  {
    Roll(c.gear, 0, s, 0, i + 1)
  }

  /** Byte `i` ends a chunk by its content. */
  predicate Ends(c: Chunker, s: seq<Byte>, i: nat)
    requires i < |s|
  {
    And(Print(c, s, i), if i < c.p.target then c.maskS else c.maskL) == 0
  }

  /** The first byte from `i` on, and before `n`, that ends a chunk. */
  function FirstEnd(c: Chunker, s: seq<Byte>, i: nat, n: nat): (k: nat)
    requires i <= n <= |s|
    ensures i <= k <= n && (forall j | i <= j < k :: !Ends(c, s, j)) && (k < n ==> Ends(c, s, k))
    decreases n - i
  {
    if i == n || Ends(c, s, i) then i else FirstEnd(c, s, i + 1, n)
  }

  /** The reference: the fingerprint rolled from the chunk's first byte. */
  function Cut(c: Chunker, s: seq<Byte>): nat
    requires Usable(c.p)
  {
    if |s| <= c.p.min then |s|
    else
      var n := Min2(|s|, c.p.max);
      var k := FirstEnd(c, s, c.p.min, n);
      if k < n then k + 1 else n
  }

  /** The bits of the last 64 bytes' fingerprint that a cut after byte `i` asks to be clear are clear. */
  ghost predicate ClearAt(c: Chunker, s: seq<Byte>, i: nat)
    requires i < |s|
  {
    And(Window(c.gear, s, i + 1, if i < 63 then i + 1 else 64), if i < c.p.target then c.maskS else c.maskL) == 0
  }

  /** The cut comes after the first byte from the minimum on at which they are, and else at the maximum or the end. */
  lemma CutIsFirstClear(c: Chunker, s: seq<Byte>)
    requires Usable(c.p)
    ensures var k, n := Cut(c, s), if |s| < c.p.max then |s| else c.p.max;
            if |s| <= c.p.min then k == |s|
            else c.p.min < k <= n && (forall i: nat | c.p.min <= i < k - 1 :: !ClearAt(c, s, i)) && (k == n || ClearAt(c, s, k - 1))
  {
    hide Window, Roll, And, IsPow2;
    forall i: nat | i < |s| ensures Ends(c, s, i) <==> ClearAt(c, s, i) { FingerprintIs(c.gear, s, i + 1); }
  }

  /** Crossing the target can only add cuts. */
  lemma StrictImpliesLenient(c: Chunker, fp: bv64)
    requires Ready(c) && And(fp, c.maskS) == 0
    ensures And(fp, c.maskL) == 0
  {
    hide And, Within, Usable;
    WithinClears(fp, c.maskL, c.maskS);
  }

  /** Priming over the window before `i` gives the print of everything before it. */
  lemma Primed(c: Chunker, s: seq<Byte>, i: nat)
    requires GEAR_WINDOW <= i <= |s|
    ensures Roll(c.gear, 0, s, i - GEAR_WINDOW, i) == Roll(c.gear, 0, s, 0, i)
  {
    hide Roll;
    RollJoin(c.gear, 0, s, 0, i - GEAR_WINDOW, i);
    WindowForgets(c.gear, 0, Roll(c.gear, 0, s, 0, i - GEAR_WINDOW), s, i - GEAR_WINDOW);
  }

  /** The fingerprint of the window before `min`. */
  method Prime(c: Chunker, s: seq<Byte>) returns (fp: bv64)
    requires Usable(c.p) && c.p.min <= |s|
    ensures fp == Roll(c.gear, 0, s, 0, c.p.min)
  {
    hide Roll, Roll1, IsPow2;
    fp := 0;
    RollNone(c, s, c.p.min - GEAR_WINDOW);
    for j := c.p.min - GEAR_WINDOW to c.p.min
      invariant fp == Roll(c.gear, 0, s, c.p.min - GEAR_WINDOW, j)
    {
      RollNext(c.gear, 0, s, c.p.min - GEAR_WINDOW, j);
      fp := Rolled(fp, c.gear(s[j]));
    }
    Primed(c, s, c.p.min);
  }

  method NextCut(c: Chunker, s: seq<Byte>) returns (len: nat)
    requires Usable(c.p)
    ensures len == Cut(c, s)
  {
    hide Roll, Roll1, And, IsPow2, FirstEnd, Ends, Print;
    var n := |s|;
    if n <= c.p.min { return n; }
    if n > c.p.max { n := c.p.max; }
    var normal := c.p.target;
    if normal > n { normal := n; }

    var fp := Prime(c, s);
    var i := c.p.min;
    while i < normal
      invariant c.p.min <= i <= normal <= n && fp == Roll(c.gear, 0, s, 0, i) && FirstEnd(c, s, i, n) == FirstEnd(c, s, c.p.min, n)
    {
      EndStep(c, s, i, n);
      fp := Rolled(fp, c.gear(s[i]));
      var clear := Clear(fp, c.maskS);
      if clear { return i + 1; }
      i := i + 1;
    }
    while i < n
      invariant normal <= i <= n && fp == Roll(c.gear, 0, s, 0, i) && FirstEnd(c, s, i, n) == FirstEnd(c, s, c.p.min, n)
    {
      EndStep(c, s, i, n);
      fp := Rolled(fp, c.gear(s[i]));
      var clear := Clear(fp, c.maskL);
      if clear { return i + 1; }
      i := i + 1;
    }
    return n;
  }

  method Rolled(fp: bv64, x: bv64) returns (r: bv64)
    ensures r == Roll1(fp, x)
  {
    r := (fp << 1) ^ x;
  }

  method Clear(fp: bv64, mask: bv64) returns (clear: bool)
    ensures clear <==> And(fp, mask) == 0
  {
    clear := fp & mask == 0;
  }

  lemma RollNone(c: Chunker, s: seq<Byte>, i: nat)
    requires i <= |s|
    ensures Roll(c.gear, 0, s, i, i) == 0
  {
  }

  lemma EndStep(c: Chunker, s: seq<Byte>, i: nat, n: nat)
    requires i < n <= |s|
    ensures var fp := Roll1(Roll(c.gear, 0, s, 0, i), c.gear(s[i]));
            && fp == Roll(c.gear, 0, s, 0, i + 1)
            && FirstEnd(c, s, i, n) == if And(fp, if i < c.p.target then c.maskS else c.maskL) == 0 then i else FirstEnd(c, s, i + 1, n)
  {
    hide Roll, Roll1, And;
    RollNext(c.gear, 0, s, 0, i);
  }

  // ------------------------------------------------------------------------------------------
  // Chunks
  // ------------------------------------------------------------------------------------------

  datatype Chunk = Chunk(offset: nat, len: nat)

  lemma CutBounds(c: Chunker, s: seq<Byte>)
    requires Usable(c.p) && s != []
    ensures 0 < Cut(c, s) <= |s| && Cut(c, s) <= c.p.max
    ensures Cut(c, s) < |s| ==> Cut(c, s) > c.p.min
  {
    hide IsPow2, Ends;
  }

  /** The chunks from `off` on. */
  function Chunks(c: Chunker, s: seq<Byte>, off: nat): seq<Chunk>
    requires Usable(c.p) && off <= |s|
    decreases |s| - off
  {
    if off == |s| then []
    else
      CutBounds(c, s[off..]);
      var n := Cut(c, s[off..]);
      [Chunk(off, n)] + Chunks(c, s, off + n)
  }

  method Split(c: Chunker, s: seq<Byte>) returns (chunks: seq<Chunk>)
    requires Usable(c.p)
    ensures chunks == Chunks(c, s, 0)
  {
    hide Usable, Cut;
    chunks := [];
    if |s| == 0 { return; }
    var off := 0;
    while off < |s|
      invariant off <= |s| && chunks + Chunks(c, s, off) == Chunks(c, s, 0)
    {
      var n := NextCut(c, s[off..]);
      CutBounds(c, s[off..]);
      chunks := chunks + [Chunk(off, n)];
      off := off + n;
    }
  }

  /** Each chunk starts where the one before ends, and they end with the text. */
  predicate Partition(cs: seq<Chunk>, off: nat, end: nat) {
    if cs == [] then off == end else cs[0].offset == off && cs[0].len > 0 && Partition(cs[1..], off + cs[0].len, end)
  }

  /** The chunks partition the text; all but the last are longer than the minimum, none is longer than
      the maximum, and they fit the capacity reserved for them. */
  lemma {:induction false} ChunksPartition(c: Chunker, s: seq<Byte>, off: nat)
    requires Usable(c.p) && off <= |s|
    ensures var cs := Chunks(c, s, off);
            && Partition(cs, off, |s|)
            && (forall k | 0 <= k < |cs| :: cs[k].len <= c.p.max && (k < |cs| - 1 ==> cs[k].len > c.p.min))
            && (cs != [] ==> (|cs| - 1) * c.p.min <= |s| - off)
    decreases |s| - off
  {
    hide Usable, Cut;
    if off < |s| {
      CutBounds(c, s[off..]);
      var n := Cut(c, s[off..]);
      ChunksPartition(c, s, off + n);
      var rest := Chunks(c, s, off + n);
      if rest != [] { assert |rest| * c.p.min == (|rest| - 1) * c.p.min + c.p.min; }
    }
  }

  lemma ChunksFit(c: Chunker, s: seq<Byte>)
    requires Usable(c.p)
    ensures |Chunks(c, s, 0)| <= |s| / c.p.min + 1
  {
    hide IsPow2, Chunks, Partition;
    ChunksPartition(c, s, 0);
    Divides(|s|, c.p.min, |Chunks(c, s, 0)| - 1);
  }

  lemma Divides(n: nat, d: nat, k: int)
    requires d > 0 && k * d <= n
    ensures k <= n / d
  {
    Grows(n / d + 1, k, d);
  }

  lemma Grows(a: int, b: int, d: nat)
    ensures a <= b ==> a * d <= b * d
  {
  }

  function Shifted(cs: seq<Chunk>, shift: int): seq<Chunk>
    requires forall k | 0 <= k < |cs| :: cs[k].offset + shift >= 0
  {
    seq(|cs|, k requires 0 <= k < |cs| => Chunk(cs[k].offset + shift, cs[k].len))
  }

  lemma {:induction false} OffsetsAfter(c: Chunker, s: seq<Byte>, off: nat)
    requires Usable(c.p) && off <= |s|
    ensures forall k | 0 <= k < |Chunks(c, s, off)| :: Chunks(c, s, off)[k].offset >= off
    decreases |s| - off
  {
    hide Usable, Cut;
    if off < |s| {
      CutBounds(c, s[off..]);
      OffsetsAfter(c, s, off + Cut(c, s[off..]));
    }
  }

  /** The chunks after a position depend only on the bytes after it. */
  lemma {:induction false} SuffixChunks(c: Chunker, a: seq<Byte>, b: seq<Byte>, i: nat, j: nat)
    requires Usable(c.p) && i <= |a| && j <= |b| && a[i..] == b[j..]
    ensures (forall k | 0 <= k < |Chunks(c, a, i)| :: Chunks(c, a, i)[k].offset >= i)
    ensures Chunks(c, b, j) == Shifted(Chunks(c, a, i), j - i)
    decreases |a| - i
  {
    hide Usable, Cut;
    OffsetsAfter(c, a, i);
    assert |a| - i == |b| - j;
    if i < |a| {
      CutBounds(c, a[i..]);
      var n := Cut(c, a[i..]);
      assert a[i + n..] == a[i..][n..] && b[j + n..] == b[j..][n..];
      SuffixChunks(c, a, b, i + n, j + n);
      OffsetsAfter(c, a, i + n);
    }
  }

  /** `off` is the start of a chunk, or the end of the text. */
  predicate Boundary(cs: seq<Chunk>, off: nat, end: nat) { off == end || exists k | 0 <= k < |cs| :: cs[k].offset == off }

  /** From a boundary on, the chunks are those of the bytes that follow it. */
  lemma {:induction false} BoundaryRestarts(c: Chunker, s: seq<Byte>, from: nat, off: nat) returns (k: nat)
    requires Usable(c.p) && from <= off <= |s| && Boundary(Chunks(c, s, from), off, |s|)
    ensures k <= |Chunks(c, s, from)| && Chunks(c, s, from)[k..] == Chunks(c, s, off)
    decreases |s| - from
  {
    hide Usable, Cut;
    if from == off { k := 0; } else {
      CutBounds(c, s[from..]);
      var next := from + Cut(c, s[from..]);
      var cs := Chunks(c, s, from);
      assert cs[1..] == Chunks(c, s, next);
      if off != |s| {
        var m :| 0 <= m < |cs| && cs[m].offset == off;
        assert cs[m] == cs[1..][m - 1];
        OffsetsAfter(c, s, next);
      }
      var j := BoundaryRestarts(c, s, next, off);
      k := j + 1;
      assert cs[k..] == cs[1..][j..];
    }
  }

  /** Two texts with a common suffix, both with a boundary where it starts or anywhere inside it, have the same chunks from
      there on, at their own offsets. */
  lemma SuffixesSync(c: Chunker, a: seq<Byte>, b: seq<Byte>, i: nat, j: nat) returns (k: nat, m: nat)
    requires Usable(c.p) && i <= |a| && j <= |b| && a[i..] == b[j..]
    requires Boundary(Chunks(c, a, 0), i, |a|) && Boundary(Chunks(c, b, 0), j, |b|)
    ensures k <= |Chunks(c, a, 0)| && m <= |Chunks(c, b, 0)|
    ensures forall x | x in Chunks(c, a, 0)[k..] :: x.offset >= i
    ensures Chunks(c, b, 0)[m..] == Shifted(Chunks(c, a, 0)[k..], j - i)
  {
    hide Usable, Chunks;
    k := BoundaryRestarts(c, a, 0, i);
    m := BoundaryRestarts(c, b, 0, j);
    SuffixChunks(c, a, b, i, j);
  }
}
