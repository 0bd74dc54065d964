/** The seven numeric shapes of the timestamps and durations canonicalizers, as the documented
    patterns, and what it means to find all matches of one of them in a buffer. */
module NumericRules {
  import opened Regex

  const ESC: int := 0x1B

  datatype Rule = Iso | Epoch | Clock | HourMinSec | MinSec | Magnitude | InPhrase

  // ------------------------------------------------------------------------------------------
  // Escape sequences
  // ------------------------------------------------------------------------------------------

  const CSI_PARAM: set<int> := set c: int | 0x30 <= c <= 0x3F
  const CSI_INTER: set<int> := set c: int | 0x20 <= c <= 0x2F
  const CSI_FINAL: set<int> := set c: int | 0x40 <= c <= 0x7E
  const OSC_BODY: set<int> := set c: int | 0 <= c < 256 && c != 0x07 && c != ESC
  const TWO_SECOND: set<int> := (set c: int | 0x40 <= c <= 0x5A) + (set c: int | 0x5C <= c <= 0x5F)

  /** `\x1b\[[0-?]*[ -/]*[@-~]` */
  function EscCsi(): Re {
    Chain([{ESC}, {'[' as int}], Cat(Star(Class(CSI_PARAM)), Cat(Star(Class(CSI_INTER)), Class(CSI_FINAL))))
  }

  /** `\x1b\][^\x07\x1b]*(?:\x07|\x1b\\)` */
  function EscOsc(): Re {
    Chain([{ESC}, {']' as int}],
          Cat(Star(Class(OSC_BODY)), Alt(Class({0x07}), Chain([{ESC}], Ch('\\')))))
  }

  /** `\x1b[\x40-\x5a\x5c-\x5f]` */
  function EscTwo(): Re { Chain([{ESC}], Class(TWO_SECOND)) }

  function EscAny(): Re { Alt(EscCsi(), Alt(EscOsc(), Alt(EscTwo(), Class({ESC})))) }

  /** `(?:\b|(?:escAny)+)`, the assertion in front of every rule. */
  function WordEdge(): Re { Alt(Boundary, Plus(EscAny())) }

  // ------------------------------------------------------------------------------------------
  // Bodies, each with its trailing `\b`
  // ------------------------------------------------------------------------------------------

  const COLON: set<int> := {':' as int}
  const DASH: set<int> := {'-' as int}
  const INLINE_SPACE: set<int> := {0x09, 0x0C, 0x0D, 0x20}

  function Digits(): Re { Plus(Class(DIGIT)) }

  /** `\.\d+` */
  function Fraction(): Re { Cat(Ch('.'), Digits()) }

  /** `[+-]\d{2}:?\d{2}` */
  function Offset(): Re {
    Chain([{'+' as int, '-' as int}, DIGIT, DIGIT], Cat(Opt(Class(COLON)), Chain([DIGIT], Class(DIGIT))))
  }

  function Zone(): Re { Cat(Opt(Alt(Ch('Z'), Offset())), Boundary) }

  const ISO_BASE: seq<set<int>> :=
    [DIGIT, DIGIT, DIGIT, DIGIT, DASH, DIGIT, DIGIT, DASH, DIGIT, DIGIT, {'T' as int, ' ' as int},
     DIGIT, DIGIT, COLON, DIGIT, DIGIT, COLON, DIGIT, DIGIT]

  function IsoBody(): Re { Chain(ISO_BASE, Cat(Opt(Fraction()), Zone())) }

  const TEN_DIGITS: seq<set<int>> :=
    [DIGIT, DIGIT, DIGIT, DIGIT, DIGIT, DIGIT, DIGIT, DIGIT, DIGIT, DIGIT]

  /** `\d{10,13}\b` */
  function EpochBody(): Re { Chain(TEN_DIGITS, Cat(UpTo(Class(DIGIT), 3), Boundary)) }

  const CLOCK_BASE: seq<set<int>> := [DIGIT, DIGIT, COLON, DIGIT, DIGIT, COLON, DIGIT, DIGIT]

  /** `\.\d{1,6}` */
  function ClockFraction(): Re { Cat(Ch('.'), Cat(Class(DIGIT), UpTo(Class(DIGIT), 5))) }

  function ClockBody(): Re { Chain(CLOCK_BASE, Cat(Opt(ClockFraction()), Boundary)) }

  /** `\d+(?:\.\d+)?s\b` */
  function FracSec(): Re { Cat(Digits(), Cat(Opt(Fraction()), Cat(Ch('s'), Boundary))) }

  function MinSecBody(): Re { Cat(Digits(), Cat(Ch('m'), FracSec())) }

  function HourMinSecBody(): Re { Cat(Digits(), Cat(Ch('h'), MinSecBody())) }

  /** `(?:ns|µs|us|ms|s|m|h)`, with 'µ' as its two UTF-8 bytes. */
  function Unit(): Re {
    Alt(Chain([{'n' as int}], Ch('s')),
    Alt(Chain([{0xC2}, {0xB5}], Ch('s')),
    Alt(Chain([{'u' as int}], Ch('s')),
    Alt(Chain([{'m' as int}], Ch('s')),
    Alt(Ch('s'), Alt(Ch('m'), Ch('h')))))))
  }

  /** `(?:ms|s)` */
  function PhraseUnit(): Re { Alt(Chain([{'m' as int}], Ch('s')), Ch('s')) }

  function UnitOf(phrase: bool): Re { if phrase then PhraseUnit() else Unit() }

  function SpaceUnit(phrase: bool): Re {
    Cat(Opt(Class(INLINE_SPACE)), Cat(UnitOf(phrase), Boundary))
  }

  function UnitTail(phrase: bool): Re { Cat(Opt(Fraction()), SpaceUnit(phrase)) }

  function MagnitudeBody(): Re { Cat(Digits(), UnitTail(false)) }

  const IN_PREFIX: seq<set<int>> := [{'i' as int}, {'n' as int}, {' ' as int}]

  function InPhraseBody(): Re { Chain(IN_PREFIX, Cat(Digits(), UnitTail(true))) }

  function Body(rule: Rule): Re {
    match rule
    case Iso => IsoBody()
    case Epoch => EpochBody()
    case Clock => ClockBody()
    case HourMinSec => HourMinSecBody()
    case MinSec => MinSecBody()
    case Magnitude => MagnitudeBody()
    case InPhrase => InPhraseBody()
  }

  /** What rule `rule`'s body does at `q`: the end a backtracking matcher reports first, or -1. */
  function BodyEnd(rule: Rule, s: Text, q: nat): (e: int)
    requires q <= |s|
  {
    First(Ends(Body(rule), s, q))
  }
}
