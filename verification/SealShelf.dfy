/** The checkpoint directory: artifacts, the manifest, and how much of either a power cut may take.

    A shelf holds what is visible now and, of that, what is already durable.  A seal works on it in
    ordered barriers. */
module SealShelf {
  import opened SegmentBook

  datatype Shelf = Shelf(
    art: map<Seq, set<Segment>>,                              // what the bytes of an artifact hold
    names: set<Seq>, namesDur: set<Seq>, unlinked: set<Seq>,  // artifact names; removals a cut may undo
    bytes: set<Seq>, bytesDur: set<Seq>,
    lines: set<Seq>, linesDur: set<Seq>, manifest: bool, manifestDur: bool,
    promised: set<Seq>)                                       // seals reported as done

  const BARE := Shelf(map[], {}, {}, {}, {}, {}, {}, {}, false, false, {})

  /** How far the seal of one draft has come. */
  datatype Stage =
    | Taken           // content decided, draft closed
    | Opened          // the artifact's name exists
    | Filled          // its bytes are written
    | BytesDurable    // barrier 1
    | MarksWritten
    | MarksDurable    // barrier 2, or the marks failed
    | NameDurable     // barrier 3
    | LineWritten     // the seal is visible
    | LineDurable     // barrier 4
    | Committed       // barrier 5 done, or a barrier after the line failed

  function Rank(g: Stage): nat {
    match g
    case Taken => 0
    case Opened => 1
    case Filled => 2
    case BytesDurable => 3
    case MarksWritten => 4
    case MarksDurable => 5
    case NameDurable => 6
    case LineWritten => 7
    case LineDurable => 8
    case Committed => 9
  }

  datatype Op =
    | Start | Bump | GiveUp
    | Create | Fill | SyncBytes | CreateFails
    | CommitMarks | SyncMarks | MarksFail(some: set<Segment>)
    | SyncName | WriteLine | SyncLine | SyncManifestName | NotDurable

  /** Whether a seal of number `n` at stage `g` may take the step. */
  predicate CanDo(k: Shelf, op: Op, n: Seq, g: Stage) {
    match op
    case Start => false
    case Bump => g == Taken && n in k.names
    case GiveUp => g in {Taken, MarksDurable, NameDurable}
    case Create => g == Taken && n !in k.names
    case Fill => g == Opened
    case SyncBytes => g == Filled
    case CreateFails => g == Opened || g == Filled
    case CommitMarks => g == BytesDurable
    case SyncMarks => g == MarksWritten
    case MarksFail(_) => g == BytesDurable || g == MarksWritten
    case SyncName => g == MarksDurable
    case WriteLine => g == NameDurable
    case SyncLine => g == LineWritten
    case SyncManifestName => g == LineDurable
    case NotDurable => g == LineWritten || g == LineDurable
  }

  /** The stage after a step that does not end the seal. */
  function NextStage(op: Op): Stage {
    match op
    case Create => Opened
    case Fill => Filled
    case SyncBytes => BytesDurable
    case CommitMarks => MarksWritten
    case SyncMarks => MarksDurable
    case MarksFail(_) => MarksDurable
    case SyncName => NameDurable
    case WriteLine => LineWritten
    case SyncLine => LineDurable
    case SyncManifestName => Committed
    case NotDurable => Committed
    case _ => Taken
  }

  /** What a step does to the shelf, for number `n`, whose artifact is to hold `c`. */
  function Effect(k: Shelf, op: Op, n: Seq, c: set<Segment>): Shelf {
    match op
    case Create => k.(names := k.names + {n})
    case Fill => k.(bytes := k.bytes + {n}, art := k.art[n := c])
    case SyncBytes => k.(bytesDur := k.bytesDur + {n})
    case CreateFails =>
      k.(names := k.names - {n}, namesDur := k.namesDur - {n}, unlinked := k.unlinked + {n},
         bytes := k.bytes - {n}, bytesDur := k.bytesDur - {n}, art := k.art - {n})
    case SyncName => k.(namesDur := k.names, unlinked := {}, manifestDur := k.manifest)
    case WriteLine => k.(lines := k.lines + {n}, manifest := true)
    case SyncLine => k.(linesDur := k.lines)
    case SyncManifestName => k.(manifestDur := true, promised := k.promised + {n})
    case _ => k
  }

  /** What a power cut may leave: everything durable, and any of the rest.  Bytes without a name and
      lines without their manifest are gone. */
  datatype Loss = Loss(names: set<Seq>, bytes: set<Seq>, lines: set<Seq>)

  predicate CanLose(k: Shelf, l: Loss) {
    && k.namesDur <= l.names <= k.names + k.unlinked
    && k.bytesDur <= l.bytes <= k.bytes
    && l.lines <= k.lines && (k.manifestDur ==> k.linesDur <= l.lines)
  }

  function AfterCut(k: Shelf, l: Loss): Shelf {
    var bytes := l.bytes * l.names;
    Shelf(map n | n in k.art && n in bytes :: k.art[n], l.names, l.names, {}, bytes, bytes,
          l.lines, l.lines, l.lines != {}, l.lines != {}, k.promised)
  }

  /** A line is written only over durable bytes and a durable name; a promise only over a durable
      line in a durable manifest. */
  ghost predicate ShelfOk(k: Shelf) {
    && k.namesDur <= k.names && k.bytesDur <= k.bytes <= k.names && k.art.Keys == k.bytes
    && k.linesDur <= k.lines && k.lines <= k.namesDur && k.lines <= k.bytesDur
    && k.promised <= k.linesDur && (k.promised != {} ==> k.manifestDur)
    && (k.lines != {} ==> k.manifest)
  }

  /** What each stage of a seal has already secured. */
  ghost predicate SealOk(k: Shelf, n: Seq, g: Stage, c: set<Segment>) {
    var r := Rank(g);
    && (r >= 1 ==> n in k.names)
    && (r == 1 ==> n !in k.bytes)
    && (r >= 2 ==> n in k.bytes && n in k.art && k.art[n] == c)
    && (r == 2 ==> n !in k.bytesDur)
    && (r >= 3 ==> n in k.bytesDur)
    && (r >= 6 ==> n in k.namesDur)
    && (1 <= r < 7 ==> n !in k.lines)
    && (r >= 7 ==> n in k.lines)
    && (r == 8 ==> n in k.linesDur)
  }

  /** As far as number `m` goes, `j` has lost nothing of `k`. */
  ghost predicate Untouched(k: Shelf, j: Shelf, m: Seq) {
    && k.linesDur <= j.linesDur
    && (m in k.names ==> m in j.names) && (m in k.namesDur ==> m in j.namesDur)
    && (m in j.bytes <==> m in k.bytes) && (m in j.bytesDur <==> m in k.bytesDur) && (m in j.lines <==> m in k.lines)
    && (m in k.art ==> m in j.art && j.art[m] == k.art[m])
  }

  lemma OpShelf(k: Shelf, op: Op, n: Seq, g: Stage, c: set<Segment>)
    requires ShelfOk(k) && SealOk(k, n, g, c) && CanDo(k, op, n, g)
    ensures ShelfOk(Effect(k, op, n, c))
  {
  }

  lemma OpOwn(k: Shelf, op: Op, n: Seq, g: Stage, c: set<Segment>)
    requires ShelfOk(k) && SealOk(k, n, g, c) && CanDo(k, op, n, g)
    ensures !op.Bump? && !op.GiveUp? && !op.CreateFails? ==> SealOk(Effect(k, op, n, c), n, NextStage(op), c)
  {
  }

  lemma OpOther(k: Shelf, op: Op, n: Seq, c: set<Segment>, m: Seq)
    requires ShelfOk(k) && m != n
    ensures Untouched(k, Effect(k, op, n, c), m)
  {
  }

  lemma UntouchedSeal(k: Shelf, j: Shelf, n: Seq, g: Stage, c: set<Segment>)
    requires SealOk(k, n, g, c) && (Rank(g) >= 1 ==> Untouched(k, j, n))
    ensures SealOk(j, n, g, c)
  {
  }

  lemma TakenOk(k: Shelf, n: Seq, c: set<Segment>)
    ensures SealOk(k, n, Taken, c)
  {
  }

  /** A line, once written, keeps its artifact; only the line's own step writes it. */
  lemma OpLines(k: Shelf, op: Op, n: Seq, g: Stage, c: set<Segment>, m: Seq)
    requires ShelfOk(k) && SealOk(k, n, g, c) && CanDo(k, op, n, g)
    ensures var j := Effect(k, op, n, c);
            && (m in k.lines ==> m in j.lines && m in j.art && m in k.art && j.art[m] == k.art[m])
            && (m in j.lines && m !in k.lines ==> op == WriteLine && m == n && m in j.art && j.art[m] == c)
  {
  }

  /** Whatever a cut loses, a line that survives names bytes and a name that survive, holding what they
      held, and a promised line survives. */
  lemma CutKeepsSeals(k: Shelf, l: Loss)
    requires ShelfOk(k) && CanLose(k, l)
    ensures var j := AfterCut(k, l);
            && ShelfOk(j) && j.lines <= k.lines && k.promised <= j.lines
            && forall n | n in j.lines :: n in j.names && n in j.bytes && n in j.art && n in k.art && j.art[n] == k.art[n]
  {
  }

  /** Some durable artifact holds the segment. */
  ghost predicate InArtifact(k: Shelf, x: Segment) {
    exists n | n in k.namesDur && n in k.bytesDur && n in k.art :: x in k.art[n]
  }

  lemma OpArtifacts(k: Shelf, op: Op, n: Seq, g: Stage, c: set<Segment>, x: Segment)
    requires ShelfOk(k) && SealOk(k, n, g, c) && CanDo(k, op, n, g) && InArtifact(k, x)
    ensures InArtifact(Effect(k, op, n, c), x)
  {
    var m :| m in k.namesDur && m in k.bytesDur && m in k.art && x in k.art[m];
    var j := Effect(k, op, n, c);
    assert m in j.namesDur && m in j.bytesDur && m in j.art && x in j.art[m];
  }

  lemma CutArtifacts(k: Shelf, l: Loss, x: Segment)
    requires ShelfOk(k) && CanLose(k, l) && InArtifact(k, x)
    ensures InArtifact(AfterCut(k, l), x)
  {
    var m :| m in k.namesDur && m in k.bytesDur && m in k.art && x in k.art[m];
    var j := AfterCut(k, l);
    assert m in j.namesDur && m in j.bytesDur && m in j.art && x in j.art[m];
  }
}
