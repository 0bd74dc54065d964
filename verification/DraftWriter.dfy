/** The checkpoint writer's drafts under every interleaving of beginning, resuming, advancing,
    aborting and sealing them, with restarts and power cuts in between: which numbers they hold, what
    an artifact holds, where a segment may end up.  A step is one critical section or one file
    operation.

    Draft files are written atomically, and the write syncs their directory; removing one does not, so
    a cut may bring it back.  The segment log is appended without a sync until a seal syncs it, so a cut may
    take any record since: an encode record, a close, or an open, and with the open all of the segment's. */
module DraftWriter {
  import opened Basics
  import opened SegmentBook
  import opened SealShelf

  type Id = nat

  const MAX_SEQ_COLLISION_RETRIES := 8

  // ------------------------------------------------------------------------------------------
  // Sequence numbers
  // ------------------------------------------------------------------------------------------

  /** One above everything issued and everything the manifest records. */
  ghost predicate IsBase(issued: Seq, lines: set<Seq>, base: Seq) {
    base > issued && (forall m | m in lines :: m < base) && (base == issued + 1 || base - 1 in lines)
  }

  /** The number a fresh draft takes: past the base, past existing artifacts while retries last. */
  ghost predicate IsClaim(issued: Seq, lines: set<Seq>, names: set<Seq>, n: Seq) {
    exists base: Seq ::
      IsBase(issued, lines, base) && base <= n <= base + 8 && (forall k | base <= k < n :: k in names) &&
      (n in names ==> n == base + 8)
  }

  /** A noted number is out of reach of every later claim. */
  lemma NotedIsNeverClaimed(issued: Seq, lines: set<Seq>, names: set<Seq>, n: Seq, m: Seq)
    requires IsClaim(Noted(issued, n), lines, names, m)
    ensures m > n && m > issued
  {
  }

  /** Giving a claim back undoes it: nothing issued before falls above the counter, and the next claim
      takes the same number, so a failed Begin costs none - if and only if its artifact does not exist,
      which a claim lands on only when retries ran out. */
  lemma GiveBackUndoes(issued: Seq, lines: set<Seq>, names: set<Seq>, n: Seq, m: Seq)
    requires IsClaim(issued, lines, names, n)
    ensures issued <= GivenBack(n, n) && (IsClaim(GivenBack(n, n), lines, names, n) <==> n !in names)
    ensures n !in names ==> (IsClaim(GivenBack(n, n), lines, names, m) <==> m == n)
    ensures IsClaim(GivenBack(n, n), lines, names, m) ==> m >= n
  {
    assert IsBase(n - 1, lines, n);
  }

  /** Once another number was handed out it is left as a gap, and the counter stays where it is. */
  lemma GiveBackLeavesGap(issued: Seq, lines: set<Seq>, names: set<Seq>, n: Seq, m: Seq)
    requires IsClaim(n, lines, names, m)
    ensures GivenBack(m, n) == m && n < m
  {
  }

  function Noted(issued: Seq, n: Seq): Seq { if n > issued then n else issued }

  /** Claimed numbers start at 1, so there is always one before. */
  function GivenBack(issued: Seq, n: Seq): Seq { if issued == n && n > 0 then n - 1 else issued }

  /** The highest of what was issued, of the drafts on disk and of the encode records. */
  ghost predicate IsFloor(issued: Seq, drafts: set<Seq>, records: set<Seq>, n: Seq) {
    n >= issued && (forall m | m in drafts || m in records :: m <= n) && (n == issued || n in drafts || n in records)
  }

  /** Some of that, or nothing: what a scan that could not finish may have found. */
  ghost predicate IsFound(issued: Seq, drafts: set<Seq>, records: set<Seq>, n: Seq) {
    n >= issued && (n == issued || n in drafts || n in records)
  }

  class FileWriter {
    var issuedSeq: Seq
    var claimFloorLoaded: bool

    method ClaimSeq(manifest: seq<Seq>, names: set<Seq>) returns (n: Seq)
      modifies this`issuedSeq
      ensures IsClaim(old(issuedSeq), (set m | m in manifest), names, n) && issuedSeq == n
    {
      var highest := 0;
      for i := 0 to |manifest|
        invariant highest == 0 || highest in manifest
        invariant forall j :: 0 <= j < i ==> manifest[j] <= highest
      {
        if manifest[i] > highest { highest := manifest[i]; }
      }
      n := highest + 1;
      if issuedSeq + 1 > n { n := issuedSeq + 1; }
      ghost var base := n;
      assert IsBase(issuedSeq, (set m | m in manifest), base);
      var tries := 0;
      while tries < MAX_SEQ_COLLISION_RETRIES && n in names
        invariant tries <= MAX_SEQ_COLLISION_RETRIES && n == base + tries
        invariant forall k | base <= k < n :: k in names
      {
        n := n + 1;
        tries := tries + 1;
      }
      issuedSeq := n;
    }

    method ReleaseSeq(n: Seq)
      modifies this`issuedSeq
      ensures issuedSeq == GivenBack(old(issuedSeq), n)
    {
      if issuedSeq == n && n > 0 { issuedSeq := n - 1; }
    }

    method NoteSeq(n: Seq)
      modifies this`issuedSeq
      ensures issuedSeq == Noted(old(issuedSeq), n)
    {
      if n > issuedSeq { issuedSeq := n; }
    }

    /** `found` holds the draft files' numbers, absent where a file is unreadable; `complete` is false
        when the directory or the log could not be read to the end, and then the scan is repeated. */
    method LoadClaimFloor(found: seq<Option<Seq>>, logFloor: Seq, complete: bool)
      modifies this
      ensures old(claimFloorLoaded) ==> issuedSeq == old(issuedSeq) && claimFloorLoaded
      ensures !old(claimFloorLoaded) ==> claimFloorLoaded == complete
      ensures !old(claimFloorLoaded) ==>
                IsFloor(old(issuedSeq), (set k | 0 <= k < |found| && found[k].Some? :: found[k].value), {logFloor}, issuedSeq)
    {
      if claimFloorLoaded { return; }
      var floor := 0;
      for i := 0 to |found|
        invariant floor == 0 || exists k :: 0 <= k < |found| && found[k] == Some(floor)
        invariant forall k :: 0 <= k < i && found[k].Some? ==> found[k].value <= floor
        invariant issuedSeq == old(issuedSeq)
      {
        if found[i].Some? && found[i].value > floor { floor := found[i].value; }
      }
      if logFloor > floor { floor := logFloor; }
      NoteSeq(floor);
      claimFloorLoaded := complete;
    }
  }

  // ------------------------------------------------------------------------------------------
  // States
  // ------------------------------------------------------------------------------------------

  /** Where a draft stands with Finalize: not in one, in one, or sealed at `at`, from its line on. */
  datatype Fin = Idle | Active(at: Seq, snap: set<Segment>, stage: Stage) | Done(at: Seq, snap: set<Segment>, stage: Stage)

  /** `leaving`: the draft is off the registry and its file is about to be removed. */
  datatype Draft = Draft(session: Session, num: Seq, enc: set<Segment>, sealed: bool, fin: Fin, leaving: bool)

  datatype File = File(num: Seq, enc: set<Segment>)

  /** What outlives the process.  `removed` are draft files whose removal a cut may undo, `stale` the ones
      set aside, which nothing reads back; `synced` is the log as far as it is durable. */
  datatype Disk = Disk(
    files: map<Session, File>, removed: map<Session, File>, stale: map<Session, File>, book: Book, synced: Book, shelf: Shelf)

  /** What happened so far: a seal moved past a taken number; a draft was aborted during its own
      Finalize; a segment was offered to another session's draft; marks failed; a cut took the log's open or
      close record of a segment a draft file holds; the process ended. */
  datatype Past = Past(bumped: bool, raced: bool, crossed: bool, unmarked: bool, unlogged: bool, restarted: bool)

  datatype Sealer = Sealer(session: Session, id: Id)

  /** More of it: a draft file was written, or a removal set out, while the other was under way; a draft
      was set aside for another session's line; a seal could not record all of its segments; a number was
      claimed after a floor scan that could not finish; the write of a draft's file failed after its first.
      And what was accepted into a session's drafts and not discarded, and whose each line is. */
  datatype Ledger = Ledger(
    overlapped: bool, misfiled: bool, drifted: bool, blind: bool, unsaved: bool, accepted: set<(Session, Segment)>, sealedBy: map<Seq, Sealer>)

  datatype State = State(
    drafts: map<Id, Draft>,           // every draft some caller may hold
    live: map<Session, Id>,           // the registry
    missed: set<Session>,             // Begin has found no file
    claims: map<Session, Seq>,        // Begin has a number
    resuming: map<Session, File>,     // Begin has read a file
    ready: map<Session, File>,        // Begin has written the file and not registered its draft
    issued: Seq, floor: bool,
    disk: Disk, past: Past, ledger: Ledger)

  const NO_PAST := Past(false, false, false, false, false, false)
  const NO_LEDGER := Ledger(false, false, false, false, false, {}, map[])

  /** A process that holds nothing. */
  function Idling(k: Disk, p: Past, l: Ledger): State { State(map[], map[], {}, map[], map[], map[], 0, false, k, p, l) }

  const EMPTY := Idling(Disk(map[], map[], map[], map[], map[], BARE), NO_PAST, NO_LEDGER)

  // ------------------------------------------------------------------------------------------
  // Steps
  // ------------------------------------------------------------------------------------------

  datatype BeginOp =
    | Miss | SetAside | LoadFloor(n: Seq, whole: bool) | Claim(n: Seq) | Fail | Lose | Write
    | Read | Rewrite | Retain
    | Publish(i: Id)

  datatype Event =
    | OpenSegment(x: Segment, s: Session)
    | CloseSegment(x: Segment)
    | Begin(s: Session, begin: BeginOp)
    | Persist(i: Id)
    | Advance(i: Id, ids: seq<Segment>, again: seq<Segment>, saved: bool)
    | Seal(i: Id, op: Op)
    | Retire(i: Id)
    | Abort(i: Id)
    | Unlink(i: Id)
    | Restart
    | Cut(loss: Loss, kept: Book, back: set<Session>)

  /** Nobody is at the session's begin gate, and no draft of it is registered. */
  predicate GateFree(v: State, s: Session) {
    s !in v.live && s !in v.missed && s !in v.claims && s !in v.resuming && s !in v.ready
  }

  ghost function Numbers(files: map<Session, File>): set<Seq> { set s | s in files :: files[s].num }

  /** A set-aside file counts as well. */
  ghost function DraftNumbers(k: Disk): set<Seq> { Numbers(k.files) + Numbers(k.stale) }

  ghost function Records(b: Book): set<Seq> { set x | x in b && b[x].mark.Recorded? :: b[x].mark.num }

  ghost predicate CanBegin(v: State, s: Session, op: BeginOp) {
    match op
    case Miss => GateFree(v, s) && s !in v.disk.files
    case SetAside => GateFree(v, s) && s in v.disk.files && v.disk.files[s].num in v.disk.shelf.lines
    case LoadFloor(n, whole) =>
      !v.floor && IsFound(v.issued, DraftNumbers(v.disk), Records(v.disk.book), n) && (whole ==> IsFloor(v.issued, DraftNumbers(v.disk), Records(v.disk.book), n))
    case Claim(n) => s in v.missed && IsClaim(v.issued, v.disk.shelf.lines, v.disk.shelf.names, n)
    case Fail => s in v.claims
    case Lose => s in v.claims
    case Write => s in v.claims
    case Read => GateFree(v, s) && s in v.disk.files && v.disk.files[s].num !in v.disk.shelf.lines
    case Rewrite => s in v.resuming
    case Retain => s in v.resuming
    case Publish(i) => s in v.ready && i !in v.drafts
  }

  predicate CanSeal(k: Shelf, d: Draft, op: Op) {
    if op.Start? then !d.sealed
    else !d.fin.Idle? && CanDo(k, op, d.fin.at, d.fin.stage) && (d.fin.Done? <==> Rank(d.fin.stage) >= 7)
  }

  ghost predicate Enabled(v: State, e: Event) {
    match e
    case OpenSegment(x, s) => 0 < x && forall y | y in v.disk.book :: y < x
    case CloseSegment(x) => x in v.disk.book
    case Begin(s, op) => CanBegin(v, s, op)
    case Persist(i) => i in v.drafts && !v.drafts[i].sealed
    case Advance(i, ids, again, _) =>
      i in v.drafts && !v.drafts[i].sealed && (forall x | x in ids :: x !in v.drafts[i].enc) && (forall x | x in again :: x in v.drafts[i].enc)
    case Seal(i, op) => i in v.drafts && CanSeal(v.disk.shelf, v.drafts[i], op)
    case Retire(i) => i in v.drafts && v.drafts[i].fin.Done? && v.drafts[i].fin.stage == Committed
    case Abort(i) => i in v.drafts
    case Unlink(i) => i in v.drafts && v.drafts[i].leaving
    case Restart => true
    case Cut(loss, kept, back) =>
      CanLose(v.disk.shelf, loss) && Extends(v.disk.synced, kept) && TakenFrom(kept, v.disk.book) && back <= v.disk.removed.Keys
  }

  /** Some caller may still add to it, or is sealing it. */
  predicate Open(d: Draft) { !d.sealed || d.fin.Active? }

  /** A removal of the session's file is under way. */
  predicate Pending(v: State, s: Session) { exists i | i in v.drafts :: v.drafts[i].session == s && v.drafts[i].leaving }

  function Pairs(s: Session, xs: set<Segment>): set<(Session, Segment)> { set x | x in xs :: (s, x) }

  /** Written atomically; the directory sync settles every removal before it. */
  function SaveFile(k: Disk, s: Session, f: File): Disk { k.(files := k.files[s := f], removed := map[]) }

  function DropFile(k: Disk, s: Session): Disk {
    if s in k.files then k.(files := k.files - {s}, removed := k.removed[s := k.files[s]]) else k
  }

  function Save(k: Disk, d: Draft): Disk { SaveFile(k, d.session, File(d.num, d.enc)) }

  function Overlap(l: Ledger, now: bool): Ledger { l.(overlapped := l.overlapped || now) }

  /** Off the registry, if this very draft is on it; the file is to go too, unless a newer draft owns it. */
  function Unregister(v: State, i: Id): State
    requires i in v.drafts
  {
    var d := v.drafts[i];
    if d.session in v.live && v.live[d.session] != i then v
    else v.(live := v.live - {d.session}, drafts := v.drafts[i := d.(leaving := true)], ledger := Overlap(v.ledger, d.session in v.ready))
  }

  predicate Crosses(b: Book, s: Session, ids: seq<Segment>) { exists x | x in ids :: x in b && b[x].session != s }

  /** The batch is taken whole or not at all; segments the log forgot are reserved again if they can be.  If the
      file cannot be written the caller is told so, and the draft holds the batch all the same. */
  function AfterAdvance(v: State, i: Id, ids: seq<Segment>, again: seq<Segment>, saved: bool): State
    requires i in v.drafts
  {
    var d := v.drafts[i];
    var ok := Reservable(v.disk.book, ids, d.num);
    var d' := if ok then d.(enc := d.enc + Elements(ids)) else d;
    var b := Reserve(v.disk.book, ids, d.num);
    var b' := if ok then Reserve(b, again, d.num) else b;
    v.(drafts := v.drafts[i := d'], disk := (if saved then Save(v.disk, d') else v.disk).(book := b'),
       past := v.past.(crossed := v.past.crossed || Crosses(v.disk.book, d.session, ids)),
       ledger := if saved then v.ledger.(accepted := v.ledger.accepted + Pairs(d.session, if ok then Elements(ids) else {})) else v.ledger.(unsaved := true))
  }

  /** A batch the log takes is in the draft, marked into its number, and if the write succeeds in its file and
      accepted, every segment of it; one it refuses leaves draft and marks as they were. */
  lemma AdvanceTakes(v: State, e: Event)
    requires Enabled(v, e) && e.Advance?
    ensures var w, d := Step(v, e), v.drafts[e.i];
            && e.i in w.drafts && w.drafts[e.i] == d.(enc := w.drafts[e.i].enc) && forall j | j != e.i :: (j in w.drafts <==> j in v.drafts) && (j in v.drafts ==> w.drafts[j] == v.drafts[j])
    ensures var w, d := Step(v, e), v.drafts[e.i];
            Reservable(v.disk.book, e.ids, d.num) ==>
              && (forall x: Segment :: x in w.drafts[e.i].enc <==> x in d.enc || x in e.ids)
              && (forall x | x in e.ids :: x in w.disk.book && !w.disk.book[x].mark.Free? && w.disk.book[x].mark.num == d.num)
              && (Reservable(v.disk.book, e.again, d.num) ==> forall x | x in e.again :: x in w.disk.book && !w.disk.book[x].mark.Free? && w.disk.book[x].mark.num == d.num)
              && (e.saved ==> forall x | x in e.ids :: (d.session, x) in w.ledger.accepted)
    ensures var w, d := Step(v, e), v.drafts[e.i];
            !Reservable(v.disk.book, e.ids, d.num) ==> w.drafts[e.i].enc == d.enc && w.disk.book == v.disk.book && w.ledger.accepted == v.ledger.accepted
    ensures var w, d := Step(v, e), v.drafts[e.i];
            if e.saved then d.session in w.disk.files && w.disk.files[d.session] == File(d.num, w.drafts[e.i].enc)
            else w.disk.files == v.disk.files && w.ledger.unsaved && w.ledger.accepted == v.ledger.accepted
  {
    hide CanBegin, CanSeal, Crosses, Pairs, ReserveFault;
    NoPairsOf(v.drafts[e.i].session, Elements(e.ids));
    TakesMarks(v.disk.book, e.ids, e.again, v.drafts[e.i].num);
  }

  lemma NoPairsOf(s: Session, xs: set<Segment>)
    ensures Pairs(s, {}) == {} && forall x | x in xs :: (s, x) in Pairs(s, xs)
  {
  }

  lemma TakesMarks(b: Book, ids: seq<Segment>, again: seq<Segment>, n: Seq)
    ensures !Reservable(b, ids, n) ==> Reserve(b, ids, n) == b
    ensures Reservable(b, ids, n) ==> forall x | x in ids ::
              var c := Reserve(Reserve(b, ids, n), again, n); x in c && !c[x].mark.Free? && c[x].mark.num == n
    ensures Reservable(b, ids, n) && Reservable(b, again, n) ==> forall x | x in again ::
              var c := Reserve(Reserve(b, ids, n), again, n); x in c && !c[x].mark.Free? && c[x].mark.num == n
  {
    if Reservable(b, ids, n) {
      var c := Reserve(b, ids, n);
      TakenMarks(b, ids, n);
      if Reservable(b, again, n) {
        forall x | x in again ensures ReserveFault(c, x, n).None? {
          assert ReserveFault(b, x, n).None?;
        }
        TakenMarks(c, again, n);
      }
    }
  }

  lemma TakenMarks(b: Book, ids: seq<Segment>, n: Seq)
    requires Reservable(b, ids, n)
    ensures forall x | x in ids :: var c := Reserve(b, ids, n); x in c && !c[x].mark.Free? && c[x].mark.num == n
  {
    forall x | x in ids ensures var c := Reserve(b, ids, n); x in c && !c[x].mark.Free? && c[x].mark.num == n {
      assert ReserveFault(b, x, n).None?;
    }
  }

  predicate SavesFile(e: Event) { e.Persist? || (e.Advance? && e.saved) }

  /** Reservations die with the process: they were never written. */
  function Reopened(b: Book): Book { map x | x in b :: if b[x].mark.Reserved? then b[x].(mark := Free) else b[x] }

  /** Every record of `b` is in `c`. */
  predicate Extends(b: Book, c: Book) {
    forall x | x in b ::
      x in c && c[x].session == b[x].session && (b[x].closed ==> c[x].closed) && (b[x].mark.Recorded? ==> c[x].mark == b[x].mark)
  }

  /** Every record of `c` is one of `b`. */
  predicate TakenFrom(c: Book, b: Book) {
    forall x | x in c ::
      x in b && c[x].session == b[x].session && (c[x].closed ==> b[x].closed) && (c[x].mark.Free? || (c[x].mark.Recorded? && c[x].mark == b[x].mark))
  }

  /** Some draft file holds a segment whose open or close record is gone. */
  predicate Unlogs(b: Book, c: Book, files: map<Session, File>) {
    exists s | s in files :: exists x | x in files[s].enc :: x in b && (x in c ==> b[x].closed && !c[x].closed)
  }

  ghost function AfterBegin(v: State, s: Session, op: BeginOp): State
    requires CanBegin(v, s, op)
  {
    match op
    case Miss => v.(missed := v.missed + {s})
    case SetAside =>
      var n := v.disk.files[s].num;
      v.(missed := v.missed + {s}, disk := DropFile(v.disk, s).(stale := v.disk.stale[s := v.disk.files[s]]),
         ledger := v.ledger.(misfiled := v.ledger.misfiled || !(n in v.ledger.sealedBy && v.ledger.sealedBy[n].session == s)))
    case LoadFloor(n, whole) => v.(issued := n, floor := whole)
    case Claim(n) =>
      v.(missed := v.missed - {s}, claims := v.claims[s := n], issued := n, ledger := v.ledger.(blind := v.ledger.blind || !v.floor))
    case Fail => v.(claims := v.claims - {s}, issued := GivenBack(v.issued, v.claims[s]))
    case Lose => v.(claims := v.claims - {s})
    case Write => Written(v, s, File(v.claims[s], {})).(claims := v.claims - {s})
    case Read => v.(resuming := v.resuming[s := v.disk.files[s]])
    case Rewrite => Written(v, s, v.resuming[s]).(resuming := v.resuming - {s})
    case Retain =>
      v.(ready := v.ready[s := v.resuming[s]], resuming := v.resuming - {s}, ledger := Overlap(v.ledger, Pending(v, s)).(unsaved := true))
    case Publish(i) =>
      var f := v.ready[s];
      v.(ready := v.ready - {s}, drafts := v.drafts[i := Draft(s, f.num, f.enc, false, Idle, false)], live := v.live[s := i],
         issued := Noted(v.issued, f.num), ledger := v.ledger.(accepted := v.ledger.accepted + Pairs(s, f.enc)))
  }

  function Written(v: State, s: Session, f: File): State {
    v.(ready := v.ready[s := f], disk := SaveFile(v.disk, s, f), ledger := Overlap(v.ledger, Pending(v, s)))
  }

  /** What a step of Finalize does to its draft. */
  function SealDraft(k: Shelf, d: Draft, op: Op): Draft
    requires CanSeal(k, d, op)
  {
    match op
    case Start => d.(sealed := true, fin := Active(d.num, d.enc, Taken))
    case Bump => d.(fin := Active(d.fin.at + 1, d.fin.snap, Taken))
    case GiveUp => d.(sealed := false, fin := Idle)
    case CreateFails => d.(sealed := false, fin := Idle)
    case SyncBytes => d.(num := d.fin.at, fin := Active(d.fin.at, d.fin.snap, BytesDurable))
    case WriteLine => d.(fin := Done(d.fin.at, d.fin.snap, LineWritten))
    case SyncLine => d.(fin := Done(d.fin.at, d.fin.snap, LineDurable))
    case SyncManifestName => d.(fin := Done(d.fin.at, d.fin.snap, Committed))
    case NotDurable => d.(fin := Done(d.fin.at, d.fin.snap, Committed))
    case _ => d.(fin := Active(d.fin.at, d.fin.snap, NextStage(op)))
  }

  /** And to the disk. */
  ghost function SealDisk(k: Disk, d: Draft, op: Op): Disk
    requires CanSeal(k.shelf, d, op)
  {
    match op
    case Start => k
    case CommitMarks => k.(book := Commit(k.book, d.fin.snap, d.fin.at))
    case MarksFail(some) => k.(book := Commit(k.book, some * d.fin.snap, d.fin.at))    // what was written before the failure
    case SyncMarks => if d.fin.snap == {} then k else k.(synced := Reopened(k.book))    // nothing to mark, nothing synced
    case _ => k.(shelf := Effect(k.shelf, op, d.fin.at, d.fin.snap))
  }

  /** Some segment of the seal cannot be recorded into its number. */
  predicate Drifts(b: Book, d: Draft, op: Op) {
    op.CommitMarks? && !d.fin.Idle? && exists x | x in d.fin.snap :: CommitFault(b, x, d.fin.at).Some?
  }

  function SealLedger(l: Ledger, b: Book, i: Id, d: Draft, op: Op): Ledger {
    l.(drifted := l.drifted || Drifts(b, d, op),
       sealedBy := if op.WriteLine? && !d.fin.Idle? then l.sealedBy[d.fin.at := Sealer(d.session, i)] else l.sealedBy)
  }

  ghost function AfterSeal(v: State, i: Id, op: Op): State
    requires i in v.drafts && CanSeal(v.disk.shelf, v.drafts[i], op)
  {
    var d := v.drafts[i];
    v.(drafts := v.drafts[i := SealDraft(v.disk.shelf, d, op)], disk := SealDisk(v.disk, d, op),
       past := v.past.(bumped := v.past.bumped || op.Bump?, unmarked := v.past.unmarked || op.MarksFail?),
       ledger := SealLedger(v.ledger, v.disk.book, i, d, op))
  }

  /** An aborted draft is closed, and what an open one held is discarded. */
  function AfterAbort(v: State, i: Id): State
    requires i in v.drafts
  {
    var w, d := Unregister(v, i), v.drafts[i];
    w.(drafts := w.drafts[i := w.drafts[i].(sealed := true)], past := v.past.(raced := v.past.raced || d.fin.Active?),
       ledger := w.ledger.(accepted := if Open(d) then w.ledger.accepted - Pairs(d.session, d.enc) else w.ledger.accepted))
  }

  function CutFiles(k: Disk, back: set<Session>): map<Session, File>
    requires back <= k.removed.Keys
  {
    k.files + (map s | s in back :: k.removed[s])
  }

  function CutDisk(k: Disk, loss: Loss, kept: Book, back: set<Session>): Disk
    requires back <= k.removed.Keys
  {
    Disk(CutFiles(k, back), map[], k.stale, kept, kept, AfterCut(k.shelf, loss))
  }

  ghost function Step(v: State, e: Event): State
    requires Enabled(v, e)
  {
    match e
    case OpenSegment(x, s) => v.(disk := v.disk.(book := v.disk.book[x := Entry(s, false, Free)]))
    case CloseSegment(x) => v.(disk := v.disk.(book := v.disk.book[x := v.disk.book[x].(closed := true)]))
    case Begin(s, op) => AfterBegin(v, s, op)
    case Persist(i) => v.(disk := Save(v.disk, v.drafts[i]))
    case Advance(i, ids, again, saved) => AfterAdvance(v, i, ids, again, saved)
    case Seal(i, op) => AfterSeal(v, i, op)
    case Retire(i) => Unregister(v, i)
    case Abort(i) => AfterAbort(v, i)
    case Unlink(i) =>
      v.(drafts := v.drafts[i := v.drafts[i].(leaving := false)], disk := DropFile(v.disk, v.drafts[i].session))
    case Restart => Idling(v.disk.(book := Reopened(v.disk.book)), v.past.(restarted := true), v.ledger)
    case Cut(loss, kept, back) =>
      var unlogged := v.past.unlogged || Unlogs(v.disk.book, kept, CutFiles(v.disk, back));
      Idling(CutDisk(v.disk, loss, kept, back), v.past.(restarted := true, unlogged := unlogged), v.ledger)
  }

  // ------------------------------------------------------------------------------------------
  // Numbers
  // ------------------------------------------------------------------------------------------

  /** The places that hold a number: a manifest line is its sealer's session's. */
  datatype Place = InDraft(i: Id) | InFile(s: Session) | InResume(s: Session) | InReady(s: Session) | InRemoved(s: Session) | InLine(n: Seq)

  predicate Used(v: State, p: Place) {
    match p
    case InDraft(i) => i in v.drafts
    case InFile(s) => s in v.disk.files
    case InResume(s) => s in v.resuming
    case InReady(s) => s in v.ready
    case InRemoved(s) => s in v.disk.removed
    case InLine(n) => n in v.disk.shelf.lines && n in v.ledger.sealedBy
  }

  function SessionAt(v: State, p: Place): Session
    requires Used(v, p)
  {
    match p
    case InDraft(i) => v.drafts[i].session
    case InLine(n) => v.ledger.sealedBy[n].session
    case _ => p.s
  }

  function NumAt(v: State, p: Place): Seq
    requires Used(v, p)
  {
    match p
    case InDraft(i) => v.drafts[i].num
    case InFile(s) => v.disk.files[s].num
    case InResume(s) => v.resuming[s].num
    case InReady(s) => v.ready[s].num
    case InRemoved(s) => v.disk.removed[s].num
    case InLine(n) => n
  }

  /** What is to be had from there for a draft; a line is not. */
  function EncAt(v: State, p: Place): set<Segment>
    requires Used(v, p)
  {
    match p
    case InDraft(i) => v.drafts[i].enc
    case InFile(s) => v.disk.files[s].enc
    case InResume(s) => v.resuming[s].enc
    case InReady(s) => v.ready[s].enc
    case InRemoved(s) => v.disk.removed[s].enc
    case InLine(n) => {}
  }

  predicate Writable(v: State, p: Place)
    requires Used(v, p)
  {
    p.InDraft? ==> Open(v.drafts[p.i])
  }

  /** A number belongs to one session. */
  ghost predicate OwnersOk(v: State) {
    forall p, q | Used(v, p) && Used(v, q) && NumAt(v, p) == NumAt(v, q) :: SessionAt(v, p) == SessionAt(v, q)
  }

  /** A number being claimed is nobody else's, but perhaps a removed file's. */
  ghost predicate ClaimsOk(v: State) {
    && (forall s | s in v.claims :: v.floor && 0 < v.claims[s] <= v.issued)
    && (forall s, t | s in v.claims && t in v.claims && v.claims[s] == v.claims[t] :: s == t)
    && (forall s, p | s in v.claims && Used(v, p) && !p.InRemoved? :: NumAt(v, p) != v.claims[s])
  }

  /** What the counter is to bound. */
  predicate Counted(p: Place) { !p.InRemoved? && !p.InLine? }

  /** The number is bounded, or still on file for the floor to find. */
  predicate Findable(v: State, s: Session, n: Seq) { n <= v.issued || (s in v.disk.files && v.disk.files[s].num == n) }

  /** Drafts are bounded; once the floor is loaded, so is the rest.  Before, a file only if its session
      has a draft, and a draft being read back only if it is, or still matches its file. */
  ghost predicate BoundsOk(v: State) {
    && (forall i | i in v.drafts :: v.drafts[i].num <= v.issued)
    && (v.floor ==> forall p | Used(v, p) && Counted(p) :: NumAt(v, p) <= v.issued)
    && (forall i | i in v.drafts && v.drafts[i].session in v.disk.files :: v.disk.files[v.drafts[i].session].num <= v.issued)
    && (forall s | s in v.resuming :: Findable(v, s, v.resuming[s].num))
    && (forall s | s in v.ready :: Findable(v, s, v.ready[s].num))
    && (forall s | s in v.resuming && s in v.disk.files :: v.disk.files[s].num <= v.issued || v.disk.files[s].num == v.resuming[s].num)
    && (forall s | s in v.ready && s in v.disk.files :: v.disk.files[s].num <= v.issued || v.disk.files[s].num == v.ready[s].num)
  }

  ghost predicate AtOwnNumber(v: State) {
    forall i | i in v.drafts && !v.drafts[i].fin.Idle? :: v.drafts[i].fin.at == v.drafts[i].num
  }

  ghost predicate NumInv(v: State) { OwnersOk(v) && ClaimsOk(v) && BoundsOk(v) && AtOwnNumber(v) }

  /** What is at `p` in `w` was at `q` in `v`. */
  predicate CameFrom(v: State, q: Place, w: State, p: Place) {
    && Used(v, q) && Used(w, p) && NumAt(v, q) == NumAt(w, p) && SessionAt(v, q) == SessionAt(w, p)
    && EncAt(v, q) == EncAt(w, p) && (Writable(w, p) ==> Writable(v, q)) && (q.InLine? ==> p.InLine?)
  }

  /** It holds nothing yet, at the number that was being claimed, and no removal is unsettled. */
  predicate NewlyClaimed(v: State, e: Event, w: State, p: Place) {
    && e.Begin? && e.begin.Write? && e.s in v.claims && e.s !in w.claims && w.disk.removed == map[]
    && Used(w, p) && NumAt(w, p) == v.claims[e.s] && SessionAt(w, p) == e.s && EncAt(w, p) == {}
  }

  /** The line a draft has just written at its own number. */
  predicate NewLine(v: State, e: Event, w: State, p: Place) {
    && e.Seal? && e.op.WriteLine? && e.i in v.drafts && p == InLine(v.drafts[e.i].num)
    && Used(w, p) && SessionAt(w, p) == v.drafts[e.i].session
  }

  /** Where everything was before a step that adds nothing to a draft. */
  lemma Before(v: State, e: Event, p: Place) returns (q: Place)
    requires Enabled(v, e) && AtOwnNumber(v) && !Step(v, e).past.bumped && Used(Step(v, e), p) && !e.Advance?
    ensures CameFrom(v, q, Step(v, e), p) || NewlyClaimed(v, e, Step(v, e), p) || NewLine(v, e, Step(v, e), p)
    ensures q.InRemoved? ==> p.InRemoved? || e.Cut?
  {
    hide Reopened, CanBegin, AfterBegin, CanSeal, AfterSeal, AfterAbort, AfterCut, CanLose, CameFrom, NewlyClaimed, NewLine;
    match e
    case Begin(s, op) => q := BeforeBegin(v, s, op, p);
    case Persist(i) => q := BeforePersist(v, e, p);
    case Seal(i, op) =>
      SealPast(v, i, op);
      q := BeforeSeal(v, i, op, p);
    case Retire(i) => q := BeforeLeave(v, e, p);
    case Abort(i) => q := BeforeLeave(v, e, p);
    case Unlink(i) => q := BeforeUnlink(v, e, p);
    case Cut(_, _, _) => q := BeforeCut(v, e, p);
    case _ => q := BeforeOther(v, e, p);
  }

  lemma BeforeOther(v: State, e: Event, p: Place) returns (q: Place)
    requires Enabled(v, e) && (e.OpenSegment? || e.CloseSegment? || e.Restart?) && Used(Step(v, e), p)
    ensures CameFrom(v, q, Step(v, e), p)
    ensures q.InRemoved? ==> p.InRemoved?
  {
    hide Reopened, CanBegin, CanSeal;
    q := p;
  }

  lemma BeforePersist(v: State, e: Event, p: Place) returns (q: Place)
    requires Enabled(v, e) && e.Persist? && Used(Step(v, e), p)
    ensures CameFrom(v, q, Step(v, e), p)
    ensures q.InRemoved? ==> p.InRemoved?
  {
    hide CanBegin, CanSeal;
    q := if p == InFile(v.drafts[e.i].session) then InDraft(e.i) else p;
  }

  lemma BeforeLeave(v: State, e: Event, p: Place) returns (q: Place)
    requires Enabled(v, e) && (e.Retire? || e.Abort?) && Used(Step(v, e), p)
    ensures CameFrom(v, q, Step(v, e), p)
    ensures q.InRemoved? ==> p.InRemoved?
  {
    hide CanBegin, CanSeal, Pairs, CameFrom;
    q := p;
    LeavingSame(v, e.i, Step(v, e), p);
  }

  lemma LeavingSame(v: State, i: Id, w: State, p: Place)
    requires i in v.drafts && i in w.drafts && w.drafts == v.drafts[i := w.drafts[i]] && w.drafts[i].session == v.drafts[i].session
    requires w.drafts[i].num == v.drafts[i].num && w.drafts[i].enc == v.drafts[i].enc && (Open(w.drafts[i]) ==> Open(v.drafts[i]))
    requires w.disk == v.disk && w.resuming == v.resuming && w.ready == v.ready && w.ledger.sealedBy == v.ledger.sealedBy && Used(w, p)
    ensures CameFrom(v, p, w, p)
  {
  }

  lemma BeforeUnlink(v: State, e: Event, p: Place) returns (q: Place)
    requires Enabled(v, e) && e.Unlink? && Used(Step(v, e), p)
    ensures CameFrom(v, q, Step(v, e), p)
    ensures q.InRemoved? ==> p.InRemoved?
  {
    hide CanBegin, CanSeal;
    var s := v.drafts[e.i].session;
    q := if p == InRemoved(s) && s in v.disk.files then InFile(s) else p;
  }

  lemma BeforeCut(v: State, e: Event, p: Place) returns (q: Place)
    requires Enabled(v, e) && e.Cut? && Used(Step(v, e), p)
    ensures CameFrom(v, q, Step(v, e), p)
  {
    hide CanBegin, CanSeal, Reopened, Unlogs;
    q := if p.InFile? && p.s in e.back then InRemoved(p.s) else p;
  }

  lemma BeforeSeal(v: State, i: Id, op: Op, p: Place) returns (q: Place)
    requires Enabled(v, Seal(i, op)) && AtOwnNumber(v) && !op.Bump? && Used(Step(v, Seal(i, op)), p)
    ensures CameFrom(v, q, Step(v, Seal(i, op)), p) || NewLine(v, Seal(i, op), Step(v, Seal(i, op)), p)
    ensures q.InRemoved? ==> p.InRemoved?
  {
    hide CanSeal, SealDraft, SealDisk, Drifts;
    SealPlace(v.disk, v.drafts[i], op);
    SealLines(v, i, op);
    q := p;
  }

  lemma SealPast(v: State, i: Id, op: Op)
    requires Enabled(v, Seal(i, op))
    ensures var p := Step(v, Seal(i, op)).past; p == v.past.(bumped := v.past.bumped || op.Bump?, unmarked := v.past.unmarked || op.MarksFail?)
  {
    hide CanSeal, SealDraft, SealDisk, SealLedger;
  }

  lemma SealPlace(k: Disk, d: Draft, op: Op)
    requires CanSeal(k.shelf, d, op) && !op.Bump? && (!d.fin.Idle? ==> d.fin.at == d.num)
    ensures var c := SealDraft(k.shelf, d, op); c.num == d.num && c.session == d.session && c.enc == d.enc && (Open(c) ==> Open(d))
    ensures SealDisk(k, d, op).files == k.files && SealDisk(k, d, op).removed == k.removed
  {
    hide Commit, Effect;
  }

  lemma SealLines(v: State, i: Id, op: Op)
    requires Enabled(v, Seal(i, op))
    ensures var w, d := Step(v, Seal(i, op)), v.drafts[i];
            && (op.WriteLine? ==> !d.fin.Idle? && w.disk.shelf.lines == v.disk.shelf.lines + {d.fin.at} && w.ledger.sealedBy == v.ledger.sealedBy[d.fin.at := Sealer(d.session, i)])
            && (!op.WriteLine? ==> w.disk.shelf.lines == v.disk.shelf.lines && w.ledger.sealedBy == v.ledger.sealedBy)
  {
    hide Commit, SealDraft, Drifts;
  }

  lemma BeforeBegin(v: State, s: Session, op: BeginOp, p: Place) returns (q: Place)
    requires CanBegin(v, s, op) && Used(AfterBegin(v, s, op), p)
    ensures CameFrom(v, q, AfterBegin(v, s, op), p) || NewlyClaimed(v, Begin(s, op), AfterBegin(v, s, op), p)
    ensures q.InRemoved? ==> p.InRemoved?
  {
    hide CanBegin, AfterBegin, CameFrom, NewlyClaimed;
    if op.Write? || op.Rewrite? || op.SetAside? { q := BeforeFile(v, s, op, p); } else { q := BeforeGate(v, s, op, p); }
  }

  lemma BeforeFile(v: State, s: Session, op: BeginOp, p: Place) returns (q: Place)
    requires CanBegin(v, s, op) && (op.Write? || op.Rewrite? || op.SetAside?) && Used(AfterBegin(v, s, op), p)
    ensures CameFrom(v, q, AfterBegin(v, s, op), p) || NewlyClaimed(v, Begin(s, op), AfterBegin(v, s, op), p)
    ensures q.InRemoved? ==> p.InRemoved?
  {
    hide IsClaim, IsFloor, IsFound, GateFree, Pending;
    q := p;
    if op.Rewrite? && (p == InReady(s) || p == InFile(s)) { q := InResume(s); }
    if op.SetAside? && p == InRemoved(s) { q := InFile(s); }
  }

  lemma BeforeGate(v: State, s: Session, op: BeginOp, p: Place) returns (q: Place)
    requires CanBegin(v, s, op) && !op.Write? && !op.Rewrite? && !op.SetAside? && Used(AfterBegin(v, s, op), p)
    ensures CameFrom(v, q, AfterBegin(v, s, op), p)
    ensures q.InRemoved? ==> p.InRemoved?
  {
    hide IsClaim, IsFloor, IsFound, GateFree, Pairs, Pending;
    q := p;
    if op.Read? && p == InResume(s) { q := InFile(s); }
    if op.Retain? && p == InReady(s) { q := InResume(s); }
    if op.Publish? && p == InDraft(op.i) { q := InReady(s); }
  }

  /** A batch changes what its draft and its draft's file hold, and no number. */
  lemma BeforeAdvance(v: State, e: Event, p: Place) returns (q: Place)
    requires Enabled(v, e) && e.Advance? && Used(Step(v, e), p)
    ensures var w, d := Step(v, e), v.drafts[e.i];
            || (CameFrom(v, q, w, p) && p != InDraft(e.i))
            || (q == InDraft(e.i) && Counted(p) && NumAt(w, p) == d.num && SessionAt(w, p) == d.session && EncAt(w, p) == w.drafts[e.i].enc)
    ensures q.InRemoved? ==> p.InRemoved?
  {
    hide Reserve, Reservable, CanBegin, CanSeal, Pairs;
    q := if e.saved && p == InFile(v.drafts[e.i].session) then InDraft(e.i) else p;
  }

  /** A number stays where its session is, unless it is being claimed; a draft's own line takes its number. */
  lemma NumberBefore(v: State, e: Event, p: Place) returns (q: Place)
    requires Enabled(v, e) && AtOwnNumber(v) && !Step(v, e).past.bumped && Used(Step(v, e), p)
    ensures var w := Step(v, e);
            || (Used(v, q) && NumAt(v, q) == NumAt(w, p) && SessionAt(v, q) == SessionAt(w, p) && (q.InLine? ==> p.InLine?) &&
                (q.InRemoved? ==> p.InRemoved? || e.Cut?))
            || NewlyClaimed(v, e, w, p)
  {
    hide Step, CanBegin, CanSeal;
    if e.Advance? { q := BeforeAdvance(v, e, p); }
    else {
      q := Before(v, e, p);
      if NewLine(v, e, Step(v, e), p) { q := InDraft(e.i); }
    }
  }

  lemma StepOwners(v: State, e: Event)
    requires Enabled(v, e) && NumInv(v) && !Step(v, e).past.bumped
    ensures OwnersOk(Step(v, e))
  {
    hide Step, Enabled, BoundsOk;
    var w := Step(v, e);
    forall p, q | Used(w, p) && Used(w, q) && NumAt(w, p) == NumAt(w, q) ensures SessionAt(w, p) == SessionAt(w, q) {
      var p0 := NumberBefore(v, e, p);
      var q0 := NumberBefore(v, e, q);
    }
  }

  /** Only Begin moves the counters; the end of the process forgets them. */
  lemma CountersStay(v: State, e: Event)
    requires Enabled(v, e) && !e.Begin? && !e.Restart? && !e.Cut?
    ensures var w := Step(v, e);
            w.issued == v.issued && w.floor == v.floor && w.missed == v.missed && w.claims == v.claims && w.resuming == v.resuming && w.ready == v.ready
  {
    hide CanSeal, SealDraft, SealDisk, SealLedger, Reserve, Reservable, Elements, Pairs;
  }

  lemma EndForgets(v: State, e: Event)
    requires Enabled(v, e) && (e.Restart? || e.Cut?)
    ensures var w := Step(v, e);
            w.drafts == map[] && w.live == map[] && w.missed == {} && w.claims == map[] && w.resuming == map[] && w.ready == map[] && !w.floor
    ensures Step(v, e).past == v.past.(restarted := true, unlogged := Step(v, e).past.unlogged) && Step(v, e).ledger == v.ledger
    ensures v.past.unlogged ==> Step(v, e).past.unlogged
  {
    hide Reopened, AfterCut;
  }

  /** A claim is above every number in use. */
  lemma ClaimIsAbove(v: State, n: Seq)
    requires IsClaim(v.issued, v.disk.shelf.lines, v.disk.shelf.names, n)
    ensures n > v.issued && forall m | m in v.disk.shelf.lines :: m < n
  {
  }

  /** A claim is new and above everything, or was there before; giving one back leaves the others. */
  ghost predicate ClaimsMoved(v: State, w: State) {
    && (forall s | s in w.claims :: w.floor && 0 < w.claims[s] <= w.issued)
    && (forall s, t | s in w.claims && t in w.claims && w.claims[s] == w.claims[t] :: s == t)
    && (forall s | s in w.claims :: (s in v.claims && v.claims[s] == w.claims[s]) ||
                                    (v.claims.Keys <= w.claims.Keys && v.floor && w.claims[s] > v.issued &&
                                     forall m | m in v.disk.shelf.lines :: m < w.claims[s]))
  }

  lemma StepClaims(v: State, e: Event)
    requires Enabled(v, e) && NumInv(v) && !Step(v, e).past.bumped && !Step(v, e).ledger.blind
    ensures ClaimsOk(Step(v, e))
  {
    hide Step, Enabled, OwnersOk;
    var w := Step(v, e);
    ClaimsMove(v, e);
    if e.Restart? || e.Cut? { EndForgets(v, e); }
    else {
      forall s, p | s in w.claims && Used(w, p) && !p.InRemoved? ensures NumAt(w, p) != w.claims[s] {
        var q := NumberBefore(v, e, p);
      }
    }
  }

  lemma ClaimsMove(v: State, e: Event)
    requires Enabled(v, e) && ClaimsOk(v) && BoundsOk(v) && !Step(v, e).ledger.blind
    ensures ClaimsMoved(v, Step(v, e))
  {
    hide Step, CanBegin, AfterBegin;
    match e
    case Begin(s, op) => BeginClaims(v, s, op);
    case Restart => EndForgets(v, e);
    case Cut(_, _, _) => EndForgets(v, e);
    case _ => CountersStay(v, e);
  }

  lemma BeginClaims(v: State, t: Session, op: BeginOp)
    requires Enabled(v, Begin(t, op)) && ClaimsOk(v) && !Step(v, Begin(t, op)).ledger.blind
    ensures ClaimsMoved(v, Step(v, Begin(t, op)))
  {
    hide Numbers, Records, IsClaim, Pending, Pairs, Used;
    if op.Claim? { ClaimIsAbove(v, op.n); }
  }

  lemma StepBounds(v: State, e: Event)
    requires Enabled(v, e) && NumInv(v) && !Step(v, e).past.bumped
    ensures BoundsOk(Step(v, e))
  {
    hide Step, CanBegin, AfterBegin, OwnersOk, CanSeal, Used;
    match e
    case Begin(s, op) => BeginBounds(v, s, op);
    case Restart => EndForgets(v, e);
    case Cut(_, _, _) => EndForgets(v, e);
    case _ => PlainBounds(v, e);
  }

  lemma PlainBounds(v: State, e: Event)
    requires Enabled(v, e) && !e.Begin? && !e.Restart? && !e.Cut? && NumInv(v) && !Step(v, e).past.bumped
    ensures BoundsOk(Step(v, e))
  {
    hide Step, Enabled, OwnersOk, NumAt, FileRewritten;
    CountersStay(v, e);
    var w := Step(v, e);
    if w.floor {
      forall p | Used(w, p) && Counted(p) ensures NumAt(w, p) <= w.issued { var q := NumberBefore(v, e, p); }
      FloorBounds(w);
    } else {
      FilesMove(v, e);
      forall i | i in w.drafts ensures w.drafts[i].num <= w.issued { DraftBefore(v, e, i); }
      if w.disk.files != v.disk.files {
        var j :| j in v.drafts && FileRewritten(v.disk.files, w.disk.files, v.drafts[j]);
        RewriteBounds(v, w.disk.files, j);
      }
    }
  }

  /** A draft in memory may rewrite its session's file: what the file held was bounded already. */
  lemma RewriteBounds(v: State, files: map<Session, File>, j: Id)
    requires BoundsOk(v) && j in v.drafts && FileRewritten(v.disk.files, files, v.drafts[j])
    ensures forall i | i in v.drafts && v.drafts[i].session in files :: files[v.drafts[i].session].num <= v.issued
    ensures forall s | s in v.resuming :: v.resuming[s].num <= v.issued || (s in files && files[s].num == v.resuming[s].num)
    ensures forall s | s in v.ready :: v.ready[s].num <= v.issued || (s in files && files[s].num == v.ready[s].num)
    ensures forall s | s in v.resuming && s in files :: files[s].num <= v.issued || files[s].num == v.resuming[s].num
    ensures forall s | s in v.ready && s in files :: files[s].num <= v.issued || files[s].num == v.ready[s].num
  {
    hide Used;
  }

  /** Outside Begin a draft keeps its session, and without a bump its number. */
  lemma DraftBefore(v: State, e: Event, i: Id)
    requires Enabled(v, e) && AtOwnNumber(v) && !e.Begin? && !Step(v, e).past.bumped && i in Step(v, e).drafts
    ensures i in v.drafts && Step(v, e).drafts[i].session == v.drafts[i].session && Step(v, e).drafts[i].num == v.drafts[i].num
  {
    hide Step, Enabled;
    IdsStay(v, e);
    SameId(v, e, i);
  }

  lemma IdsStay(v: State, e: Event)
    requires Enabled(v, e) && !e.Begin?
    ensures Step(v, e).drafts.Keys <= v.drafts.Keys
    ensures forall i | i in Step(v, e).drafts :: Step(v, e).drafts[i].session == v.drafts[i].session
  {
    hide CanBegin, CanSeal, SealDisk, SealLedger, Reserve, Reservable, Reopened, AfterCut, Pairs, Elements;
  }

  lemma SameId(v: State, e: Event, i: Id)
    requires Enabled(v, e) && AtOwnNumber(v) && !e.Begin? && !Step(v, e).past.bumped && i in Step(v, e).drafts && i in v.drafts
    ensures Step(v, e).drafts[i].num == v.drafts[i].num
  {
    hide CanBegin, CanSeal, SealDisk, SealLedger, SealDraft, Reserve, Reservable, Reopened, AfterCut, Pairs, Elements;
    if e.Seal? {
      SealPast(v, e.i, e.op);
      SealPlace(v.disk, v.drafts[e.i], e.op);
    }
  }

  predicate FileRewritten(before: map<Session, File>, after: map<Session, File>, d: Draft) {
    && (forall t | t in after && t != d.session :: t in before && after[t] == before[t])
    && (forall t | t in before && t != d.session :: t in after)
    && (d.session in after ==> after[d.session].num == d.num)
  }

  /** Outside Begin a file is written or removed only for the session of a draft in memory, and then it
      takes that draft's number. */
  lemma FilesMove(v: State, e: Event)
    requires Enabled(v, e) && !e.Begin? && !e.Restart? && !e.Cut?
    ensures var w := Step(v, e);
            w.disk.files == v.disk.files || (exists i | i in v.drafts :: FileRewritten(v.disk.files, w.disk.files, v.drafts[i]))
    ensures forall i | i in Step(v, e).drafts :: i in v.drafts && Step(v, e).drafts[i].session == v.drafts[i].session
  {
    hide Step, CanBegin, CanSeal, FileRewritten;
    IdsStay(v, e);
    if SavesFile(e) || e.Unlink? { Rewrites(v, e); } else { FilesStay(v, e); }
  }

  lemma SealFilesSame(v: State, i: Id, op: Op)
    requires Enabled(v, Seal(i, op))
    ensures Step(v, Seal(i, op)).disk.files == v.disk.files && Step(v, Seal(i, op)).disk.removed == v.disk.removed
  {
    hide CanBegin, SealDraft, SealLedger, Commit, Effect, Reopened, CanDo;
  }

  lemma FilesStay(v: State, e: Event)
    requires Enabled(v, e) && !e.Begin? && !SavesFile(e) && !e.Unlink? && !e.Cut?
    ensures Step(v, e).disk.files == v.disk.files
  {
    hide CanBegin, CanSeal, AfterSeal, Reopened, Pairs, Reserve, Reservable, Open;
    if e.Seal? { SealFilesSame(v, e.i, e.op); }
  }

  lemma Rewrites(v: State, e: Event)
    requires Enabled(v, e) && (SavesFile(e) || e.Unlink?)
    ensures FileRewritten(v.disk.files, Step(v, e).disk.files, v.drafts[e.i])
  {
    hide CanBegin, CanSeal, Reserve, Reservable, Pairs;
  }

  /** With the floor loaded one bound says it all. */
  lemma FloorBounds(w: State)
    requires forall p | Used(w, p) && Counted(p) :: NumAt(w, p) <= w.issued
    ensures BoundsOk(w)
  {
    forall i | i in w.drafts ensures w.drafts[i].num <= w.issued { assert Used(w, InDraft(i)); }
    forall s | s in w.disk.files ensures w.disk.files[s].num <= w.issued { assert Used(w, InFile(s)); }
    forall s | s in w.resuming ensures w.resuming[s].num <= w.issued { assert Used(w, InResume(s)); }
    forall s | s in w.ready ensures w.ready[s].num <= w.issued { assert Used(w, InReady(s)); }
  }

  lemma BeginBounds(v: State, s: Session, op: BeginOp)
    requires Enabled(v, Begin(s, op)) && NumInv(v)
    ensures BoundsOk(Step(v, Begin(s, op)))
  {
    hide CanBegin, AfterBegin, OwnersOk, NumAt;
    var w := Step(v, Begin(s, op));
    if w.floor {
      forall p | Used(w, p) && Counted(p) ensures NumAt(w, p) <= w.issued {
        var q := BeforeBegin(v, s, op, p);
        BeginRaises(v, s, op, q);
      }
      FloorBounds(w);
    } else {
      EarlyBounds(v, s, op);
    }
  }

  lemma EarlyBounds(v: State, s: Session, op: BeginOp)
    requires CanBegin(v, s, op) && BoundsOk(v) && ClaimsOk(v) && !AfterBegin(v, s, op).floor
    ensures BoundsOk(AfterBegin(v, s, op))
  {
    hide Used, IsClaim, IsFloor, Pending, Pairs, CanBegin, AfterBegin, BoundsOk;
    if op.Write? || op.Rewrite? || op.SetAside? { EarlyFileBounds(v, s, op); } else { EarlyGateBounds(v, s, op); }
  }

  lemma EarlyFileBounds(v: State, s: Session, op: BeginOp)
    requires CanBegin(v, s, op) && BoundsOk(v) && ClaimsOk(v) && !AfterBegin(v, s, op).floor && (op.Write? || op.Rewrite? || op.SetAside?)
    ensures BoundsOk(AfterBegin(v, s, op))
  {
    hide Used, IsClaim, IsFloor, Pending;
  }

  lemma EarlyGateBounds(v: State, s: Session, op: BeginOp)
    requires CanBegin(v, s, op) && BoundsOk(v) && ClaimsOk(v) && !AfterBegin(v, s, op).floor && !op.Write? && !op.Rewrite? && !op.SetAside?
    ensures BoundsOk(AfterBegin(v, s, op))
  {
    hide Used, IsClaim, IsFloor, Pairs;
    if op.Claim? { ClaimIsAbove(v, op.n); }
  }

  lemma BeginRaises(v: State, s: Session, op: BeginOp, q: Place)
    requires CanBegin(v, s, op) && NumInv(v) && AfterBegin(v, s, op).floor
    ensures Used(v, q) && Counted(q) ==> NumAt(v, q) <= AfterBegin(v, s, op).issued
    ensures op.Write? ==> v.claims[s] <= AfterBegin(v, s, op).issued
  {
    hide Records, OwnersOk, IsClaim, GateFree, Pending, Pairs;
    if op.Claim? { ClaimIsAbove(v, op.n); }
    if op.LoadFloor? && Used(v, q) && Counted(q) && !q.InDraft? && q.s in v.disk.files {
      assert v.disk.files[q.s].num in Numbers(v.disk.files);
    }
  }

  lemma SealAtOwnNumber(k: Shelf, d: Draft, op: Op)
    requires CanSeal(k, d, op) && !op.Bump? && (!d.fin.Idle? ==> d.fin.at == d.num)
    ensures var c := SealDraft(k, d, op); !c.fin.Idle? ==> c.fin.at == c.num
  {
  }

  lemma StepAtOwnNumber(v: State, e: Event)
    requires Enabled(v, e) && AtOwnNumber(v) && !Step(v, e).past.bumped
    ensures AtOwnNumber(Step(v, e))
  {
    hide CanBegin, AfterBegin, CanSeal, SealDraft, SealDisk, SealLedger, Reservable, Reserve, SaveFile, Reopened, AfterCut, Pairs;
    match e
    case Begin(s, op) => BeginDrafts(v, s, op);
    case Seal(i, op) => SealAtOwnNumber(v.disk.shelf, v.drafts[i], op);
    case _ =>
  }

  /** Begin leaves the drafts alone, but for a new one. */
  lemma BeginDrafts(v: State, s: Session, op: BeginOp)
    requires CanBegin(v, s, op)
    ensures forall i | i in v.drafts :: i in AfterBegin(v, s, op).drafts && AfterBegin(v, s, op).drafts[i] == v.drafts[i]
    ensures forall i | i in AfterBegin(v, s, op).drafts && i !in v.drafts ::
              AfterBegin(v, s, op).drafts[i].fin.Idle? && !AfterBegin(v, s, op).drafts[i].sealed && !AfterBegin(v, s, op).drafts[i].leaving
  {
    hide IsClaim, IsFloor, IsFound, Pending, Pairs;
  }

  lemma StepNumInv(v: State, e: Event)
    requires Enabled(v, e) && NumInv(v) && !Step(v, e).past.bumped && !Step(v, e).ledger.blind
    ensures NumInv(Step(v, e))
  {
    hide Step, Enabled, OwnersOk, ClaimsOk, BoundsOk, AtOwnNumber;
    StepOwners(v, e);
    StepClaims(v, e);
    StepBounds(v, e);
    StepAtOwnNumber(v, e);
  }

  /** A session's draft: registered, or at one of the stations of Begin. */
  datatype Holder = Live(s: Session) | Claiming(s: Session) | Resuming(s: Session) | Beginning(s: Session)

  predicate Holding(v: State, h: Holder) {
    match h
    case Live(s) => s in v.live && v.live[s] in v.drafts
    case Claiming(s) => s in v.claims
    case Resuming(s) => s in v.resuming
    case Beginning(s) => s in v.ready
  }

  function Held(v: State, h: Holder): Seq
    requires Holding(v, h)
  {
    match h
    case Live(s) => v.drafts[v.live[s]].num
    case Claiming(s) => v.claims[s]
    case Resuming(s) => v.resuming[s].num
    case Beginning(s) => v.ready[s].num
  }

  /** No two of them hold the same number, and the counter bounds each, but for one that was read back and
      whose number is still to be noted. */
  ghost predicate NumbersApart(v: State) {
    && (forall h, g | Holding(v, h) && Holding(v, g) && h != g :: Held(v, h) != Held(v, g))
    && (forall h | Holding(v, h) && (h.Resuming? || h.Beginning? ==> v.floor) :: Held(v, h) <= v.issued)
  }

  /** The registry names drafts of its own sessions that are open or sealed, and a session is at one station. */
  ghost predicate LiveOk(v: State) {
    && (forall s | s in v.live :: v.live[s] in v.drafts && v.drafts[v.live[s]].session == s &&
                                  (Open(v.drafts[v.live[s]]) || v.drafts[v.live[s]].fin.Done?))
    && (forall s | s in v.live :: s !in v.missed && s !in v.claims && s !in v.resuming && s !in v.ready)
    && v.missed !! v.claims.Keys && v.missed !! v.resuming.Keys && v.missed !! v.ready.Keys
    && v.claims.Keys !! v.resuming.Keys && v.claims.Keys !! v.ready.Keys && v.resuming.Keys !! v.ready.Keys
  }

  lemma StepLive(v: State, e: Event)
    requires Enabled(v, e) && LiveOk(v)
    ensures LiveOk(Step(v, e))
  {
    hide CanBegin, AfterBegin, CanSeal, LiveOk, Reserve, Reservable, Pairs, Reopened, AfterCut, SealDraft, SealDisk, SealLedger, AfterAbort, Unregister;
    match e
    case Begin(s, op) => BeginLive(v, s, op);
    case Seal(i, op) => SealLive(v, i, op);
    case Retire(i) => LeaveLive(v, e, i);
    case Abort(i) => LeaveLive(v, e, i);
    case Restart => EndLive(v, e);
    case Cut(_, _, _) => EndLive(v, e);
    case Advance(i, _, _, _) => SameLive(v, Step(v, e), i);
    case Unlink(i) => SameLive(v, Step(v, e), i);
    case _ => UntouchedLive(v, Step(v, e));
  }

  lemma UntouchedLive(v: State, w: State)
    requires LiveOk(v) && w.drafts == v.drafts && w.live == v.live && w.missed == v.missed && w.claims == v.claims
    requires w.resuming == v.resuming && w.ready == v.ready
    ensures LiveOk(w)
  {
  }

  lemma SameLive(v: State, w: State, i: Id)
    requires LiveOk(v) && i in v.drafts && i in w.drafts && w.drafts == v.drafts[i := w.drafts[i]] && w.live == v.live && w.missed == v.missed && w.claims == v.claims
    requires w.resuming == v.resuming && w.ready == v.ready && w.drafts[i].session == v.drafts[i].session
    requires Open(v.drafts[i]) || v.drafts[i].fin.Done? ==> Open(w.drafts[i]) || w.drafts[i].fin.Done?
    ensures LiveOk(w)
  {
  }

  lemma SealLive(v: State, i: Id, op: Op)
    requires Enabled(v, Seal(i, op)) && LiveOk(v)
    ensures LiveOk(Step(v, Seal(i, op)))
  {
    hide CanBegin, LiveOk, SealDisk, SealLedger;
    SameLive(v, Step(v, Seal(i, op)), i);
  }

  lemma LeaveLive(v: State, e: Event, i: Id)
    requires Enabled(v, e) && e in {Retire(i), Abort(i)} && LiveOk(v)
    ensures LiveOk(Step(v, e))
  {
    hide CanBegin, CanSeal, Pairs, LiveOk;
    assert e.Retire? || e.Abort?;
    LeftLive(v, i, Step(v, e));
  }

  lemma LeftLive(v: State, i: Id, w: State)
    requires LiveOk(v) && i in v.drafts && i in w.drafts && w.drafts == v.drafts[i := w.drafts[i]] && w.drafts[i].session == v.drafts[i].session
    requires w.live == Unregister(v, i).live && w.missed == v.missed && w.claims == v.claims && w.resuming == v.resuming && w.ready == v.ready
    ensures LiveOk(w)
  {
    assert forall s | s in w.live :: s in v.live && w.live[s] == v.live[s] && w.live[s] != i;
  }

  lemma EndLive(v: State, e: Event)
    requires Enabled(v, e) && (e.Restart? || e.Cut?)
    ensures LiveOk(Step(v, e))
  {
    hide Step;
    EndForgets(v, e);
  }

  lemma BeginLive(v: State, s: Session, op: BeginOp)
    requires CanBegin(v, s, op) && LiveOk(v)
    ensures LiveOk(AfterBegin(v, s, op))
  {
    hide IsClaim, IsFloor, IsFound, Pending, Pairs, Open, SaveFile, DropFile;
    if op.Publish? { PublishLive(v, s, op.i); }
  }

  lemma PublishLive(v: State, s: Session, i: Id)
    requires CanBegin(v, s, Publish(i)) && LiveOk(v)
    ensures LiveOk(AfterBegin(v, s, Publish(i)))
  {
    hide Pairs;
  }

  lemma Apart(v: State)
    requires NumInv(v) && LiveOk(v)
    ensures NumbersApart(v)
  {
    hide OwnersOk;
    forall h, g | Holding(v, h) && Holding(v, g) && h != g ensures Held(v, h) != Held(v, g) { PairApart(v, h, g); }
    forall h | Holding(v, h) && (h.Resuming? || h.Beginning? ==> v.floor) ensures Held(v, h) <= v.issued {
      if h.Resuming? { assert Used(v, InResume(h.s)); }
      if h.Beginning? { assert Used(v, InReady(h.s)); }
    }
  }

  function PlaceOf(v: State, h: Holder): Place
    requires Holding(v, h)
  {
    match h
    case Live(s) => InDraft(v.live[s])
    case Resuming(s) => InResume(s)
    case Beginning(s) => InReady(s)
    case Claiming(s) => InFile(s)
  }

  lemma PairApart(v: State, h: Holder, g: Holder)
    requires NumInv(v) && LiveOk(v) && Holding(v, h) && Holding(v, g) && h != g
    ensures Held(v, h) != Held(v, g)
  {
    hide BoundsOk, AtOwnNumber;
    var p, q := PlaceOf(v, h), PlaceOf(v, g);
    assert !h.Claiming? ==> Used(v, p) && NumAt(v, p) == Held(v, h) && SessionAt(v, p) == h.s;
    assert !g.Claiming? ==> Used(v, q) && NumAt(v, q) == Held(v, g) && SessionAt(v, q) == g.s;
  }

  // ------------------------------------------------------------------------------------------
  // Artifacts
  // ------------------------------------------------------------------------------------------

  /** From the moment Finalize takes its snapshot the draft is closed, so what it writes is what the
      draft holds, and each stage has secured what the next relies on. */
  ghost predicate DraftFrozen(k: Shelf, d: Draft) {
    !d.fin.Idle? ==>
      && d.sealed && d.fin.snap == d.enc && (d.fin.Done? <==> Rank(d.fin.stage) >= 7)
      && SealOk(k, d.fin.at, d.fin.stage, d.fin.snap)
  }

  /** The draft's seal has created the artifact of number `n`. */
  predicate Holds(v: State, i: Id, n: Seq) {
    i in v.drafts && !v.drafts[i].fin.Idle? && Rank(v.drafts[i].fin.stage) >= 1 && v.drafts[i].fin.at == n
  }

  ghost predicate SoloOk(v: State) { forall i, j, n | Holds(v, i, n) && Holds(v, j, n) :: i == j }

  ghost predicate Frozen(v: State) {
    && ShelfOk(v.disk.shelf) && v.disk.shelf.lines <= v.ledger.sealedBy.Keys && SoloOk(v)
    && forall i | i in v.drafts :: DraftFrozen(v.disk.shelf, v.drafts[i])
  }

  lemma ShelfStays(v: State, e: Event)
    requires Enabled(v, e) && !e.Seal? && !e.Cut?
    ensures Step(v, e).disk.shelf == v.disk.shelf && Step(v, e).ledger.sealedBy == v.ledger.sealedBy
  {
    hide CanBegin, AfterBegin, CanSeal, Reserve, Reservable, Reopened, Pairs;
    if e.Begin? { BeginDisk(v, e.s, e.begin); }
  }

  /** Begin touches nothing on disk but draft files. */
  lemma BeginDisk(v: State, s: Session, op: BeginOp)
    requires CanBegin(v, s, op)
    ensures var w := AfterBegin(v, s, op);
            w.past == v.past && w.disk == v.disk.(files := w.disk.files, removed := w.disk.removed, stale := w.disk.stale) && w.ledger.sealedBy == v.ledger.sealedBy &&
            w.ledger.drifted == v.ledger.drifted
  {
    hide IsClaim, IsFloor, IsFound, Pending, Pairs;
  }

  /** A step that is not the draft's own Finalize leaves it where it stands with Finalize, and adds to
      it only while it is open. */
  predicate SameStanding(c: Draft, d: Draft) {
    c.fin == d.fin && (d.sealed ==> c.sealed && c.enc == d.enc)
  }

  lemma DraftStays(v: State, e: Event, i: Id)
    requires Enabled(v, e) && i in Step(v, e).drafts && !(e.Seal? && e.i == i)
    ensures if i in v.drafts then SameStanding(Step(v, e).drafts[i], v.drafts[i]) else Step(v, e).drafts[i].fin.Idle?
  {
    hide Reserve, Reservable, SealDraft, SealDisk, SealLedger, CanSeal, SaveFile, CanBegin, AfterBegin, Pairs, Reopened, AfterCut;
    if e.Begin? { BeginDrafts(v, e.s, e.begin); }
  }

  /** A number is newly held only by the draft that just created its name. */
  lemma HeldBefore(v: State, e: Event, i: Id, n: Seq)
    requires Enabled(v, e) && Holds(Step(v, e), i, n)
    ensures Holds(v, i, n) || (e == Seal(i, Create) && n !in v.disk.shelf.names)
  {
    hide Step, CanBegin, CanSeal;
    if e.Seal? && e.i == i { OwnHeld(v, i, e.op, n); } else { DraftStays(v, e, i); }
  }

  lemma OwnHeld(v: State, i: Id, op: Op, n: Seq)
    requires Enabled(v, Seal(i, op)) && Holds(Step(v, Seal(i, op)), i, n)
    ensures Holds(v, i, n) || (op == Create && n !in v.disk.shelf.names)
  {
    hide CanBegin, SealDisk, SealLedger;
  }

  lemma HeldIsNamed(v: State, i: Id, n: Seq)
    requires Frozen(v) && Holds(v, i, n)
    ensures n in v.disk.shelf.names
  {
    hide ShelfOk, SoloOk;
    assert DraftFrozen(v.disk.shelf, v.drafts[i]);
  }

  lemma StepSolo(v: State, e: Event)
    requires Enabled(v, e) && Frozen(v)
    ensures SoloOk(Step(v, e))
  {
    hide Step, Enabled, ShelfOk, DraftFrozen;
    var w := Step(v, e);
    forall i, j, n | Holds(w, i, n) && Holds(w, j, n) ensures i == j {
      HeldBefore(v, e, i, n);
      HeldBefore(v, e, j, n);
      if Holds(v, i, n) { HeldIsNamed(v, i, n); }
      if Holds(v, j, n) { HeldIsNamed(v, j, n); }
    }
  }

  /** A step of Finalize keeps shelf and draft in step. */
  lemma SealFrozen(k: Disk, d: Draft, op: Op)
    requires CanSeal(k.shelf, d, op) && ShelfOk(k.shelf) && DraftFrozen(k.shelf, d)
    ensures ShelfOk(SealDisk(k, d, op).shelf) && DraftFrozen(SealDisk(k, d, op).shelf, SealDraft(k.shelf, d, op))
  {
    hide Commit, SealOk, ShelfOk, Effect, Reopened;
    if op.Start? {
      TakenOk(k.shelf, d.num, d.enc);
    } else {
      OpShelf(k.shelf, op, d.fin.at, d.fin.stage, d.fin.snap);
      OpOwn(k.shelf, op, d.fin.at, d.fin.stage, d.fin.snap);
      if op.Bump? { TakenOk(k.shelf, d.fin.at + 1, d.fin.snap); }
      PlainEffect(k.shelf, op, d.fin.at, d.fin.snap);
    }
  }

  lemma OwnFrozen(v: State, i: Id, op: Op)
    requires Enabled(v, Seal(i, op)) && Frozen(v)
    ensures var w := Step(v, Seal(i, op));
            ShelfOk(w.disk.shelf) && w.disk.shelf.lines <= w.ledger.sealedBy.Keys && DraftFrozen(w.disk.shelf, w.drafts[i])
  {
    hide CanBegin, CanSeal, SoloOk, SealDraft, SealDisk, ShelfOk, DraftFrozen, Drifts;
    SealFrozen(v.disk, v.drafts[i], op);
    SealLines(v, i, op);
  }

  lemma PlainEffect(k: Shelf, op: Op, n: Seq, c: set<Segment>)
    ensures op.CommitMarks? || op.SyncMarks? || op.MarksFail? || op.Bump? || op.GiveUp? ==> Effect(k, op, n, c) == k
  {
  }

  /** Another draft's Finalize works on another number. */
  lemma OtherFrozen(v: State, i: Id, op: Op, j: Id)
    requires Enabled(v, Seal(i, op)) && Frozen(v) && j in v.drafts && j != i
    ensures DraftFrozen(Step(v, Seal(i, op)).disk.shelf, v.drafts[j])
  {
    hide CanBegin, ShelfOk, SealOk, Commit, Effect, Drifts, SealDraft, SealLedger, Reopened;
    var d, k := v.drafts[j], v.disk.shelf;
    assert DraftFrozen(k, d);
    if !d.fin.Idle? && !op.Start? {
      var n, c := v.drafts[i].fin.at, v.drafts[i].fin.snap;
      PlainEffect(k, op, n, c);
      if Rank(d.fin.stage) >= 1 && !op.Bump? && !op.GiveUp? {
        NumbersDiffer(v, i, op, j);
        OpOther(k, op, n, c, d.fin.at);
      }
      if !op.Bump? && !op.GiveUp? { UntouchedSeal(k, Effect(k, op, n, c), d.fin.at, d.fin.stage, d.fin.snap); }
    }
  }

  lemma NumbersDiffer(v: State, i: Id, op: Op, j: Id)
    requires Enabled(v, Seal(i, op)) && Frozen(v) && j in v.drafts && j != i && !op.Start? && !op.Bump? && !op.GiveUp?
    requires !v.drafts[j].fin.Idle? && Rank(v.drafts[j].fin.stage) >= 1
    ensures v.drafts[i].fin.at != v.drafts[j].fin.at
  {
    hide ShelfOk, DraftFrozen;
    var m := v.drafts[j].fin.at;
    assert Holds(v, j, m);
    HeldIsNamed(v, j, m);
    assert Holds(v, i, m) ==> i == j;
  }

  lemma StepFrozen(v: State, e: Event)
    requires Enabled(v, e) && Frozen(v)
    ensures Frozen(Step(v, e))
  {
    hide DraftFrozen, SoloOk, ShelfOk, Step, CanBegin, CanSeal;
    var w := Step(v, e);
    StepSolo(v, e);
    if e.Cut? { CutFrozen(v, e); } else {
      if e.Seal? { OwnFrozen(v, e.i, e.op); } else { ShelfStays(v, e); }
      forall i | i in w.drafts ensures DraftFrozen(w.disk.shelf, w.drafts[i]) {
        if !(e.Seal? && e.i == i) {
          DraftStays(v, e, i);
          if e.Seal? && i in v.drafts { OtherFrozen(v, e.i, e.op, i); }
          SameFrozen(w.disk.shelf, w.drafts[i], if i in v.drafts then v.drafts[i] else w.drafts[i]);
        }
      }
    }
  }

  lemma CutFrozen(v: State, e: Event)
    requires Enabled(v, e) && e.Cut? && Frozen(v)
    ensures var w := Step(v, e); ShelfOk(w.disk.shelf) && w.disk.shelf.lines <= w.ledger.sealedBy.Keys && w.drafts == map[]
  {
    hide ShelfOk, AfterCut, CanLose, DraftFrozen, SoloOk, Reopened;
    CutKeepsSeals(v.disk.shelf, e.loss);
  }

  lemma SameFrozen(k: Shelf, c: Draft, d: Draft)
    requires c == d || (SameStanding(c, d) && DraftFrozen(k, d))
    requires c == d ==> d.fin.Idle? || DraftFrozen(k, d)
    ensures DraftFrozen(k, c)
  {
    hide SealOk;
  }
}
