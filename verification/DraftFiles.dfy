/** What a draft was given is on disk until it is discarded or sealed: draft files under removals, late
    and early, under aborts, and under lines that other drafts write. */
module DraftFiles {
  import opened SegmentBook
  import opened SealShelf
  import opened DraftWriter
  import opened SealedSegments

  predicate OnDisk(k: Disk, s: Session, enc: set<Segment>) { s in k.files && k.files[s].enc == enc }

  /** A registered draft, and one about to be registered, is on disk as it is in memory. */
  ghost predicate FilesKept(v: State) {
    && (forall s | s in v.live && v.live[s] in v.drafts :: OnDisk(v.disk, s, v.drafts[v.live[s]].enc))
    && (forall s | s in v.ready :: OnDisk(v.disk, s, v.ready[s].enc))
  }

  /** A removal under way is nobody's file but the leaving draft's. */
  ghost predicate NoneAwaits(v: State) {
    forall i | i in v.drafts && v.drafts[i].leaving :: v.drafts[i].session !in v.live && v.drafts[i].session !in v.ready
  }

  /** What Begin found is still so: no file, or the one it read if there is one. */
  ghost predicate Looked(v: State) {
    && (forall s | s in v.missed || s in v.claims :: s !in v.disk.files)
    && (forall s | s in v.resuming && s in v.disk.files :: v.disk.files[s].enc == v.resuming[s].enc)
  }

  /** The number's line, if it has one, is another session's. */
  predicate NotSealed(v: State, s: Session, n: Seq) {
    n in v.disk.shelf.lines && n in v.ledger.sealedBy ==> v.ledger.sealedBy[n].session != s
  }

  /** A session that is still at a number has not sealed it. */
  ghost predicate NotYet(v: State) {
    && (forall i | i in v.drafts && Open(v.drafts[i]) :: NotSealed(v, v.drafts[i].session, v.drafts[i].num))
    && (forall s | s in v.claims :: NotSealed(v, s, v.claims[s]))
    && (forall s | s in v.resuming :: NotSealed(v, s, v.resuming[s].num))
    && (forall s | s in v.ready :: NotSealed(v, s, v.ready[s].num))
  }

  /** If the file's number has a line of the session's, the artifact holds what the file holds. */
  predicate Backed(v: State, s: Session, f: File) {
    NotSealed(v, s, f.num) || (f.num in v.disk.shelf.art && f.enc <= v.disk.shelf.art[f.num])
  }

  ghost predicate OwnLines(v: State) {
    && v.disk.files.Keys !! v.disk.removed.Keys
    && (forall s | s in v.disk.files :: Backed(v, s, v.disk.files[s]))
    && (forall s | s in v.disk.removed :: Backed(v, s, v.disk.removed[s]))
  }

  predicate OnFile(k: Disk, s: Session, x: Segment) { s in k.files && x in k.files[s].enc }

  /** A session without a draft or a Begin under way has nothing in its file that is not in an artifact. */
  ghost predicate Spare(v: State, s: Session) {
    forall x: Segment | OnFile(v.disk, s, x) && (s, x) in v.ledger.accepted :: InArtifact(v.disk.shelf, x)
  }

  ghost predicate SafeToDrop(v: State) {
    forall i | i in v.drafts && v.drafts[i].session !in v.live && v.drafts[i].session !in v.ready :: Spare(v, v.drafts[i].session)
  }

  /** Nothing accepted is only in memory. */
  ghost predicate KeptOk(v: State) {
    forall s: Session, x: Segment | (s, x) in v.ledger.accepted :: OnFile(v.disk, s, x) || InArtifact(v.disk.shelf, x)
  }

  predicate Tame(v: State) { !v.past.raced && !v.ledger.overlapped && !v.ledger.unsaved }

  // ------------------------------------------------------------------------------------------
  // Removals under way
  // ------------------------------------------------------------------------------------------

  lemma StepAwaits(v: State, e: Event)
    requires Enabled(v, e) && NoneAwaits(v) && LiveOk(v) && !Step(v, e).ledger.overlapped
    ensures NoneAwaits(Step(v, e))
  {
    hide CanBegin, AfterBegin, CanSeal, AfterSeal, Reserve, Reservable, Reopened, AfterCut, Pairs, NoneAwaits, LiveOk;
    match e
    case Begin(s, op) => BeginAwaits(v, s, op);
    case Seal(i, op) => SealAwaits(v, i, op);
    case Retire(i) => LeaveAwaits(v, i, Step(v, e));
    case Abort(i) => LeaveAwaits(v, i, Step(v, e));
    case Restart => EndAwaits(v, e);
    case Cut(_, _, _) => EndAwaits(v, e);
    case Advance(i, _, _, _) => SameAwaits(v, i, Step(v, e));
    case Unlink(i) => SameAwaits(v, i, Step(v, e));
    case _ => UntouchedAwaits(v, Step(v, e));
  }

  lemma UntouchedAwaits(v: State, w: State)
    requires NoneAwaits(v) && w.drafts == v.drafts && w.live == v.live && w.ready == v.ready
    ensures NoneAwaits(w)
  {
  }

  lemma SameAwaits(v: State, i: Id, w: State)
    requires NoneAwaits(v) && i in v.drafts && i in w.drafts && w.drafts == v.drafts[i := w.drafts[i]] && w.live == v.live && w.ready == v.ready
    requires w.drafts[i].session == v.drafts[i].session && (w.drafts[i].leaving ==> v.drafts[i].leaving)
    ensures NoneAwaits(w)
  {
  }

  lemma SealAwaits(v: State, i: Id, op: Op)
    requires Enabled(v, Seal(i, op)) && NoneAwaits(v)
    ensures NoneAwaits(Step(v, Seal(i, op)))
  {
    hide CanBegin, NoneAwaits, SealDisk, SealLedger;
    SameAwaits(v, i, Step(v, Seal(i, op)));
  }

  lemma LeaveAwaits(v: State, i: Id, w: State)
    requires NoneAwaits(v) && i in v.drafts && i in w.drafts && w.drafts == v.drafts[i := w.drafts[i]] && w.drafts[i].session == v.drafts[i].session
    requires w.live == Unregister(v, i).live && w.drafts[i].leaving == Unregister(v, i).drafts[i].leaving && w.ready == v.ready
    requires !Unregister(v, i).ledger.overlapped
    ensures NoneAwaits(w)
  {
  }

  lemma EndAwaits(v: State, e: Event)
    requires Enabled(v, e) && Ends(e)
    ensures NoneAwaits(Step(v, e)) && Looked(Step(v, e)) && NotYet(Step(v, e)) && FilesKept(Step(v, e)) && SafeToDrop(Step(v, e))
  {
    hide Step;
    EndForgets(v, e);
  }

  lemma BeginAwaits(v: State, s: Session, op: BeginOp)
    requires CanBegin(v, s, op) && NoneAwaits(v) && LiveOk(v) && !AfterBegin(v, s, op).ledger.overlapped
    ensures NoneAwaits(AfterBegin(v, s, op))
  {
    hide IsClaim, IsFloor, IsFound, Pairs, SaveFile, DropFile, Open;
  }

  // ------------------------------------------------------------------------------------------
  // What Begin found
  // ------------------------------------------------------------------------------------------

  lemma StepLooked(v: State, e: Event)
    requires Enabled(v, e) && Looked(v) && LiveOk(v) && OneOpen(v)
    ensures Looked(Step(v, e))
  {
    hide CanBegin, AfterBegin, CanSeal, AfterSeal, Reserve, Reservable, Reopened, AfterCut, Pairs, Looked, LiveOk, OneOpen;
    match e
    case Begin(s, op) => BeginLooked(v, s, op);
    case Persist(i) => SavedLooked(v, i, Step(v, e));
    case Advance(i, _, _, _) => SavedLooked(v, i, Step(v, e));
    case Restart => EndAwaits(v, e);
    case Cut(_, _, _) => EndAwaits(v, e);
    case _ =>
      CountersStay(v, e);
      FewerFiles(v, e);
      DroppedLooked(v, Step(v, e));
  }

  lemma FewerFiles(v: State, e: Event)
    requires Enabled(v, e) && !e.Begin? && !e.Persist? && !e.Advance? && !Ends(e)
    ensures forall s | s in Step(v, e).disk.files :: s in v.disk.files && Step(v, e).disk.files[s] == v.disk.files[s]
  {
    hide CanBegin, CanSeal, SealDraft, SealLedger, Commit, Effect, Pairs;
  }

  lemma DroppedLooked(v: State, w: State)
    requires Looked(v) && w.missed == v.missed && w.claims == v.claims && w.resuming == v.resuming
    requires forall s | s in w.disk.files :: s in v.disk.files && w.disk.files[s] == v.disk.files[s]
    ensures Looked(w)
  {
  }

  lemma SavedLooked(v: State, i: Id, w: State)
    requires Looked(v) && LiveOk(v) && OneOpen(v) && i in v.drafts && !v.drafts[i].sealed
    requires w.missed == v.missed && w.claims == v.claims && w.resuming == v.resuming
    requires forall s | s in w.disk.files && s != v.drafts[i].session :: s in v.disk.files && w.disk.files[s] == v.disk.files[s]
    ensures Looked(w)
  {
    assert Open(v.drafts[i]);
  }

  lemma BeginLooked(v: State, s: Session, op: BeginOp)
    requires CanBegin(v, s, op) && Looked(v) && LiveOk(v)
    ensures Looked(AfterBegin(v, s, op))
  {
    hide IsClaim, IsFloor, IsFound, Pending, Pairs, Open;
  }

  // ------------------------------------------------------------------------------------------
  // Files of drafts
  // ------------------------------------------------------------------------------------------

  lemma StepFilesKept(v: State, e: Event)
    requires Enabled(v, e) && FilesKept(v) && NoneAwaits(v) && OneOpen(v) && LiveOk(v) && !Step(v, e).ledger.unsaved
    ensures FilesKept(Step(v, e))
  {
    hide CanBegin, AfterBegin, CanSeal, AfterSeal, Reserve, Reservable, Reopened, AfterCut, Pairs, FilesKept, NoneAwaits, LiveOk, OneOpen;
    match e
    case Begin(s, op) => BeginFilesKept(v, s, op);
    case Seal(i, op) => SealFilesKept(v, i, op);
    case Persist(i) => SavedFilesKept(v, i, Step(v, e));
    case Advance(i, _, _, _) => SavedFilesKept(v, i, Step(v, e));
    case Unlink(i) => DroppedFilesKept(v, i, Step(v, e));
    case Retire(i) => LeftFilesKept(v, i, Step(v, e));
    case Abort(i) => LeftFilesKept(v, i, Step(v, e));
    case Restart => EndAwaits(v, e);
    case Cut(_, _, _) => EndAwaits(v, e);
    case _ => SameFilesKept(v, Step(v, e));
  }

  lemma SameFilesKept(v: State, w: State)
    requires FilesKept(v) && w.drafts == v.drafts && w.live == v.live && w.ready == v.ready && w.disk.files == v.disk.files
    ensures FilesKept(w)
  {
  }

  lemma LeftFilesKept(v: State, i: Id, w: State)
    requires FilesKept(v) && LiveOk(v) && i in v.drafts && i in w.drafts && w.drafts == v.drafts[i := w.drafts[i]] && w.drafts[i].enc == v.drafts[i].enc
    requires w.live == Unregister(v, i).live && w.ready == v.ready && w.disk == v.disk
    ensures FilesKept(w)
  {
  }

  lemma SealFilesKept(v: State, i: Id, op: Op)
    requires Enabled(v, Seal(i, op)) && FilesKept(v)
    ensures FilesKept(Step(v, Seal(i, op)))
  {
    hide CanBegin, CanSeal, SealLedger, SealDisk, SealDraft, OnDisk;
    SealFilesSame(v, i, op);
    SealEnc(v.disk.shelf, v.drafts[i], op);
    assert forall s, c | OnDisk(v.disk, s, c) :: OnDisk(Step(v, Seal(i, op)).disk, s, c) by { SameOnDisk(v.disk, Step(v, Seal(i, op)).disk); }
  }

  lemma SealEnc(k: Shelf, d: Draft, op: Op)
    requires CanSeal(k, d, op)
    ensures SealDraft(k, d, op).enc == d.enc && SealDraft(k, d, op).session == d.session
  {
  }

  lemma SameOnDisk(k: Disk, j: Disk)
    requires k.files == j.files
    ensures forall s, c | OnDisk(k, s, c) :: OnDisk(j, s, c)
  {
  }

  lemma SavedFilesKept(v: State, i: Id, w: State)
    requires FilesKept(v) && LiveOk(v) && OneOpen(v) && i in v.drafts && !v.drafts[i].sealed && i in w.drafts && w.drafts == v.drafts[i := w.drafts[i]]
    requires w.live == v.live && w.ready == v.ready
    requires w.disk.files == v.disk.files[v.drafts[i].session := File(v.drafts[i].num, w.drafts[i].enc)]
    ensures FilesKept(w)
  {
    assert Open(v.drafts[i]);
  }

  lemma DroppedFilesKept(v: State, i: Id, w: State)
    requires FilesKept(v) && NoneAwaits(v) && i in v.drafts && v.drafts[i].leaving && i in w.drafts && w.drafts == v.drafts[i := w.drafts[i]]
    requires w.drafts[i].enc == v.drafts[i].enc && w.live == v.live && w.ready == v.ready && w.disk == DropFile(v.disk, v.drafts[i].session)
    ensures FilesKept(w)
  {
  }

  lemma BeginFilesKept(v: State, s: Session, op: BeginOp)
    requires CanBegin(v, s, op) && FilesKept(v) && LiveOk(v) && !AfterBegin(v, s, op).ledger.unsaved
    ensures FilesKept(AfterBegin(v, s, op))
  {
    hide CanBegin, AfterBegin, FilesKept, LiveOk;
    if op.Write? || op.Rewrite? || op.SetAside? { WriteFilesKept(v, s, op); } else { GateFilesKept(v, s, op); }
  }

  lemma WriteFilesKept(v: State, s: Session, op: BeginOp)
    requires CanBegin(v, s, op) && FilesKept(v) && LiveOk(v) && (op.Write? || op.Rewrite? || op.SetAside?)
    ensures FilesKept(AfterBegin(v, s, op))
  {
    hide Pending, Open, FilesKept, LiveOk, IsClaim, IsFloor;
    NoDraftYet(v, s);
    FileMoved(v, s, AfterBegin(v, s, op));
  }

  lemma NoDraftYet(v: State, s: Session)
    requires LiveOk(v)
    ensures s in v.claims || s in v.resuming ==> s !in v.live && s !in v.ready
  {
  }

  /** A session that is at no draft yet may write or drop its file. */
  lemma FileMoved(v: State, s: Session, w: State)
    requires FilesKept(v) && w.drafts == v.drafts && w.live == v.live && s !in v.live && s !in v.ready
    requires (w.ready == v.ready && w.disk.files == v.disk.files - {s}) ||
             (s in w.ready && w.ready == v.ready[s := w.ready[s]] && w.disk.files == v.disk.files[s := w.ready[s]])
    ensures FilesKept(w)
  {
  }

  lemma GateFilesKept(v: State, s: Session, op: BeginOp)
    requires CanBegin(v, s, op) && FilesKept(v) && LiveOk(v) && !op.Write? && !op.Rewrite? && !op.SetAside? && !AfterBegin(v, s, op).ledger.unsaved
    ensures FilesKept(AfterBegin(v, s, op))
  {
    hide IsClaim, IsFloor, IsFound, Pairs, Open, Pending;
  }

  // ------------------------------------------------------------------------------------------
  // Lines and the numbers still in use
  // ------------------------------------------------------------------------------------------

  /** The lines a step leaves are old ones with the same sealer, or the one line it writes. */
  lemma SealedBefore(v: State, e: Event, s: Session, n: Seq)
    requires Enabled(v, e) && Frozen(v) && NotSealed(v, s, n)
    ensures NotSealed(Step(v, e), s, n) || (e.Seal? && e.op.WriteLine? && v.drafts[e.i].fin.Active? && v.drafts[e.i].fin.at == n && v.drafts[e.i].session == s)
  {
    hide Step, CanBegin, CanSeal, Frozen;
    var w := Step(v, e);
    if n in w.disk.shelf.lines {
      if n !in v.disk.shelf.lines { FreshLine(v, e, n); } else { SealerStays(v, e, n); }
    }
  }

  lemma SealerStays(v: State, e: Event, n: Seq)
    requires Enabled(v, e) && Frozen(v) && n in v.disk.shelf.lines
    ensures n in v.ledger.sealedBy && n in Step(v, e).ledger.sealedBy && Step(v, e).ledger.sealedBy[n] == v.ledger.sealedBy[n]
  {
    hide Step, CanBegin, CanSeal, SoloOk, ShelfOk, DraftFrozen;
    if e.Seal? {
      SealLines(v, e.i, e.op);
      if e.op.WriteLine? { LineIsNew(v, e.i); }
    } else if e.Cut? { EndForgets(v, e); }
    else { ShelfStays(v, e); }
  }

  lemma StepNotYet(v: State, e: Event)
    requires Enabled(v, e) && NotYet(v) && Frozen(v) && LiveOk(v) && OneOpen(v)
    ensures NotYet(Step(v, e))
  {
    hide Step, CanBegin, CanSeal, Frozen, LiveOk, OneOpen, NotYet, NotSealed;
    match e
    case Begin(s, op) => BeginNotYet(v, s, op);
    case Restart => EndAwaits(v, e);
    case Cut(_, _, _) => EndAwaits(v, e);
    case _ => PlainNotYet(v, e);
  }

  lemma PlainNotYet(v: State, e: Event)
    requires Enabled(v, e) && !e.Begin? && !Ends(e) && NotYet(v) && Frozen(v) && LiveOk(v) && OneOpen(v)
    ensures NotYet(Step(v, e))
  {
    hide Step, CanBegin, CanSeal, Frozen, NotSealed;
    var w := Step(v, e);
    CountersStay(v, e);
    IdsStay(v, e);
    forall i | i in w.drafts && Open(w.drafts[i]) ensures NotSealed(w, w.drafts[i].session, w.drafts[i].num) { OpenNotYet(v, e, i); }
    forall s, n | NotSealed(v, s, n) && s !in v.live ensures NotSealed(w, s, n) { SealerIsLive(v, e, s, n); }
  }

  /** Only a registered session writes a line. */
  lemma SealerIsLive(v: State, e: Event, s: Session, n: Seq)
    requires Enabled(v, e) && Frozen(v) && OneOpen(v) && NotSealed(v, s, n) && s !in v.live
    ensures NotSealed(Step(v, e), s, n)
  {
    hide Step, CanBegin, CanSeal, Frozen, NotSealed;
    SealedBefore(v, e, s, n);
  }

  lemma OpenNotYet(v: State, e: Event, i: Id)
    requires Enabled(v, e) && !e.Begin? && !Ends(e) && NotYet(v) && Frozen(v) && OneOpen(v) && i in Step(v, e).drafts && Open(Step(v, e).drafts[i])
    ensures NotSealed(Step(v, e), Step(v, e).drafts[i].session, Step(v, e).drafts[i].num)
  {
    hide Step, CanBegin, CanSeal, Frozen, NotSealed;
    var w := Step(v, e);
    IdsStay(v, e);
    var d := v.drafts[i];
    if e.Seal? && e.i == i {
      OwnNotYet(v, i, e.op);
    } else {
      OthersOpen(v, e, i);
      SealedBefore(v, e, d.session, d.num);
    }
  }

  lemma OthersOpen(v: State, e: Event, i: Id)
    requires Enabled(v, e) && !e.Begin? && i in v.drafts && i in Step(v, e).drafts && !(e.Seal? && e.i == i)
    ensures var c, d := Step(v, e).drafts[i], v.drafts[i]; c.num == d.num && c.session == d.session && (Open(c) ==> Open(d))
  {
    hide CanBegin, CanSeal, SealDraft, SealDisk, SealLedger, Reserve, Reservable, Reopened, AfterCut, Pairs, Elements;
  }

  /** A seal that is still open has no line at its number. */
  lemma OwnNotYet(v: State, i: Id, op: Op)
    requires Enabled(v, Seal(i, op)) && Frozen(v) && NotYet(v) && Open(Step(v, Seal(i, op)).drafts[i])
    ensures NotSealed(Step(v, Seal(i, op)), Step(v, Seal(i, op)).drafts[i].session, Step(v, Seal(i, op)).drafts[i].num)
  {
    hide CanBegin, SoloOk, ShelfOk, Commit, Drifts, Effect;
    var d := v.drafts[i];
    assert DraftFrozen(v.disk.shelf, d);
    SealLines(v, i, op);
  }

  lemma BeginNotYet(v: State, s: Session, op: BeginOp)
    requires Enabled(v, Begin(s, op)) && NotYet(v) && LiveOk(v)
    ensures NotYet(Step(v, Begin(s, op)))
  {
    hide IsClaim, IsFloor, IsFound, Pending, Pairs, GateFree, SaveFile, DropFile, NotSealed;
    if op.Claim? { ClaimIsAbove(v, op.n); }
    SameSealed(v, s, op);
    if op.Claim? { AboveNotSealed(v, s, op.n); }
    if op.Read? { AboveNotSealed(v, s, v.disk.files[s].num); }
  }

  lemma SameSealed(v: State, s: Session, op: BeginOp)
    requires Enabled(v, Begin(s, op))
    ensures forall t, n | NotSealed(v, t, n) :: NotSealed(Step(v, Begin(s, op)), t, n)
  {
    hide CanBegin, AfterBegin;
    BeginDisk(v, s, op);
  }

  lemma AboveNotSealed(v: State, s: Session, n: Seq)
    ensures n !in v.disk.shelf.lines ==> NotSealed(v, s, n)
  {
  }

  // ------------------------------------------------------------------------------------------
  // Files behind lines
  // ------------------------------------------------------------------------------------------

  lemma BackedStays(v: State, e: Event, s: Session, f: File)
    requires Enabled(v, e) && Frozen(v) && Backed(v, s, f)
    requires !(e.Seal? && e.op.WriteLine? && v.drafts[e.i].fin.Active? && v.drafts[e.i].fin.at == f.num && v.drafts[e.i].session == s)
    ensures Backed(Step(v, e), s, f)
  {
    hide Step, CanBegin, CanSeal, Frozen;
    var w := Step(v, e);
    if NotSealed(v, s, f.num) { SealedBefore(v, e, s, f.num); }
    else if f.num in w.disk.shelf.lines { LineStays(v, e, f.num); }
  }

  lemma StepOwnLines(v: State, e: Event)
    requires Enabled(v, e) && OwnLines(v) && FilesKept(v) && NotYet(v) && Frozen(v) && LiveOk(v) && OneOpen(v)
    ensures OwnLines(Step(v, e))
  {
    hide Step, CanBegin, CanSeal, Frozen, FilesKept, NotYet, LiveOk, OneOpen, Backed;
    var w := Step(v, e);
    FilesFrom(v, e);
    forall s | s in w.disk.files ensures Backed(w, s, w.disk.files[s]) { FileBacked(v, e, s, w.disk.files[s]); }
    forall s | s in w.disk.removed ensures Backed(w, s, w.disk.removed[s]) { FileBacked(v, e, s, w.disk.removed[s]); }
  }

  /** A file, there or removed, was there or removed before, or is written by a draft or a Begin still at its number. */
  ghost predicate FromBefore(v: State, s: Session, f: File) {
    || (s in v.disk.files && v.disk.files[s] == f) || (s in v.disk.removed && v.disk.removed[s] == f)
    || (exists i | i in v.drafts :: Open(v.drafts[i]) && v.drafts[i].session == s && v.drafts[i].num == f.num)
    || (s in v.claims && v.claims[s] == f.num) || (s in v.resuming && v.resuming[s] == f)
  }

  ghost predicate AllFromBefore(v: State, k: Disk) {
    && k.files.Keys !! k.removed.Keys
    && (forall s | s in k.files :: FromBefore(v, s, k.files[s])) && (forall s | s in k.removed :: FromBefore(v, s, k.removed[s]))
  }

  lemma FilesFrom(v: State, e: Event)
    requires Enabled(v, e) && v.disk.files.Keys !! v.disk.removed.Keys
    ensures AllFromBefore(v, Step(v, e).disk)
  {
    hide Step, CanBegin, CanSeal, AllFromBefore;
    match e
    case Begin(s, op) => BeginFrom(v, s, op);
    case Persist(i) => SaveFrom(v, e);
    case Advance(i, _, _, _) => SaveFrom(v, e);
    case Unlink(i) => EndFrom(v, e);
    case Cut(_, _, _) => EndFrom(v, e);
    case _ =>
      FilesUntouched(v, e);
      SameFrom(v, Step(v, e).disk);
  }

  lemma SameFrom(v: State, k: Disk)
    requires v.disk.files.Keys !! v.disk.removed.Keys && k.files == v.disk.files && k.removed == v.disk.removed
    ensures AllFromBefore(v, k)
  {
    hide Open;
  }

  lemma FilesUntouched(v: State, e: Event)
    requires Enabled(v, e) && (e.OpenSegment? || e.CloseSegment? || e.Seal? || e.Retire? || e.Abort? || e.Restart?)
    ensures Step(v, e).disk.files == v.disk.files && Step(v, e).disk.removed == v.disk.removed
  {
    hide CanBegin, CanSeal, AfterSeal, Reopened, Pairs, Open;
    if e.Seal? { SealFilesSame(v, e.i, e.op); }
  }

  lemma SaveFrom(v: State, e: Event)
    requires Enabled(v, e) && (e.Persist? || e.Advance?) && v.disk.files.Keys !! v.disk.removed.Keys
    ensures AllFromBefore(v, Step(v, e).disk)
  {
    hide CanBegin, CanSeal, Reserve, Reservable, Pairs;
    assert Open(v.drafts[e.i]);
  }

  lemma EndFrom(v: State, e: Event)
    requires Enabled(v, e) && (e.Unlink? || e.Cut?) && v.disk.files.Keys !! v.disk.removed.Keys
    ensures AllFromBefore(v, Step(v, e).disk)
  {
    hide CanBegin, CanSeal, AfterCut, CanLose, Unlogs, Extends, TakenFrom, Open;
  }

  lemma BeginFrom(v: State, s: Session, op: BeginOp)
    requires Enabled(v, Begin(s, op)) && v.disk.files.Keys !! v.disk.removed.Keys
    ensures AllFromBefore(v, Step(v, Begin(s, op)).disk)
  {
    hide IsClaim, IsFloor, IsFound, Pending, Pairs, Open;
  }

  lemma FileBacked(v: State, e: Event, s: Session, f: File)
    requires Enabled(v, e) && OwnLines(v) && FilesKept(v) && NotYet(v) && Frozen(v) && LiveOk(v) && OneOpen(v) && FromBefore(v, s, f)
    requires (s in Step(v, e).disk.files && Step(v, e).disk.files[s] == f) || (s in Step(v, e).disk.removed && Step(v, e).disk.removed[s] == f)
    ensures Backed(Step(v, e), s, f)
  {
    hide Step, CanBegin, CanSeal, Frozen, NotSealed, FilesKept, LiveOk, OneOpen;
    if e.Seal? && e.op.WriteLine? && v.drafts[e.i].fin.Active? && v.drafts[e.i].fin.at == f.num && v.drafts[e.i].session == s {
      SealedFile(v, e, s, f);
    } else {
      WasBacked(v, s, f);
      BackedStays(v, e, s, f);
    }
  }

  lemma WasBacked(v: State, s: Session, f: File)
    requires OwnLines(v) && NotYet(v) && FromBefore(v, s, f)
    ensures Backed(v, s, f)
  {
    hide NotSealed, Open;
  }

  /** The draft that writes the line is registered, so the session's file is its own. */
  lemma SealedFile(v: State, e: Event, s: Session, f: File)
    requires Enabled(v, e) && OwnLines(v) && FilesKept(v) && Frozen(v) && LiveOk(v) && OneOpen(v)
    requires e.Seal? && e.op.WriteLine? && v.drafts[e.i].fin.Active? && v.drafts[e.i].fin.at == f.num && v.drafts[e.i].session == s
    requires (s in Step(v, e).disk.files && Step(v, e).disk.files[s] == f) || (s in Step(v, e).disk.removed && Step(v, e).disk.removed[s] == f)
    ensures Backed(Step(v, e), s, f)
  {
    hide Step, CanBegin, CanSeal, SoloOk, ShelfOk, SealOk;
    assert DraftFrozen(v.disk.shelf, v.drafts[e.i]);
    assert v.live[s] == e.i;
    WritesLine(v, e.i);
    SealFilesSame(v, e.i, e.op);
  }

  // ------------------------------------------------------------------------------------------
  // Nothing accepted is lost
  // ------------------------------------------------------------------------------------------

  lemma ArtifactsStay(v: State, e: Event, x: Segment)
    requires Enabled(v, e) && Frozen(v) && InArtifact(v.disk.shelf, x)
    ensures InArtifact(Step(v, e).disk.shelf, x)
  {
    hide Step, CanBegin, SoloOk, InArtifact, SealOk, ShelfOk;
    if e.Seal? { SealArtifacts(v, e.i, e.op, x); }
    else if e.Cut? { CutShelf(v, e); CutArtifacts(v.disk.shelf, e.loss, x); }
    else { ShelfStays(v, e); }
  }

  lemma SealArtifacts(v: State, i: Id, op: Op, x: Segment)
    requires Enabled(v, Seal(i, op)) && Frozen(v) && InArtifact(v.disk.shelf, x)
    ensures InArtifact(Step(v, Seal(i, op)).disk.shelf, x)
  {
    hide CanBegin, SoloOk, InArtifact, SealOk, ShelfOk, SealDraft, SealLedger, Commit, Effect, Reopened;
    var d := v.drafts[i];
    assert DraftFrozen(v.disk.shelf, d);
    if !op.Start? { OpArtifacts(v.disk.shelf, op, d.fin.at, d.fin.stage, d.fin.snap, x); }
  }

  /** What is accepted after a step and was not before is in the file the step leaves, or awaits it there. */
  lemma AcceptedFrom(v: State, e: Event, s: Session, x: Segment)
    requires Enabled(v, e) && FilesKept(v) && (s, x) in Step(v, e).ledger.accepted
    ensures (s, x) in v.ledger.accepted || OnFile(Step(v, e).disk, s, x)
  {
    hide Step, CanBegin, CanSeal, FilesKept, OnFile;
    match e
    case Begin(t, op) => BeginAccepted(v, t, op, s, x);
    case Advance(i, _, _, _) => AdvanceAccepted(v, e, s, x);
    case Restart => EndForgets(v, e);
    case Cut(_, _, _) => EndForgets(v, e);
    case _ => NoneAccepted(v, e);
  }

  lemma AdvanceAccepted(v: State, e: Event, s: Session, x: Segment)
    requires Enabled(v, e) && e.Advance? && (s, x) in Step(v, e).ledger.accepted
    ensures (s, x) in v.ledger.accepted || OnFile(Step(v, e).disk, s, x)
  {
    hide CanBegin, CanSeal, Reserve, Reservable, Crosses;
  }

  lemma NoneAccepted(v: State, e: Event)
    requires Enabled(v, e) && !e.Begin? && !e.Advance? && !Ends(e)
    ensures Step(v, e).ledger.accepted <= v.ledger.accepted
  {
    hide CanBegin, CanSeal, SealDraft, SealDisk, Drifts, Pairs;
  }

  lemma BeginAccepted(v: State, t: Session, op: BeginOp, s: Session, x: Segment)
    requires Enabled(v, Begin(t, op)) && FilesKept(v) && (s, x) in Step(v, Begin(t, op)).ledger.accepted
    ensures (s, x) in v.ledger.accepted || OnFile(Step(v, Begin(t, op)).disk, s, x)
  {
    hide IsClaim, IsFloor, IsFound, Pending;
  }

  /** What a file loses in a step is in an artifact, or is no longer accepted. */
  lemma FileKeeps(v: State, e: Event, s: Session, x: Segment)
    requires Enabled(v, e) && Frozen(v) && LiveOk(v) && OneOpen(v) && FilesKept(v) && NoneAwaits(v) && Looked(v) && OwnLines(v) && SafeToDrop(v)
    requires OnFile(v.disk, s, x) && (s, x) in v.ledger.accepted && !Step(v, e).ledger.misfiled
    ensures OnFile(Step(v, e).disk, s, x) || InArtifact(v.disk.shelf, x)
  {
    hide Step, CanBegin, AfterBegin, CanSeal, Frozen, LiveOk, OneOpen, FilesKept, NoneAwaits, Looked, OwnLines, SafeToDrop, InArtifact;
    match e
    case Begin(t, op) => BeginKeeps(v, t, op, s, x);
    case Persist(i) => SaveKeeps(v, e, s, x);
    case Advance(i, _, _, _) => SaveKeeps(v, e, s, x);
    case Unlink(i) => DropKeeps(v, e, s, x);
    case Cut(_, _, _) => CutKeeps(v, e, s, x);
    case _ => FilesStay(v, e);
  }

  lemma SaveKeeps(v: State, e: Event, s: Session, x: Segment)
    requires Enabled(v, e) && (e.Persist? || e.Advance?) && LiveOk(v) && OneOpen(v) && FilesKept(v) && OnFile(v.disk, s, x)
    ensures OnFile(Step(v, e).disk, s, x)
  {
    hide CanBegin, CanSeal, Reserve, Reservable, Pairs;
    assert Open(v.drafts[e.i]);
  }

  lemma DropKeeps(v: State, e: Event, s: Session, x: Segment)
    requires Enabled(v, e) && e.Unlink? && NoneAwaits(v) && SafeToDrop(v) && OnFile(v.disk, s, x) && (s, x) in v.ledger.accepted
    ensures OnFile(Step(v, e).disk, s, x) || InArtifact(v.disk.shelf, x)
  {
    hide CanBegin, CanSeal, InArtifact;
    if s == v.drafts[e.i].session { assert Spare(v, s); }
  }

  lemma CutKeeps(v: State, e: Event, s: Session, x: Segment)
    requires Enabled(v, e) && e.Cut? && OwnLines(v) && OnFile(v.disk, s, x)
    ensures OnFile(Step(v, e).disk, s, x)
  {
    hide AfterCut, Reopened, CanLose, Backed;
  }

  lemma BeginKeeps(v: State, t: Session, op: BeginOp, s: Session, x: Segment)
    requires Enabled(v, Begin(t, op)) && Frozen(v) && LiveOk(v) && Looked(v) && OwnLines(v) && OnFile(v.disk, s, x)
    requires !Step(v, Begin(t, op)).ledger.misfiled
    ensures OnFile(Step(v, Begin(t, op)).disk, s, x) || InArtifact(v.disk.shelf, x)
  {
    hide IsClaim, IsFloor, IsFound, Pending, Pairs, SoloOk, DraftFrozen, LiveOk, InArtifact, ShelfOk;
    if op.SetAside? && s == t { LineHolds(v, v.disk.files[s].num, v.disk.files[s].enc); }
  }

  /** A line's artifact is durable, so what it holds is safe. */
  lemma LineHolds(v: State, n: Seq, enc: set<Segment>)
    requires Frozen(v) && n in v.disk.shelf.lines
    ensures n in v.disk.shelf.art && (enc <= v.disk.shelf.art[n] ==> forall x | x in enc :: InArtifact(v.disk.shelf, x))
  {
    hide SoloOk, DraftFrozen;
    var k := v.disk.shelf;
    forall x | x in enc && enc <= k.art[n] ensures InArtifact(k, x) {
      assert n in k.namesDur && n in k.bytesDur && n in k.art && x in k.art[n];
    }
  }

  lemma StepKept(v: State, e: Event)
    requires Enabled(v, e) && Frozen(v) && LiveOk(v) && OneOpen(v) && FilesKept(v) && NoneAwaits(v) && Looked(v) && OwnLines(v) && SafeToDrop(v)
    requires KeptOk(v) && !Step(v, e).ledger.misfiled
    ensures KeptOk(Step(v, e))
  {
    hide Step, Enabled, Frozen, LiveOk, OneOpen, FilesKept, NoneAwaits, Looked, OwnLines, SafeToDrop, InArtifact, OnFile;
    var w := Step(v, e);
    forall s: Session, x: Segment | (s, x) in w.ledger.accepted ensures OnFile(w.disk, s, x) || InArtifact(w.disk.shelf, x) {
      AcceptedFrom(v, e, s, x);
      if (s, x) in v.ledger.accepted {
        if OnFile(v.disk, s, x) { FileKeeps(v, e, s, x); }
        if InArtifact(v.disk.shelf, x) { ArtifactsStay(v, e, x); }
      }
    }
  }

  lemma StepSafe(v: State, e: Event)
    requires Enabled(v, e) && SafeToDrop(v) && Frozen(v) && LiveOk(v) && OneOpen(v) && FilesKept(v) && NoneAwaits(v) && !Step(v, e).past.raced
    requires !Step(v, e).ledger.overlapped
    ensures SafeToDrop(Step(v, e))
  {
    hide Step, CanBegin, CanSeal, Frozen, LiveOk, OneOpen, FilesKept, NoneAwaits, SafeToDrop, Spare;
    var w := Step(v, e);
    if Ends(e) { EndAwaits(v, e); } else { SafeFrom(v, e); }
  }

  lemma SafeFrom(v: State, e: Event)
    requires Enabled(v, e) && SafeToDrop(v) && Frozen(v) && LiveOk(v) && OneOpen(v) && FilesKept(v) && !Step(v, e).past.raced && !Ends(e)
    requires !Step(v, e).ledger.overlapped
    ensures SafeToDrop(Step(v, e))
  {
    hide Step, Enabled, Frozen, LiveOk, OneOpen, FilesKept, Spare;
    var w := Step(v, e);
    forall i | i in w.drafts && w.drafts[i].session !in w.live && w.drafts[i].session !in w.ready ensures Spare(w, w.drafts[i].session) {
      WasSpare(v, e, i);
      SpareStays(v, e, w.drafts[i].session);
    }
  }

  /** A session that has just left the registry leaves nothing behind that is not safe. */
  ghost predicate LeftSpare(v: State, w: State, s: Session) {
    forall x: Segment | OnFile(v.disk, s, x) && (s, x) in w.ledger.accepted :: InArtifact(v.disk.shelf, x)
  }

  lemma WasSpare(v: State, e: Event, i: Id)
    requires Enabled(v, e) && SafeToDrop(v) && Frozen(v) && LiveOk(v) && OneOpen(v) && FilesKept(v) && !Step(v, e).past.raced && !Ends(e)
    requires i in Step(v, e).drafts && Step(v, e).drafts[i].session !in Step(v, e).live && Step(v, e).drafts[i].session !in Step(v, e).ready
    ensures LeftSpare(v, Step(v, e), Step(v, e).drafts[i].session)
  {
    hide Step, CanBegin, CanSeal, Frozen, LiveOk, OneOpen, FilesKept, InArtifact;
    var w := Step(v, e);
    var s := w.drafts[i].session;
    if e.Begin? { BeginSpare(v, e.s, e.begin, i); }
    else {
      CountersStay(v, e);
      IdsStay(v, e);
      if s !in v.live {
        AcceptedShrinks(v, e, s);
        assert Spare(v, s);
      } else { LeaveSpare(v, e, s); }
    }
  }

  lemma AcceptedShrinks(v: State, e: Event, s: Session)
    requires Enabled(v, e) && !e.Begin? && OneOpen(v) && s !in v.live
    ensures forall x: Segment | (s, x) in Step(v, e).ledger.accepted :: (s, x) in v.ledger.accepted
  {
    hide CanBegin, CanSeal, SealDraft, SealDisk, Reserve, Reservable, Reopened, AfterCut;
    if e.Advance? { assert Open(v.drafts[e.i]); }
  }

  lemma BeginSpare(v: State, t: Session, op: BeginOp, i: Id)
    requires Enabled(v, Begin(t, op)) && SafeToDrop(v) && LiveOk(v) && i in Step(v, Begin(t, op)).drafts
    requires var w := Step(v, Begin(t, op)); w.drafts[i].session !in w.live && w.drafts[i].session !in w.ready
    ensures LeftSpare(v, Step(v, Begin(t, op)), Step(v, Begin(t, op)).drafts[i].session)
  {
    hide IsClaim, IsFloor, IsFound, Pending, InArtifact, Open;
  }

  /** The registered draft was aborted, and its content discarded, or sealed, and its content is durable. */
  lemma LeaveSpare(v: State, e: Event, s: Session)
    requires Enabled(v, e) && Frozen(v) && LiveOk(v) && FilesKept(v) && !e.Begin? && !Ends(e) && s in v.live && s !in Step(v, e).live
    ensures LeftSpare(v, Step(v, e), s)
  {
    hide Step, CanBegin, CanSeal, SoloOk, ShelfOk, InArtifact;
    LeavesBy(v, e, s);
    var d := v.drafts[v.live[s]];
    if d.fin.Done? {
      assert DraftFrozen(v.disk.shelf, d);
      LineHolds(v, d.fin.at, d.enc);
    }
  }

  lemma LeavesBy(v: State, e: Event, s: Session)
    requires Enabled(v, e) && LiveOk(v) && !e.Begin? && !Ends(e) && s in v.live && s !in Step(v, e).live
    ensures (e.Retire? && v.drafts[v.live[s]].fin.Done?) ||
            (e.Abort? && forall x: Segment | x in v.drafts[v.live[s]].enc && Open(v.drafts[v.live[s]]) :: (s, x) !in Step(v, e).ledger.accepted)
  {
    hide CanBegin, CanSeal, SealDraft, SealDisk, SealLedger, Reserve, Reservable;
  }

  /** What was spare with what is accepted now stays spare: its file is not written. */
  lemma SpareStays(v: State, e: Event, s: Session)
    requires Enabled(v, e) && Frozen(v) && LeftSpare(v, Step(v, e), s) && !Ends(e)
    requires s !in Step(v, e).live && s !in Step(v, e).ready && OneOpen(v)
    ensures Spare(Step(v, e), s)
  {
    hide Step, CanBegin, CanSeal, Frozen, OneOpen, InArtifact;
    var w := Step(v, e);
    if s in w.disk.files { FileOnlyDropped(v, e, s); }
    forall x: Segment | OnFile(w.disk, s, x) && (s, x) in w.ledger.accepted ensures InArtifact(w.disk.shelf, x) {
      ArtifactsStay(v, e, x);
    }
  }

  lemma FileOnlyDropped(v: State, e: Event, s: Session)
    requires Enabled(v, e) && !Ends(e) && s !in Step(v, e).live && s !in Step(v, e).ready && OneOpen(v) && s in Step(v, e).disk.files
    ensures s in v.disk.files && Step(v, e).disk.files[s] == v.disk.files[s]
  {
    hide Step, CanBegin, CanSeal, OneOpen;
    match e
    case Begin(t, op) => BeginOnlyDropped(v, t, op, s);
    case Persist(i) => OthersSaved(v, e, s);
    case Advance(i, _, _, _) => OthersSaved(v, e, s);
    case _ => FewerFiles(v, e);
  }

  lemma OthersSaved(v: State, e: Event, s: Session)
    requires Enabled(v, e) && (e.Persist? || e.Advance?) && s !in Step(v, e).live && OneOpen(v) && s in Step(v, e).disk.files
    ensures s in v.disk.files && Step(v, e).disk.files[s] == v.disk.files[s]
  {
    hide CanBegin, CanSeal, Reserve, Reservable, Pairs;
    assert Open(v.drafts[e.i]);
  }

  lemma BeginOnlyDropped(v: State, t: Session, op: BeginOp, s: Session)
    requires Enabled(v, Begin(t, op)) && s !in Step(v, Begin(t, op)).ready && s in Step(v, Begin(t, op)).disk.files
    ensures s in v.disk.files && Step(v, Begin(t, op)).disk.files[s] == v.disk.files[s]
  {
    hide IsClaim, IsFloor, IsFound, Pending, Pairs;
  }
}
