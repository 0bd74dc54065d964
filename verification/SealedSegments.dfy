/** Where a segment may end up: in one sealed checkpoint at most, over every run in which no seal moved
    past a taken number - within one lifetime always, across lifetimes when the callers are orderly and
    no mark failed. */
module SealedSegments {
  import opened SegmentBook
  import opened SealShelf
  import opened DraftWriter

  /** Every segment is marked into number `n`, or - where the log may have forgotten - not at all. */
  predicate Fits(b: Book, n: Seq, enc: set<Segment>, loose: bool) {
    forall x | x in enc ::
      x in b && b[x].closed && (b[x].mark == Reserved(n) || b[x].mark == Recorded(n) || (loose && b[x].mark.Free?))
  }

  predicate OfSession(b: Book, s: Session, enc: set<Segment>) { forall x | x in enc && x in b :: b[x].session == s }

  predicate AllRecorded(b: Book, enc: set<Segment>, n: Seq) { forall x | x in enc :: x in b && b[x].mark == Recorded(n) }

  /** In one lifetime whatever a draft holds is marked into its number. */
  ghost predicate Tight(v: State) { forall p | Used(v, p) :: Fits(v.disk.book, NumAt(v, p), EncAt(v, p), false) }

  /** Across lifetimes what an open draft holds is marked into its number or unmarked, and is its session's. */
  ghost predicate Loose(v: State) {
    forall p | Used(v, p) && Writable(v, p) ::
      Fits(v.disk.book, NumAt(v, p), EncAt(v, p), true) && OfSession(v.disk.book, SessionAt(v, p), EncAt(v, p))
  }

  /** A session has one open draft, the registered one. */
  ghost predicate OneOpen(v: State) {
    forall i | i in v.drafts && Open(v.drafts[i]) :: v.drafts[i].session in v.live && v.live[v.drafts[i].session] == i
  }

  /** The session's file, there or just removed, has the number `n`. */
  predicate FileIs(k: Disk, s: Session, n: Seq) {
    (s in k.files ==> k.files[s].num == n) && (s in k.removed ==> k.removed[s].num == n)
  }

  /** The file of a session that has a draft, or is about to register one, is that draft's. */
  ghost predicate FileNumbers(v: State) {
    && v.disk.files.Keys !! v.disk.removed.Keys
    && (forall s | s in v.resuming :: FileIs(v.disk, s, v.resuming[s].num))
    && (forall s | s in v.live && v.live[s] in v.drafts :: FileIs(v.disk, s, v.drafts[v.live[s]].num))
    && (forall s | s in v.ready :: FileIs(v.disk, s, v.ready[s].num))
  }

  predicate FromRank(f: Fin, r: nat) { f.Active? && Rank(f.stage) >= r }

  /** What is marked at each stage, and what a line vouches for. */
  ghost predicate DraftMarked(k: Disk, d: Draft) {
    && (FromRank(d.fin, 4) ==> AllRecorded(k.book, d.fin.snap, d.fin.at))
    && (FromRank(d.fin, 5) ==> AllRecorded(k.synced, d.fin.snap, d.fin.at))
  }

  ghost predicate LinesMarked(k: Disk) {
    forall n | n in k.shelf.lines && n in k.shelf.art :: AllRecorded(k.book, k.shelf.art[n], n) && AllRecorded(k.synced, k.shelf.art[n], n)
  }

  ghost predicate MarkedOk(v: State) { LinesMarked(v.disk) && forall i | i in v.drafts :: DraftMarked(v.disk, v.drafts[i]) }

  /** Every line's draft is still in memory, sealed at its number. */
  ghost predicate LinesDone(v: State) {
    forall n | n in v.disk.shelf.lines ::
      n in v.ledger.sealedBy && v.ledger.sealedBy[n].id in v.drafts &&
      v.drafts[v.ledger.sealedBy[n].id].fin.Done? && v.drafts[v.ledger.sealedBy[n].id].fin.at == n
  }

  predicate OneLifetime(p: Past) { !p.bumped && !p.restarted }

  predicate Orderly(p: Past) { !p.bumped && !p.raced && !p.crossed && !p.unlogged }

  /** One lifetime, or orderly callers and a log that took every mark and lost no segment still held. */
  predicate Calm(p: Past) { OneLifetime(p) || (Orderly(p) && !p.unmarked) }

  // Marks

  lemma ReserveFits(b: Book, ids: seq<Segment>, m: Seq, n: Seq, enc: set<Segment>, loose: bool)
    requires Fits(b, n, enc, loose)
    requires loose ==> n == m || forall x | x in ids :: x !in enc
    ensures Fits(Reserve(b, ids, m), n, enc, loose)
  {
  }

  lemma CommitFits(b: Book, snap: set<Segment>, m: Seq, n: Seq, enc: set<Segment>, loose: bool)
    requires Fits(b, n, enc, loose) && Fits(b, m, snap, loose)
    requires loose ==> n == m || snap !! enc
    ensures Fits(Commit(b, snap, m), n, enc, loose)
  {
  }

  lemma TakenFits(b: Book, ids: seq<Segment>, n: Seq)
    requires Reservable(b, ids, n)
    ensures Fits(Reserve(b, ids, n), n, Elements(ids), false)
  {
  }

  lemma ReopenedFits(b: Book, n: Seq, enc: set<Segment>)
    requires Fits(b, n, enc, true)
    ensures Fits(Reopened(b), n, enc, true)
  {
  }

  /** A cut that takes no open or close record of the segments may leave them unmarked, and no more. */
  lemma CutFits(b: Book, c: Book, n: Seq, enc: set<Segment>)
    requires Fits(b, n, enc, true) && TakenFrom(c, b) && forall x | x in enc && x in b :: x in c && (b[x].closed ==> c[x].closed)
    ensures Fits(c, n, enc, true)
  {
  }

  lemma SessionsStay(b: Book, c: Book, s: Session, enc: set<Segment>)
    requires OfSession(b, s, enc) && enc <= b.Keys && Extends(b, c)
    ensures OfSession(c, s, enc)
  {
  }

  // ------------------------------------------------------------------------------------------
  // Steps
  // ------------------------------------------------------------------------------------------

  predicate Ends(e: Event) { e.Restart? || e.Cut? }

  /** The log after the process ended. */
  function EndedBook(b: Book, e: Event): Book { if e.Cut? then e.kept else Reopened(b) }

  predicate TouchesBook(e: Event) {
    e.OpenSegment? || e.CloseSegment? || e.Advance? || Ends(e) || (e.Seal? && (e.op.CommitMarks? || e.op.MarksFail?))
  }

  lemma BookStays(v: State, e: Event)
    requires Enabled(v, e) && !TouchesBook(e)
    ensures Step(v, e).disk.book == v.disk.book
  {
    hide CanBegin, AfterBegin, CanSeal, SealDraft, SealLedger, Commit, Effect, Pairs;
    if e.Begin? { BeginDisk(v, e.s, e.begin); }
  }

  /** Opening or closing a segment moves no mark. */
  lemma SegmentFits(v: State, e: Event, n: Seq, enc: set<Segment>, loose: bool)
    requires Enabled(v, e) && (e.OpenSegment? || e.CloseSegment?) && Fits(v.disk.book, n, enc, loose)
    ensures Fits(Step(v, e).disk.book, n, enc, loose)
  {
    hide CanBegin, CanSeal;
  }

  /** After a batch: what its draft holds fits, loosely or tightly as before. */
  lemma AdvanceOwnFits(v: State, e: Event, loose: bool)
    requires Enabled(v, e) && e.Advance? && Fits(v.disk.book, v.drafts[e.i].num, v.drafts[e.i].enc, loose)
    ensures Fits(Step(v, e).disk.book, v.drafts[e.i].num, Step(v, e).drafts[e.i].enc, loose)
  {
    hide Reserve, Reservable, Fits, Elements, CanBegin, CanSeal, Pairs;
    var d, b := v.drafts[e.i], v.disk.book;
    ReserveFits(b, e.ids, d.num, d.num, d.enc, loose);
    if Reservable(b, e.ids, d.num) {
      TakenFits(b, e.ids, d.num);
      var c := Reserve(b, e.ids, d.num);
      BothFit(c, d.num, d.enc, Elements(e.ids), loose);
      ReserveFits(c, e.again, d.num, d.num, d.enc + Elements(e.ids), loose);
    } else {
      RefusedReserve(b, e.ids, d.num);
    }
  }

  lemma BothFit(b: Book, n: Seq, c: set<Segment>, d: set<Segment>, loose: bool)
    requires Fits(b, n, c, loose) && Fits(b, n, d, false)
    ensures Fits(b, n, c + d, loose)
  {
  }

  /** After a batch: anything else fits as before, if it is of the same number, or shares no segment
      that the batch could have marked. */
  lemma AdvanceOtherFits(v: State, e: Event, n: Seq, enc: set<Segment>, loose: bool)
    requires Enabled(v, e) && e.Advance? && Fits(v.disk.book, n, enc, loose)
    requires loose && n != v.drafts[e.i].num ==> forall x | x in e.ids || x in e.again :: x !in enc
    ensures Fits(Step(v, e).disk.book, n, enc, loose)
  {
    hide Reserve, Reservable, Fits, Elements, CanBegin, CanSeal, Pairs;
    var m := v.drafts[e.i].num;
    ReserveFits(v.disk.book, e.ids, m, n, enc, loose);
    ReserveFits(Reserve(v.disk.book, e.ids, m), e.again, m, n, enc, loose);
  }

  lemma StepTight(v: State, e: Event)
    requires Enabled(v, e) && Tight(v) && AtOwnNumber(v) && Frozen(v) && OneLifetime(Step(v, e).past)
    ensures Tight(Step(v, e))
  {
    hide Step, Enabled, Fits, AtOwnNumber, Frozen, NumAt, EncAt, SessionAt, Writable;
    var w := Step(v, e);
    forall p | Used(w, p) ensures Fits(w.disk.book, NumAt(w, p), EncAt(w, p), false) {
      TightAt(v, e, p);
    }
  }

  lemma TightAt(v: State, e: Event, p: Place)
    requires Enabled(v, e) && Tight(v) && AtOwnNumber(v) && Frozen(v) && OneLifetime(Step(v, e).past) && Used(Step(v, e), p)
    ensures Fits(Step(v, e).disk.book, NumAt(Step(v, e), p), EncAt(Step(v, e), p), false)
  {
    hide Step, Fits, AtOwnNumber, Frozen, CanBegin, CanSeal;
    var w := Step(v, e);
    if e.Advance? {
      assert Used(v, InDraft(e.i));
      AdvanceOwnFits(v, e, false);
      var q := BeforeAdvance(v, e, p);
      AdvanceOtherFits(v, e, NumAt(v, q), EncAt(v, q), false);
    } else {
      var q := Before(v, e, p);
      if NewlyClaimed(v, e, w, p) || p.InLine? {
        NothingFits(w.disk.book, NumAt(w, p));
      } else {
        TightMoved(v, e, NumAt(v, q), EncAt(v, q));
      }
    }
  }

  lemma NothingFits(b: Book, n: Seq)
    ensures Fits(b, n, {}, false) && Fits(b, n, {}, true)
  {
  }

  lemma TightMoved(v: State, e: Event, n: Seq, enc: set<Segment>)
    requires Enabled(v, e) && Tight(v) && AtOwnNumber(v) && Frozen(v) && OneLifetime(Step(v, e).past) && !e.Advance?
    requires Fits(v.disk.book, n, enc, false)
    ensures Fits(Step(v, e).disk.book, n, enc, false)
  {
    hide Step, Fits, CanBegin, CanSeal;
    if !TouchesBook(e) { BookStays(v, e); }
    else if e.Seal? {
      var d := v.drafts[e.i];
      assert Used(v, InDraft(e.i)) && DraftFrozen(v.disk.shelf, d);
      CommitStage(v, e);
      SomeFit(v.disk.book, d.fin.at, d.fin.snap, Marks(v, e), false);
      CommitFits(v.disk.book, Marks(v, e), d.fin.at, n, enc, false);
    } else if Ends(e) {
      EndBook(v, e);
    } else {
      SegmentFits(v, e, n, enc, false);
    }
  }

  /** The marks a seal's step writes: all it holds, or what it came to before a failure. */
  function Marks(v: State, e: Event): set<Segment>
    requires e.Seal? && e.i in v.drafts && !v.drafts[e.i].fin.Idle?
  {
    if e.op.MarksFail? then e.op.some * v.drafts[e.i].fin.snap else v.drafts[e.i].fin.snap
  }

  lemma CommitStage(v: State, e: Event)
    requires Enabled(v, e) && e.Seal? && (e.op.CommitMarks? || e.op.MarksFail?)
    ensures var f := v.drafts[e.i].fin; f.Active? && Step(v, e).disk.book == Commit(v.disk.book, Marks(v, e), f.at) && Marks(v, e) <= f.snap
  {
    hide Commit, CanBegin, SealLedger;
  }

  lemma SomeFit(b: Book, n: Seq, enc: set<Segment>, some: set<Segment>, loose: bool)
    requires Fits(b, n, enc, loose) && some <= enc
    ensures Fits(b, n, some, loose)
  {
  }

  lemma EndBook(v: State, e: Event)
    requires Enabled(v, e) && Ends(e)
    ensures Step(v, e).past.restarted && Step(v, e).disk.book == EndedBook(v.disk.book, e)
  {
    hide Reopened, AfterCut;
  }

  // Across lifetimes

  lemma StepOneOpen(v: State, e: Event)
    requires Enabled(v, e) && OneOpen(v) && LiveOk(v) && Frozen(v) && !Step(v, e).past.raced
    ensures OneOpen(Step(v, e))
  {
    hide CanBegin, AfterBegin, OneOpen, LiveOk, CanSeal, AfterSeal, Reserve, Reservable, Reopened, AfterCut, DraftFrozen, Frozen, Pairs, AfterAbort, Unregister;
    match e
    case Begin(s, op) => BeginOneOpen(v, s, op);
    case Seal(i, op) => SealOneOpen(v, i, op);
    case Retire(i) => LeaveOneOpen(v, e, i);
    case Abort(i) => LeaveOneOpen(v, e, i);
    case Advance(i, _, _, _) => SameOneOpen(v, Step(v, e), i);
    case Unlink(i) => SameOneOpen(v, Step(v, e), i);
    case Restart => EndOneOpen(v, e);
    case Cut(_, _, _) => EndOneOpen(v, e);
    case _ => UntouchedOneOpen(v, Step(v, e));
  }

  lemma UntouchedOneOpen(v: State, w: State)
    requires OneOpen(v) && w.drafts == v.drafts && w.live == v.live
    ensures OneOpen(w)
  {
  }

  lemma SameOneOpen(v: State, w: State, i: Id)
    requires OneOpen(v) && i in v.drafts && i in w.drafts && w.drafts == v.drafts[i := w.drafts[i]] && w.live == v.live
    requires w.drafts[i].session == v.drafts[i].session && (Open(w.drafts[i]) ==> Open(v.drafts[i]))
    ensures OneOpen(w)
  {
  }

  lemma EndOneOpen(v: State, e: Event)
    requires Enabled(v, e) && Ends(e)
    ensures OneOpen(Step(v, e))
  {
    hide Step;
    EndForgets(v, e);
  }

  lemma EndFileNumbers(v: State, e: Event)
    requires Enabled(v, e) && Ends(e) && FileNumbers(v)
    ensures FileNumbers(Step(v, e))
  {
    hide Step;
    EndForgets(v, e);
    EndApart(v, e);
  }

  lemma EndApart(v: State, e: Event)
    requires Enabled(v, e) && Ends(e) && v.disk.files.Keys !! v.disk.removed.Keys
    ensures Step(v, e).disk.files.Keys !! Step(v, e).disk.removed.Keys
  {
    hide Reopened, AfterCut, CanLose, Unlogs, Extends, TakenFrom;
  }

  lemma SealOneOpen(v: State, i: Id, op: Op)
    requires Enabled(v, Seal(i, op)) && OneOpen(v) && Frozen(v)
    ensures OneOpen(Step(v, Seal(i, op)))
  {
    hide CanBegin, SealDisk, SealLedger, OneOpen;
    assert DraftFrozen(v.disk.shelf, v.drafts[i]);
    SameOneOpen(v, Step(v, Seal(i, op)), i);
  }

  lemma LeaveOneOpen(v: State, e: Event, i: Id)
    requires Enabled(v, e) && e in {Retire(i), Abort(i)} && OneOpen(v) && LiveOk(v) && Frozen(v) && !Step(v, e).past.raced
    ensures OneOpen(Step(v, e))
  {
    hide DraftFrozen, CanBegin, CanSeal, OneOpen, LiveOk, Pairs;
    assert e.Retire? || e.Abort?;
    if e.Retire? { DoneIsClosed(v, i); }
    ClosedOneOpen(v, i, Step(v, e));
  }

  /** A closed draft may leave the registry. */
  lemma ClosedOneOpen(v: State, i: Id, w: State)
    requires OneOpen(v) && LiveOk(v) && i in v.drafts && i in w.drafts && w.drafts == v.drafts[i := w.drafts[i]] && !Open(w.drafts[i])
    requires w.drafts[i].session == v.drafts[i].session && w.live == Unregister(v, i).live
    ensures OneOpen(w)
  {
  }

  lemma StepFileNumbers(v: State, e: Event)
    requires Enabled(v, e) && OneOpen(v) && FileNumbers(v) && LiveOk(v) && AtOwnNumber(v) && !Step(v, e).past.bumped
    ensures FileNumbers(Step(v, e))
  {
    hide CanBegin, AfterBegin, OneOpen, FileNumbers, LiveOk, CanSeal, AfterSeal, Reserve, Reservable, Reopened, AfterCut, Pairs;
    match e
    case Begin(s, op) => BeginFileNumbers(v, s, op);
    case Seal(i, op) => SealFileNumbers(v, i, op);
    case Persist(i) => SavedNumbers(v, Step(v, e), i);
    case Advance(i, _, _, saved) => if saved { SavedNumbers(v, Step(v, e), i); } else { UnsavedNumbers(v, Step(v, e), i); }
    case Unlink(i) => DroppedNumbers(v, Step(v, e), i);
    case Restart => EndFileNumbers(v, e);
    case Cut(_, _, _) => EndFileNumbers(v, e);
    case _ => SameNumbers(v, e);
  }

  lemma SameNumbers(v: State, e: Event)
    requires Enabled(v, e) && FileNumbers(v) && LiveOk(v) && (e.OpenSegment? || e.CloseSegment? || e.Retire? || e.Abort?)
    ensures FileNumbers(Step(v, e))
  {
    hide CanBegin, CanSeal, Pairs, FileNumbers, LiveOk;
    if e.Retire? || e.Abort? { LeftNumbers(v, e.i, Step(v, e)); } else { UntouchedNumbers(v, Step(v, e)); }
  }

  lemma UntouchedNumbers(v: State, w: State)
    requires FileNumbers(v) && w.drafts == v.drafts && w.live == v.live && w.resuming == v.resuming && w.ready == v.ready && w.disk.files == v.disk.files && w.disk.removed == v.disk.removed
    ensures FileNumbers(w)
  {
  }

  lemma LeftNumbers(v: State, i: Id, w: State)
    requires FileNumbers(v) && LiveOk(v) && i in v.drafts && i in w.drafts && w.drafts == v.drafts[i := w.drafts[i]] && w.drafts[i].num == v.drafts[i].num
    requires w.live == Unregister(v, i).live && w.resuming == v.resuming && w.ready == v.ready && w.disk == v.disk
    ensures FileNumbers(w)
  {
  }

  lemma SavedNumbers(v: State, w: State, i: Id)
    requires OneOpen(v) && FileNumbers(v) && LiveOk(v) && i in v.drafts && !v.drafts[i].sealed && i in w.drafts && w.drafts == v.drafts[i := w.drafts[i]]
    requires w.drafts[i].num == v.drafts[i].num && w.live == v.live && w.resuming == v.resuming && w.ready == v.ready
    requires w.disk.removed == map[] && w.disk.files == v.disk.files[v.drafts[i].session := File(v.drafts[i].num, w.drafts[i].enc)]
    ensures FileNumbers(w)
  {
    assert Open(v.drafts[i]);
  }

  lemma UnsavedNumbers(v: State, w: State, i: Id)
    requires FileNumbers(v) && i in v.drafts && i in w.drafts && w.drafts == v.drafts[i := w.drafts[i]] && w.drafts[i].num == v.drafts[i].num
    requires w.live == v.live && w.resuming == v.resuming && w.ready == v.ready && w.disk.files == v.disk.files && w.disk.removed == v.disk.removed
    ensures FileNumbers(w)
  {
  }

  lemma DroppedNumbers(v: State, w: State, i: Id)
    requires FileNumbers(v) && i in v.drafts && i in w.drafts && w.drafts == v.drafts[i := w.drafts[i]]
    requires w.drafts[i].num == v.drafts[i].num && w.live == v.live && w.resuming == v.resuming && w.ready == v.ready && w.disk == DropFile(v.disk, v.drafts[i].session)
    ensures FileNumbers(w)
  {
  }

  lemma SealFileNumbers(v: State, i: Id, op: Op)
    requires Enabled(v, Seal(i, op)) && FileNumbers(v) && AtOwnNumber(v) && !Step(v, Seal(i, op)).past.bumped
    ensures FileNumbers(Step(v, Seal(i, op)))
  {
    hide CanSeal, SealDraft, SealDisk, SealLedger;
    SealPast(v, i, op);
    SealPlace(v.disk, v.drafts[i], op);
  }

  lemma BeginFileNumbers(v: State, s: Session, op: BeginOp)
    requires CanBegin(v, s, op) && FileNumbers(v) && LiveOk(v)
    ensures FileNumbers(AfterBegin(v, s, op))
  {
    hide CanBegin, AfterBegin, FileNumbers, LiveOk;
    if op.Write? || op.Rewrite? { WriteFileNumbers(v, s, op); }
    else if op.SetAside? { AsideFileNumbers(v, s); }
    else { GateFileNumbers(v, s, op); }
  }

  lemma WriteFileNumbers(v: State, s: Session, op: BeginOp)
    requires CanBegin(v, s, op) && FileNumbers(v) && LiveOk(v) && (op.Write? || op.Rewrite?)
    ensures FileNumbers(AfterBegin(v, s, op))
  {
    hide Pending, Open;
  }

  lemma AsideFileNumbers(v: State, s: Session)
    requires CanBegin(v, s, SetAside) && FileNumbers(v) && LiveOk(v)
    ensures FileNumbers(AfterBegin(v, s, SetAside))
  {
    hide Open;
  }

  lemma GateFileNumbers(v: State, s: Session, op: BeginOp)
    requires CanBegin(v, s, op) && FileNumbers(v) && LiveOk(v) && !op.Write? && !op.Rewrite? && !op.SetAside?
    ensures FileNumbers(AfterBegin(v, s, op))
  {
    hide IsClaim, IsFloor, IsFound, Pending, Pairs, Open;
  }

  lemma DoneIsClosed(v: State, i: Id)
    requires Frozen(v) && i in v.drafts && v.drafts[i].fin.Done?
    ensures !Open(v.drafts[i])
  {
    assert DraftFrozen(v.disk.shelf, v.drafts[i]);
  }

  lemma BeginOneOpen(v: State, s: Session, op: BeginOp)
    requires CanBegin(v, s, op) && OneOpen(v) && LiveOk(v)
    ensures OneOpen(AfterBegin(v, s, op))
  {
    hide IsClaim, IsFloor, IsFound, Pending, Pairs, SaveFile, DropFile;
  }

  /** The log only grows, but for a cut. */
  lemma BookGrows(v: State, e: Event)
    requires Enabled(v, e) && !e.Cut?
    ensures Extends(v.disk.book, Step(v, e).disk.book)
  {
    hide Step, CanBegin, CanSeal, Extends;
    match e
    case Advance(i, _, _, _) => ReserveGrows(v, e);
    case Seal(i, op) => CommitGrows(v, i, op);
    case Restart =>
      EndBook(v, e);
      SameGrows(v.disk.book);
    case OpenSegment(x, s) => SegmentGrows(v, e);
    case CloseSegment(x) => SegmentGrows(v, e);
    case _ =>
      BookStays(v, e);
      SameGrows(v.disk.book);
  }

  lemma SameGrows(b: Book)
    ensures Extends(b, b) && Extends(b, Reopened(b))
  {
  }

  lemma SegmentGrows(v: State, e: Event)
    requires Enabled(v, e) && (e.OpenSegment? || e.CloseSegment?)
    ensures Extends(v.disk.book, Step(v, e).disk.book)
  {
    hide CanBegin, CanSeal;
  }

  lemma ReserveGrows(v: State, e: Event)
    requires Enabled(v, e) && e.Advance?
    ensures Extends(v.disk.book, Step(v, e).disk.book)
  {
    hide CanBegin, CanSeal, Reservable, Pairs, Elements, Crosses;
  }

  lemma CommitGrows(v: State, i: Id, op: Op)
    requires Enabled(v, Seal(i, op))
    ensures Extends(v.disk.book, Step(v, Seal(i, op)).disk.book)
  {
    hide CanBegin, SealDraft, SealLedger, Effect, CanDo;
  }

  ghost predicate OrderlyInv(v: State) { Loose(v) && OneOpen(v) && FileNumbers(v) && LiveOk(v) && AtOwnNumber(v) && Frozen(v) }

  lemma StepLoose(v: State, e: Event)
    requires Enabled(v, e) && OrderlyInv(v) && Orderly(Step(v, e).past)
    ensures Loose(Step(v, e))
  {
    hide Step, Enabled, Fits, OfSession, NumAt, EncAt, SessionAt, Writable, OrderlyInv;
    var w := Step(v, e);
    forall p | Used(w, p) && Writable(w, p)
      ensures Fits(w.disk.book, NumAt(w, p), EncAt(w, p), true) && OfSession(w.disk.book, SessionAt(w, p), EncAt(w, p))
    {
      if e.Advance? { LooseAdvance(v, e, p); } else { LoosePlain(v, e, p); }
    }
  }

  /** Two open places of one session have one number. */
  lemma SameNumber(v: State, p: Place, q: Place)
    requires OneOpen(v) && FileNumbers(v) && LiveOk(v) && Used(v, p) && Used(v, q) && Writable(v, p) && Writable(v, q)
    requires SessionAt(v, p) == SessionAt(v, q) && p.InDraft? && !q.InLine?
    ensures NumAt(v, p) == NumAt(v, q)
  {
  }

  lemma Disjoint(b: Book, s: Session, c: set<Segment>, t: Session, d: set<Segment>)
    requires OfSession(b, s, c) && OfSession(b, t, d) && d <= b.Keys && s != t
    ensures c !! d
  {
  }

  lemma FitsKnown(b: Book, n: Seq, enc: set<Segment>, loose: bool)
    requires Fits(b, n, enc, loose)
    ensures enc <= b.Keys
  {
  }

  lemma LooseAdvance(v: State, e: Event, p: Place)
    requires Enabled(v, e) && OrderlyInv(v) && Orderly(Step(v, e).past) && e.Advance?
    requires Used(Step(v, e), p) && Writable(Step(v, e), p)
    ensures var w := Step(v, e);
            Fits(w.disk.book, NumAt(w, p), EncAt(w, p), true) && OfSession(w.disk.book, SessionAt(w, p), EncAt(w, p))
  {
    hide Step, Extends, Fits, OfSession, CanBegin, CanSeal, OneOpen, FileNumbers, LiveOk, AtOwnNumber, Frozen;
    var w, d, b := Step(v, e), v.drafts[e.i], v.disk.book;
    var own := InDraft(e.i);
    assert Used(v, own) && Writable(v, own) && NumAt(v, own) == d.num && EncAt(v, own) == d.enc && SessionAt(v, own) == d.session;
    OfferedOfSession(v, e);
    BookGrows(v, e);
    var q := BeforeAdvance(v, e, p);
    if p.InLine? {
      NothingFits(w.disk.book, NumAt(w, p));
      NoneOfSession(w.disk.book, SessionAt(w, p));
    } else if CameFrom(v, q, w, p) && p != own {
      FitsKnown(b, NumAt(v, q), EncAt(v, q), true);
      if SessionAt(v, q) == d.session { SameNumber(v, own, q); }
      else {
        Disjoint(b, d.session, Elements(e.ids) + Elements(e.again), SessionAt(v, q), EncAt(v, q));
      }
      AdvanceOtherFits(v, e, NumAt(v, q), EncAt(v, q), true);
      SessionsStay(b, w.disk.book, SessionAt(v, q), EncAt(v, q));
    } else {
      AdvanceOwnFits(v, e, true);
      OwnSession(v, e);
    }
  }

  /** A batch that crosses no session offers only its draft's segments, and re-offers only what the
      draft holds. */
  lemma OfferedOfSession(v: State, e: Event)
    requires Enabled(v, e) && e.Advance? && !Step(v, e).past.crossed
    requires OfSession(v.disk.book, v.drafts[e.i].session, v.drafts[e.i].enc)
    ensures OfSession(v.disk.book, v.drafts[e.i].session, Elements(e.ids) + Elements(e.again))
  {
    hide CanBegin, CanSeal, Reserve, Reservable, Pairs;
    assert !Crosses(v.disk.book, v.drafts[e.i].session, e.ids);
  }

  lemma OwnSession(v: State, e: Event)
    requires Enabled(v, e) && e.Advance? && Fits(v.disk.book, v.drafts[e.i].num, v.drafts[e.i].enc, true)
    requires OfSession(v.disk.book, v.drafts[e.i].session, v.drafts[e.i].enc)
    requires OfSession(v.disk.book, v.drafts[e.i].session, Elements(e.ids) + Elements(e.again))
    ensures OfSession(Step(v, e).disk.book, v.drafts[e.i].session, Step(v, e).drafts[e.i].enc)
  {
    hide CanBegin, CanSeal, Pairs;
  }

  lemma NoneOfSession(b: Book, s: Session)
    ensures OfSession(b, s, {})
  {
  }

  lemma LoosePlain(v: State, e: Event, p: Place)
    requires Enabled(v, e) && OrderlyInv(v) && Orderly(Step(v, e).past) && !e.Advance?
    requires Used(Step(v, e), p) && Writable(Step(v, e), p)
    ensures var w := Step(v, e);
            Fits(w.disk.book, NumAt(w, p), EncAt(w, p), true) && OfSession(w.disk.book, SessionAt(w, p), EncAt(w, p))
  {
    hide Step, Extends, Fits, OfSession, CanBegin, CanSeal, OneOpen, FileNumbers, LiveOk, AtOwnNumber, Frozen;
    var w, b := Step(v, e), v.disk.book;
    var q := Before(v, e, p);
    if NewlyClaimed(v, e, w, p) || p.InLine? {
      NothingFits(w.disk.book, NumAt(w, p));
      NoneOfSession(w.disk.book, SessionAt(w, p));
    } else if e.Cut? {
      CutHolds(v, e, p);
      EndBook(v, e);
      CutFits(b, w.disk.book, NumAt(v, q), EncAt(v, q));
      CutSessions(b, w.disk.book, SessionAt(v, q), EncAt(v, q));
    } else {
      BookGrows(v, e);
      FitsKnown(b, NumAt(v, q), EncAt(v, q), true);
      SessionsStay(b, w.disk.book, SessionAt(v, q), EncAt(v, q));
      LooseMoved(v, e, q);
    }
  }

  /** After a cut only draft files hold segments, and no record of theirs is gone unless it is on record. */
  lemma CutHolds(v: State, e: Event, p: Place)
    requires Enabled(v, e) && e.Cut? && !Step(v, e).past.unlogged && Used(Step(v, e), p)
    ensures forall x | x in EncAt(Step(v, e), p) && x in v.disk.book :: x in e.kept && (v.disk.book[x].closed ==> e.kept[x].closed)
  {
    hide AfterCut, CanLose, Extends, TakenFrom, CanBegin, CanSeal;
    if p.InFile? { assert p.s in CutFiles(v.disk, e.back); }
  }

  lemma CutSessions(b: Book, c: Book, s: Session, enc: set<Segment>)
    requires OfSession(b, s, enc) && TakenFrom(c, b)
    ensures OfSession(c, s, enc)
  {
  }

  lemma LooseMoved(v: State, e: Event, q: Place)
    requires Enabled(v, e) && OrderlyInv(v) && Orderly(Step(v, e).past) && !e.Advance? && !e.Cut? && Used(v, q) && Writable(v, q) && !q.InLine?
    ensures Fits(Step(v, e).disk.book, NumAt(v, q), EncAt(v, q), true)
  {
    hide Step, Fits, OfSession, CanBegin, CanSeal;
    var b, n, enc := v.disk.book, NumAt(v, q), EncAt(v, q);
    if !TouchesBook(e) { BookStays(v, e); }
    else if e.Seal? {
      var d := v.drafts[e.i];
      var own := InDraft(e.i);
      assert DraftFrozen(v.disk.shelf, d);
      CommitStage(v, e);
      assert Used(v, own) && Writable(v, own);
      FitsKnown(b, n, enc, true);
      if SessionAt(v, q) == d.session { SameNumber(v, own, q); }
      else { Disjoint(b, d.session, d.enc, SessionAt(v, q), enc); }
      SomeFit(b, d.fin.at, d.fin.snap, Marks(v, e), true);
      CommitFits(b, Marks(v, e), d.fin.at, n, enc, true);
    } else if Ends(e) {
      EndBook(v, e);
      ReopenedFits(b, n, enc);
    } else {
      SegmentFits(v, e, n, enc, true);
    }
  }

  // Marks behind lines

  /** In one lifetime, or with orderly callers, a seal can record every segment into its number. */
  lemma CommitCan(v: State, i: Id)
    requires i in v.drafts && AtOwnNumber(v) && Frozen(v) && (OneLifetime(v.past) || Orderly(v.past)) && v.drafts[i].fin.Active?
    requires (OneLifetime(v.past) ==> Tight(v)) && (Orderly(v.past) ==> Loose(v))
    ensures Fits(v.disk.book, v.drafts[i].fin.at, v.drafts[i].fin.snap, true)
  {
    hide OfSession, SoloOk, ShelfOk;
    assert DraftFrozen(v.disk.shelf, v.drafts[i]);
    var p := InDraft(i);
    assert Used(v, p) && Writable(v, p) && NumAt(v, p) == v.drafts[i].fin.at && EncAt(v, p) == v.drafts[i].fin.snap;
  }

  lemma StepDrift(v: State, e: Event)
    requires Enabled(v, e) && AtOwnNumber(v) && Frozen(v) && !v.ledger.drifted
    requires (OneLifetime(v.past) ==> Tight(v)) && (Orderly(v.past) ==> Loose(v)) && (OneLifetime(v.past) || Orderly(v.past))
    ensures !Step(v, e).ledger.drifted
  {
    hide Step, CanBegin, CanSeal, AtOwnNumber, Frozen, Tight, Loose;
    DriftBy(v, e);
    if e.Seal? && e.op.CommitMarks? {
      CommitStage(v, e);
      CommitCan(v, e.i);
      FitsCommits(v.disk.book, v.drafts[e.i].fin.snap, v.drafts[e.i].fin.at);
    }
  }

  lemma FitsCommits(b: Book, snap: set<Segment>, n: Seq)
    requires Fits(b, n, snap, true)
    ensures forall x | x in snap :: CommitFault(b, x, n).None?
  {
  }

  lemma DriftBy(v: State, e: Event)
    requires Enabled(v, e)
    ensures Step(v, e).ledger.drifted ==> v.ledger.drifted || (e.Seal? && Drifts(v.disk.book, v.drafts[e.i], e.op))
  {
    hide CanBegin, AfterBegin, CanSeal, SealDraft, SealDisk, Drifts, Reserve, Reservable, Reopened, AfterCut, Pairs;
    if e.Begin? { BeginDisk(v, e.s, e.begin); }
  }

  /** A seal's marks are all recorded into its number if and only if each of its segments already is or
      can be: none is recorded into another number, unknown to the log, or open in it. */
  lemma CommitDecides(b: Book, snap: set<Segment>, n: Seq)
    ensures AllRecorded(Commit(b, snap, n), snap, n) <==>
            forall x | x in snap :: CommitFault(b, x, n).None? || (x in b && b[x].mark == Recorded(n))
  {
    var c := Commit(b, snap, n);
    if AllRecorded(c, snap, n) {
      forall x | x in snap ensures CommitFault(b, x, n).None? || (x in b && b[x].mark == Recorded(n)) {
        assert x in c && c[x].mark == Recorded(n);
      }
    }
  }

  lemma ReopenedRecords(b: Book, enc: set<Segment>, n: Seq)
    requires AllRecorded(b, enc, n)
    ensures AllRecorded(Reopened(b), enc, n)
  {
  }

  lemma NothingRecorded(b: Book, n: Seq)
    ensures AllRecorded(b, {}, n)
  {
  }

  lemma ExtendedRecords(b: Book, c: Book, enc: set<Segment>, n: Seq)
    requires AllRecorded(b, enc, n) && Extends(b, c)
    ensures AllRecorded(c, enc, n)
  {
  }

  /** What is recorded and synced stays so, whatever a cut takes. */
  lemma MarksStay(v: State, e: Event, enc: set<Segment>, n: Seq)
    requires Enabled(v, e) && AllRecorded(v.disk.book, enc, n) && (e.Cut? ==> AllRecorded(v.disk.synced, enc, n))
    ensures AllRecorded(Step(v, e).disk.book, enc, n)
    ensures AllRecorded(v.disk.synced, enc, n) ==> AllRecorded(Step(v, e).disk.synced, enc, n)
  {
    hide Step, CanBegin, CanSeal, AllRecorded, Extends, TakenFrom;
    SyncedBy(v, e);
    if e.Cut? {
      EndBook(v, e);
      ExtendedRecords(v.disk.synced, e.kept, enc, n);
    } else {
      BookGrows(v, e);
      ExtendedRecords(v.disk.book, Step(v, e).disk.book, enc, n);
      ReopenedRecords(v.disk.book, enc, n);
    }
  }

  lemma SyncedBy(v: State, e: Event)
    requires Enabled(v, e)
    ensures var w := Step(v, e); if e.Cut? then w.disk.synced == e.kept else w.disk.synced == v.disk.synced || w.disk.synced == Reopened(v.disk.book)
  {
    hide CanBegin, AfterBegin, CanSeal, SealDraft, SealLedger, Commit, Effect, Reserve, Reservable, Reopened, AfterCut, Pairs, Extends, TakenFrom;
    if e.Begin? { BeginDisk(v, e.s, e.begin); }
  }

  /** What is durable of the log is in the log. */
  lemma StepSynced(v: State, e: Event)
    requires Enabled(v, e) && Extends(v.disk.synced, v.disk.book)
    ensures Extends(Step(v, e).disk.synced, Step(v, e).disk.book)
  {
    hide Step, CanBegin, CanSeal, TakenFrom;
    SyncedBy(v, e);
    if e.Cut? { EndBook(v, e); } else {
      BookGrows(v, e);
      ReopenedExtends(v.disk.book, Step(v, e).disk.book);
    }
  }

  lemma ReopenedExtends(b: Book, c: Book)
    requires Extends(b, c)
    ensures Extends(Reopened(b), c)
  {
  }

  lemma SealMarked(v: State, i: Id, op: Op)
    requires Enabled(v, Seal(i, op)) && Frozen(v) && MarkedOk(v)
    requires !Step(v, Seal(i, op)).past.unmarked && !Step(v, Seal(i, op)).ledger.drifted
    ensures DraftMarked(Step(v, Seal(i, op)).disk, Step(v, Seal(i, op)).drafts[i])
  {
    hide LinesMarked, SoloOk, ShelfOk, SealOk, Effect, AllRecorded, Commit, Reopened;
    var d := v.drafts[i];
    assert DraftMarked(v.disk, d);
    if op.CommitMarks? { CommitDecides(v.disk.book, d.fin.snap, d.fin.at); }
    if op.SyncMarks? {
      ReopenedRecords(v.disk.book, d.fin.snap, d.fin.at);
      NothingRecorded(v.disk.synced, d.fin.at);
    }
  }

  lemma OtherMarked(v: State, e: Event, i: Id)
    requires Enabled(v, e) && MarkedOk(v) && i in Step(v, e).drafts && !(e.Seal? && e.i == i)
    ensures DraftMarked(Step(v, e).disk, Step(v, e).drafts[i])
  {
    hide Step, CanBegin, CanSeal, AllRecorded, LinesMarked;
    DraftStays(v, e, i);
    EndLeaves(v, e);
    if FromRank(Step(v, e).drafts[i].fin, 4) {
      var f := v.drafts[i].fin;
      assert DraftMarked(v.disk, v.drafts[i]);
      MarksStay(v, e, f.snap, f.at);
    }
  }

  lemma EndLeaves(v: State, e: Event)
    requires Enabled(v, e)
    ensures Ends(e) ==> Step(v, e).drafts == map[]
  {
    hide Step;
    if Ends(e) { EndForgets(v, e); }
  }

  /** A line keeps its artifact. */
  lemma LineStays(v: State, e: Event, n: Seq)
    requires Enabled(v, e) && Frozen(v) && n in Step(v, e).disk.shelf.lines && n in v.disk.shelf.lines
    ensures var j, k := Step(v, e).disk.shelf, v.disk.shelf; n in j.art && n in k.art && j.art[n] == k.art[n]
  {
    hide Step, CanBegin, SoloOk, Effect, SealOk;
    if e.Seal? { SealLineStays(v, e.i, e.op, n); }
    else if e.Cut? { CutShelf(v, e); CutKeepsSeals(v.disk.shelf, e.loss); }
    else { ShelfStays(v, e); }
  }

  lemma CutShelf(v: State, e: Event)
    requires Enabled(v, e) && e.Cut?
    ensures Step(v, e).disk.shelf == AfterCut(v.disk.shelf, e.loss)
  {
    hide AfterCut, Reopened;
  }

  lemma SealLineStays(v: State, i: Id, op: Op, n: Seq)
    requires Enabled(v, Seal(i, op)) && Frozen(v) && n in v.disk.shelf.lines
    ensures var j, k := Step(v, Seal(i, op)).disk.shelf, v.disk.shelf; n in j.lines && n in j.art && n in k.art && j.art[n] == k.art[n]
  {
    hide CanBegin, SoloOk, Effect, SealOk, Commit, SealLedger, SealDraft, Reopened;
    var d := v.drafts[i];
    assert DraftFrozen(v.disk.shelf, d);
    if !op.Start? { OpLines(v.disk.shelf, op, d.fin.at, d.fin.stage, d.fin.snap, n); }
  }

  lemma FreshLine(v: State, e: Event, n: Seq)
    requires Enabled(v, e) && Frozen(v) && n in Step(v, e).disk.shelf.lines && n !in v.disk.shelf.lines
    ensures e.Seal? && e.op.WriteLine? && v.drafts[e.i].fin.Active? && v.drafts[e.i].fin.at == n && v.drafts[e.i].fin.stage == NameDurable
    ensures var w, d := Step(v, e), v.drafts[e.i];
            n in w.disk.shelf.art && w.disk.shelf.art[n] == d.fin.snap && w.disk.book == v.disk.book && w.disk.synced == v.disk.synced &&
            e.i in w.drafts && w.drafts[e.i] == d.(fin := Done(n, d.fin.snap, LineWritten))
    ensures Step(v, e).ledger.sealedBy == v.ledger.sealedBy[n := Sealer(v.drafts[e.i].session, e.i)]
  {
    hide Step, CanBegin, CanSeal, Frozen;
    LinesBy(v, e);
    SealLines(v, e.i, e.op);
    WritesLine(v, e.i);
  }

  lemma LinesBy(v: State, e: Event)
    requires Enabled(v, e)
    ensures Step(v, e).disk.shelf.lines <= v.disk.shelf.lines || (e.Seal? && e.op.WriteLine?)
  {
    hide Step, CanBegin, CanSeal, AfterCut;
    if e.Seal? { SealLines(v, e.i, e.op); }
    else if e.Cut? { CutShelf(v, e); CutLines(v.disk.shelf, e.loss); }
    else { ShelfStays(v, e); }
  }

  lemma CutLines(k: Shelf, l: Loss)
    requires CanLose(k, l)
    ensures AfterCut(k, l).lines <= k.lines
  {
  }

  lemma WritesLine(v: State, i: Id)
    requires Enabled(v, Seal(i, WriteLine)) && Frozen(v)
    ensures var w, d := Step(v, Seal(i, WriteLine)), v.drafts[i];
            d.fin.Active? && d.fin.stage == NameDurable && d.fin.at in w.disk.shelf.art && w.disk.shelf.art[d.fin.at] == d.fin.snap &&
            w.disk.book == v.disk.book && w.disk.synced == v.disk.synced && i in w.drafts && w.drafts[i] == d.(fin := Done(d.fin.at, d.fin.snap, LineWritten))
  {
    hide CanBegin, SoloOk, ShelfOk, SealLedger;
    assert DraftFrozen(v.disk.shelf, v.drafts[i]);
  }

  lemma StepMarked(v: State, e: Event)
    requires Enabled(v, e) && Frozen(v) && MarkedOk(v) && !Step(v, e).past.unmarked && !Step(v, e).ledger.drifted
    ensures MarkedOk(Step(v, e))
  {
    hide Step, Enabled, DraftMarked, AllRecorded, Frozen;
    var w := Step(v, e);
    forall n | n in w.disk.shelf.lines && n in w.disk.shelf.art
      ensures AllRecorded(w.disk.book, w.disk.shelf.art[n], n) && AllRecorded(w.disk.synced, w.disk.shelf.art[n], n)
    {
      LineMarked(v, e, n);
    }
    forall i | i in w.drafts ensures DraftMarked(w.disk, w.drafts[i]) {
      if e.Seal? && e.i == i { SealMarked(v, i, e.op); } else { OtherMarked(v, e, i); }
    }
  }

  lemma LineMarked(v: State, e: Event, n: Seq)
    requires Enabled(v, e) && Frozen(v) && MarkedOk(v) && n in Step(v, e).disk.shelf.lines && n in Step(v, e).disk.shelf.art
    ensures var w := Step(v, e); AllRecorded(w.disk.book, w.disk.shelf.art[n], n) && AllRecorded(w.disk.synced, w.disk.shelf.art[n], n)
  {
    hide Step, CanBegin, CanSeal, AllRecorded, Frozen;
    if n in v.disk.shelf.lines {
      LineStays(v, e, n);
      MarksStay(v, e, v.disk.shelf.art[n], n);
    } else {
      FreshLine(v, e, n);
      assert DraftMarked(v.disk, v.drafts[e.i]);
    }
  }

  lemma StepLinesDone(v: State, e: Event)
    requires Enabled(v, e) && Frozen(v) && LinesDone(v) && !Ends(e)
    ensures LinesDone(Step(v, e))
  {
    hide Step, CanBegin, CanSeal, Frozen;
    var w := Step(v, e);
    forall n | n in w.disk.shelf.lines
      ensures n in w.ledger.sealedBy && w.ledger.sealedBy[n].id in w.drafts &&
              w.drafts[w.ledger.sealedBy[n].id].fin.Done? && w.drafts[w.ledger.sealedBy[n].id].fin.at == n
    {
      if n !in v.disk.shelf.lines { FreshLine(v, e, n); } else { LineDoneStays(v, e, n); }
    }
  }

  lemma LineDoneStays(v: State, e: Event, n: Seq)
    requires Enabled(v, e) && Frozen(v) && LinesDone(v) && !Ends(e) && n in v.disk.shelf.lines
    ensures var w := Step(v, e);
            n in w.ledger.sealedBy && w.ledger.sealedBy[n].id in w.drafts &&
            w.drafts[w.ledger.sealedBy[n].id].fin.Done? && w.drafts[w.ledger.sealedBy[n].id].fin.at == n
  {
    hide Step, CanBegin, CanSeal, SoloOk, ShelfOk;
    var i := v.ledger.sealedBy[n].id;
    DoneStays(v, e, i);
    if e.Seal? {
      SealLines(v, e.i, e.op);
      assert DraftFrozen(v.disk.shelf, v.drafts[e.i]);
      if e.op.WriteLine? { LineIsNew(v, e.i); }
    } else { ShelfStays(v, e); }
  }

  lemma LineIsNew(v: State, i: Id)
    requires Enabled(v, Seal(i, WriteLine)) && Frozen(v)
    ensures v.drafts[i].fin.at !in v.disk.shelf.lines
  {
    hide SoloOk, ShelfOk;
    assert DraftFrozen(v.disk.shelf, v.drafts[i]);
  }

  /** A sealed draft stays sealed at its number, with what it holds. */
  lemma DoneStays(v: State, e: Event, i: Id)
    requires Enabled(v, e) && Frozen(v) && !Ends(e) && i in v.drafts && v.drafts[i].fin.Done?
    ensures i in Step(v, e).drafts && Step(v, e).drafts[i].fin.Done? && Step(v, e).drafts[i].fin.at == v.drafts[i].fin.at
    ensures Step(v, e).drafts[i].enc == v.drafts[i].enc
  {
    hide Step, CanBegin, SoloOk, ShelfOk, SealOk;
    assert DraftFrozen(v.disk.shelf, v.drafts[i]);
    DraftsStay(v, e);
    if e.Seal? && e.i == i { OwnDone(v, i, e.op); } else { DraftStays(v, e, i); }
  }

  lemma OwnDone(v: State, i: Id, op: Op)
    requires Enabled(v, Seal(i, op)) && v.drafts[i].fin.Done? && v.drafts[i].sealed
    ensures var c, d := Step(v, Seal(i, op)).drafts[i], v.drafts[i]; c.fin.Done? && c.fin.at == d.fin.at && c.enc == d.enc
  {
    hide CanBegin, SealDisk, SealLedger;
  }

  lemma DraftsStay(v: State, e: Event)
    requires Enabled(v, e) && !Ends(e)
    ensures v.drafts.Keys <= Step(v, e).drafts.Keys
  {
    hide CanBegin, AfterBegin, CanSeal, SealDraft, SealDisk, SealLedger, Reserve, Reservable, Pairs;
    if e.Begin? { BeginDrafts(v, e.s, e.begin); }
  }

  /** Two lines of one lifetime share no segment. */
  lemma LifetimeApart(v: State, n: Seq, m: Seq)
    requires Tight(v) && Frozen(v) && AtOwnNumber(v) && LinesDone(v) && n != m && n in v.disk.shelf.lines && m in v.disk.shelf.lines
    ensures var k := v.disk.shelf; n in k.art && m in k.art && k.art[n] !! k.art[m]
  {
    hide SoloOk, LinesDone;
    LineFits(v, n);
    LineFits(v, m);
  }

  lemma LineFits(v: State, n: Seq)
    requires Tight(v) && Frozen(v) && AtOwnNumber(v) && LinesDone(v) && n in v.disk.shelf.lines
    ensures n in v.disk.shelf.art && Fits(v.disk.book, n, v.disk.shelf.art[n], false)
  {
    hide SoloOk, Fits;
    var i := v.ledger.sealedBy[n].id;
    assert DraftFrozen(v.disk.shelf, v.drafts[i]);
    assert Used(v, InDraft(i)) && NumAt(v, InDraft(i)) == n && EncAt(v, InDraft(i)) == v.disk.shelf.art[n];
  }
}
