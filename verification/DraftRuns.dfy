/** Whole runs of the checkpoint writer, from an empty project on, with restarts and power cuts: what
    holds in every state they reach. */
module DraftRuns {
  import opened SegmentBook
  import opened SealShelf
  import opened DraftWriter
  import opened SealedSegments
  import opened DraftFiles

  ghost predicate Runs(v: State, es: seq<Event>)
    decreases |es|
  {
    es == [] || (Enabled(v, es[0]) && Runs(Step(v, es[0]), es[1..]))
  }

  ghost function After(v: State, es: seq<Event>): State
    requires Runs(v, es)
    decreases |es|
  {
    if es == [] then v else After(Step(v, es[0]), es[1..])
  }

  ghost predicate Reachable(w: State) { exists es :: Runs(EMPTY, es) && After(EMPTY, es) == w }

  /** What holds of the numbers, and of the segments marked into them. */
  ghost predicate NumbersInv(v: State) {
    && (!v.past.bumped ==> AtOwnNumber(v))
    && (!v.past.bumped && !v.ledger.blind ==> NumInv(v) && !v.ledger.misfiled)
    && (!v.past.bumped && !v.past.raced ==> FileNumbers(v))
    && (OneLifetime(v.past) ==> Tight(v) && LinesDone(v))
    && (Orderly(v.past) ==> Loose(v))
    && (OneLifetime(v.past) || Orderly(v.past) ==> !v.ledger.drifted)
    && (!v.past.unmarked && !v.ledger.drifted ==> MarkedOk(v))
    && Extends(v.disk.synced, v.disk.book) && (v.past.unlogged ==> v.past.restarted)
  }

  /** What holds of the draft files. */
  ghost predicate FilesInv(v: State) {
    && (!v.past.raced ==> OneOpen(v) && Looked(v) && NotYet(v))
    && (!v.ledger.overlapped ==> NoneAwaits(v))
    && (Tame(v) ==> FilesKept(v) && OwnLines(v) && SafeToDrop(v))
    && (Tame(v) && !v.ledger.misfiled ==> KeptOk(v))
  }

  ghost predicate Inv(v: State) { LiveOk(v) && Frozen(v) && NumbersInv(v) && FilesInv(v) }

  lemma EmptyInv()
    ensures Inv(EMPTY)
  {
    hide LiveOk, Frozen, NumbersInv, FilesInv;
    EmptyDrafts();
    EmptyNumbers();
    EmptyFiles();
  }

  lemma EmptyDrafts()
    ensures LiveOk(EMPTY) && Frozen(EMPTY)
  {
  }

  lemma EmptyNumbers()
    ensures NumbersInv(EMPTY)
  {
    hide NumInv, Loose, Tight;
    EmptyPlaces();
  }

  lemma EmptyPlaces()
    ensures NumInv(EMPTY) && Loose(EMPTY) && Tight(EMPTY)
  {
    assert forall p :: !Used(EMPTY, p);
  }

  lemma EmptyFiles()
    ensures FilesInv(EMPTY)
  {
  }

  /** What has happened stays on record. */
  lemma PastGrows(v: State, e: Event)
    requires Enabled(v, e)
    ensures var p, q := v.past, Step(v, e).past;
            (p.bumped ==> q.bumped) && (p.raced ==> q.raced) && (p.crossed ==> q.crossed) && (p.unmarked ==> q.unmarked) && (p.unlogged ==> q.unlogged) && (p.restarted ==> q.restarted)
    ensures !Ends(e) ==> Step(v, e).past.unlogged == v.past.unlogged
    ensures Ends(e) ==> Step(v, e).past.restarted
  {
    hide CanBegin, AfterBegin, CanSeal, SealDraft, SealDisk, SealLedger, Reserve, Reservable, Reopened, AfterCut, Pairs;
    if e.Begin? { BeginDisk(v, e.s, e.begin); }
  }

  predicate Remembers(p: Ledger, q: Ledger) {
    (p.overlapped ==> q.overlapped) && (p.misfiled ==> q.misfiled) && (p.drifted ==> q.drifted) && (p.blind ==> q.blind) && (p.unsaved ==> q.unsaved)
  }

  lemma LedgerGrows(v: State, e: Event)
    requires Enabled(v, e)
    ensures Remembers(v.ledger, Step(v, e).ledger)
  {
    hide Step, CanBegin, CanSeal;
    if e.Begin? { BeginLedger(v, e.s, e.begin); }
    else if Ends(e) { EndForgets(v, e); }
    else { PlainLedger(v, e); }
  }

  lemma PlainLedger(v: State, e: Event)
    requires Enabled(v, e) && !e.Begin? && !Ends(e)
    ensures Remembers(v.ledger, Step(v, e).ledger)
  {
    hide CanBegin, CanSeal, AfterSeal, AfterAdvance, Pairs, Open;
    if e.Advance? { AdvanceLedger(v, e); }
    if e.Seal? { SealRemembers(v, e.i, e.op); }
  }

  lemma AdvanceLedger(v: State, e: Event)
    requires Enabled(v, e) && e.Advance?
    ensures Remembers(v.ledger, Step(v, e).ledger)
  {
    hide CanBegin, CanSeal, Reserve, Reservable, Pairs;
  }

  lemma SealRemembers(v: State, i: Id, op: Op)
    requires Enabled(v, Seal(i, op))
    ensures Remembers(v.ledger, Step(v, Seal(i, op)).ledger)
  {
    hide CanBegin, CanSeal, SealDraft, SealDisk, Drifts;
  }

  lemma BeginLedger(v: State, s: Session, op: BeginOp)
    requires Enabled(v, Begin(s, op))
    ensures Remembers(v.ledger, Step(v, Begin(s, op)).ledger)
  {
    hide IsClaim, IsFloor, IsFound, Pending, Pairs;
  }

  /** A file whose number has a line is of the line's session, so it is set aside for its own. */
  lemma StepFiled(v: State, e: Event)
    requires Enabled(v, e) && OwnersOk(v) && Frozen(v) && !v.ledger.misfiled
    ensures !Step(v, e).ledger.misfiled
  {
    hide CanBegin, AfterBegin, CanSeal, SealDraft, SealDisk, Drifts, Reserve, Reservable, Reopened, AfterCut, Pairs, Frozen, OwnersOk;
    if e.Begin? { BeginFiled(v, e.s, e.begin); }
  }

  lemma BeginFiled(v: State, s: Session, op: BeginOp)
    requires CanBegin(v, s, op) && OwnersOk(v) && Frozen(v) && !v.ledger.misfiled
    ensures !AfterBegin(v, s, op).ledger.misfiled
  {
    hide IsClaim, IsFloor, IsFound, Pending, Pairs, ShelfOk, SoloOk, DraftFrozen;
    if op.SetAside? { assert Used(v, InFile(s)) && Used(v, InLine(v.disk.files[s].num)); }
  }

  lemma StepNumbers(v: State, e: Event)
    requires Inv(v) && Enabled(v, e)
    ensures NumbersInv(Step(v, e))
  {
    hide Step, Enabled, LiveOk, Frozen, OwnersOk, ClaimsOk, BoundsOk, AtOwnNumber, Tight, Loose, OneOpen, MarkedOk, FileNumbers, LinesDone, Extends,
      Looked, NotYet, NoneAwaits, FilesKept, OwnLines, SafeToDrop, KeptOk;
    PastGrows(v, e);
    LedgerGrows(v, e);
    var q := Step(v, e).past;
    StepSynced(v, e);
    if !q.bumped {
      StepAtOwnNumber(v, e);
      if !q.raced { StepFileNumbers(v, e); }
      if !Step(v, e).ledger.blind {
        StepNumInv(v, e);
        StepFiled(v, e);
      }
    }
    if OneLifetime(q) {
      StepTight(v, e);
      StepLinesDone(v, e);
    }
    if Orderly(q) { StepLoose(v, e); }
    if OneLifetime(q) || Orderly(q) { StepDrift(v, e); }
    if !q.unmarked && !Step(v, e).ledger.drifted { StepMarked(v, e); }
  }

  lemma StepFiles(v: State, e: Event)
    requires Inv(v) && Enabled(v, e)
    ensures FilesInv(Step(v, e))
  {
    hide Step, Enabled, LiveOk, Frozen, NumbersInv, OneOpen, Looked, NotYet, NoneAwaits, FilesKept, OwnLines, SafeToDrop, KeptOk;
    PastGrows(v, e);
    LedgerGrows(v, e);
    var w := Step(v, e);
    if !w.past.raced {
      StepOneOpen(v, e);
      StepLooked(v, e);
      StepNotYet(v, e);
    }
    if !w.ledger.overlapped { StepAwaits(v, e); }
    if Tame(w) {
      StepFilesKept(v, e);
      StepOwnLines(v, e);
      StepSafe(v, e);
      if !w.ledger.misfiled { StepKept(v, e); }
    }
  }

  lemma StepInv(v: State, e: Event)
    requires Inv(v) && Enabled(v, e)
    ensures Inv(Step(v, e))
  {
    hide Step, Enabled, LiveOk, Frozen, NumbersInv, FilesInv;
    StepLive(v, e);
    StepFrozen(v, e);
    StepNumbers(v, e);
    StepFiles(v, e);
  }

  lemma {:induction false} RunInv(v: State, es: seq<Event>)
    requires Inv(v) && Runs(v, es)
    ensures Inv(After(v, es))
    decreases |es|
  {
    hide Inv, Enabled, Step;
    if es != [] {
      StepInv(v, es[0]);
      RunInv(Step(v, es[0]), es[1..]);
    }
  }

  lemma ReachInv(w: State)
    requires Reachable(w)
    ensures Inv(w)
  {
    hide Inv, Runs, After;
    EmptyInv();
    var es :| Runs(EMPTY, es) && After(EMPTY, es) == w;
    RunInv(EMPTY, es);
  }

  /** In every reachable state that no bump led to, nor a claim after a floor scan that could not finish, no two drafts that are registered or at a station of
      Begin hold the same number, and the counter bounds those it knows of. */
  lemma NumbersNeverShared(w: State)
    requires Reachable(w) && !w.past.bumped && !w.ledger.blind
    ensures NumbersApart(w)
  {
    hide Reachable, NumbersApart, NumInv, LiveOk, Frozen, FilesInv;
    ReachInv(w);
    Apart(w);
  }

  // ------------------------------------------------------------------------------------------
  // Sealed and aborted drafts
  // ------------------------------------------------------------------------------------------

  /** No end of the process among them. */
  predicate SameProcess(es: seq<Event>) { forall k | 0 <= k < |es| :: !Ends(es[k]) }

  /** In every reachable state a sealed draft's artifact holds exactly what the draft holds; and no later
      step adds to either, whatever is advanced, aborted or sealed meanwhile. */
  lemma SealedIsFrozen(v: State, more: seq<Event>, i: Id)
    requires Reachable(v) && Runs(v, more) && SameProcess(more) && i in v.drafts && v.drafts[i].fin.Done?
    ensures var w, d := After(v, more), v.drafts[i];
            && d.fin.at in v.disk.shelf.lines && d.fin.at in v.disk.shelf.art && v.disk.shelf.art[d.fin.at] == d.enc
            && i in w.drafts && w.drafts[i].enc == d.enc && w.drafts[i].sealed
            && d.fin.at in w.disk.shelf.lines && d.fin.at in w.disk.shelf.art && w.disk.shelf.art[d.fin.at] == d.enc
  {
    hide Runs, After, Reachable, NumbersInv, FilesInv, LiveOk, SoloOk, ShelfOk;
    ReachInv(v);
    RunInv(v, more);
    DoneForGood(v, more, i);
    assert DraftFrozen(v.disk.shelf, v.drafts[i]) && DraftFrozen(After(v, more).disk.shelf, After(v, more).drafts[i]);
  }

  lemma {:induction false} DoneForGood(v: State, es: seq<Event>, i: Id)
    requires Inv(v) && Runs(v, es) && SameProcess(es) && i in v.drafts && v.drafts[i].fin.Done?
    ensures var c, d := After(v, es).drafts, v.drafts[i]; i in c && c[i].fin.Done? && c[i].fin.at == d.fin.at && c[i].enc == d.enc
    decreases |es|
  {
    hide Enabled, Step, NumbersInv, FilesInv, LiveOk, Frozen;
    if es != [] {
      DoneStays(v, es[0], i);
      StepInv(v, es[0]);
      DoneForGood(Step(v, es[0]), es[1..], i);
    }
  }

  /** A draft that is sealed with no Finalize in flight is closed for the rest of the process, and if it
      has a line, it is the same one. */
  lemma {:induction false} ClosedForGood(v: State, es: seq<Event>, i: Id)
    requires Runs(v, es) && SameProcess(es) && i in v.drafts && !Open(v.drafts[i])
    ensures i in After(v, es).drafts && !Open(After(v, es).drafts[i]) && After(v, es).drafts[i].enc == v.drafts[i].enc
    ensures var c, d := After(v, es).drafts[i].fin, v.drafts[i].fin; (c.Done? <==> d.Done?) && (d.Done? ==> c.at == d.at)
    decreases |es|
  {
    hide Enabled, Step;
    if es != [] {
      ClosedStays(v, es[0], i);
      ClosedForGood(Step(v, es[0]), es[1..], i);
    }
  }

  lemma ClosedStays(v: State, e: Event, i: Id)
    requires Enabled(v, e) && !Ends(e) && i in v.drafts && !Open(v.drafts[i])
    ensures i in Step(v, e).drafts && !Open(Step(v, e).drafts[i]) && Step(v, e).drafts[i].enc == v.drafts[i].enc
    ensures var c, d := Step(v, e).drafts[i].fin, v.drafts[i].fin; (c.Done? <==> d.Done?) && (d.Done? ==> c.at == d.at)
  {
    hide Step, CanBegin, CanSeal;
    DraftsStay(v, e);
    if e.Seal? && e.i == i { OwnClosed(v, i, e.op); } else { DraftStays(v, e, i); }
  }

  lemma OwnClosed(v: State, i: Id, op: Op)
    requires Enabled(v, Seal(i, op)) && !Open(v.drafts[i])
    ensures var c, d := Step(v, Seal(i, op)).drafts[i], v.drafts[i];
            !Open(c) && c.enc == d.enc && (c.fin.Done? <==> d.fin.Done?) && (d.fin.Done? ==> c.fin.at == d.fin.at)
  {
    hide CanBegin, SealDisk, SealLedger;
  }

  /** Some continuation in this process opens the draft again. */
  ghost predicate CanReopen(v: State, i: Id) {
    exists es: seq<Event> :: Runs(v, es) && SameProcess(es) && i in After(v, es).drafts && !After(v, es).drafts[i].sealed
  }

  /** An aborted draft stays closed if and only if no Finalize was in flight on it: a Finalize that
      fails after the Abort reopens the draft. */
  lemma AbortSticks(v: State, i: Id)
    requires Reachable(v) && i in v.drafts
    ensures CanReopen(Step(v, Abort(i)), i) <==> v.drafts[i].fin.Active?
  {
    hide Runs, After, Step, Reachable, NumbersInv, FilesInv, LiveOk, SoloOk, ShelfOk, SealOk, SameProcess;
    var w := Step(v, Abort(i));
    ReachInv(v);
    assert DraftFrozen(v.disk.shelf, v.drafts[i]);
    AbortCloses(v, i);
    if v.drafts[i].fin.Active? {
      Reopens(w, i);
    } else if CanReopen(w, i) {
      var es: seq<Event> :| Runs(w, es) && SameProcess(es) && i in After(w, es).drafts && !After(w, es).drafts[i].sealed;
      ClosedForGood(w, es, i);
    }
  }

  lemma AbortCloses(v: State, i: Id)
    requires i in v.drafts
    ensures var w := Step(v, Abort(i)); i in w.drafts && w.drafts[i].sealed && w.drafts[i].fin == v.drafts[i].fin
  {
    hide CanBegin, CanSeal;
  }

  lemma SealNext(w: State, i: Id, op: Op)
    requires i in w.drafts && CanSeal(w.disk.shelf, w.drafts[i], op)
    ensures Enabled(w, Seal(i, op)) && i in Step(w, Seal(i, op)).drafts
    ensures Step(w, Seal(i, op)).drafts[i] == SealDraft(w.disk.shelf, w.drafts[i], op)
  {
    hide CanSeal, SealDraft, SealDisk, SealLedger;
  }

  /** From any stage the Finalize can come to a failure that gives up. */
  lemma {:induction false} Reopens(w: State, i: Id)
    requires i in w.drafts && w.drafts[i].fin.Active? && Rank(w.drafts[i].fin.stage) < 7
    ensures CanReopen(w, i)
    decreases match w.drafts[i].fin.stage case BytesDurable => 1 case MarksWritten => 1 case _ => 0
  {
    hide Step, Enabled, CanReopen, SealDisk;
    var g := w.drafts[i].fin.stage;
    if g == BytesDurable || g == MarksWritten {
      SealNext(w, i, MarksFail({}));
      Reopens(Step(w, Seal(i, MarksFail({}))), i);
      ReopenLater(w, Seal(i, MarksFail({})), i);
    } else {
      var op := if g == Opened || g == Filled then CreateFails else GiveUp;
      SealNext(w, i, op);
      OpenNow(Step(w, Seal(i, op)), i);
      ReopenLater(w, Seal(i, op), i);
    }
  }

  lemma OpenNow(w: State, i: Id)
    requires i in w.drafts && !w.drafts[i].sealed
    ensures CanReopen(w, i)
  {
    assert Runs(w, []) && After(w, []) == w;
  }

  lemma ReopenLater(w: State, e: Event, i: Id)
    requires Enabled(w, e) && !Ends(e) && CanReopen(Step(w, e), i)
    ensures CanReopen(w, i)
  {
    hide Enabled, Step;
    var es: seq<Event> :| Runs(Step(w, e), es) && SameProcess(es) && i in After(Step(w, e), es).drafts && !After(Step(w, e), es).drafts[i].sealed;
    var fs := [e] + es;
    assert fs[1..] == es && Runs(w, fs) && After(w, fs) == After(Step(w, e), es);
    assert SameProcess(fs);
  }

  // ------------------------------------------------------------------------------------------
  // Power cuts
  // ------------------------------------------------------------------------------------------

  /** Whatever run led here and whatever the cut takes: a surviving line names bytes that survived and
      hold what they held; a seal that was reported done survives; unless a mark failed or a seal could
      not record all it held, a surviving line's segments are recorded into it; and unless a draft was
      aborted during its Finalize, a draft's file was written against a removal under way, the write of one
      failed, or a draft was set aside for another's line, every accepted segment is in a draft file or a
      durable artifact. */
  lemma CrashSafety(v: State, loss: Loss, kept: Book, back: set<Session>)
    requires Reachable(v) && Enabled(v, Cut(loss, kept, back))
    ensures var w := Step(v, Cut(loss, kept, back));
            var j, k := w.disk.shelf, v.disk.shelf;
            && k.promised <= j.lines <= k.lines
            && (forall n | n in j.lines :: n in j.names && n in j.bytes && n in j.art && n in k.art && j.art[n] == k.art[n])
            && (!v.past.unmarked && !v.ledger.drifted ==> forall n | n in j.lines && n in j.art :: AllRecorded(w.disk.book, j.art[n], n))
            && (!v.past.raced && !v.ledger.overlapped && !v.ledger.unsaved && !v.ledger.misfiled ==>
                  forall s: Session, x: Segment | (s, x) in v.ledger.accepted :: OnFile(w.disk, s, x) || InArtifact(j, x))
  {
    hide Reachable, Step, LiveOk, SoloOk, DraftFrozen, NumInv, Tight, Loose, LinesDone, FileNumbers, CanLose, AfterCut, ShelfOk, AllRecorded,
      OneOpen, Looked, NotYet, NoneAwaits, FilesKept, OwnLines, SafeToDrop, OnFile, InArtifact, DraftMarked;
    var e := Cut(loss, kept, back);
    ReachInv(v);
    StepInv(v, e);
    EndForgets(v, e);
    CutShelf(v, e);
    CutKeepsSeals(v.disk.shelf, loss);
  }

  /** Over every run in which no draft was aborted during its Finalize, no draft file was written against a
      removal under way and no such write failed after the draft's first, every draft that is registered or about to be is on disk as it is in
      memory. */
  lemma OpenDraftsAreOnDisk(w: State)
    requires Reachable(w) && !w.past.raced && !w.ledger.overlapped && !w.ledger.unsaved
    ensures FilesKept(w)
  {
    hide Reachable, LiveOk, NumbersInv, Frozen, OneOpen, Looked, NotYet, NoneAwaits, OwnLines, SafeToDrop, KeptOk, FilesKept;
    ReachInv(w);
  }

  /** Calm runs put no segment into two sealed checkpoints. */
  lemma SealedApart(w: State, n: Seq, m: Seq)
    requires Reachable(w) && Calm(w.past) && n != m && n in w.disk.shelf.lines && m in w.disk.shelf.lines
    ensures var k := w.disk.shelf; n in k.art && m in k.art && k.art[n] !! k.art[m]
  {
    hide Reachable, LiveOk, OwnersOk, ClaimsOk, BoundsOk, Tight, Loose, FilesInv, SoloOk, DraftFrozen, FileNumbers, LinesDone, DraftMarked;
    ReachInv(w);
    var k := w.disk.shelf;
    if OneLifetime(w.past) { LifetimeApart(w, n, m); }
    else { assert AllRecorded(w.disk.book, k.art[n], n) && AllRecorded(w.disk.book, k.art[m], m); }
  }
}
