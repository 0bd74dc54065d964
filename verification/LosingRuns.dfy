/** The other half of what whole runs keep: for each promise that fails, the runs on which it fails, and
    with them the exact condition under which it holds. */
module LosingRuns {
  import opened SegmentBook
  import opened SealShelf
  import opened DraftWriter
  import opened SealedSegments
  import opened DraftFiles
  import opened DraftRuns
  import opened RunSteps

  // ------------------------------------------------------------------------------------------
  // What can go wrong
  // ------------------------------------------------------------------------------------------

  /** Two sealed checkpoints share a segment. */
  predicate Twice(w: State) {
    var k := w.disk.shelf;
    exists n, m | n in k.lines && m in k.lines && n in k.art && m in k.art :: n != m && !(k.art[n] !! k.art[m])
  }

  /** A sealed checkpoint holds a segment that is not on record as its own. */
  predicate Unvouched(w: State) {
    var k := w.disk.shelf;
    exists n | n in k.lines && n in k.art :: !AllRecorded(w.disk.book, k.art[n], n)
  }

  /** A registered draft is not on disk as it is in memory. */
  predicate Unfiled(w: State) { exists s | s in w.live && w.live[s] in w.drafts :: !OnDisk(w.disk, s, w.drafts[w.live[s]].enc) }

  predicate Shelved(k: Shelf, x: Segment) { exists n | n in k.art :: x in k.art[n] }

  /** No draft, no draft file, no file that was set aside or whose removal may be undone, and no artifact holds it. */
  predicate Nowhere(w: State, s: Session, x: Segment) {
    && !OnFile(w.disk, s, x) && !Shelved(w.disk.shelf, x) && (s in w.disk.removed ==> x !in w.disk.removed[s].enc)
    && (s in w.disk.stale ==> x !in w.disk.stale[s].enc)
    && forall i | i in w.drafts :: x !in w.drafts[i].enc
  }

  /** A segment was accepted and not discarded, and is nowhere. */
  predicate Lost(w: State) { exists p | p in w.ledger.accepted :: Nowhere(w, p.0, p.1) }

  // ------------------------------------------------------------------------------------------
  // Runs of session 1 with its segment 7
  // ------------------------------------------------------------------------------------------

  function Seven(m: Mark): Book { map[7 := Entry(1, true, m)] }

  function Simple(files: map<Session, File>, m: Mark): Disk { Disk(files, map[], map[], Seven(m), map[], BARE) }

  const HOLDS := NO_LEDGER.(accepted := {(1, 7)})

  /** Session 1 has encoded the segment into draft 1. */
  const ONE := State(map[0 := Draft(1, 1, {7}, false, Idle, false)], map[1 := 0], {}, map[], map[], map[], 1, true,
                     Simple(map[1 := File(1, {7})], Reserved(1)), NO_PAST, HOLDS)

  lemma NextClaim(issued: Seq, lines: set<Seq>, names: set<Seq>)
    requires (forall m | m in lines :: m <= issued) && issued + 1 !in names
    ensures IsClaim(issued, lines, names, issued + 1)
  {
    assert IsBase(issued, lines, issued + 1);
  }

  lemma OnePair(s: Session, x: Segment)
    ensures Pairs(s, {x}) == {(s, x)}
  {
  }

  lemma ReachOne()
    ensures Reachable(ONE)
  {
    hide Reachable, IsClaim, Pairs;
    ReachEmpty();
    DoSegment(EMPTY, 7, 1);
    var v := EMPTY.(disk := Simple(map[], Free));
    assert v == WithSegment(EMPTY, 7, 1);
    assert Records(v.disk.book) == {} && DraftNumbers(v.disk) == {};
    NextClaim(0, {}, {});
    DoNew(v, 1, 0, 0, 1);
    var v1 := New(v, 1, 0, 1);
    assert v1.drafts[0].enc + {7} == {7};
    DoEncode(v1, 0, 7);
    OnePair(1, 7);
    var w := WithEncoded(v1, 0, 7);
    assert w.drafts == ONE.drafts && w.live == ONE.live && w.disk.files == ONE.disk.files && w.disk.book == ONE.disk.book;
    assert w.ledger.accepted == {(1, 7)};
  }

  /** Its marks fail and its line is written. */
  lemma UnmarkedLine() returns (w: State)
    ensures Reachable(w) && SealedShows(ONE, w, 0, 1, false) && Unvouched(w) && w.past == NO_PAST.(unmarked := true)
  {
    hide Reachable;
    ReachOne();
    w := DoSealAll(ONE, 0, 0, false);
    assert 1 in w.disk.shelf.lines && w.disk.shelf.art[1] == {7};
  }

  /** After a restart the log shows the segment unmarked, and the session's next draft seals it again. */
  lemma UnmarkedTwice() returns (w: State)
    ensures Reachable(w) && Twice(w) && w.past == NO_PAST.(unmarked := true, restarted := true)
  {
    hide Reachable, Unvouched, Twice;
    var v := UnmarkedLine();
    var v1 := DoRestart(v);
    assert Reopened(Seven(Reserved(1))) == Seven(Free);
    w := SealAgain(v1);
  }

  /** The session's file has the number of its line, so it is set aside, and the next draft takes the segment. */
  lemma SealAgain(v: State) returns (w: State)
    requires Reachable(v) && v == Idling(v.disk, v.past, v.ledger) && v.disk.files == map[1 := File(1, {7})] && v.disk.stale == map[]
    requires v.disk.book == Seven(Free) && v.disk.shelf.lines == {1} && v.disk.shelf.names == {1} && v.disk.shelf.art == map[1 := {7}]
    requires 1 in v.ledger.sealedBy && v.ledger.sealedBy[1].session == 1
    ensures Reachable(w) && Twice(w) && w.past == v.past
  {
    hide Reachable, IsClaim, Pairs, Twice;
    DoSetAside(v, 1);
    var v2 := v.(missed := {1}, disk := DropFile(v.disk, 1).(stale := map[1 := File(1, {7})]));
    assert v.missed + {1} == {1} && v.disk.stale[1 := File(1, {7})] == map[1 := File(1, {7})];
    assert v2.disk.files == map[];
    w := SealNew(v2);
  }

  lemma SealNew(v: State) returns (w: State)
    requires Reachable(v) && v == Idling(v.disk, v.past, v.ledger).(missed := {1}) && v.disk.files == map[] && v.disk.stale == map[1 := File(1, {7})]
    requires v.disk.book == Seven(Free) && v.disk.shelf.lines == {1} && v.disk.shelf.names == {1} && v.disk.shelf.art == map[1 := {7}]
    ensures Reachable(w) && Twice(w) && w.past == v.past
  {
    hide Reachable, IsClaim, Pairs, Twice;
    AsideNumbers(v.disk);
    NextAfter();
    DoMissed(v, 1, 0, 1, 2);
    var v3 := New(v, 1, 0, 2).(missed := {});
    assert v.missed - {1} == {};
    DoEncode(v3, 0, 7);
    var v4 := WithEncoded(v3, 0, 7);
    w := DoSealAll(v4, 0, 0, true);
    SharesSeven(w, 1, 2);
  }

  lemma AsideNumbers(k: Disk)
    requires k.files == map[] && k.stale == map[1 := File(1, {7})] && k.book == Seven(Free)
    ensures IsFloor(0, DraftNumbers(k), Records(k.book), 1)
  {
    assert k.stale[1].num == 1 && 1 in Numbers(k.stale);
  }

  // A cut that takes the log's records of the segment

  /** The draft file keeps the segment, the log does not, and the seal goes on without a record. */
  lemma UnloggedLine() returns (w: State)
    ensures Reachable(w) && Unvouched(w) && w.past == NO_PAST.(unlogged := true, restarted := true)
    ensures w.disk.files == map[1 := File(1, {7})] && w.disk.stale == map[] && w.disk.book == map[]
    ensures w.disk.shelf.lines == {1} && w.disk.shelf.names == {1} && w.disk.shelf.art == map[1 := {7}]
    ensures 1 in w.ledger.sealedBy && w.ledger.sealedBy[1].session == 1
  {
    hide Reachable, Unvouched, Pairs;
    ReachOne();
    var v := DoCutLog(ONE, map[]);
    assert Unlogs(ONE.disk.book, map[], ONE.disk.files) by { assert 7 in ONE.disk.files[1].enc; }
    DoReadBack(v, 1, 0);
    var v1 := ReadBack(v, 1, 0);
    w := DoSealAll(v1, 0, 0, true);
    assert w.disk.files == map[1 := File(1, {7})];
    Unrecorded(w, 1, 7);
  }

  lemma Unrecorded(w: State, n: Seq, x: Segment)
    requires n in w.disk.shelf.lines && n in w.disk.shelf.art && x in w.disk.shelf.art[n] && x !in w.disk.book
    ensures Unvouched(w)
  {
  }

  /** The log hands the segment's id out again, and the next draft seals it a second time. */
  lemma UnloggedTwice() returns (w: State)
    ensures Reachable(w) && Twice(w) && w.past == NO_PAST.(unlogged := true, restarted := true)
  {
    hide Reachable, Unvouched, Twice;
    var v := UnloggedLine();
    DoSegment(v, 7, 1);
    var v1 := WithSegment(v, 7, 1);
    var v2 := DoRestart(v1);
    assert Reopened(Seven(Free)) == Seven(Free) && v1.disk.book == Seven(Free);
    w := SealAgain(v2);
  }

  lemma NextAfter()
    ensures IsClaim(1, {1}, {1}, 2)
  {
    assert IsBase(1, {1}, 2);
  }

  lemma SharesSeven(w: State, n: Seq, m: Seq)
    requires var k := w.disk.shelf; n != m && {n, m} <= k.lines && {n, m} <= k.art.Keys && 7 in k.art[n] && 7 in k.art[m]
    ensures Twice(w)
  {
    assert n in w.disk.shelf.lines && m in w.disk.shelf.lines;
  }

  lemma DoSetAside(v: State, s: Session)
    requires Reachable(v) && GateFree(v, s) && s in v.disk.files && v.disk.files[s].num in v.disk.shelf.lines
    requires v.disk.files[s].num in v.ledger.sealedBy
    ensures var mis := v.ledger.sealedBy[v.disk.files[s].num].session != s;
            Reachable(v.(missed := v.missed + {s}, disk := DropFile(v.disk, s).(stale := v.disk.stale[s := v.disk.files[s]]), ledger := v.ledger.(misfiled := v.ledger.misfiled || mis)))
  {
    hide Reachable, Enabled, Step;
    StepBegin(v, s, SetAside);
    Reach(v, Begin(s, SetAside), AfterBegin(v, s, SetAside));
  }

  // A seal that moves past its own orphan

  /** The first seal fails once its marks are through, and the second moves past the artifact it left: the
      line is at number 2, the mark, if there is one, at 1, and so is the number in the draft's file. */
  lemma BumpedLine(ok: bool) returns (w: State)
    ensures Reachable(w) && Unvouched(w) && w.past == NO_PAST.(bumped := true, unmarked := !ok)
    ensures w.drafts == map[0 := Draft(1, 2, {7}, true, Done(2, {7}, LineWritten), false)] && w.live == map[1 := 0]
    ensures w.missed == {} && w.claims == map[] && w.resuming == map[] && w.ready == map[]
    ensures w.disk.files == map[1 := File(1, {7})] && w.disk.shelf.lines == {2} && w.disk.shelf.names == {1, 2}
    ensures w.disk.shelf.art == map[1 := {7}, 2 := {7}]
  {
    hide Reachable, Unvouched;
    ReachOne();
    var v := DoFail(ONE, 0, ok);
    w := DoSealAll(v, 0, 1, ok);
    assert w.drafts == map[0 := Draft(1, 2, {7}, true, Done(2, {7}, LineWritten), false)];
    NotRecorded(w, 2, 7);
  }

  lemma NotRecorded(w: State, n: Seq, x: Segment)
    requires n in w.disk.shelf.lines && n in w.disk.shelf.art && x in w.disk.shelf.art[n] && x in w.disk.book && w.disk.book[x].mark != Recorded(n)
    ensures Unvouched(w)
  {
  }

  /** The draft is retired, and before its file is removed the session's next Begin reads it: no line has the
      number in it, so the draft is back, and is sealed a second time. */
  lemma BumpedTwice(ok: bool) returns (w: State)
    ensures Reachable(w) && Twice(w) && w.past == NO_PAST.(bumped := true, unmarked := !ok)
  {
    hide Reachable, Unvouched, Twice, Pending, Pairs;
    var v := BumpedLine(ok);
    DoPlain(v, 0, NotDurable);
    var d := Draft(1, 2, {7}, true, Done(2, {7}, Committed), false);
    var v1 := Put(v, 0, d, v.disk.shelf);
    assert v1.drafts == map[0 := d];
    DoRetire(v1, 0);
    var v2 := v1.(live := map[], drafts := map[0 := d.(leaving := true)]);
    assert v1.live - {1} == map[] && v1.drafts[0 := d.(leaving := true)] == v2.drafts;
    w := ReadAndSeal(v2, ok);
  }

  lemma ReadAndSeal(v: State, ok: bool) returns (w: State)
    requires Reachable(v) && v.drafts.Keys == {0} && GateFree(v, 1) && v.disk.files == map[1 := File(1, {7})]
    requires v.disk.shelf.lines == {2} && v.disk.shelf.names == {1, 2} && v.disk.shelf.art == map[1 := {7}, 2 := {7}]
    ensures Reachable(w) && Twice(w) && w.past == v.past.(bumped := true, unmarked := v.past.unmarked || !ok)
  {
    hide Reachable, Twice, Pending, Pairs;
    DoRewrite(v, 1);
    var v1 := Rewritten(v, 1);
    DoPublish(v1, 1, 1);
    var v2 := Published(v1, 1, 1);
    w := DoSealAll(v2, 1, 2, ok);
    SharesSeven(w, 2, 3);
  }

  // A restart, and the segment in two drafts

  lemma ReachBack() returns (w: State)
    ensures Reachable(w) && w == ReadBack(Idling(Simple(map[1 := File(1, {7})], Free), NO_PAST.(restarted := true), HOLDS), 1, 0)
    ensures w.drafts == map[0 := Draft(1, 1, {7}, false, Idle, false)] && w.live == map[1 := 0] && w.issued == 1 && !w.floor
    ensures w.disk == Simple(map[1 := File(1, {7})], Free) && w.past == NO_PAST.(restarted := true) && w.ledger == HOLDS
  {
    hide Reachable, Pairs;
    ReachOne();
    var v := DoRestart(ONE);
    assert Reopened(Seven(Reserved(1))) == Seven(Free);
    assert v == Idling(Simple(map[1 := File(1, {7})], Free), NO_PAST.(restarted := true), HOLDS);
    DoReadBack(v, 1, 0);
    w := ReadBack(v, 1, 0);
    OnePair(1, 7);
    assert HOLDS.accepted + {(1, 7)} == HOLDS.accepted;
    assert w.disk.files == map[1 := File(1, {7})];
  }

  /** Both drafts come to their lines; the log gives the segment to the first. */
  lemma SealBoth(v: State) returns (w: State)
    requires Reachable(v) && {0, 1} <= v.drafts.Keys && v.disk.shelf == BARE && v.disk.book == Seven(Reserved(2))
    requires forall i | i in {0, 1} :: Finishable(v.drafts[i]) && v.drafts[i].num == i + 1 && v.drafts[i].enc == {7}
    ensures Reachable(w) && Twice(w) && Unvouched(w) && w.past == v.past
  {
    hide Reachable, Twice;
    var v1 := DoSealAll(v, 0, 0, true);
    w := DoSealAll(v1, 1, 0, true);
    assert v1.disk.book == Seven(Recorded(1)) && w.disk.book == Seven(Recorded(1));
    SharesSeven(w, 1, 2);
    assert 2 in w.disk.shelf.lines && w.disk.shelf.art[2] == {7};
  }

  /** Another draft begins at the next number and encodes the segment. */
  lemma BeginSecond(v: State, s: Session) returns (w: State)
    requires Reachable(v) && GateFree(v, s) && s !in v.disk.files && v.issued == 1 && !v.floor && v.drafts.Keys == {0} && !Pending(v, s)
    requires v.disk.book == Seven(Free) && v.disk.shelf == BARE && v.disk.stale == map[] && forall t | t in v.disk.files :: v.disk.files[t].num == 1
    ensures Reachable(w) && {0, 1} <= w.drafts.Keys && w.drafts[0] == v.drafts[0]
    ensures w.drafts[1].num == 2 && w.drafts[1].enc == {7} && !w.drafts[1].sealed
    ensures w.disk.shelf == BARE && w.disk.book == Seven(Reserved(2)) && w.past == v.past.(crossed := v.past.crossed || s != 1)
  {
    hide Reachable, IsClaim, Pending, Pairs;
    assert IsFloor(1, DraftNumbers(v.disk), Records(v.disk.book), 1);
    NextClaim(1, {}, {});
    DoNew(v, s, 1, 1, 2);
    var v1 := New(v, s, 1, 2);
    assert v1.drafts[1].enc + {7} == {7};
    DoEncode(v1, 1, 7);
    w := WithEncoded(v1, 1, 7);
  }

  /** A segment offered to another session's draft, after a restart. */
  lemma CrossedTwice() returns (w: State)
    ensures Reachable(w) && Twice(w) && Unvouched(w) && w.past == NO_PAST.(restarted := true, crossed := true)
  {
    hide Reachable, Twice, Unvouched;
    var v := ReachBack();
    var v1 := BeginSecond(v, 2);
    w := SealBoth(v1);
  }

  /** A draft aborted during its Finalize, after a restart: its successor may encode the segment again. */
  lemma RacedTwice() returns (w: State)
    ensures Reachable(w) && Twice(w) && Unvouched(w) && w.past == NO_PAST.(restarted := true, raced := true)
  {
    hide Reachable, Twice, Unvouched, Pairs;
    var v := ReachBack();
    var v1 := AbortInFlight(v);
    var v2 := BeginSecond(v1, 1);
    w := SealBoth(v2);
  }

  /** Draft 0 is aborted during its Finalize and its file removed. */
  lemma AbortInFlight(v: State) returns (w: State)
    requires Reachable(v) && v.drafts == map[0 := Draft(1, 1, {7}, false, Idle, false)] && v.live == map[1 := 0] && 1 !in v.ready
    requires v.disk.files == map[1 := File(1, {7})]
    ensures Reachable(w) && w.drafts == map[0 := Draft(1, 1, {7}, true, Active(1, {7}, Taken), false)] && w.live == map[] && w.disk.files == map[]
    ensures w == v.(drafts := w.drafts, live := w.live, disk := w.disk, past := v.past.(raced := true), ledger := w.ledger)
    ensures w.disk == DropFile(v.disk, 1) && w.ledger == v.ledger.(accepted := v.ledger.accepted - Pairs(1, {7}))
  {
    hide Reachable, Pairs;
    var c := Draft(1, 1, {7}, true, Active(1, {7}, Taken), false);
    var v1 := AbortStarted(v, c);
    DoUnlink(v1, 0);
    w := Unlinked(v1, 0);
    assert w.drafts == map[0 := c] && w.disk.files == map[];
  }

  lemma AbortStarted(v: State, c: Draft) returns (w: State)
    requires Reachable(v) && v.drafts == map[0 := Draft(1, 1, {7}, false, Idle, false)] && v.live == map[1 := 0] && 1 !in v.ready
    requires c == Draft(1, 1, {7}, true, Active(1, {7}, Taken), false)
    ensures Reachable(w) && w == v.(drafts := map[0 := c.(leaving := true)], live := map[], past := v.past.(raced := true),
                                    ledger := v.ledger.(accepted := v.ledger.accepted - Pairs(1, {7})))
  {
    hide Reachable, Pairs;
    DoPlain(v, 0, Start);
    var v1 := Put(v, 0, c, v.disk.shelf);
    DoAbort(v1, 0);
    w := Aborted(v1, 0);
    assert w.drafts == map[0 := c.(leaving := true)] && w.live == map[];
  }

  // ------------------------------------------------------------------------------------------
  // Losing runs
  // ------------------------------------------------------------------------------------------

  /** What is accepted and neither on file nor in an artifact does not outlive a power cut. */
  lemma CutLoses(v: State, s: Session, x: Segment) returns (w: State)
    requires Reachable(v) && (s, x) in v.ledger.accepted && !OnFile(v.disk, s, x) && !Shelved(v.disk.shelf, x)
    requires s in v.disk.stale ==> x !in v.disk.stale[s].enc
    ensures Reachable(w) && Lost(w) && w.past == v.past.(restarted := true) && w.ledger == v.ledger
  {
    hide Reachable;
    w := DoCut(v);
    assert Nowhere(w, (s, x).0, (s, x).1);
  }

  predicate Leaving(v: State, s: Session, j: Id) { j in v.drafts && v.drafts[j].session == s && v.drafts[j].leaving }

  /** The session has an open registered draft and no file. */
  predicate FileGone(w: State, s: Session) {
    s in w.live && w.live[s] in w.drafts && !w.drafts[w.live[s]].sealed && s !in w.disk.files
  }

  /** Whenever a removal is under way for a session whose Begin has written its file, the removal may come
      before the draft is registered, and then the registered draft has no file. */
  lemma EarlyRemoval(v: State, s: Session, j: Id, i: Id)
    requires Leaving(v, s, j) && s in v.ready && i !in v.drafts
    ensures Enabled(v, Unlink(j)) && Enabled(Step(v, Unlink(j)), Begin(s, Publish(i)))
    ensures FileGone(Step(Step(v, Unlink(j)), Begin(s, Publish(i))), s)
  {
    hide Enabled, Step, Pairs;
    UnlinkNow(v, j);
    PublishNow(Unlinked(v, j), s, i);
  }

  /** Or after it. */
  lemma LateRemoval(v: State, s: Session, j: Id, i: Id)
    requires Leaving(v, s, j) && s in v.ready && i !in v.drafts
    ensures Enabled(v, Begin(s, Publish(i))) && Enabled(Step(v, Begin(s, Publish(i))), Unlink(j))
    ensures FileGone(Step(Step(v, Begin(s, Publish(i))), Unlink(j)), s)
  {
    hide Enabled, Step, Pairs;
    PublishNow(v, s, i);
    UnlinkNow(Published(v, s, i), j);
  }

  lemma UnlinkNow(v: State, j: Id)
    requires j in v.drafts && v.drafts[j].leaving
    ensures Enabled(v, Unlink(j)) && Step(v, Unlink(j)) == Unlinked(v, j)
  {
    hide CanBegin, CanSeal;
  }

  lemma PublishNow(v: State, s: Session, i: Id)
    requires s in v.ready && i !in v.drafts
    ensures Enabled(v, Begin(s, Publish(i))) && Step(v, Begin(s, Publish(i))) == Published(v, s, i)
  {
    hide Enabled, Step, Pairs;
    StepBegin(v, s, Publish(i));
  }

  /** And from every such state a segment accepted meanwhile may be lost. */
  lemma OverlapLoses(v: State, s: Session) returns (w: State)
    requires Reachable(v) && Pending(v, s) && s in v.ready
    ensures Reachable(w) && Lost(w) && w.past == v.past.(restarted := true)
    ensures w.ledger == v.ledger.(accepted := w.ledger.accepted)
  {
    hide Reachable, Pairs, Shelved;
    var j :| j in v.drafts && v.drafts[j].session == s && v.drafts[j].leaving;
    var i := FreshFrom(v.drafts.Keys);
    DoPublish(v, s, i);
    var v1 := Published(v, s, i);
    var y := FreshSegment(v1, i, s);
    DoSegment(v1, y, s);
    var v2 := WithSegment(v1, y, s);
    DoEncode(v2, i, y);
    var v3 := WithEncoded(v2, i, y);
    HasPair(s, y, {y});
    DoUnlink(v3, j);
    w := CutLoses(Unlinked(v3, j), s, y);
  }

  lemma HasPair(s: Session, x: Segment, xs: set<Segment>)
    requires x in xs
    ensures (s, x) in Pairs(s, xs)
  {
  }

  lemma FreshSegment(v: State, i: Id, s: Session) returns (y: Segment)
    requires i in v.drafts
    ensures y !in v.disk.book && y !in v.drafts[i].enc && !Shelved(v.disk.shelf, y) && 0 < y && (forall z | z in v.disk.book :: z < y)
    ensures s in v.disk.stale ==> y !in v.disk.stale[s].enc
  {
    var k := v.disk.shelf;
    y := FreshFrom(v.disk.book.Keys + v.drafts[i].enc + (set n, x | n in k.art && x in k.art[n] :: x) +
                   if s in v.disk.stale then v.disk.stale[s].enc else {});
  }

  /** The session reads its file back while the aborted draft is still to remove it. */
  lemma Overlapping() returns (v: State)
    ensures Reachable(v) && Pending(v, 1) && 1 in v.ready && v.past == NO_PAST
    ensures v.ledger == NO_LEDGER.(overlapped := true, accepted := v.ledger.accepted)
  {
    hide Reachable, Pairs, Pending;
    ReachOne();
    DoAbort(ONE, 0);
    var v1 := Aborted(ONE, 0);
    IsPending(v1, 1, 0);
    DoRewrite(v1, 1);
    v := Rewritten(v1, 1);
    SamePending(v1, v, 1);
  }

  /** The file of a registered draft is gone, by an overlap alone. */
  lemma OverlapDrops() returns (w: State)
    ensures Reachable(w) && Unfiled(w) && w.past == NO_PAST && w.ledger.overlapped && !w.ledger.unsaved
  {
    hide Reachable, Pairs;
    var v := Overlapping();
    var j :| j in v.drafts && v.drafts[j].session == 1 && v.drafts[j].leaving;
    var i := FreshFrom(v.drafts.Keys);
    DoPublish(v, 1, i);
    DoUnlink(Published(v, 1, i), j);
    w := Unlinked(Published(v, 1, i), j);
    assert 1 in w.live && w.live[1] in w.drafts && !OnDisk(w.disk, 1, w.drafts[w.live[1]].enc);
  }

  /** A draft aborted during its Finalize, whose Finalize then fails, is open again and may write over its
      successor's file. */
  lemma RacedOverwrites() returns (w: State)
    ensures Reachable(w) && Unfiled(w) && w.past == NO_PAST.(raced := true)
    ensures (1, 8) in w.ledger.accepted && !OnFile(w.disk, 1, 8) && !Shelved(w.disk.shelf, 8) && w.disk.stale == map[]
    ensures w.ledger == NO_LEDGER.(accepted := w.ledger.accepted)
  {
    hide Reachable, Pairs, IsClaim;
    ReachOne();
    var v := AbortInFlight(ONE);
    var v1 := BeginThird(v);
    DoPlain(v1, 0, GiveUp);
    var v2 := Put(v1, 0, Draft(1, 1, {7}, false, Idle, false), BARE);
    DoPersist(v2, 0);
    w := v2.(disk := Save(v2.disk, v2.drafts[0]));
    assert 1 in w.live && w.live[1] in w.drafts && !OnDisk(w.disk, 1, w.drafts[w.live[1]].enc);
  }

  /** The successor is begun and given segment 8. */
  lemma BeginThird(v: State) returns (w: State)
    requires Reachable(v) && v.drafts == map[0 := Draft(1, 1, {7}, true, Active(1, {7}, Taken), false)] && v.live == map[]
    requires v.missed == {} && v.claims == map[] && v.resuming == map[] && v.ready == map[] && v.floor && v.issued == 1
    requires v.disk.files == map[] && v.disk.book == Seven(Reserved(1)) && v.disk.shelf == BARE
    ensures Reachable(w) && w.drafts == v.drafts[1 := Draft(1, 2, {8}, false, Idle, false)] && w.live == map[1 := 1] && w.disk.shelf == BARE && w.disk.stale == v.disk.stale
    ensures w.past == v.past && w.ledger == v.ledger.(accepted := w.ledger.accepted) && (1, 8) in w.ledger.accepted
  {
    hide Reachable, Pairs, IsClaim;
    NextClaim(1, {}, {});
    DoNew(v, 1, 1, 1, 2);
    var v1 := New(v, 1, 1, 2);
    DoSegment(v1, 8, 1);
    var v2 := WithSegment(v1, 8, 1);
    assert v2.drafts[1].enc + {8} == {8};
    DoEncode(v2, 1, 8);
    w := WithEncoded(v2, 1, 8);
    OnePair(1, 8);
    assert w.drafts == v.drafts[1 := Draft(1, 2, {8}, false, Idle, false)] && w.live == map[1 := 1];
  }

  // A draft file that cannot be written

  /** The draft holds the segment, and its file does not. */
  lemma UnsavedDiffers() returns (w: State)
    ensures Reachable(w) && Unfiled(w) && w.past == NO_PAST && w.ledger == NO_LEDGER.(unsaved := true)
  {
    hide Reachable, IsClaim;
    ReachEmpty();
    DoSegment(EMPTY, 7, 1);
    var v := EMPTY.(disk := Simple(map[], Free));
    assert v == WithSegment(EMPTY, 7, 1);
    assert Records(v.disk.book) == {} && DraftNumbers(v.disk) == {};
    NextClaim(0, {}, {});
    DoNew(v, 1, 0, 0, 1);
    var v1 := New(v, 1, 0, 1);
    DoUnsavedEncode(v1, 0, 7);
    w := Unsaved(v1, 0, 7);
    assert 1 in w.live && w.live[1] in w.drafts && !OnDisk(w.disk, 1, w.drafts[w.live[1]].enc);
  }

  /** A draft is read back, its file removed by the one aborted before it, and not written again: the failure is
      only logged, and the draft is registered. */
  lemma UnsavedLoses() returns (w: State)
    ensures Reachable(w) && Lost(w) && !w.past.raced && w.ledger.unsaved && !w.ledger.overlapped && !w.ledger.misfiled
  {
    hide Reachable, Pairs, Lost;
    ReachOne();
    DoAbort(ONE, 0);
    var v1 := Aborted(ONE, 0);
    assert v1.live == map[];
    DoRead(v1, 1);
    var v2 := v1.(resuming := map[1 := File(1, {7})]);
    DoUnlink(v2, 0);
    var v3 := Unlinked(v2, 0);
    assert v3.drafts == map[0 := Draft(1, 1, {7}, true, Idle, false)] && v3.disk.files == map[];
    w := RetainAndLose(v3);
  }

  lemma RetainAndLose(v: State) returns (w: State)
    requires Reachable(v) && v.drafts == map[0 := Draft(1, 1, {7}, true, Idle, false)] && v.resuming == map[1 := File(1, {7})]
    requires v.disk.files == map[] && v.disk.stale == map[] && v.disk.shelf == BARE
    ensures Reachable(w) && Lost(w) && w.past == v.past.(restarted := true) && w.ledger == v.ledger.(unsaved := true, accepted := w.ledger.accepted)
  {
    hide Reachable, Pairs, Lost;
    DoRetain(v, 1);
    var v1 := v.(ready := v.ready[1 := File(1, {7})], resuming := v.resuming - {1}, ledger := v.ledger.(unsaved := true));
    DoPublish(v1, 1, 1);
    HasPair(1, 7, {7});
    w := CutLoses(Published(v1, 1, 1), 1, 7);
  }

  // A seal that moves onto another draft's number

  /** Session 2's first seal fails past its artifact; session 1 begins at the next number and encodes the segment. */
  lemma Orphaned(blind: bool) returns (w: State)
    ensures Reachable(w) && w.drafts == map[0 := Draft(2, 1, {}, false, Idle, false), 1 := Draft(1, 2, {7}, false, Idle, false)]
    ensures w.live == map[2 := 0, 1 := 1] && w.past == NO_PAST && w.ledger == HOLDS.(blind := blind)
    ensures w.disk.files == map[2 := File(1, {}), 1 := File(2, {7})] && w.disk.stale == map[]
    ensures w.disk.shelf.names == {1} && w.disk.shelf.art == map[1 := {}] && w.disk.shelf.lines == {}
  {
    hide Reachable, IsClaim, Pairs;
    var v := Orphan(blind);
    w := JoinOrphan(v);
    assert w.drafts == map[0 := Draft(2, 1, {}, false, Idle, false), 1 := Draft(1, 2, {7}, false, Idle, false)];
    assert w.live == map[2 := 0, 1 := 1] && w.disk.files == map[2 := File(1, {}), 1 := File(2, {7})];
  }

  lemma JoinOrphan(v: State) returns (w: State)
    requires Reachable(v) && 1 !in v.drafts && GateFree(v, 1) && v.issued == 1 && !Pending(v, 1) && v.ledger.accepted == {}
    requires v.disk.files == map[2 := File(1, {})] && v.disk.stale == map[] && v.disk.book == Seven(Free)
    requires v.disk.shelf.names == {1} && v.disk.shelf.lines == {}
    ensures Reachable(w) && w.drafts == v.drafts[1 := Draft(1, 2, {7}, false, Idle, false)] && w.live == v.live[1 := 1]
    ensures w.disk.files == v.disk.files[1 := File(2, {7})] && w.disk.stale == map[] && w.disk.shelf == v.disk.shelf
    ensures w.past == v.past && w.ledger == v.ledger.(accepted := {(1, 7)})
  {
    hide Reachable, IsClaim, Pairs, Pending;
    OneNumber(v.disk);
    NextClaim(1, {}, {1});
    DoNew(v, 1, 1, 1, 2);
    w := EncodeNew(v, 1, 2);
  }

  /** Session 1's new draft encodes the segment. */
  lemma EncodeNew(v: State, i: Id, n: Seq) returns (w: State)
    requires Reachable(New(v, 1, i, n)) && v.disk.book == Seven(Free) && v.ledger.accepted == {}
    ensures Reachable(w) && w.drafts == v.drafts[i := Draft(1, n, {7}, false, Idle, false)] && w.live == v.live[1 := i]
    ensures w.disk == SaveFile(v.disk, 1, File(n, {7})).(book := Seven(Reserved(n)))
    ensures w.past == v.past && w.ledger == v.ledger.(accepted := {(1, 7)})
  {
    hide Reachable, Pairs, WithEncoded;
    var v1 := New(v, 1, i, n);
    DoEncode(v1, i, 7);
    w := WithEncoded(v1, i, 7);
    EncodedSeven(v1, i);
    assert v1.drafts[i := Draft(1, n, {7}, false, Idle, false)] == v.drafts[i := Draft(1, n, {7}, false, Idle, false)];
    assert v1.disk.files[1 := File(n, {7})] == v.disk.files[1 := File(n, {7})];
  }

  lemma EncodedSeven(v: State, i: Id)
    requires i in v.drafts && v.drafts[i].session == 1 && v.drafts[i].enc == {} && v.disk.book == Seven(Free) && v.ledger.accepted == {}
    ensures var w, d := WithEncoded(v, i, 7), v.drafts[i];
            w == v.(drafts := v.drafts[i := d.(enc := {7})], disk := SaveFile(v.disk, 1, File(d.num, {7})).(book := Seven(Reserved(d.num))),
                    ledger := v.ledger.(accepted := {(1, 7)}))
  {
    hide Pairs;
    OnePair(1, 7);
    assert v.drafts[i].enc + {7} == {7} && {} + {(1, 7)} == {(1, 7)};
    assert WithEncoded(v, i, 7).disk.book == Seven(Reserved(v.drafts[i].num));
  }

  lemma OneNumber(k: Disk)
    requires k.files == map[2 := File(1, {})] && k.stale == map[] && k.book == Seven(Free)
    ensures IsFloor(1, DraftNumbers(k), Records(k.book), 1)
  {
  }

  lemma Orphan(blind: bool) returns (w: State)
    ensures Reachable(w) && w.drafts == map[0 := Draft(2, 1, {}, false, Idle, false)] && w.live == map[2 := 0]
    ensures w.missed == {} && w.claims == map[] && w.resuming == map[] && w.ready == map[] && w.floor == !blind && w.issued == 1
    ensures w.past == NO_PAST && w.ledger == NO_LEDGER.(blind := blind) && w.disk.files == map[2 := File(1, {})] && w.disk.stale == map[]
    ensures w.disk.book == Seven(Free) && w.disk.shelf.names == {1} && w.disk.shelf.art == map[1 := {}] && w.disk.shelf.lines == {}
  {
    hide Reachable, IsClaim, Commit;
    ReachEmpty();
    DoSegment(EMPTY, 7, 1);
    var v := WithSegment(EMPTY, 7, 1);
    assert v.disk.book == Seven(Free);
    var v1 := BeginTwo(v, blind);
    w := DoFail(v1, 0, true);
    CommitNone(v1.disk.book, 1);
    assert w.drafts == map[0 := Draft(2, 1, {}, false, Idle, false)] && w.live == map[2 := 0];
    assert w.disk.files == map[2 := File(1, {})] && w.disk.shelf.art == map[1 := {}] && w.disk.shelf.names == {1};
  }

  /** Session 2 begins at number 1, having scanned for others' numbers or not. */
  lemma BeginTwo(v: State, blind: bool) returns (w: State)
    requires Reachable(v) && v == Idling(v.disk, v.past, v.ledger) && v.disk.shelf == BARE && 2 !in v.disk.files
    requires !blind ==> DraftNumbers(v.disk) == {} && v.disk.book == Seven(Free)
    ensures Reachable(w) && w == New(v, 2, 0, 1).(floor := !blind, ledger := v.ledger.(blind := v.ledger.blind || blind))
  {
    hide Reachable, IsClaim;
    NextClaim(0, {}, {});
    if blind {
      DoMiss(v, 2);
      var v1 := v.(missed := v.missed + {2});
      DoBegin(v1, 2, 0, 1);
      w := Begun(v1, 2, 0, 1);
      assert v1.missed - {2} == v.missed;
    } else {
      assert Records(v.disk.book) == {};
      DoNew(v, 2, 0, 0, 1);
      w := New(v, 2, 0, 1);
    }
  }

  lemma DoMiss(v: State, s: Session)
    requires Reachable(v) && GateFree(v, s) && s !in v.disk.files
    ensures Reachable(v.(missed := v.missed + {s}))
  {
    hide Reachable, Enabled, Step;
    StepBegin(v, s, Miss);
    Reach(v, Begin(s, Miss), v.(missed := v.missed + {s}));
  }

  /** Session 2 seals again, past its orphan, and takes session 1's number. */
  lemma BumpShares(blind: bool) returns (w: State)
    ensures Reachable(w) && w.past == NO_PAST.(bumped := true) && !NumbersApart(w) && w.ledger == HOLDS.(blind := blind)
    ensures w.drafts == map[0 := Draft(2, 2, {}, true, Active(2, {}, BytesDurable), false), 1 := Draft(1, 2, {7}, false, Idle, false)]
    ensures w.disk.files == map[2 := File(1, {}), 1 := File(2, {7})] && w.disk.stale == map[]
    ensures w.disk.shelf.names == {1, 2} && w.disk.shelf.lines == {} && w.disk.shelf.art == map[1 := {}, 2 := {}]
  {
    hide Reachable, NumbersApart;
    var v := Orphaned(blind);
    DoArtifact(v, 0, 1);
    var d := Draft(2, 2, {}, true, Active(2, {}, BytesDurable), false);
    w := Put(WithBump(v, true), 0, d, Bytes(v.disk.shelf, 2, {}));
    assert w.drafts == map[0 := d, 1 := Draft(1, 2, {7}, false, Idle, false)];
    SameHeld(w);
  }

  /** After a restart session 2 begins while the floor scan cannot finish, at the number in session 1's file. */
  lemma BlindShares() returns (w: State)
    ensures Reachable(w) && !w.past.bumped && w.ledger.blind && !NumbersApart(w)
  {
    hide Reachable, NumbersApart, Pairs;
    ReachOne();
    var v := DoRestart(ONE);
    var v1 := BeginTwo(v, true);
    DoReadBack(v1, 1, 1);
    w := ReadBack(v1, 1, 1);
    assert w.live == map[2 := 0, 1 := 1];
    SameHeld(w);
  }

  lemma SameHeld(w: State)
    requires w.live == map[2 := 0, 1 := 1] && {0, 1} <= w.drafts.Keys && w.drafts[0].num == w.drafts[1].num
    ensures !NumbersApart(w)
  {
    assert Holding(w, Live(1)) && Holding(w, Live(2)) && Held(w, Live(1)) == Held(w, Live(2));
  }

  /** Its line stands at the number of session 1's draft, which after a restart is set aside for it. */
  lemma Misfiled() returns (w: State)
    ensures Reachable(w) && w == Idling(w.disk, w.past, w.ledger).(missed := {1}) && w.past == NO_PAST.(bumped := true, restarted := true)
    ensures w.ledger == HOLDS.(misfiled := true, drifted := w.ledger.drifted, sealedBy := w.ledger.sealedBy)
    ensures w.disk.files == map[2 := File(1, {})] && w.disk.stale == map[1 := File(2, {7})]
    ensures w.disk.shelf.names == {1, 2} && w.disk.shelf.lines == {2} && w.disk.shelf.art == map[1 := {}, 2 := {}]
  {
    hide Reachable, NumbersApart, Reopened, Commit;
    var v := BumpShares(false);
    DoMarks(v, 0, true);
    var v1 := Marked(v, 0, true);
    DoLine(v1, 0);
    var v2 := Lined(v1, 0);
    var v3 := DoRestart(v2);
    DoSetAside(v3, 1);
    w := v3.(missed := v3.missed + {1}, disk := DropFile(v3.disk, 1).(stale := v3.disk.stale[1 := File(2, {7})]), ledger := v3.ledger.(misfiled := true));
    assert v3.missed + {1} == {1} && w.disk.files == map[2 := File(1, {})] && w.disk.stale == map[1 := File(2, {7})];
  }

  /** The session's next draft is sealed, and when its file is set aside in turn the first one is gone. */
  lemma MisfiledLoss() returns (w: State)
    ensures Reachable(w) && Lost(w) && w.past == NO_PAST.(bumped := true, restarted := true)
    ensures w.ledger.misfiled && !w.ledger.overlapped && !w.ledger.unsaved
  {
    hide Reachable, IsClaim, Commit, Reopened;
    var v := Misfiled();
    var n, v1 := NextOne(v);
    var v2 := DoSealAll(v1, 0, 0, true);
    var v3 := DoRestart(v2);
    DoSetAside(v3, 1);
    var v4 := v3.(missed := v3.missed + {1}, disk := DropFile(v3.disk, 1).(stale := v3.disk.stale[1 := File(n, {})]));
    assert v4.disk.shelf.art[n] == {};
    w := CutLoses(v4, 1, 7);
  }

  lemma NextOne(v: State) returns (n: Seq, w: State)
    requires Reachable(v) && v == Idling(v.disk, v.past, v.ledger).(missed := {1})
    requires 1 !in v.disk.files && v.disk.stale == map[1 := File(2, {7})] && v.disk.shelf.names == {1, 2} && v.disk.shelf.lines == {2}
    ensures n > 2 && Reachable(w) && w == New(v, 1, 0, n).(missed := {})
  {
    hide Reachable, IsClaim, Records;
    var f := FloorExists(0, DraftNumbers(v.disk), Records(v.disk.book));
    assert v.disk.stale[1].num == 2 && 2 in Numbers(v.disk.stale);
    n := f + 1;
    NextClaim(f, {2}, {1, 2});
    DoMissed(v, 1, 0, f, n);
    w := New(v, 1, 0, n).(missed := {});
    assert v.missed - {1} == {};
  }

  // ------------------------------------------------------------------------------------------
  // Exact conditions
  // ------------------------------------------------------------------------------------------

  /** What goes wrong stays wrong, whatever another session does beside. */
  ghost predicate Carries(v: State, w: State) {
    (Twice(v) ==> Twice(w)) && (Unvouched(v) ==> Unvouched(w)) && (Unfiled(v) ==> Unfiled(w)) && (Lost(v) ==> Lost(w))
  }

  lemma AsideCarries(v: State, w: State)
    requires Aside(v, w)
    ensures Carries(v, w)
  {
    hide OnDisk, AllRecorded, Unfiled, Unvouched, Lost;
    AsideUnfiled(v, w);
    AsideUnvouched(v, w);
    AsideLost(v, w);
  }

  lemma AsideUnfiled(v: State, w: State)
    requires Aside(v, w)
    ensures Unfiled(v) ==> Unfiled(w)
  {
    if Unfiled(v) {
      var s :| s in v.live && v.live[s] in v.drafts && !OnDisk(v.disk, s, v.drafts[v.live[s]].enc);
      assert s in w.live && w.live[s] in w.drafts && !OnDisk(w.disk, s, w.drafts[w.live[s]].enc);
    }
  }

  lemma AsideUnvouched(v: State, w: State)
    requires Aside(v, w)
    ensures Unvouched(v) ==> Unvouched(w)
  {
    if Unvouched(v) {
      var n :| n in v.disk.shelf.lines && n in v.disk.shelf.art && !AllRecorded(v.disk.book, v.disk.shelf.art[n], n);
      assert !AllRecorded(w.disk.book, w.disk.shelf.art[n], n);
    }
  }

  lemma AsideLost(v: State, w: State)
    requires Aside(v, w)
    ensures Lost(v) ==> Lost(w)
  {
    if Lost(v) {
      var p :| p in v.ledger.accepted && Nowhere(v, p.0, p.1);
      assert Nowhere(w, p.0, p.1);
    }
  }

  /** Races and crossings in other sessions, a restart, and a cut that takes another segment's records, can be
      added to any run. */
  lemma AddPast(v: State, p: Past) returns (w: State)
    requires Reachable(v) && v.past.bumped == p.bumped && v.past.unmarked == p.unmarked && Possible(p)
    requires (v.past.raced ==> p.raced) && (v.past.crossed ==> p.crossed) && (v.past.unlogged ==> p.unlogged) && (v.past.restarted ==> p.restarted)
    ensures Reachable(w) && w.past == p && (Twice(v) ==> Twice(w)) && (Unvouched(v) ==> Unvouched(w))
  {
    hide Reachable, Aside, Twice, Unvouched, Unfiled, Lost, Reopened, AfterCut, Inv;
    w := v;
    if p.raced && !v.past.raced {
      var u := RacedBeside(w);
      AsideCarries(w, u);
      w := u;
    }
    if p.crossed && !v.past.crossed {
      var u := CrossedBeside(w);
      AsideCarries(w, u);
      w := u;
    }
    if p.unlogged && !v.past.unlogged {
      var u := UnloggedBeside(w);
      ReachInv(w);
      RestartCarries(w, u);
      w := u;
    } else if p.restarted && !v.past.restarted {
      var u := DoRestart(w);
      ReachInv(w);
      RestartCarries(w, u);
      w := u;
    }
  }

  /** A cut that takes records is the end of a process. */
  predicate Possible(p: Past) { p.unlogged ==> p.restarted }

  lemma RestartCarries(v: State, w: State)
    requires Inv(v) && w.disk.book == Reopened(v.disk.book)
    requires var k := v.disk.shelf; w.disk.shelf == k || w.disk.shelf == AfterCut(k, Loss(k.names, k.bytes, k.lines))
    ensures (Twice(v) ==> Twice(w)) && (Unvouched(v) ==> Unvouched(w))
  {
    hide NumbersInv, FilesInv, LiveOk, SoloOk, DraftFrozen;
    var k, j := v.disk.shelf, w.disk.shelf;
    assert j.lines == k.lines && forall n | n in k.lines && n in k.art :: n in j.art && j.art[n] == k.art[n];
    if Twice(v) {
      var n, m :| n in k.lines && m in k.lines && n in k.art && m in k.art && n != m && !(k.art[n] !! k.art[m]);
      assert n in j.lines && m in j.lines && !(j.art[n] !! j.art[m]);
    }
    if Unvouched(v) {
      var n :| n in k.lines && n in k.art && !AllRecorded(v.disk.book, k.art[n], n);
      assert !AllRecorded(w.disk.book, j.art[n], n);
    }
  }

  lemma IsPossible(w: State)
    requires Reachable(w)
    ensures Possible(w.past)
  {
    hide Reachable, FilesInv, LiveOk, Frozen, NumInv, AtOwnNumber, FileNumbers, Tight, LinesDone, Loose, MarkedOk, Extends;
    ReachInv(w);
  }

  ghost predicate EndsTwice(p: Past) { exists w :: Reachable(w) && w.past == p && Twice(w) }

  /** A segment can end up in two sealed checkpoints if and only if a seal moved past a taken number, or the
      process was restarted and a draft was aborted during its Finalize, a segment was offered to another
      session's draft, marks failed, or a cut took the log's records of a segment in a draft file. */
  lemma SealedOnce(p: Past)
    ensures EndsTwice(p) <==> Possible(p) && (p.bumped || (p.restarted && (p.raced || p.crossed || p.unmarked || p.unlogged)))
  {
    hide Reachable;
    if Possible(p) && (p.bumped || (p.restarted && (p.raced || p.crossed || p.unmarked || p.unlogged))) {
      var v;
      if p.bumped { v := BumpedTwice(!p.unmarked); }
      else if p.unmarked { v := UnmarkedTwice(); }
      else if p.raced { v := RacedTwice(); }
      else if p.crossed { v := CrossedTwice(); }
      else { v := UnloggedTwice(); }
      var w := AddPast(v, p);
    }
    if EndsTwice(p) {
      var w :| Reachable(w) && w.past == p && Twice(w);
      IsPossible(w);
      if Calm(p) {
        var k := w.disk.shelf;
        var n, m :| n in k.lines && m in k.lines && n in k.art && m in k.art && n != m && !(k.art[n] !! k.art[m]);
        SealedApart(w, n, m);
        assert false;
      }
    }
  }

  ghost predicate EndsUnvouched(p: Past) { exists w :: Reachable(w) && w.past == p && Unvouched(w) }

  /** A sealed checkpoint can hold a segment that is not recorded as its own if and only if a seal moved past
      a taken number, marks failed, or the process was restarted and a draft was aborted during its Finalize,
      a segment offered to another session's draft, or a cut took the log's records of a segment in a draft file. */
  lemma LinesVouched(p: Past)
    ensures EndsUnvouched(p) <==> Possible(p) && (p.bumped || p.unmarked || (p.restarted && (p.raced || p.crossed || p.unlogged)))
  {
    hide Reachable;
    if Possible(p) && (p.bumped || p.unmarked || (p.restarted && (p.raced || p.crossed || p.unlogged))) {
      var v;
      if p.bumped { v := BumpedLine(!p.unmarked); }
      else if p.unmarked { v := UnmarkedLine(); }
      else if p.raced { v := RacedTwice(); }
      else if p.crossed { v := CrossedTwice(); }
      else { v := UnloggedLine(); }
      var w := AddPast(v, p);
    } else if EndsUnvouched(p) {
      var w :| Reachable(w) && w.past == p && Unvouched(w);
      IsPossible(w);
      Vouched(w);
      assert false;
    }
  }

  lemma Vouched(w: State)
    requires Reachable(w) && !w.past.unmarked && (OneLifetime(w.past) || Orderly(w.past))
    ensures !Unvouched(w)
  {
    hide Reachable, LiveOk, Frozen, NumInv, Tight, Loose, LinesDone, FileNumbers, FilesInv, DraftMarked, AllRecorded;
    ReachInv(w);
  }

  ghost predicate EndsUnfiled(raced: bool, overlapped: bool, unsaved: bool) {
    exists w :: Reachable(w) && w.past.raced == raced && w.ledger.overlapped == overlapped && w.ledger.unsaved == unsaved && Unfiled(w)
  }

  /** A registered draft can differ from its file if and only if a draft was aborted during its Finalize, a
      draft's file was written against a removal under way, or the write of one failed after its first. */
  lemma FilesMatch(raced: bool, overlapped: bool, unsaved: bool)
    ensures EndsUnfiled(raced, overlapped, unsaved) <==> raced || overlapped || unsaved
  {
    hide Reachable, Aside, Unfiled;
    if raced || overlapped || unsaved {
      var w;
      if raced { w := RacedOverwrites(); } else if overlapped { w := OverlapDrops(); } else { w := UnsavedDiffers(); }
      if overlapped && !w.ledger.overlapped {
        var u := OverlapBeside(w);
        AsideUnfiled(w, u);
        w := u;
      }
      if unsaved && !w.ledger.unsaved {
        var u := UnsavedBeside(w);
        AsideUnfiled(w, u);
        w := u;
      }
    } else if EndsUnfiled(raced, overlapped, unsaved) {
      var w :| Reachable(w) && w.past.raced == raced && w.ledger.overlapped == overlapped && w.ledger.unsaved == unsaved && Unfiled(w);
      OpenDraftsAreOnDisk(w);
      KeptIsFiled(w);
      assert false;
    }
  }

  lemma KeptIsFiled(w: State)
    requires FilesKept(w)
    ensures !Unfiled(w)
  {
  }

  ghost predicate EndsLost(raced: bool, overlapped: bool, unsaved: bool, misfiled: bool) {
    exists w :: Reachable(w) && w.past.raced == raced && w.ledger.overlapped == overlapped && w.ledger.unsaved == unsaved &&
                w.ledger.misfiled == misfiled && Lost(w)
  }

  /** An accepted segment can be lost if and only if a draft was aborted during its Finalize, a draft's file
      was written against a removal under way, the write of one failed after its first, or a draft was set
      aside for another session's line. */
  lemma NothingLost(raced: bool, overlapped: bool, unsaved: bool, misfiled: bool)
    ensures EndsLost(raced, overlapped, unsaved, misfiled) <==> raced || overlapped || unsaved || misfiled
  {
    hide Reachable, Aside, Lost, Pending;
    if raced || overlapped || unsaved || misfiled {
      var w := FirstLoss(raced, overlapped, unsaved, misfiled);
      if raced && !w.past.raced {
        var u := RacedBeside(w);
        AsideLost(w, u);
        w := u;
      }
      if overlapped && !w.ledger.overlapped {
        var u := OverlapBeside(w);
        AsideLost(w, u);
        w := u;
      }
      if unsaved && !w.ledger.unsaved {
        var u := UnsavedBeside(w);
        AsideLost(w, u);
        w := u;
      }
    } else if EndsLost(raced, overlapped, unsaved, misfiled) {
      var w :| Reachable(w) && w.past.raced == raced && w.ledger.overlapped == overlapped && w.ledger.unsaved == unsaved &&
               w.ledger.misfiled == misfiled && Lost(w);
      NotLost(w);
      assert false;
    }
  }

  lemma FirstLoss(raced: bool, overlapped: bool, unsaved: bool, misfiled: bool) returns (w: State)
    requires raced || overlapped || unsaved || misfiled
    ensures Reachable(w) && Lost(w) && w.ledger.misfiled == misfiled
    ensures (w.past.raced ==> raced) && (w.ledger.overlapped ==> overlapped) && (w.ledger.unsaved ==> unsaved)
  {
    hide Reachable, Lost, Pending, OnFile, Shelved, Unfiled;
    if misfiled {
      w := MisfiledLoss();
    } else if overlapped {
      var v := Overlapping();
      w := OverlapLoses(v, 1);
    } else if raced {
      var v := RacedOverwrites();
      w := CutLoses(v, 1, 8);
    } else {
      w := UnsavedLoses();
    }
  }

  lemma NotLost(w: State)
    requires Reachable(w) && !w.past.raced && !w.ledger.overlapped && !w.ledger.unsaved && !w.ledger.misfiled
    ensures !Lost(w)
  {
    hide Reachable, LiveOk, Frozen, NumbersInv, OneOpen, Looked, NotYet, NoneAwaits, FilesKept, OwnLines, SafeToDrop, OnFile;
    ReachInv(w);
    forall p | p in w.ledger.accepted ensures !Nowhere(w, p.0, p.1) {
      assert p == (p.0, p.1);
      assert OnFile(w.disk, p.0, p.1) || InArtifact(w.disk.shelf, p.1);
    }
  }

  ghost predicate EndsShared(bumped: bool, blind: bool) {
    exists w :: Reachable(w) && w.past.bumped == bumped && w.ledger.blind == blind && !NumbersApart(w)
  }

  /** Drafts can come to share a number, or to hold one the counter does not bound, if and only if a seal
      moved past a taken number or a number was claimed after a floor scan that could not finish. */
  lemma NumbersUnique(bumped: bool, blind: bool)
    ensures EndsShared(bumped, blind) <==> bumped || blind
  {
    hide Reachable, NumbersApart;
    if bumped {
      var w := BumpShares(blind);
    } else if blind {
      var w := BlindShares();
    } else if EndsShared(bumped, blind) {
      var w :| Reachable(w) && w.past.bumped == bumped && w.ledger.blind == blind && !NumbersApart(w);
      NumbersNeverShared(w);
      assert false;
    }
  }
}
