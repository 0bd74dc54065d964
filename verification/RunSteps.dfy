/** Runs of the checkpoint writer put together from its steps: a segment encoded, a draft begun or read
    back, a Finalize taken to its line, and what may happen beside all that in a fresh session. */
module RunSteps {
  import opened SegmentBook
  import opened SealShelf
  import opened DraftWriter
  import opened SealedSegments
  import opened DraftFiles
  import opened DraftRuns

  lemma {:induction false} RunOn(v: State, es: seq<Event>, e: Event)
    requires Runs(v, es) && Enabled(After(v, es), e)
    ensures Runs(v, es + [e]) && After(v, es + [e]) == Step(After(v, es), e)
    decreases |es|
  {
    hide Enabled, Step;
    var fs := es + [e];
    if es == [] {
      assert fs[0] == e && fs[1..] == [];
    } else {
      RunOn(Step(v, es[0]), es[1..], e);
      assert fs[0] == es[0] && fs[1..] == es[1..] + [e];
    }
  }

  lemma Reach(v: State, e: Event, w: State)
    requires Reachable(v) && Enabled(v, e) && Step(v, e) == w
    ensures Reachable(w)
  {
    hide Enabled, Step, Runs, After;
    var es :| Runs(EMPTY, es) && After(EMPTY, es) == v;
    RunOn(EMPTY, es, e);
  }

  lemma ReachEmpty()
    ensures Reachable(EMPTY)
  {
    assert Runs(EMPTY, []) && After(EMPTY, []) == EMPTY;
  }

  /** A segment is opened and closed. */
  function WithSegment(v: State, x: Segment, s: Session): State { v.(disk := v.disk.(book := v.disk.book[x := Entry(s, true, Free)])) }

  lemma DoSegment(v: State, x: Segment, s: Session)
    requires Reachable(v) && 0 < x && forall y | y in v.disk.book :: y < x
    ensures Reachable(WithSegment(v, x, s))
  {
    hide Reachable, CanBegin, CanSeal;
    var w := v.(disk := v.disk.(book := v.disk.book[x := Entry(s, false, Free)]));
    Reach(v, OpenSegment(x, s), w);
    assert w.disk.book[x := w.disk.book[x].(closed := true)] == v.disk.book[x := Entry(s, true, Free)];
    Reach(w, CloseSegment(x), WithSegment(v, x, s));
  }

  /** A Begin that has found no file takes number `n` to a registered draft. */
  function Begun(v: State, s: Session, i: Id, n: Seq): State {
    v.(missed := v.missed - {s}, drafts := v.drafts[i := Draft(s, n, {}, false, Idle, false)], live := v.live[s := i], issued := n,
       disk := SaveFile(v.disk, s, File(n, {})), ledger := v.ledger.(blind := v.ledger.blind || !v.floor))
  }

  lemma DoBegin(v: State, s: Session, i: Id, n: Seq)
    requires Reachable(v) && s in v.missed && s !in v.claims && s !in v.ready && i !in v.drafts && !Pending(v, s)
    requires IsClaim(v.issued, v.disk.shelf.lines, v.disk.shelf.names, n)
    ensures Reachable(Begun(v, s, i, n))
  {
    hide Reachable, IsClaim, Pending, Pairs;
    DoClaim(v, s, n);
    var v1 := v.(missed := v.missed - {s}, claims := v.claims[s := n], issued := n, ledger := v.ledger.(blind := v.ledger.blind || !v.floor));
    SamePending(v, v1, s);
    DoWrite(v1, s);
    var v2 := v1.(claims := v.claims, ready := v.ready[s := File(n, {})], disk := SaveFile(v.disk, s, File(n, {})));
    assert v1.claims - {s} == v.claims;
    DoPublish(v2, s, i);
    NoPairs(s);
    assert v2.ready - {s} == v.ready && v2.ledger.accepted + {} == v2.ledger.accepted;
  }

  lemma DoClaim(v: State, s: Session, n: Seq)
    requires Reachable(v) && s in v.missed && IsClaim(v.issued, v.disk.shelf.lines, v.disk.shelf.names, n)
    ensures Reachable(v.(missed := v.missed - {s}, claims := v.claims[s := n], issued := n, ledger := v.ledger.(blind := v.ledger.blind || !v.floor)))
  {
    hide Reachable, IsClaim, Enabled, Step;
    StepBegin(v, s, Claim(n));
    Reach(v, Begin(s, Claim(n)), AfterBegin(v, s, Claim(n)));
  }

  lemma DoWrite(v: State, s: Session)
    requires Reachable(v) && s in v.claims && !Pending(v, s)
    ensures var f := File(v.claims[s], {}); Reachable(v.(claims := v.claims - {s}, ready := v.ready[s := f], disk := SaveFile(v.disk, s, f)))
  {
    hide Reachable, Pending, Enabled, Step;
    StepBegin(v, s, Write);
    Reach(v, Begin(s, Write), AfterBegin(v, s, Write));
  }

  /** A session without a file begins a draft. */
  function New(v: State, s: Session, i: Id, n: Seq): State {
    v.(drafts := v.drafts[i := Draft(s, n, {}, false, Idle, false)], live := v.live[s := i], issued := n, floor := true,
       disk := SaveFile(v.disk, s, File(n, {})))
  }

  lemma DoNew(v: State, s: Session, i: Id, f: Seq, n: Seq)
    requires Reachable(v) && GateFree(v, s) && s !in v.disk.files && i !in v.drafts && !Pending(v, s)
    requires if v.floor then f == v.issued else IsFloor(v.issued, DraftNumbers(v.disk), Records(v.disk.book), f)
    requires IsClaim(f, v.disk.shelf.lines, v.disk.shelf.names, n)
    ensures Reachable(New(v, s, i, n))
  {
    hide Reachable, IsClaim, Pending, Enabled, Step;
    StepBegin(v, s, Miss);
    var v1 := v.(missed := v.missed + {s});
    Reach(v, Begin(s, Miss), v1);
    SamePending(v, v1, s);
    DoMissed(v1, s, i, f, n);
    assert v1.missed - {s} == v.missed;
  }

  lemma DoMissed(v: State, s: Session, i: Id, f: Seq, n: Seq)
    requires Reachable(v) && s in v.missed && s !in v.claims && s !in v.ready && i !in v.drafts && !Pending(v, s)
    requires if v.floor then f == v.issued else IsFloor(v.issued, DraftNumbers(v.disk), Records(v.disk.book), f)
    requires IsClaim(f, v.disk.shelf.lines, v.disk.shelf.names, n)
    ensures Reachable(New(v, s, i, n).(missed := v.missed - {s}))
  {
    hide Reachable, IsClaim, Pending, Enabled, Step;
    var v1 := v.(issued := f, floor := true);
    if !v.floor {
      StepBegin(v, s, LoadFloor(f, true));
      Reach(v, Begin(s, LoadFloor(f, true)), v1);
    }
    SamePending(v, v1, s);
    DoBegin(v1, s, i, n);
  }

  lemma StepBegin(v: State, s: Session, op: BeginOp)
    ensures Enabled(v, Begin(s, op)) <==> CanBegin(v, s, op)
    ensures CanBegin(v, s, op) ==> Step(v, Begin(s, op)) == AfterBegin(v, s, op)
  {
    hide CanBegin, AfterBegin;
  }

  lemma SamePending(v: State, w: State, s: Session)
    requires w.drafts == v.drafts
    ensures Pending(w, s) == Pending(v, s)
  {
  }

  lemma NoPairs(s: Session)
    ensures Pairs(s, {}) == {}
  {
  }

  /** The file of an unregistered session is read back into a draft. */
  function ReadBack(v: State, s: Session, i: Id): State
    requires s in v.disk.files
  {
    var f := v.disk.files[s];
    v.(drafts := v.drafts[i := Draft(s, f.num, f.enc, false, Idle, false)], live := v.live[s := i], issued := Noted(v.issued, f.num),
       disk := SaveFile(v.disk, s, f), ledger := v.ledger.(accepted := v.ledger.accepted + Pairs(s, f.enc)))
  }

  /** And before it is registered. */
  function Rewritten(v: State, s: Session): State
    requires s in v.disk.files
  {
    var f := v.disk.files[s];
    v.(ready := v.ready[s := f], disk := SaveFile(v.disk, s, f), ledger := Overlap(v.ledger, Pending(v, s)))
  }

  lemma DoRead(v: State, s: Session)
    requires Reachable(v) && GateFree(v, s) && s in v.disk.files && v.disk.files[s].num !in v.disk.shelf.lines
    ensures Reachable(v.(resuming := v.resuming[s := v.disk.files[s]]))
  {
    hide Reachable, Enabled, Step;
    StepBegin(v, s, Read);
    Reach(v, Begin(s, Read), v.(resuming := v.resuming[s := v.disk.files[s]]));
  }

  /** What was read is not written back. */
  lemma DoRetain(v: State, s: Session)
    requires Reachable(v) && s in v.resuming && !Pending(v, s)
    ensures Reachable(v.(ready := v.ready[s := v.resuming[s]], resuming := v.resuming - {s}, ledger := v.ledger.(unsaved := true)))
  {
    hide Reachable, Pending, Enabled, Step;
    StepBegin(v, s, Retain);
    Reach(v, Begin(s, Retain), v.(ready := v.ready[s := v.resuming[s]], resuming := v.resuming - {s}, ledger := v.ledger.(unsaved := true)));
  }

  lemma DoRewrite(v: State, s: Session)
    requires Reachable(v) && GateFree(v, s) && s in v.disk.files && v.disk.files[s].num !in v.disk.shelf.lines
    ensures Reachable(Rewritten(v, s))
  {
    hide Reachable, Pending, Enabled, Step;
    DoRead(v, s);
    var v1 := v.(resuming := v.resuming[s := v.disk.files[s]]);
    StepBegin(v1, s, Rewrite);
    SamePending(v, v1, s);
    assert v1.resuming - {s} == v.resuming;
    Reach(v1, Begin(s, Rewrite), Rewritten(v, s));
  }

  lemma DoReadBack(v: State, s: Session, i: Id)
    requires Reachable(v) && GateFree(v, s) && s in v.disk.files && v.disk.files[s].num !in v.disk.shelf.lines && i !in v.drafts && !Pending(v, s)
    ensures Reachable(ReadBack(v, s, i))
  {
    hide Reachable, CanSeal, Pending, Pairs, Enabled, Step;
    DoRewrite(v, s);
    var v2 := Rewritten(v, s);
    StepBegin(v2, s, Publish(i));
    assert v2.ready - {s} == v.ready;
    Reach(v2, Begin(s, Publish(i)), ReadBack(v, s, i));
  }

  /** A draft encodes one closed, unmarked segment. */
  function WithEncoded(v: State, i: Id, x: Segment): State
    requires i in v.drafts && x in v.disk.book
  {
    var d := v.drafts[i].(enc := v.drafts[i].enc + {x});
    v.(drafts := v.drafts[i := d], disk := Save(v.disk, d).(book := v.disk.book[x := v.disk.book[x].(mark := Reserved(d.num))]),
       past := v.past.(crossed := v.past.crossed || v.disk.book[x].session != d.session),
       ledger := v.ledger.(accepted := v.ledger.accepted + Pairs(d.session, {x})))
  }

  lemma DoEncode(v: State, i: Id, x: Segment)
    requires Reachable(v) && i in v.drafts && !v.drafts[i].sealed && x !in v.drafts[i].enc && x in v.disk.book && v.disk.book[x].closed && v.disk.book[x].mark.Free?
    ensures Reachable(WithEncoded(v, i, x))
  {
    hide Reachable, CanBegin, CanSeal, Pairs, Reserve, Reservable, Crosses, Elements;
    EncodeOne(v.disk.book, x, v.drafts[i].num, v.drafts[i].session);
    Reach(v, Advance(i, [x], [], true), WithEncoded(v, i, x));
  }

  lemma EncodeOne(b: Book, x: Segment, n: Seq, s: Session)
    requires x in b && b[x].closed && b[x].mark.Free?
    ensures var c := b[x := b[x].(mark := Reserved(n))]; Reservable(b, [x], n) && Reserve(b, [x], n) == c && Reserve(c, [], n) == c
    ensures Elements([x]) == {x} && (Crosses(b, s, [x]) <==> b[x].session != s)
  {
    assert [x][0] == x && x in [x];
    assert Reservable(b, [x], n);
    var c := b[x := b[x].(mark := Reserved(n))];
    assert Reserve(b, [x], n) == c;
    assert Reserve(c, [], n) == c;
  }

  /** One step of a Finalize. */
  lemma DoSeal(v: State, i: Id, op: Op)
    requires Reachable(v) && i in v.drafts && CanSeal(v.disk.shelf, v.drafts[i], op)
    ensures Reachable(AfterSeal(v, i, op))
  {
    hide Reachable, CanBegin, CanSeal, SealDraft, SealDisk, SealLedger;
    Reach(v, Seal(i, op), AfterSeal(v, i, op));
  }

  function Put(v: State, i: Id, d: Draft, k: Shelf): State { v.(drafts := v.drafts[i := d], disk := v.disk.(shelf := k)) }

  lemma PutAgain(v: State, i: Id, d: Draft, k: Shelf, c: Draft, j: Shelf)
    ensures Put(Put(v, i, d, k), i, c, j) == Put(v, i, c, j)
  {
    assert v.drafts[i := d][i := c] == v.drafts[i := c];
  }

  /** A step that touches neither marks nor lines. */
  lemma DoPlain(v: State, i: Id, op: Op)
    requires Reachable(v) && i in v.drafts && CanSeal(v.disk.shelf, v.drafts[i], op)
    requires op in {Start, GiveUp, Create, Fill, SyncBytes, SyncName, NotDurable}
    ensures var d, k := v.drafts[i], v.disk.shelf;
            Reachable(Put(v, i, SealDraft(k, d, op), if op.Start? then k else Effect(k, op, d.fin.at, d.fin.snap)))
  {
    hide Reachable, CanSeal, SealDraft, Effect;
    DoSeal(v, i, op);
  }

  /** The shelf once the artifact of number `n` is written and its bytes are durable. */
  function Bytes(k: Shelf, n: Seq, c: set<Segment>): Shelf {
    k.(names := k.names + {n}, bytes := k.bytes + {n}, bytesDur := k.bytesDur + {n}, art := k.art[n := c])
  }

  /** A seal gets its artifact's bytes durable. */
  lemma DoBytes(v: State, i: Id)
    requires Reachable(v) && i in v.drafts && v.drafts[i].fin.Active? && v.drafts[i].fin.stage == Taken && v.drafts[i].fin.at !in v.disk.shelf.names
    ensures var d := v.drafts[i];
            Reachable(Put(v, i, d.(num := d.fin.at, fin := Active(d.fin.at, d.fin.snap, BytesDurable)), Bytes(v.disk.shelf, d.fin.at, d.fin.snap)))
  {
    hide Reachable;
    var d, k := v.drafts[i], v.disk.shelf;
    var n, c := d.fin.at, d.fin.snap;
    DoPlain(v, i, Create);
    var d1, k1 := d.(fin := Active(n, c, Opened)), k.(names := k.names + {n});
    var v1 := Put(v, i, d1, k1);
    DoPlain(v1, i, Fill);
    var d2, k2 := d.(fin := Active(n, c, Filled)), k1.(bytes := k.bytes + {n}, art := k.art[n := c]);
    PutAgain(v, i, d1, k1, d2, k2);
    var v2 := Put(v, i, d2, k2);
    DoPlain(v2, i, SyncBytes);
    PutAgain(v, i, d2, k2, d.(num := n, fin := Active(n, c, BytesDurable)), Bytes(k, n, c));
  }

  /** From durable bytes to the end of the marks, which succeed or fail. */
  function Marked(v: State, i: Id, ok: bool): State
    requires i in v.drafts && !v.drafts[i].fin.Idle?
  {
    var d := v.drafts[i];
    var n, c := d.fin.at, d.fin.snap;
    var b := if ok then Commit(v.disk.book, c, n) else v.disk.book;
    v.(drafts := v.drafts[i := d.(fin := Active(n, c, MarksDurable))],
       disk := v.disk.(book := b, synced := if ok && c != {} then Reopened(b) else v.disk.synced),
       past := v.past.(unmarked := v.past.unmarked || !ok),
       ledger := v.ledger.(drifted := v.ledger.drifted || (ok && Drifts(v.disk.book, d, CommitMarks))))
  }

  lemma DoMarks(v: State, i: Id, ok: bool)
    requires Reachable(v) && i in v.drafts && v.drafts[i].fin.Active? && v.drafts[i].fin.stage == BytesDurable
    ensures Reachable(Marked(v, i, ok))
  {
    hide Reachable, Marked;
    if ok { DoMarked(v, i); } else { DoUnmarked(v, i); }
  }

  lemma DoMarked(v: State, i: Id)
    requires Reachable(v) && i in v.drafts && v.drafts[i].fin.Active? && v.drafts[i].fin.stage == BytesDurable
    ensures Reachable(Marked(v, i, true))
  {
    hide Reachable, Commit, Drifts;
    DoSeal(v, i, CommitMarks);
    var w := AfterSeal(v, i, CommitMarks);
    NoDriftBy(w, i, SyncMarks);
    DoSeal(w, i, SyncMarks);
    assert AfterSeal(w, i, SyncMarks) == Marked(v, i, true);
  }

  lemma DoUnmarked(v: State, i: Id)
    requires Reachable(v) && i in v.drafts && v.drafts[i].fin.Active? && v.drafts[i].fin.stage == BytesDurable
    ensures Reachable(Marked(v, i, false))
  {
    hide Reachable, Drifts, Commit;
    NoDriftBy(v, i, MarksFail({}));
    DoSeal(v, i, MarksFail({}));
    CommitNone(v.disk.book, v.drafts[i].fin.at);
    assert {} * v.drafts[i].fin.snap == {};
    assert AfterSeal(v, i, MarksFail({})) == Marked(v, i, false);
  }

  lemma NoDriftBy(v: State, i: Id, op: Op)
    requires i in v.drafts && !op.CommitMarks?
    ensures !Drifts(v.disk.book, v.drafts[i], op)
  {
  }

  /** And on to the line. */
  function Lined(v: State, i: Id): State
    requires i in v.drafts && !v.drafts[i].fin.Idle?
  {
    var d, k := v.drafts[i], v.disk.shelf;
    var n, c := d.fin.at, d.fin.snap;
    v.(drafts := v.drafts[i := d.(fin := Done(n, c, LineWritten))],
       disk := v.disk.(shelf := k.(namesDur := k.names, unlinked := {}, manifestDur := k.manifest, lines := k.lines + {n}, manifest := true)),
       ledger := v.ledger.(sealedBy := v.ledger.sealedBy[n := Sealer(d.session, i)]))
  }

  lemma DoLine(v: State, i: Id)
    requires Reachable(v) && i in v.drafts && v.drafts[i].fin.Active? && v.drafts[i].fin.stage == MarksDurable
    ensures Reachable(Lined(v, i))
  {
    hide Reachable, Drifts;
    DoPlain(v, i, SyncName);
    var d, k := v.drafts[i], v.disk.shelf;
    var w := v.(drafts := v.drafts[i := d.(fin := Active(d.fin.at, d.fin.snap, NameDurable))],
                disk := v.disk.(shelf := k.(namesDur := k.names, unlinked := {}, manifestDur := k.manifest)));
    NoDriftBy(w, i, WriteLine);
    DoSeal(w, i, WriteLine);
    assert AfterSeal(w, i, WriteLine) == Lined(v, i);
  }

  function WithBump(v: State, more: bool): State { v.(past := v.past.(bumped := v.past.bumped || more)) }

  predicate AllTaken(names: set<Seq>, n: Seq, k: nat) { forall m | n <= m < n + k :: m in names }

  lemma DoBump(v: State, i: Id)
    requires Reachable(v) && i in v.drafts && v.drafts[i].fin.Active? && v.drafts[i].fin.stage == Taken && v.drafts[i].fin.at in v.disk.shelf.names
    ensures var d := v.drafts[i]; Reachable(Put(WithBump(v, true), i, d.(fin := Active(d.fin.at + 1, d.fin.snap, Taken)), v.disk.shelf))
  {
    hide Reachable, Drifts;
    NoDriftBy(v, i, Bump);
    DoSeal(v, i, Bump);
  }

  /** The seal moves past `k` taken numbers. */
  lemma {:induction false} DoBumps(v: State, i: Id, k: nat)
    requires Reachable(v) && i in v.drafts && v.drafts[i].fin.Active? && v.drafts[i].fin.stage == Taken
    requires AllTaken(v.disk.shelf.names, v.drafts[i].fin.at, k)
    ensures var d := v.drafts[i]; Reachable(Put(WithBump(v, k > 0), i, d.(fin := Active(d.fin.at + k, d.fin.snap, Taken)), v.disk.shelf))
  {
    hide Reachable, Put, WithBump;
    var d, s := v.drafts[i], v.disk.shelf;
    if k == 0 {
      PutSame(v, i);
    } else {
      DoBumps(v, i, k - 1);
      var d1, d2 := d.(fin := Active(d.fin.at + (k - 1), d.fin.snap, Taken)), d.(fin := Active(d.fin.at + k, d.fin.snap, Taken));
      var u := WithBump(v, k > 1);
      PutShows(v, i, d1, k > 1);
      DoBump(Put(u, i, d1, s), i);
      BumpAgain(v, i, d1, d2, k > 1);
    }
  }

  lemma PutSame(v: State, i: Id)
    requires i in v.drafts
    ensures Put(WithBump(v, false), i, v.drafts[i], v.disk.shelf) == v
  {
    assert v.drafts[i := v.drafts[i]] == v.drafts;
  }

  lemma PutShows(v: State, i: Id, d: Draft, more: bool)
    ensures var w := Put(WithBump(v, more), i, d, v.disk.shelf); i in w.drafts && w.drafts[i] == d && w.disk.shelf == v.disk.shelf
  {
  }

  lemma BumpAgain(v: State, i: Id, d: Draft, c: Draft, more: bool)
    ensures var s := v.disk.shelf; Put(WithBump(Put(WithBump(v, more), i, d, s), true), i, c, s) == Put(WithBump(v, true), i, c, s)
  {
    assert v.drafts[i := d][i := c] == v.drafts[i := c];
  }

  /** A Finalize may begin, or has just begun. */
  predicate Finishable(d: Draft) { !d.sealed || d.fin == Active(d.num, d.enc, Taken) }

  /** A Finalize of an open draft gets the bytes of its artifact durable, past `k` taken numbers. */
  lemma DoArtifact(v: State, i: Id, k: nat)
    requires Reachable(v) && i in v.drafts && Finishable(v.drafts[i]) && v.drafts[i].num + k !in v.disk.shelf.names
    requires AllTaken(v.disk.shelf.names, v.drafts[i].num, k)
    ensures var d := v.drafts[i];
            Reachable(Put(WithBump(v, k > 0), i, d.(num := d.num + k, sealed := true, fin := Active(d.num + k, d.enc, BytesDurable)),
                          Bytes(v.disk.shelf, d.num + k, d.enc)))
  {
    hide Reachable, Bytes;
    var d, s, n := v.drafts[i], v.disk.shelf, v.drafts[i].num + k;
    var d1 := d.(sealed := true, fin := Active(d.num, d.enc, Taken));
    var d2 := d1.(fin := Active(n, d.enc, Taken));
    var d3 := d1.(num := n, fin := Active(n, d.enc, BytesDurable));
    if !d.sealed { DoPlain(v, i, Start); } else { assert Put(v, i, d, s) == v; }
    var v1 := Put(v, i, d1, s);
    DoBumps(v1, i, k);
    PutAgain(WithBump(v, k > 0), i, d1, s, d2, s);
    DoBytes(Put(WithBump(v, k > 0), i, d2, s), i);
    PutAgain(WithBump(v, k > 0), i, d2, s, d3, Bytes(s, n, d.enc));
  }

  /** And comes to its line. */
  lemma DoSealAll(v: State, i: Id, k: nat, ok: bool) returns (w: State)
    requires Reachable(v) && i in v.drafts && Finishable(v.drafts[i]) && v.drafts[i].num + k !in v.disk.shelf.names
    requires AllTaken(v.disk.shelf.names, v.drafts[i].num, k)
    ensures Reachable(w) && SealedShows(v, w, i, v.drafts[i].num + k, ok)
  {
    hide Reachable, Marked, Lined, Bytes, SealedShows;
    var d, n := v.drafts[i], v.drafts[i].num + k;
    DoArtifact(v, i, k);
    var u := Put(WithBump(v, k > 0), i, d.(num := n, sealed := true, fin := Active(n, d.enc, BytesDurable)), Bytes(v.disk.shelf, n, d.enc));
    DoMarks(u, i, ok);
    MarkedStage(u, i, ok);
    DoLine(Marked(u, i, ok), i);
    w := Lined(Marked(u, i, ok), i);
    SealedIs(v, w, i, n, ok);
  }

  lemma SealedIs(v: State, w: State, i: Id, n: Seq, ok: bool)
    requires i in v.drafts
    requires var d := v.drafts[i];
             w == Lined(Marked(Put(WithBump(v, n > d.num), i, d.(num := n, sealed := true, fin := Active(n, d.enc, BytesDurable)),
                                   Bytes(v.disk.shelf, n, d.enc)), i, ok), i)
    ensures SealedShows(v, w, i, n, ok)
  {
    hide Commit, Drifts;
  }

  /** What a seal at number `n` of what its draft holds shows. */
  predicate SealedShows(v: State, w: State, i: Id, n: Seq, ok: bool)
    requires i in v.drafts
  {
    var d, k := v.drafts[i], w.disk.shelf;
    && k.lines == v.disk.shelf.lines + {n} && k.names == v.disk.shelf.names + {n} && k.art == v.disk.shelf.art[n := d.enc]
    && w.drafts == v.drafts[i := d.(num := n, sealed := true, fin := Done(n, d.enc, LineWritten))]
    && w.live == v.live && w.ready == v.ready && w.missed == v.missed && w.claims == v.claims && w.resuming == v.resuming
    && w.disk.book == (if ok then Commit(v.disk.book, d.enc, n) else v.disk.book) && w.disk.files == v.disk.files && w.disk.stale == v.disk.stale
    && w.past == v.past.(bumped := v.past.bumped || n > d.num, unmarked := v.past.unmarked || !ok)
    && w.ledger == v.ledger.(drifted := w.ledger.drifted, sealedBy := v.ledger.sealedBy[n := Sealer(d.session, i)])
  }

  /** Or fails once its marks are through, and leaves its artifact behind. */
  lemma DoFail(v: State, i: Id, ok: bool) returns (w: State)
    requires Reachable(v) && i in v.drafts && !v.drafts[i].sealed && v.drafts[i].fin.Idle? && v.drafts[i].num !in v.disk.shelf.names
    ensures var d := v.drafts[i];
            Reachable(w) && w.disk.shelf == Bytes(v.disk.shelf, d.num, d.enc) &&
            w.disk.book == (if ok then Commit(v.disk.book, d.enc, d.num) else v.disk.book) && w.disk.files == v.disk.files && w.disk.stale == v.disk.stale &&
            w == v.(disk := w.disk, past := v.past.(unmarked := v.past.unmarked || !ok), ledger := v.ledger.(drifted := w.ledger.drifted)) &&
            (w.ledger.drifted ==> v.ledger.drifted || exists x | x in d.enc :: CommitFault(v.disk.book, x, d.num).Some?)
  {
    hide Reachable, Bytes, Marked;
    var d, k := v.drafts[i], Bytes(v.disk.shelf, v.drafts[i].num, v.drafts[i].enc);
    DoArtifact(v, i, 0);
    var u := Put(v, i, d.(sealed := true, fin := Active(d.num, d.enc, BytesDurable)), k);
    assert WithBump(v, false) == v;
    DoMarks(u, i, ok);
    MarkedStage(u, i, ok);
    DoPlain(Marked(u, i, ok), i, GiveUp);
    w := Put(Marked(u, i, ok), i, d, k);
    FailShows(v, u, w, i, ok);
  }

  lemma FailShows(v: State, u: State, w: State, i: Id, ok: bool)
    requires i in v.drafts && i in u.drafts && !u.drafts[i].fin.Idle? && u.drafts[i].fin.at == v.drafts[i].num && u.drafts[i].fin.snap == v.drafts[i].enc
    requires u == Put(v, i, u.drafts[i], u.disk.shelf) && w == Put(Marked(u, i, ok), i, v.drafts[i], u.disk.shelf)
    ensures var d := v.drafts[i];
            w.disk.shelf == u.disk.shelf && w.disk.book == (if ok then Commit(v.disk.book, d.enc, d.num) else v.disk.book) && w.disk.files == v.disk.files && w.disk.stale == v.disk.stale &&
            w == v.(disk := w.disk, past := v.past.(unmarked := v.past.unmarked || !ok), ledger := v.ledger.(drifted := w.ledger.drifted)) &&
            (w.ledger.drifted ==> v.ledger.drifted || exists x | x in d.enc :: CommitFault(v.disk.book, x, d.num).Some?)
  {
    hide Commit, CommitFault;
    assert w.drafts == v.drafts;
  }

  lemma MarkedStage(v: State, i: Id, ok: bool)
    requires i in v.drafts && !v.drafts[i].fin.Idle?
    ensures i in Marked(v, i, ok).drafts && Marked(v, i, ok).drafts[i] == v.drafts[i].(fin := Active(v.drafts[i].fin.at, v.drafts[i].fin.snap, MarksDurable))
    ensures Marked(v, i, ok).disk.shelf == v.disk.shelf
  {
  }

  lemma DoPersist(v: State, i: Id)
    requires Reachable(v) && i in v.drafts && !v.drafts[i].sealed
    ensures Reachable(v.(disk := Save(v.disk, v.drafts[i])))
  {
    hide Reachable, CanBegin, CanSeal;
    Reach(v, Persist(i), v.(disk := Save(v.disk, v.drafts[i])));
  }

  function Unlinked(v: State, i: Id): State
    requires i in v.drafts
  {
    v.(drafts := v.drafts[i := v.drafts[i].(leaving := false)], disk := DropFile(v.disk, v.drafts[i].session))
  }

  lemma DoUnlink(v: State, i: Id)
    requires Reachable(v) && i in v.drafts && v.drafts[i].leaving
    ensures Reachable(Unlinked(v, i))
  {
    hide Reachable, CanBegin, CanSeal;
    Reach(v, Unlink(i), Unlinked(v, i));
  }

  /** A sealed draft leaves the registry. */
  lemma DoRetire(v: State, i: Id)
    requires Reachable(v) && i in v.drafts && v.drafts[i].fin.Done? && v.drafts[i].fin.stage == Committed
    requires v.drafts[i].session in v.live && v.live[v.drafts[i].session] == i && v.drafts[i].session !in v.ready
    ensures Reachable(v.(live := v.live - {v.drafts[i].session}, drafts := v.drafts[i := v.drafts[i].(leaving := true)]))
  {
    hide Reachable, CanBegin, CanSeal;
    Reach(v, Retire(i), v.(live := v.live - {v.drafts[i].session}, drafts := v.drafts[i := v.drafts[i].(leaving := true)]));
  }

  function Published(v: State, s: Session, i: Id): State
    requires s in v.ready
  {
    var f := v.ready[s];
    v.(ready := v.ready - {s}, drafts := v.drafts[i := Draft(s, f.num, f.enc, false, Idle, false)], live := v.live[s := i],
       issued := Noted(v.issued, f.num), ledger := v.ledger.(accepted := v.ledger.accepted + Pairs(s, f.enc)))
  }

  lemma DoPublish(v: State, s: Session, i: Id)
    requires Reachable(v) && s in v.ready && i !in v.drafts
    ensures Reachable(Published(v, s, i))
  {
    hide Reachable, Enabled, Step, Pairs;
    StepBegin(v, s, Publish(i));
    Reach(v, Begin(s, Publish(i)), Published(v, s, i));
  }

  /** A power cut that takes records of the log and nothing else that is on disk. */
  lemma DoCutLog(v: State, kept: Book) returns (w: State)
    requires Reachable(v) && Extends(v.disk.synced, kept) && TakenFrom(kept, v.disk.book)
    ensures Reachable(w) && w.ledger == v.ledger
    ensures w == Idling(w.disk, v.past.(restarted := true, unlogged := v.past.unlogged || Unlogs(v.disk.book, kept, v.disk.files)), v.ledger)
    ensures w.disk == Disk(v.disk.files, map[], v.disk.stale, kept, kept, w.disk.shelf)
    ensures w.disk.shelf == AfterCut(v.disk.shelf, Loss(v.disk.shelf.names, v.disk.shelf.bytes, v.disk.shelf.lines))
  {
    hide Reachable, CanBegin, CanSeal, Inv, Unlogs, Extends, TakenFrom, AfterCut;
    var k := v.disk.shelf;
    var loss := Loss(k.names, k.bytes, k.lines);
    assert CanLose(k, loss) by { ReachInv(v); NoLoss(v); }
    assert CutFiles(v.disk, {}) == v.disk.files;
    w := Step(v, Cut(loss, kept, {}));
    Reach(v, Cut(loss, kept, {}), w);
  }

  /** One that takes nothing but what the process held. */
  lemma DoCut(v: State) returns (w: State)
    requires Reachable(v)
    ensures Reachable(w) && w.drafts == map[] && w.past == v.past.(restarted := true) && w.ledger == v.ledger
    ensures w.disk.files == v.disk.files && w.disk.removed == map[] && w.disk.stale == v.disk.stale
    ensures forall n | n in w.disk.shelf.art :: n in v.disk.shelf.art && w.disk.shelf.art[n] == v.disk.shelf.art[n]
  {
    hide Reachable, Inv;
    ReachInv(v);
    ReopenedIsKept(v);
    w := DoCutLog(v, Reopened(v.disk.book));
  }

  lemma ReopenedIsKept(v: State)
    requires Inv(v)
    ensures var c := Reopened(v.disk.book); Extends(v.disk.synced, c) && TakenFrom(c, v.disk.book) && !Unlogs(v.disk.book, c, v.disk.files)
  {
    hide FilesInv, LiveOk, Frozen, NumInv, AtOwnNumber, FileNumbers, Tight, LinesDone, Loose, MarkedOk;
  }

  lemma NoLoss(v: State)
    requires Inv(v)
    ensures var k := v.disk.shelf; CanLose(k, Loss(k.names, k.bytes, k.lines))
  {
    hide NumbersInv, FilesInv, LiveOk, SoloOk, DraftFrozen;
  }

  lemma DoRestart(v: State) returns (w: State)
    requires Reachable(v)
    ensures Reachable(w) && w == Idling(v.disk.(book := Reopened(v.disk.book)), v.past.(restarted := true), v.ledger)
  {
    hide Reachable, CanBegin, CanSeal, Reopened;
    w := Step(v, Restart);
    Reach(v, Restart, w);
  }

  // ------------------------------------------------------------------------------------------
  // A session beside the others
  // ------------------------------------------------------------------------------------------

  lemma {:induction false} MaxOf(xs: set<nat>) returns (m: nat)
    ensures (m == 0 || m in xs) && forall x | x in xs :: x <= m
    decreases |xs|
  {
    if xs == {} { return 0; }
    var x: nat :| x in xs;
    m := MaxOf(xs - {x});
    assert forall y | y in xs :: y == x || y in xs - {x};
    if x > m { m := x; }
  }

  lemma FreshFrom(xs: set<nat>) returns (x: nat)
    ensures x !in xs && 0 < x && forall y | y in xs :: y < x
  {
    var m := MaxOf(xs);
    x := m + 1;
  }

  lemma FloorExists(issued: Seq, drafts: set<Seq>, records: set<Seq>) returns (f: Seq)
    ensures IsFloor(issued, drafts, records, f)
  {
    f := MaxOf(drafts + records + {issued});
  }

  lemma ClaimExists(issued: Seq, lines: set<Seq>, names: set<Seq>) returns (n: Seq)
    ensures IsClaim(issued, lines, names, n)
  {
    var m := MaxOf(lines + {issued});
    var base := m + 1;
    assert IsBase(issued, lines, base);
    n := base;
    while n < base + MAX_SEQ_COLLISION_RETRIES && n in names
      invariant base <= n <= base + MAX_SEQ_COLLISION_RETRIES && forall k | base <= k < n :: k in names
    {
      n := n + 1;
    }
  }

  /** Nothing in the process, on disk or on record is of session `s`. */
  ghost predicate Unknown(v: State, s: Session) {
    && GateFree(v, s) && s !in v.disk.files && (forall i | i in v.drafts :: v.drafts[i].session != s)
    && forall p | p in v.ledger.accepted :: p.0 != s
  }

  lemma UnknownExists(v: State) returns (s: Session)
    ensures Unknown(v, s)
  {
    s := FreshFrom(v.live.Keys + v.missed + v.claims.Keys + v.resuming.Keys + v.ready.Keys + v.disk.files.Keys +
                   (set i | i in v.drafts :: v.drafts[i].session) + (set p | p in v.ledger.accepted :: p.0));
  }

  /** An unknown session has begun a draft, and nothing else has changed. */
  ghost predicate Joined(v: State, w: State, s: Session, i: Id, n: Seq) {
    && Unknown(v, s) && i !in v.drafts && n !in v.disk.shelf.lines
    && w == New(v, s, i, n)
  }

  lemma DoJoin(v: State) returns (w: State, s: Session, i: Id, n: Seq)
    requires Reachable(v)
    ensures Reachable(w) && Joined(v, w, s, i, n)
  {
    hide Reachable, IsClaim, Pending, IsFloor;
    s := UnknownExists(v);
    i := FreshFrom(v.drafts.Keys);
    var f := v.issued;
    if !v.floor { f := FloorExists(v.issued, DraftNumbers(v.disk), Records(v.disk.book)); }
    n := ClaimExists(f, v.disk.shelf.lines, v.disk.shelf.names);
    ClaimIsAbove(v.(issued := f), n);
    NotPending(v, s);
    DoNew(v, s, i, f, n);
    w := New(v, s, i, n);
  }

  lemma NotPending(v: State, s: Session)
    requires Unknown(v, s)
    ensures !Pending(v, s)
  {
  }

  predicate SameFile(v: State, w: State, s: Session) {
    if s in v.disk.files then s in w.disk.files && w.disk.files[s] == v.disk.files[s] else s !in w.disk.files
  }

  /** What happened between touched no draft, file, mark or artifact that was there. */
  ghost predicate Aside(v: State, w: State) {
    && w.disk.shelf == v.disk.shelf && w.disk.removed == map[] && w.disk.stale == v.disk.stale && w.ledger.accepted == v.ledger.accepted
    && (forall x | x in v.disk.book :: x in w.disk.book && w.disk.book[x] == v.disk.book[x])
    && (forall x | x in w.disk.book && x !in v.disk.book :: w.disk.book[x].mark.Free?)
    && (forall i | i in v.drafts :: i in w.drafts && w.drafts[i] == v.drafts[i])
    && (forall i | i in w.drafts && i !in v.drafts :: w.drafts[i].enc == {})
    && (forall s | s in v.live :: s in w.live && w.live[s] == v.live[s] && SameFile(v, w, s))
    && (forall s, x | OnFile(w.disk, s, x) :: OnFile(v.disk, s, x))
  }

  /** Whatever became of the one draft of an unknown session, if it holds nothing. */
  lemma JoinedAside(v: State, s: Session, i: Id, n: Seq, w: State)
    requires Unknown(v, s) && i !in v.drafts && i in w.drafts && w.drafts == v.drafts[i := w.drafts[i]] && w.drafts[i].enc == {}
    requires (w.live == v.live || w.live == v.live[s := i]) && w.disk.shelf == v.disk.shelf && w.disk.removed == map[] && w.disk.stale == v.disk.stale
    requires w.disk.files == v.disk.files[s := File(n, {})] && w.ledger.accepted == v.ledger.accepted
    requires forall x | x in v.disk.book :: x in w.disk.book && w.disk.book[x] == v.disk.book[x]
    requires forall x | x in w.disk.book && x !in v.disk.book :: w.disk.book[x].mark.Free?
    ensures Aside(v, w)
  {
  }

  /** A draft may be aborted during its Finalize. */
  lemma RacedBeside(v: State) returns (w: State)
    requires Reachable(v)
    ensures Reachable(w) && Aside(v, w) && w.past == v.past.(raced := true) && w.ledger == v.ledger
  {
    hide Reachable, Unknown, Aside;
    var v1, s, i, n := DoJoin(v);
    DoPlain(v1, i, Start);
    var c := Draft(s, n, {}, true, Active(n, {}, Taken), false);
    var v2 := Put(v1, i, c, v.disk.shelf);
    assert v2.drafts == v.drafts[i := c];
    UnknownLeaves(v, s, i);
    DoAbort(v2, i);
    w := Aborted(v2, i);
    JoinedAside(v, s, i, n, w);
  }

  lemma UnknownLeaves(v: State, s: Session, i: Id)
    requires Unknown(v, s)
    ensures s !in v.ready && s !in v.live && v.live[s := i] - {s} == v.live
  {
  }

  /** A registered draft that holds nothing is aborted. */
  function Aborted(v: State, i: Id): State
    requires i in v.drafts
  {
    var d := v.drafts[i];
    v.(drafts := v.drafts[i := d.(sealed := true, leaving := true)], live := v.live - {d.session}, past := v.past.(raced := v.past.raced || d.fin.Active?),
       ledger := v.ledger.(accepted := if Open(d) then v.ledger.accepted - Pairs(d.session, d.enc) else v.ledger.accepted))
  }

  lemma DoAbort(v: State, i: Id)
    requires Reachable(v) && i in v.drafts && v.drafts[i].session in v.live && v.live[v.drafts[i].session] == i && v.drafts[i].session !in v.ready
    ensures Reachable(Aborted(v, i)) && (v.drafts[i].enc == {} ==> Aborted(v, i).ledger == v.ledger)
  {
    hide Reachable, CanBegin, CanSeal, Pairs;
    var d := v.drafts[i];
    NoPairs(d.session);
    assert v.drafts[i := d.(leaving := true)][i := d.(sealed := true, leaving := true)] == v.drafts[i := d.(sealed := true, leaving := true)];
    Reach(v, Abort(i), Aborted(v, i));
    assert v.ledger.accepted - {} == v.ledger.accepted;
  }

  /** A segment may be offered to another session's draft. */
  lemma CrossedBeside(v: State) returns (w: State)
    requires Reachable(v)
    ensures Reachable(w) && Aside(v, w) && w.past == v.past.(crossed := true) && w.ledger == v.ledger
  {
    hide Reachable, Unknown, Aside, Enabled, Step;
    var v1, s, i, n := DoJoin(v);
    var x := FreshFrom(v.disk.book.Keys);
    DoOffer(v1, i, x, s + 1);
    w := v1.(disk := v1.disk.(book := v.disk.book[x := Entry(s + 1, false, Free)]), past := v.past.(crossed := true));
    JoinedAside(v, s, i, n, w);
  }

  /** An open segment is offered and refused. */
  lemma DoOffer(v: State, i: Id, x: Segment, s: Session)
    requires Reachable(v) && i in v.drafts && v.drafts[i].enc == {} && !v.drafts[i].sealed && 0 < x && (forall y | y in v.disk.book :: y < x) && s != v.drafts[i].session
    requires v.disk == Save(v.disk, v.drafts[i])
    ensures Reachable(v.(disk := v.disk.(book := v.disk.book[x := Entry(s, false, Free)]), past := v.past.(crossed := true)))
  {
    hide Reachable, CanBegin, CanSeal, Pairs, Reservable, Reserve, Crosses;
    var b := v.disk.book[x := Entry(s, false, Free)];
    var v1 := v.(disk := v.disk.(book := b));
    Reach(v, OpenSegment(x, s), v1);
    OfferRefused(b, x, v.drafts[i]);
    NoPairs(v.drafts[i].session);
    assert v.drafts[i := v.drafts[i]] == v.drafts;
    Reach(v1, Advance(i, [x], [], true), v1.(past := v.past.(crossed := true)));
  }

  lemma OfferRefused(b: Book, x: Segment, d: Draft)
    requires x in b && !b[x].closed && b[x].session != d.session
    ensures !Reservable(b, [x], d.num) && Reserve(b, [x], d.num) == b && Crosses(b, d.session, [x])
  {
    assert x in [x] && [x][0] == x;
  }

  /** A draft's file may be written while a removal of it is under way. */
  lemma OverlapBeside(v: State) returns (w: State)
    requires Reachable(v)
    ensures Reachable(w) && Aside(v, w) && w.past == v.past && w.ledger == v.ledger.(overlapped := true)
  {
    hide Reachable, Unknown, Aside, Pending, GateFree, Pairs, Open;
    var v1, s, i, n := DoJoin(v);
    UnknownLeaves(v, s, i);
    DoAbort(v1, i);
    var c := Draft(s, n, {}, true, Idle, true);
    var v2 := v1.(drafts := v.drafts[i := c], live := v.live);
    assert Aborted(v1, i).drafts == v2.drafts;
    assert Aborted(v1, i) == v2;
    IsPending(v2, s, i);
    LeftGate(v, v2, s);
    DoRewrite(v2, s);
    w := Rewritten(v2, s);
    JoinedAside(v, s, i, n, w);
  }

  lemma IsPending(v: State, s: Session, i: Id)
    requires i in v.drafts && v.drafts[i].leaving && v.drafts[i].session == s
    ensures Pending(v, s)
  {
  }

  lemma LeftGate(v: State, w: State, s: Session)
    requires Unknown(v, s) && w.live == v.live && w.missed == v.missed && w.claims == v.claims && w.resuming == v.resuming && w.ready == v.ready
    ensures GateFree(w, s)
  {
  }

  /** A cut may take the log's records of a segment a draft file holds, and nothing else. */
  lemma UnloggedBeside(v: State) returns (w: State)
    requires Reachable(v)
    ensures Reachable(w) && w.past == v.past.(restarted := true, unlogged := true) && w.disk.book == Reopened(v.disk.book)
    ensures w.disk.shelf == AfterCut(v.disk.shelf, Loss(v.disk.shelf.names, v.disk.shelf.bytes, v.disk.shelf.lines))
  {
    hide Reachable, Unknown, Inv, Reopened, Extends, TakenFrom, Unlogs, Pairs, AfterCut;
    var v1, s, i, n := DoJoin(v);
    var x := FreshFrom(v.disk.book.Keys);
    DoSegment(v1, x, s);
    var v2 := WithSegment(v1, x, s);
    DoEncode(v2, i, x);
    var v3 := WithEncoded(v2, i, x);
    ReachInv(v);
    ReopenedIsKept(v);
    TakenBefore(v, v3, s, x);
    w := DoCutLog(v3, Reopened(v.disk.book));
  }

  lemma TakenBefore(v: State, w: State, s: Session, x: Segment)
    requires x !in v.disk.book && x in w.disk.book && (forall y | y in v.disk.book :: y in w.disk.book && w.disk.book[y] == v.disk.book[y])
    requires s in w.disk.files && x in w.disk.files[s].enc
    ensures TakenFrom(Reopened(v.disk.book), w.disk.book) && Unlogs(w.disk.book, Reopened(v.disk.book), w.disk.files)
  {
  }

  /** The write of a draft's file may fail. */
  lemma UnsavedBeside(v: State) returns (w: State)
    requires Reachable(v)
    ensures Reachable(w) && Aside(v, w) && w.past == v.past && w.ledger == v.ledger.(unsaved := true)
  {
    hide Reachable, Unknown, Aside;
    var v1, s, i, n := DoJoin(v);
    DoUnsaved(v1, i);
    w := v1.(ledger := v.ledger.(unsaved := true));
    JoinedAside(v, s, i, n, w);
  }

  lemma DoUnsaved(v: State, i: Id)
    requires Reachable(v) && i in v.drafts && !v.drafts[i].sealed
    ensures Reachable(v.(ledger := v.ledger.(unsaved := true)))
  {
    hide Reachable, CanBegin, CanSeal, Reserve, Reservable, Pairs;
    NothingOffered(v.disk.book, v.drafts[i]);
    assert v.drafts[i := v.drafts[i]] == v.drafts;
    Reach(v, Advance(i, [], [], false), v.(ledger := v.ledger.(unsaved := true)));
  }

  lemma NothingOffered(b: Book, d: Draft)
    ensures Reservable(b, [], d.num) && Reserve(b, [], d.num) == b && !Crosses(b, d.session, []) && d.enc + Elements([]) == d.enc
  {
  }

  /** A draft encodes a segment and its file cannot be written. */
  function Unsaved(v: State, i: Id, x: Segment): State
    requires i in v.drafts && x in v.disk.book
  {
    var d := v.drafts[i].(enc := v.drafts[i].enc + {x});
    v.(drafts := v.drafts[i := d], disk := v.disk.(book := v.disk.book[x := v.disk.book[x].(mark := Reserved(d.num))]),
       past := v.past.(crossed := v.past.crossed || v.disk.book[x].session != d.session), ledger := v.ledger.(unsaved := true))
  }

  lemma DoUnsavedEncode(v: State, i: Id, x: Segment)
    requires Reachable(v) && i in v.drafts && !v.drafts[i].sealed && x !in v.drafts[i].enc && x in v.disk.book && v.disk.book[x].closed && v.disk.book[x].mark.Free?
    ensures Reachable(Unsaved(v, i, x))
  {
    hide Reachable, CanBegin, CanSeal, Pairs, Reserve, Reservable, Crosses, Elements;
    EncodeOne(v.disk.book, x, v.drafts[i].num, v.drafts[i].session);
    Reach(v, Advance(i, [x], [], false), Unsaved(v, i, x));
  }
}
