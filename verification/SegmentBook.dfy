/** The segment log's two-phase encode marks: a reservation held in memory while a draft is open, and
    the record written when the draft is sealed. */
module SegmentBook {
  import opened Basics

  type Session = nat
  type Seq = nat
  type Segment = nat

  datatype Mark = Free | Reserved(num: Seq) | Recorded(num: Seq)

  datatype Entry = Entry(session: Session, closed: bool, mark: Mark)

  type Book = map<Segment, Entry>

  datatype Fault = NotFound(id: Segment) | StillOpen(id: Segment) | AlreadyEncoded(id: Segment)

  /** A reservation respects every mark of another number. */
  function ReserveFault(b: Book, id: Segment, n: Seq): Option<Fault> {
    if id !in b then Some(NotFound(id))
    else if !b[id].closed then Some(StillOpen(id))
    else if !b[id].mark.Free? && b[id].mark.num != n then Some(AlreadyEncoded(id))
    else None
  }

  /** A record respects only another number's record: a reservation follows the artifact. */
  function CommitFault(b: Book, id: Segment, n: Seq): Option<Fault> {
    if id !in b then Some(NotFound(id))
    else if !b[id].closed then Some(StillOpen(id))
    else if b[id].mark.Recorded? && b[id].mark.num != n then Some(AlreadyEncoded(id))
    else None
  }

  predicate Reservable(b: Book, ids: seq<Segment>, n: Seq) { forall id | id in ids :: ReserveFault(b, id, n).None? }

  predicate Committable(b: Book, ids: seq<Segment>, n: Seq) { forall id | id in ids :: CommitFault(b, id, n).None? }

  function Elements(ids: seq<Segment>): set<Segment> { set x | x in ids }

  /** All of the batch, or nothing. */
  function Reserve(b: Book, ids: seq<Segment>, n: Seq): Book {
    if Reservable(b, ids, n) then
      map x | x in b :: if x in ids && b[x].mark.Free? then b[x].(mark := Reserved(n)) else b[x]
    else b
  }

  /** Every id that can be recorded is, whatever its batch-mates. */
  function Commit(b: Book, ids: set<Segment>, n: Seq): Book {
    map x | x in b :: if x in ids && CommitFault(b, x, n).None? then b[x].(mark := Recorded(n)) else b[x]
  }

  lemma RefusedReserve(b: Book, ids: seq<Segment>, n: Seq)
    requires !Reservable(b, ids, n)
    ensures Reserve(b, ids, n) == b
  {
  }

  // ------------------------------------------------------------------------------------------
  // The log in memory
  // ------------------------------------------------------------------------------------------

  datatype Row = Row(session: Session, closed: bool, encodedOnce: bool, checkpointSeq: Seq)

  function MarkOf(r: Row, held: bool): Mark {
    if !r.encodedOnce then Free else if held then Reserved(r.checkpointSeq) else Recorded(r.checkpointSeq)
  }

  function BookOf(rows: map<Segment, Row>, reserved: set<Segment>): Book {
    map x | x in rows :: Entry(rows[x].session, rows[x].closed, MarkOf(rows[x], x in reserved))
  }

  /** The rows with `ids` encoded into `n`. */
  function Encoded(rows: map<Segment, Row>, ids: seq<Segment>, n: Seq): map<Segment, Row> {
    map x | x in rows :: if x in ids then rows[x].(encodedOnce := true, checkpointSeq := n) else rows[x]
  }

  lemma EncodedNone(rows: map<Segment, Row>, n: Seq)
    ensures Encoded(rows, [], n) == rows
  {
  }

  lemma EncodedStep(rows: map<Segment, Row>, ids: seq<Segment>, i: nat, n: Seq)
    requires i < |ids| && ids[i] in rows
    ensures var r := Encoded(rows, ids[..i], n);
            ids[i] in r && Encoded(rows, ids[..i + 1], n) == r[ids[i] := r[ids[i]].(encodedOnce := true, checkpointSeq := n)]
  {
    assert ids[..i + 1] == ids[..i] + [ids[i]];
  }

  /** A reserved segment shows as encoded, and the floor bounds every recorded one. */
  ghost predicate LogOk(rows: map<Segment, Row>, reserved: set<Segment>, floor: Seq) {
    && (forall x | x in reserved :: x in rows && rows[x].encodedOnce)
    && (forall x | x in rows && rows[x].encodedOnce && x !in reserved :: rows[x].checkpointSeq <= floor)
  }

  lemma ReserveRows(rows: map<Segment, Row>, reserved: set<Segment>, floor: Seq, ids: seq<Segment>, todo: seq<Segment>, n: Seq)
    requires LogOk(rows, reserved, floor) && Reservable(BookOf(rows, reserved), ids, n)
    requires forall x :: x in todo <==> x in ids && x in rows && !rows[x].encodedOnce
    ensures LogOk(Encoded(rows, todo, n), reserved + Elements(todo), floor)
    ensures BookOf(Encoded(rows, todo, n), reserved + Elements(todo)) == Reserve(BookOf(rows, reserved), ids, n)
  {
  }

  lemma RecordRows(rows: map<Segment, Row>, reserved: set<Segment>, floor: Seq, ids: seq<Segment>, n: Seq, high: Seq)
    requires LogOk(rows, reserved, floor) && floor <= high && (ids != [] ==> n <= high)
    ensures LogOk(Encoded(rows, ids, n), reserved - Elements(ids), high)
  {
  }

  class SegLog {
    var byId: map<Segment, Row>
    var reserved: set<Segment>
    var durableFloor: Seq

    ghost predicate Valid()
      reads this
    {
      LogOk(byId, reserved, durableFloor)
    }

    ghost function Contents(): Book
      reads this
    {
      BookOf(byId, reserved)
    }

    /** The first fault of a batch, or the segments it would newly reserve. */
    method VetReserve(ids: seq<Segment>, n: Seq) returns (fault: Option<Fault>, todo: seq<Segment>)
      ensures fault.None? <==> Reservable(Contents(), ids, n)
      ensures fault.Some? ==> exists k :: 0 <= k < |ids| && ReserveFault(Contents(), ids[k], n) == fault &&
                                          Reservable(Contents(), ids[..k], n)
      ensures fault.None? ==> forall x :: x in todo <==> x in ids && x in byId && !byId[x].encodedOnce
    {
      todo := [];
      for i := 0 to |ids|
        invariant Reservable(Contents(), ids[..i], n)
        invariant forall x :: x in todo <==> x in ids[..i] && x in byId && !byId[x].encodedOnce
      {
        var id := ids[i];
        assert ids[..i + 1] == ids[..i] + [id] && id in ids;
        if id !in byId { return Some(NotFound(id)), []; }
        if !byId[id].closed { return Some(StillOpen(id)), []; }
        if byId[id].encodedOnce {
          if byId[id].checkpointSeq != n { return Some(AlreadyEncoded(id)), []; }
        } else {
          todo := todo + [id];
        }
      }
      assert ids[..|ids|] == ids;
      return None, todo;
    }

    method ReserveEncoded(ids: seq<Segment>, n: Seq) returns (fault: Option<Fault>)
      requires Valid()
      modifies this
      ensures Valid() && durableFloor == old(durableFloor)
      ensures Contents() == Reserve(old(Contents()), ids, n)
      ensures fault.None? <==> Reservable(old(Contents()), ids, n)
      ensures fault.Some? ==> exists k :: 0 <= k < |ids| && ReserveFault(old(Contents()), ids[k], n) == fault &&
                                          Reservable(old(Contents()), ids[..k], n)
    {
      hide Reservable, BookOf, Encoded, LogOk, Reserve;
      var todo;
      fault, todo := VetReserve(ids, n);
      if fault.Some? {
        RefusedReserve(Contents(), ids, n);
        return;
      }
      ReserveRows(byId, reserved, durableFloor, ids, todo, n);
      EncodedNone(byId, n);
      for i := 0 to |todo|
        invariant durableFloor == old(durableFloor) && byId == Encoded(old(byId), todo[..i], n)
        invariant reserved == old(reserved) + Elements(todo[..i])
      {
        EncodedStep(old(byId), todo, i, n);
        assert todo[..i + 1] == todo[..i] + [todo[i]];
        byId := byId[todo[i] := byId[todo[i]].(encodedOnce := true, checkpointSeq := n)];
        reserved := reserved + {todo[i]};
      }
      assert todo[..|todo|] == todo;
    }

    /** Writes the records of a batch that was found acceptable. */
    method AppendEncodes(ids: seq<Segment>, n: Seq)
      requires Valid() && forall x | x in ids :: x in byId
      modifies this
      ensures Valid() && durableFloor >= old(durableFloor)
      ensures byId == Encoded(old(byId), ids, n) && reserved == old(reserved) - Elements(ids)
    {
      hide LogOk, Encoded;
      EncodedNone(byId, n);
      for i := 0 to |ids|
        invariant durableFloor == if i == 0 || n < old(durableFloor) then old(durableFloor) else n
        invariant byId == Encoded(old(byId), ids[..i], n)
        invariant reserved == old(reserved) - Elements(ids[..i])
      {
        EncodedStep(old(byId), ids, i, n);
        assert ids[..i + 1] == ids[..i] + [ids[i]];
        byId := byId[ids[i] := byId[ids[i]].(encodedOnce := true, checkpointSeq := n)];
        reserved := reserved - {ids[i]};
        if n > durableFloor { durableFloor := n; }
      }
      assert ids[..|ids|] == ids;
      RecordRows(old(byId), old(reserved), old(durableFloor), ids, n, durableFloor);
    }

    /** The first fault of a batch, or the segments whose records are still to be written. */
    method VetCommit(ids: seq<Segment>, n: Seq) returns (fault: Option<Fault>, todo: seq<Segment>)
      ensures fault.None? <==> Committable(Contents(), ids, n)
      ensures fault.Some? ==> exists k :: 0 <= k < |ids| && CommitFault(Contents(), ids[k], n) == fault
      ensures fault.None? ==> forall x :: x in todo <==> x in ids && x in byId && (!byId[x].encodedOnce || x in reserved)
    {
      todo := [];
      for i := 0 to |ids|
        invariant Committable(Contents(), ids[..i], n)
        invariant forall x :: x in todo <==> x in ids[..i] && x in byId && (!byId[x].encodedOnce || x in reserved)
      {
        var id := ids[i];
        assert ids[..i + 1] == ids[..i] + [id] && id in ids;
        if id !in byId { return Some(NotFound(id)), []; }
        if !byId[id].closed { return Some(StillOpen(id)), []; }
        if byId[id].encodedOnce && id !in reserved {
          if byId[id].checkpointSeq != n { return Some(AlreadyEncoded(id)), []; }
        } else {
          todo := todo + [id];
        }
      }
      assert ids[..|ids|] == ids;
      return None, todo;
    }

    method CommitEncoded(ids: seq<Segment>, n: Seq) returns (fault: Option<Fault>)
      requires Valid()
      modifies this
      ensures Valid() && durableFloor >= old(durableFloor)
      ensures fault.None? <==> Committable(old(Contents()), ids, n)
      ensures fault.Some? ==> exists k :: 0 <= k < |ids| && CommitFault(old(Contents()), ids[k], n) == fault
      ensures Contents() == if fault.None? then Commit(old(Contents()), Elements(ids), n) else old(Contents())
    {
      var todo;
      fault, todo := VetCommit(ids, n);
      if fault.None? { AppendEncodes(todo, n); }
    }

    /** The seal's marks: one batch, and id by id when the batch is refused.  Either way every id that
        can be recorded is, and an id another number already has on record is counted as drift. */
    method CommitSegmentMarks(ids: seq<Segment>, n: Seq) returns (drift: nat)
      requires Valid()
      modifies this
      ensures Valid() && durableFloor >= old(durableFloor)
      ensures Contents() == Commit(old(Contents()), Elements(ids), n)
      ensures drift == Drifted(old(Contents()), ids, n)
    {
      hide Valid, Commit, BookOf, CommitFault;
      ghost var b := Contents();
      drift := 0;
      var whole := CommitEncoded(ids, n);
      if whole.None? {
        NoDrift(b, ids, n);
        return;
      }
      CommitNone(b, n);
      assert Elements(ids[..0]) == {};
      for i := 0 to |ids|
        invariant Valid() && durableFloor >= old(durableFloor)
        invariant Contents() == Commit(b, Elements(ids[..i]), n)
        invariant drift == Drifted(b, ids[..i], n)
      {
        assert ids[..i + 1] == ids[..i] + [ids[i]];
        CommitStep(b, Elements(ids[..i]), ids[i], n);
        assert Elements(ids[..i + 1]) == Elements(ids[..i]) + {ids[i]} && Elements([ids[i]]) == {ids[i]};
        ghost var c := Contents();
        var fault := CommitEncoded([ids[i]], n);
        assert ids[i] in [ids[i]];
        assert fault == CommitFault(c, ids[i], n);
        if fault == Some(AlreadyEncoded(ids[i])) { drift := drift + 1; }
      }
      assert ids[..|ids|] == ids;
    }
  }

  function Drifted(b: Book, ids: seq<Segment>, n: Seq): nat {
    if ids == [] then 0
    else Drifted(b, ids[..|ids| - 1], n) + if CommitFault(b, ids[|ids| - 1], n) == Some(AlreadyEncoded(ids[|ids| - 1])) then 1 else 0
  }

  lemma NoDrift(b: Book, ids: seq<Segment>, n: Seq)
    requires Committable(b, ids, n)
    ensures Drifted(b, ids, n) == 0
  {
    if ids != [] {
      assert ids[|ids| - 1] in ids;
      NoDrift(b, ids[..|ids| - 1], n);
    }
  }

  /** The positions of `ids` whose segment is closed and on record under another number. */
  function Elsewhere(b: Book, ids: seq<Segment>, n: Seq): set<int> {
    set k: int | 0 <= k < |ids| && ids[k] in b && b[ids[k]].closed && b[ids[k]].mark.Recorded? && b[ids[k]].mark.num != n
  }

  /** Each of them drifts, a repeated id each time; nothing else does. */
  lemma {:induction false} DriftIsElsewhere(b: Book, ids: seq<Segment>, n: Seq)
    ensures Drifted(b, ids, n) == |Elsewhere(b, ids, n)|
  {
    if ids != [] {
      var last := |ids| - 1;
      var rest := Elsewhere(b, ids[..last], n);
      DriftIsElsewhere(b, ids[..last], n);
      if CommitFault(b, ids[last], n) == Some(AlreadyEncoded(ids[last])) {
        assert Elsewhere(b, ids, n) == rest + {last};
      } else {
        assert Elsewhere(b, ids, n) == rest;
      }
    }
  }

  lemma CommitNone(b: Book, n: Seq)
    ensures Commit(b, {}, n) == b
  {
  }

  /** Recording one more id after the others, or refusing it, is recording them together. */
  lemma CommitStep(b: Book, ids: set<Segment>, id: Segment, n: Seq)
    ensures var c := Commit(b, ids, n);
            && CommitFault(c, id, n) == CommitFault(b, id, n)
            && Commit(b, ids + {id}, n) == if Committable(c, [id], n) then Commit(c, {id}, n) else c
  {
    var c := Commit(b, ids, n);
    assert id in [id];
    assert Committable(c, [id], n) <==> CommitFault(c, id, n).None?;
    assert forall x | x in b :: Commit(b, ids + {id}, n)[x] == (if CommitFault(c, id, n).None? then Commit(c, {id}, n) else c)[x];
  }
}
