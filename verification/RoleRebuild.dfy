/**
 * The rebuild of the role-holder index as a protocol: it lists the pointers, confirms each of them, and writes the
 * row of every pointer whose assignment exists, while grants and revokes go on.
 */
module RoleRebuild {
  import opened Prelude
  import opened RoleRecords
  import opened RoleStore
  import opened RoleStoreSafety

  datatype RebuildPc =
    | RebuildStart
    | RebuildListing(must: set<Text>, rows: map<Text, IndexRow>)
    | RebuildConfirming(rows: map<Text, IndexRow>, confirmed: set<Text>)
    | RebuildReading(todo: map<Text, IndexRow>, recorded: nat)
    | RebuildWriting(todo: map<Text, IndexRow>, row: IndexRow, recorded: nat)
    | RebuildDone(recorded: nat)
    | RebuildFailed

  /** The ids one application has pointers for. */
  function PointerIds(s: Store, applicationId: Text): set<Text> {
    set k | k in s.pointers && k.applicationId == applicationId :: k.id
  }

  /** One step of `rebuildRoleHolderIndex`; `pick` is the pointer the step works on, `None` ends the current phase. */
  function RebuildStep(s: Store, applicationId: Text, pc: RebuildPc, pick: Option<Text>): (Store, RebuildPc) {
    match pc
    case RebuildStart => (s, RebuildListing(PointerIds(s, applicationId), map[]))
    case RebuildListing(must, rows) =>
      (match pick
       case None => (s, if must <= rows.Keys then RebuildConfirming(rows, {}) else pc)
       case Some(id) =>
         var k := PointerKey(applicationId, id);
         (s, if k in s.pointers then RebuildListing(must, rows[id := s.pointers[k]]) else pc))
    case RebuildConfirming(rows, confirmed) =>
      (match pick
       case None => (s, if confirmed == rows.Keys then RebuildReading(rows, 0) else pc)
       case Some(id) =>
         (s, if id !in rows then pc
             else if KeyOfPointer(rows[id]) != PointerKey(applicationId, id) then RebuildFailed
             else if s.PointerAt(PointerKey(applicationId, id)) != Some(rows[id]) then RebuildFailed
             else RebuildConfirming(rows, confirmed + {id})))
    case RebuildReading(todo, recorded) =>
      (match pick
       case None => (s, if todo == map[] then RebuildDone(recorded) else pc)
       case Some(id) => (s, if id in todo then ReadPointed(s, applicationId, todo, id, recorded) else pc))
    case RebuildWriting(todo, row, recorded) =>
      var (s', found, inserted) := s.InsertHolder(row);
      (s', if found != row then RebuildFailed else RebuildReading(todo, if inserted then recorded + 1 else recorded))
    case RebuildDone(_) => (s, pc)
    case RebuildFailed => (s, pc)
  }

  /** A pointer without an assignment behind it is passed over. */
  function ReadPointed(s: Store, applicationId: Text, todo: map<Text, IndexRow>, id: Text, recorded: nat): RebuildPc
    requires id in todo
  {
    var row := todo[id];
    if row.location.applicationId != applicationId then RebuildFailed
    else
      match s.AssignmentAt(AssignmentKey(row.location, row.assignmentId))
      case None => RebuildReading(todo - {id}, recorded)
      case Some(stored) =>
        if IsAssignmentOf(stored.value, row.location, row.assignmentId, row.role)
        then RebuildWriting(todo - {id}, row, recorded) else RebuildFailed
  }

  // ---------------------------------------------------------------- what a rebuild in flight knows

  ghost predicate PointersRead(s: Store, applicationId: Text, rows: map<Text, IndexRow>) {
    forall id | id in rows ::
      s.PointerAt(PointerKey(applicationId, id)) == Some(rows[id]) && KeyOfPointer(rows[id]) == PointerKey(applicationId, id)
  }

  /** Only assignments with these ids may still be without their row. */
  ghost predicate MissingWithin(s: Store, applicationId: Text, ids: set<Text>) {
    forall k | k in s.assignments && k.location.applicationId == applicationId && !HasRow(s, k) :: k.id in ids
  }

  ghost predicate RebuildOk(s: Store, applicationId: Text, pc: RebuildPc) {
    match pc
    case RebuildStart => true
    case RebuildListing(must, rows) =>
      && PointersRead(s, applicationId, rows) && MissingWithin(s, applicationId, must)
      && forall id | id in must :: PointerKey(applicationId, id) in s.pointers
    case RebuildConfirming(rows, confirmed) =>
      PointersRead(s, applicationId, rows) && MissingWithin(s, applicationId, rows.Keys) && confirmed <= rows.Keys
    case RebuildReading(todo, _) => PointersRead(s, applicationId, todo) && MissingWithin(s, applicationId, todo.Keys)
    case RebuildWriting(todo, row, _) =>
      && PointersRead(s, applicationId, todo) && MissingWithin(s, applicationId, todo.Keys + {row.assignmentId})
      && s.PointerAt(PointerKey(applicationId, row.assignmentId)) == Some(row) && row.location.applicationId == applicationId
      && AssignmentKey(row.location, row.assignmentId) in s.assignments
    case RebuildDone(_) => MissingWithin(s, applicationId, {})
    case RebuildFailed => false
  }

  lemma PointersStable(s: Store, t: Store, applicationId: Text, rows: map<Text, IndexRow>)
    requires Evolves(s, t) && PointersRead(s, applicationId, rows)
    ensures PointersRead(t, applicationId, rows)
  {
    hide HasRow;
  }

  /** Other calls never leave a new assignment without its row. */
  lemma MissingStable(s: Store, t: Store, applicationId: Text, ids: set<Text>)
    requires Evolves(s, t) && MissingWithin(s, applicationId, ids)
    ensures MissingWithin(t, applicationId, ids)
  {
    forall k | k in t.assignments && k.location.applicationId == applicationId && !HasRow(t, k) ensures k.id in ids {
      if HasRow(s, k) {
        RowStays(s, t, k);
      }
    }
  }

  lemma RebuildStable(s: Store, t: Store, applicationId: Text, pc: RebuildPc)
    requires Evolves(s, t) && RebuildOk(s, applicationId, pc)
    ensures RebuildOk(t, applicationId, pc)
  {
    hide PointersRead, MissingWithin, HasRow;
    match pc
    case RebuildListing(must, rows) =>
      PointersStable(s, t, applicationId, rows);
      MissingStable(s, t, applicationId, must);
    case RebuildConfirming(rows, _) =>
      PointersStable(s, t, applicationId, rows);
      MissingStable(s, t, applicationId, rows.Keys);
    case RebuildReading(todo, _) =>
      PointersStable(s, t, applicationId, todo);
      MissingStable(s, t, applicationId, todo.Keys);
    case RebuildWriting(todo, row, _) =>
      PointersStable(s, t, applicationId, todo);
      MissingStable(s, t, applicationId, todo.Keys + {row.assignmentId});
    case RebuildDone(_) => MissingStable(s, t, applicationId, {});
    case _ =>
  }

  // ---------------------------------------------------------------- steps

  /** Writing the row of a stored assignment keeps the agreement, and only that assignment's row is new. */
  lemma RowWrite(s: Store, row: IndexRow)
    requires StoreInv(s) && s.PointerAt(KeyOfPointer(row)) == Some(row)
    ensures var (t, found, inserted) := s.InsertHolder(row);
            && StoreInv(t) && Evolves(s, t) && found == row && t == s.(holders := t.holders)
            && KeyOfHolder(row) in t.holders && t.holders[KeyOfHolder(row)] == row
            && (inserted <==> KeyOfHolder(row) !in s.holders)
            && t.holders == s.holders[KeyOfHolder(row) := row]
  {
    HolderWriteKeeps(s, row);
    IndexWriteKeeps(s, s.InsertHolder(row).0);
    hide StoreInv, Evolves;
    assert KeyOfHolder(row) in s.holders ==> s.holders[KeyOfHolder(row) := row] == s.holders by {
      assert s.InsertHolder(row).1 == row;
    }
  }

  /** An id's row is the row its pointer gives. */
  lemma PointedRow(s: Store, k: AssignmentKey, row: IndexRow)
    requires StoreInv(s) && k in s.assignments && s.PointerAt(PointerKey(k.location.applicationId, k.id)) == Some(row)
    ensures RowOf(k, s.assignments[k].value) == row
    ensures IsAssignmentOf(s.assignments[k].value, k.location, k.id, row.role)
  {
    hide AuditsOf, GuardOk, Names, Holds;
    assert AssignmentOk(s, k);
  }

  lemma AssignmentsPointed(s: Store, applicationId: Text)
    requires StoreInv(s)
    ensures MissingWithin(s, applicationId, PointerIds(s, applicationId))
  {
    hide AuditsOf, GuardOk, Names, Holds, HasRow;
    forall k | k in s.assignments && k.location.applicationId == applicationId ensures k.id in PointerIds(s, applicationId) {
      assert AssignmentOk(s, k);
      assert PointerKey(applicationId, k.id).id == k.id;
    }
  }

  lemma RebuildReads(s: Store, applicationId: Text, pc: RebuildPc, pick: Option<Text>)
    requires StoreInv(s) && RebuildOk(s, applicationId, pc) && !pc.RebuildWriting? && !pc.RebuildReading?
    ensures var (t, pc') := RebuildStep(s, applicationId, pc, pick); t == s && RebuildOk(s, applicationId, pc')
  {
    hide AssignmentOk, AuditsOf, GuardOk, Names, Holds, HasRow;
    if pc.RebuildStart? {
      AssignmentsPointed(s, applicationId);
    }
  }

  lemma RebuildReadsPointed(s: Store, applicationId: Text, todo: map<Text, IndexRow>, recorded: nat, id: Text)
    requires StoreInv(s) && RebuildOk(s, applicationId, RebuildReading(todo, recorded)) && id in todo
    ensures RebuildOk(s, applicationId, ReadPointed(s, applicationId, todo, id, recorded))
  {
    hide *;
    ReadingKnows(s, applicationId, todo, recorded, id);
    PointedIds(s, applicationId, todo[id]);
    ReadOk(s, applicationId, todo, recorded, id);
  }

  lemma ReadingKnows(s: Store, applicationId: Text, todo: map<Text, IndexRow>, recorded: nat, id: Text)
    requires RebuildOk(s, applicationId, RebuildReading(todo, recorded)) && id in todo
    ensures PointersRead(s, applicationId, todo) && MissingWithin(s, applicationId, todo.Keys)
    ensures s.PointerAt(PointerKey(applicationId, todo[id].assignmentId)) == Some(todo[id]) && todo[id].assignmentId == id
    ensures KeyOfPointer(todo[id]) == PointerKey(applicationId, id) && todo[id].location.applicationId == applicationId
  {
    hide MissingWithin;
  }

  /** The only assignment of an id is the one its pointer leads to. */
  lemma PointedIds(s: Store, applicationId: Text, row: IndexRow)
    requires StoreInv(s) && s.PointerAt(PointerKey(applicationId, row.assignmentId)) == Some(row)
    ensures var k := AssignmentKey(row.location, row.assignmentId);
            && (row.location.applicationId == applicationId && k in s.assignments ==>
                  IsAssignmentOf(s.assignments[k].value, k.location, k.id, row.role))
            && forall m | m in s.assignments && m.location.applicationId == applicationId && m.id == k.id :: m == k
  {
    hide StoreInv, IsAssignmentOf;
    var k := AssignmentKey(row.location, row.assignmentId);
    forall m | m in s.assignments && m.location.applicationId == applicationId && m.id == k.id
      ensures m == k && IsAssignmentOf(s.assignments[m].value, m.location, m.id, row.role)
    {
      PointedRow(s, m, row);
    }
  }

  lemma ReadOk(s: Store, applicationId: Text, todo: map<Text, IndexRow>, recorded: nat, id: Text)
    requires id in todo && PointersRead(s, applicationId, todo) && MissingWithin(s, applicationId, todo.Keys)
    requires todo[id].assignmentId == id && KeyOfPointer(todo[id]) == PointerKey(applicationId, id)
    requires var k := AssignmentKey(todo[id].location, id);
             && (k in s.assignments ==> IsAssignmentOf(s.assignments[k].value, k.location, k.id, todo[id].role))
             && forall m | m in s.assignments && m.location.applicationId == applicationId && m.id == id :: m == k
    ensures RebuildOk(s, applicationId, ReadPointed(s, applicationId, todo, id, recorded))
  {
    hide HasRow, IsAssignmentOf;
  }

  lemma RebuildWrites(s: Store, applicationId: Text, pc: RebuildPc)
    requires StoreInv(s) && RebuildOk(s, applicationId, pc) && pc.RebuildWriting?
    ensures var (t, pc') := RebuildStep(s, applicationId, pc, None);
            StoreInv(t) && Evolves(s, t) && RebuildOk(t, applicationId, pc')
  {
    hide *;
    var t := s.InsertHolder(pc.row).0;
    WritingKnows(s, applicationId, pc);
    RowWrite(s, pc.row);
    RebuildStable(s, t, applicationId, pc);
    WritingKnows(t, applicationId, pc);
    WrittenIsNotMissing(t, applicationId, pc.todo.Keys, pc.row);
    RebuildGoesOn(s, applicationId, pc);
  }

  lemma WritingKnows(s: Store, applicationId: Text, pc: RebuildPc)
    requires RebuildOk(s, applicationId, pc) && pc.RebuildWriting?
    ensures MissingWithin(s, applicationId, pc.todo.Keys + {pc.row.assignmentId}) && PointersRead(s, applicationId, pc.todo)
    ensures s.PointerAt(PointerKey(applicationId, pc.row.assignmentId)) == Some(pc.row) && s.PointerAt(KeyOfPointer(pc.row)) == Some(pc.row)
  {
    hide MissingWithin, PointersRead;
  }

  lemma RebuildGoesOn(s: Store, applicationId: Text, pc: RebuildPc)
    requires pc.RebuildWriting? && s.InsertHolder(pc.row).1 == pc.row
    requires var t := s.InsertHolder(pc.row).0; PointersRead(t, applicationId, pc.todo) && MissingWithin(t, applicationId, pc.todo.Keys)
    ensures var (t, pc') := RebuildStep(s, applicationId, pc, None);
            t == s.InsertHolder(pc.row).0 && RebuildOk(t, applicationId, pc')
  {
    hide MissingWithin, PointersRead;
  }

  /** An id whose row is written is not missing its row. */
  lemma WrittenIsNotMissing(t: Store, applicationId: Text, ids: set<Text>, row: IndexRow)
    requires StoreInv(t) && MissingWithin(t, applicationId, ids + {row.assignmentId})
    requires t.PointerAt(PointerKey(applicationId, row.assignmentId)) == Some(row)
    requires KeyOfHolder(row) in t.holders && t.holders[KeyOfHolder(row)] == row
    ensures MissingWithin(t, applicationId, ids)
  {
    hide StoreInv;
    forall k | k in t.assignments && k.location.applicationId == applicationId && k.id == row.assignmentId ensures HasRow(t, k) {
      PointedRow(t, k, row);
    }
    hide HasRow, IsAssignmentOf;
  }

  /** Every step of a rebuild keeps the agreement of records and indexes and never finds anything corrupt or moved. */
  lemma RebuildStepSafe(s: Store, applicationId: Text, pc: RebuildPc, pick: Option<Text>)
    requires StoreInv(s) && RebuildOk(s, applicationId, pc)
    ensures var (t, pc') := RebuildStep(s, applicationId, pc, pick);
            StoreInv(t) && Evolves(s, t) && RebuildOk(t, applicationId, pc')
  {
    EvolvesReflexive(s);
    hide StoreInv, Evolves, HasRow;
    match pc
    case RebuildWriting(_, _, _) => RebuildWrites(s, applicationId, pc);
    case RebuildReading(todo, recorded) =>
      if pick.Some? && pick.value in todo {
        RebuildReadsPointed(s, applicationId, todo, recorded, pick.value);
        hide ReadPointed;
      }
    case _ => RebuildReads(s, applicationId, pc, pick);
  }

  lemma RebuiltIsComplete(s: Store, applicationId: Text, recorded: nat)
    requires RebuildOk(s, applicationId, RebuildDone(recorded))
    ensures HoldersComplete(s, applicationId)
  {
    hide HasRow;
  }

  /** Where no row is missing a rebuild records nothing. */
  lemma RebuildRecordsNothing(s: Store, applicationId: Text, pc: RebuildPc, pick: Option<Text>)
    requires StoreInv(s) && RebuildOk(s, applicationId, pc) && HoldersComplete(s, applicationId) && Recorded(pc) == 0
    ensures var (t, pc') := RebuildStep(s, applicationId, pc, pick); t == s && Recorded(pc') == 0
  {
    if pc.RebuildWriting? {
      var k := AssignmentKey(pc.row.location, pc.row.assignmentId);
      PointedRow(s, k, pc.row);
      assert HasRow(s, k);
    }
    hide StoreInv;
  }

  function Recorded(pc: RebuildPc): nat {
    match pc
    case RebuildReading(_, n) => n
    case RebuildWriting(_, _, n) => n
    case RebuildDone(n) => n
    case _ => 0
  }

  // ---------------------------------------------------------------- the rows a rebuild has to write

  /** The rows of one application's assignments that the index lacks. */
  function MissingRows(s: Store, applicationId: Text): set<IndexRow> {
    set k | k in s.assignments && k.location.applicationId == applicationId && !HasRow(s, k) :: RowOf(k, s.assignments[k].value)
  }

  lemma CompleteWhenNoneMissing(s: Store, applicationId: Text)
    ensures HoldersComplete(s, applicationId) <==> MissingRows(s, applicationId) == {}
  {
    hide HasRow;
    if !HoldersComplete(s, applicationId) {
      var k :| k in s.assignments && k.location.applicationId == applicationId && !HasRow(s, k);
      assert RowOf(k, s.assignments[k].value) in MissingRows(s, applicationId);
    }
  }

  /** Writing one stored assignment's row takes exactly that row off the missing ones. */
  lemma RowFills(s: Store, k: AssignmentKey)
    requires StoreInv(s) && k in s.assignments
    ensures var row := RowOf(k, s.assignments[k].value); var (t, found, inserted) := s.InsertHolder(row);
            && MissingRows(t, k.location.applicationId) == MissingRows(s, k.location.applicationId) - {row}
            && (inserted <==> row in MissingRows(s, k.location.applicationId))
  {
    hide StoreInv, Evolves, Store.PointerAt;
    var row := RowOf(k, s.assignments[k].value);
    RowPointed(s, k);
    RowWrite(s, row);
    var t := s.InsertHolder(row).0;
    forall m | m in s.assignments ensures HasRow(t, m) <==> HasRow(s, m) || RowOf(m, s.assignments[m].value) == row {
    }
    assert KeyOfHolder(row) in s.holders ==> HasRow(s, k);
    assert !HasRow(s, k) ==> row in MissingRows(s, k.location.applicationId);
    forall m | m in s.assignments && RowOf(m, s.assignments[m].value) == row ensures m == k {
    }
  }

  lemma RowPointed(s: Store, k: AssignmentKey)
    requires StoreInv(s) && k in s.assignments
    ensures s.PointerAt(KeyOfPointer(RowOf(k, s.assignments[k].value))) == Some(RowOf(k, s.assignments[k].value))
  {
    hide AuditsOf, GuardOk, Names, Holds;
    assert AssignmentOk(s, k);
  }
}
