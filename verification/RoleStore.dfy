/**
 * The audited role store as a protocol over a shared record store.
 *
 * A grant and a revoke are program counters; each step performs at most one store
 * operation, so any number of calls may be interleaved between steps.
 */
module RoleStore {
  import opened Prelude
  import opened RoleRecords

  /** The shared store: three record kinds and two secondary indexes. Nothing is ever deleted. */
  datatype Store = Store(
    assignments: map<AssignmentKey, Versioned<StoredAssignment>>,
    guards: map<GuardKey, Versioned<StoredTuple>>,
    audits: map<AuditKey, StoredAudit>,
    pointers: map<PointerKey, IndexRow>,
    holders: map<HolderKey, IndexRow>,
    nextVersion: nat)
  {
    /** `insertIfAbsent` on the pointer collection: the row present afterwards, and whether it was written. */
    function InsertPointer(row: IndexRow): (Store, IndexRow, bool) {
      var k := KeyOfPointer(row);
      if k in pointers then (this, pointers[k], false)
      else (this.(pointers := pointers[k := row]), row, true)
    }

    function InsertHolder(row: IndexRow): (Store, IndexRow, bool) {
      var k := KeyOfHolder(row);
      if k in holders then (this, holders[k], false)
      else (this.(holders := holders[k := row]), row, true)
    }

    function GuardAt(k: GuardKey): Option<Versioned<StoredTuple>> {
      if k in guards then Some(guards[k]) else None
    }

    function AssignmentAt(k: AssignmentKey): Option<Versioned<StoredAssignment>> {
      if k in assignments then Some(assignments[k]) else None
    }

    function PointerAt(k: PointerKey): Option<IndexRow> {
      if k in pointers then Some(pointers[k]) else None
    }

    /** The single-partition transaction of a grant; `None` when a precondition fails. */
    function TransactGrant(c: GrantCommand, guard: Option<Versioned<StoredTuple>>): Option<Store> {
      var audit := AuditKey(c.Place(), c.assignment.id, GRANT_SEQUENCE);
      if
        || c.Key() in assignments
        || audit in audits
        || (guard.None? && c.Guard() in guards)
        || (guard.Some? && (c.Guard() !in guards || guards[c.Guard()].version != guard.value.version))
      then None
      else
        var claimed := StoredTuple(c.Place(), c.assignment.role, Some(c.assignment.id));
        Some(this.(
             assignments := assignments[c.Key() := Versioned(c.Record(), nextVersion)],
             guards := guards[c.Guard() := Versioned(claimed, nextVersion + 1)],
             audits := audits[audit := StoredAudit(c.Place(), c.assignment.id, GRANT_SEQUENCE, c.auditEventId)],
             nextVersion := nextVersion + 2))
    }

    /** The single-partition transaction of a revoke. */
    function TransactRevoke(
      row: IndexRow, c: RevokeCommand, existing: Versioned<StoredAssignment>, guard: Versioned<StoredTuple>): Option<Store>
    {
      var key := AssignmentKey(row.location, c.assignmentId);
      var guardKey := GuardKey(row.location, existing.value.assignment.role);
      var audit := AuditKey(row.location, c.assignmentId, REVOKE_SEQUENCE);
      if
        || key !in assignments || assignments[key].version != existing.version
        || guardKey !in guards || guards[guardKey].version != guard.version
        || audit in audits
      then None
      else
        var held := guard.value;
        var retired := held.(activeId := if held.activeId == Some(c.assignmentId) then None else held.activeId);
        Some(this.(
             assignments := assignments[key := Versioned(RevokedForm(existing.value, c), nextVersion)],
             guards := guards[guardKey := Versioned(retired, nextVersion + 1)],
             audits := audits[audit := StoredAudit(row.location, c.assignmentId, REVOKE_SEQUENCE, c.auditEventId)],
             nextVersion := nextVersion + 2))
    }
  }

  const EMPTY_STORE := Store(map[], map[], map[], map[], map[], 0)

  /** Why the backend says it refused a transaction: best-effort information. */
  datatype Rejection = Exists | Changed | Missing

  predicate IsAssignmentOf(stored: StoredAssignment, location: Location, id: Text, role: Text) {
    && stored.location == location
    && stored.assignment.id == id
    && stored.assignment.principalId == location.principalId
    && stored.assignment.scope == location.scope
    && stored.assignment.role == role
  }

  predicate IsTupleOf(tuple: StoredTuple, location: Location, role: Text) {
    tuple.location == location && tuple.role == role
  }

  // ---------------------------------------------------------------- grant

  datatype GrantConflict = AssignmentIdTaken | ActiveTuple | EventIdDiffers

  datatype GrantResult =
    | Granted(record: Versioned<StoredAssignment>)
    | GrantUnchanged(record: Versioned<StoredAssignment>)
    | GrantRefused(conflict: GrantConflict)
    | GrantInvalid
    | GrantCorrupt

  datatype GrantPc =
    | GrantWritePointer
    | GrantWriteHolder
    | GrantReadGuard
    | GrantReadExisting(guard: Option<Versioned<StoredTuple>>)
    | GrantCommit(guard: Option<Versioned<StoredTuple>>)
    | GrantReadLanded
    | GrantReadBack
    | GrantDone(result: GrantResult)

  function BeginGrant(c: GrantCommand): GrantPc {
    if c.WellFormed() then GrantWritePointer else GrantDone(GrantInvalid)
  }

  /** One step of `grantRoleAssignmentWithAudit`; `rejection` is what the backend reports if it refuses. */
  function GrantStep(s: Store, c: GrantCommand, pc: GrantPc, rejection: Rejection): (Store, GrantPc) {
    match pc
    case GrantWritePointer =>
      var (s', found, inserted) := s.InsertPointer(c.Row());
      if KeyOfPointer(found) != KeyOfPointer(c.Row()) then (s', GrantDone(GrantCorrupt))
      else if !inserted && found != c.Row() then (s', GrantDone(GrantRefused(AssignmentIdTaken)))
      else (s', GrantWriteHolder)
    case GrantWriteHolder =>
      var (s', found, _) := s.InsertHolder(c.Row());
      (s', if found == c.Row() then GrantReadGuard else GrantDone(GrantCorrupt))
    case GrantReadGuard =>
      var guard := s.GuardAt(c.Guard());
      if guard.None? then (s, GrantReadExisting(guard))
      else if !IsTupleOf(guard.value.value, c.Place(), c.assignment.role) then (s, GrantDone(GrantCorrupt))
      else
        var occupant := guard.value.value.activeId;
        if occupant.Some? && occupant.value != c.assignment.id then (s, GrantDone(GrantRefused(ActiveTuple)))
        else (s, GrantReadExisting(guard))
    case GrantReadExisting(guard) =>
      (match s.AssignmentAt(c.Key())
       case None => (s, GrantCommit(guard))
       case Some(existing) =>
         if !IsAssignmentOf(existing.value, c.Place(), c.assignment.id, c.assignment.role) then (s, GrantDone(GrantCorrupt))
         else if existing.value.grantEventId == c.auditEventId then (s, GrantDone(GrantUnchanged(existing)))
         else (s, GrantDone(GrantRefused(EventIdDiffers))))
    case GrantCommit(guard) =>
      (match s.TransactGrant(c, guard)
       case Some(s') => (s', GrantReadBack)
       case None => (s, if rejection != Exists then GrantDone(GrantRefused(ActiveTuple)) else GrantReadLanded))
    case GrantReadLanded =>
      (match s.AssignmentAt(c.Key())
       case None => (s, GrantDone(GrantRefused(ActiveTuple)))
       case Some(landed) =>
         if !IsAssignmentOf(landed.value, c.Place(), c.assignment.id, c.assignment.role) then (s, GrantDone(GrantCorrupt))
         else if landed.value.grantEventId == c.auditEventId then (s, GrantDone(GrantUnchanged(landed)))
         else (s, GrantDone(GrantRefused(AssignmentIdTaken))))
    case GrantReadBack =>
      (match s.AssignmentAt(c.Key())
       case None => (s, GrantDone(GrantCorrupt))
       case Some(written) =>
         if IsAssignmentOf(written.value, c.Place(), c.assignment.id, c.assignment.role)
         then (s, GrantDone(Granted(written)))
         else (s, GrantDone(GrantCorrupt)))
    case GrantDone(_) => (s, pc)
  }

  // ---------------------------------------------------------------- revoke

  datatype RevokeConflict = LifecycleConflict | ConcurrencyConflict | EventIdConflict

  datatype RevokeResult =
    | RevokeCommitted(record: Versioned<StoredAssignment>)
    | RevokeUnchanged(record: Versioned<StoredAssignment>)
    | RevokeNotFound
    | RevokeRefused(conflict: RevokeConflict)
    | RevokeInvalid
    | RevokeCorrupt

  datatype RevokePc =
    | RevokeLocate
    | RevokeReadRecord(row: IndexRow)
    | RevokeReadGuard(row: IndexRow, existing: Versioned<StoredAssignment>)
    | RevokeCommit(row: IndexRow, existing: Versioned<StoredAssignment>, guard: Versioned<StoredTuple>)
    | RevokeReadBack(row: IndexRow)
    | RevokeDone(result: RevokeResult)

  function BeginRevoke(c: RevokeCommand): RevokePc {
    if c.WellFormed() then RevokeLocate else RevokeDone(RevokeInvalid)
  }

  /** What a revoke decides from the record it read, before it looks at the guard. */
  function RevokeDecision(c: RevokeCommand, row: IndexRow, existing: Versioned<StoredAssignment>): RevokePc {
    var current := existing.value.assignment;
    if current.lifecycle.Revoked? then
      if existing.value.revokeEventId != Some(c.auditEventId) || current.lifecycle != Revoked(c.revokedBy, c.revokedAt, c.reason)
      then RevokeDone(RevokeRefused(LifecycleConflict))
      else RevokeDone(RevokeUnchanged(existing))
    else if existing.version != c.expectedToken then RevokeDone(RevokeRefused(ConcurrencyConflict))
    else if c.revokedAt < current.grantedAt then RevokeDone(RevokeRefused(LifecycleConflict))
    else RevokeReadGuard(row, existing)
  }

  /** One step of `revokeRoleAssignmentWithAudit`. */
  function RevokeStep(s: Store, c: RevokeCommand, pc: RevokePc, rejection: Rejection): (Store, RevokePc) {
    match pc
    case RevokeLocate =>
      (match s.PointerAt(c.Pointer())
       case None => (s, RevokeDone(RevokeNotFound))
       case Some(row) => (s, if KeyOfPointer(row) == c.Pointer() then RevokeReadRecord(row) else RevokeDone(RevokeCorrupt)))
    case RevokeReadRecord(row) =>
      (match s.AssignmentAt(AssignmentKey(row.location, c.assignmentId))
       case None => (s, RevokeDone(RevokeNotFound))
       case Some(existing) =>
         if IsAssignmentOf(existing.value, row.location, c.assignmentId, row.role)
         then (s, RevokeDecision(c, row, existing))
         else (s, RevokeDone(RevokeCorrupt)))
    case RevokeReadGuard(row, existing) =>
      var role := existing.value.assignment.role;
      (match s.GuardAt(GuardKey(row.location, role))
       case None => (s, RevokeDone(RevokeCorrupt))
       case Some(guard) =>
         (s, if IsTupleOf(guard.value, row.location, role) then RevokeCommit(row, existing, guard) else RevokeDone(RevokeCorrupt)))
    case RevokeCommit(row, existing, guard) =>
      (match s.TransactRevoke(row, c, existing, guard)
       case Some(s') => (s', RevokeReadBack(row))
       case None =>
         (s, RevokeDone(RevokeRefused(
                        match rejection
                        case Changed => ConcurrencyConflict
                        case Exists => EventIdConflict
                        case Missing => LifecycleConflict))))
    case RevokeReadBack(row) =>
      (match s.AssignmentAt(AssignmentKey(row.location, c.assignmentId))
       case None => (s, RevokeDone(RevokeCorrupt))
       case Some(written) =>
         if IsAssignmentOf(written.value, row.location, c.assignmentId, row.role) && written.value.revokeEventId.Some?
         then (s, RevokeDone(RevokeCommitted(written)))
         else (s, RevokeDone(RevokeCorrupt)))
    case RevokeDone(_) => (s, pc)
  }
}
