/**
 * What every step of the role store keeps: the agreement of the record kinds and indexes,
 * and the relation `Evolves` that bounds how one step may change the store under another call.
 */
module RoleStoreSafety {
  import opened Prelude
  import opened RoleRecords
  import opened RoleStore

  // ---------------------------------------------------------------- the store invariant

  predicate LifecycleOk(stored: StoredAssignment) {
    match stored.assignment.lifecycle
    case Active => stored.revokeEventId.None?
    case Revoked(_, at, _) => stored.revokeEventId.Some? && stored.assignment.grantedAt <= at
  }

  function RowOf(k: AssignmentKey, stored: StoredAssignment): IndexRow {
    IndexRow(k.location, k.id, stored.assignment.role)
  }

  /** An assignment record sits under its own key, and its pointer names it. */
  ghost predicate AssignmentOk(s: Store, k: AssignmentKey)
    requires k in s.assignments
  {
    var stored := s.assignments[k].value;
    var row := RowOf(k, stored);
    && IsAssignmentOf(stored, k.location, k.id, stored.assignment.role)
    && s.assignments[k].version < s.nextVersion
    && LifecycleOk(stored)
    && GuardKey(k.location, stored.assignment.role) in s.guards
    && s.PointerAt(KeyOfPointer(row)) == Some(row)
  }

  /** The role-holder index names the assignment. */
  predicate HasRow(s: Store, k: AssignmentKey)
    requires k in s.assignments
  {
    var row := RowOf(k, s.assignments[k].value);
    KeyOfHolder(row) in s.holders && s.holders[KeyOfHolder(row)] == row
  }

  /** Every assignment of the application has its role-holder row. */
  ghost predicate HoldersComplete(s: Store, applicationId: Text) {
    forall k | k in s.assignments && k.location.applicationId == applicationId :: HasRow(s, k)
  }

  /** Assignment `id` is active at `location` with `role`. */
  predicate Holds(s: Store, location: Location, role: Text, id: Text) {
    var k := AssignmentKey(location, id);
    && k in s.assignments
    && s.assignments[k].value.assignment.role == role
    && s.assignments[k].value.assignment.lifecycle.Active?
  }

  /** Another assignment than the one granted is active for the tuple. */
  ghost predicate HeldByAnother(s: Store, c: GrantCommand) {
    exists id :: id != c.assignment.id && Holds(s, c.Place(), c.assignment.role, id)
  }

  /** A guard sits under its own key, and an assignment it names is active for its tuple. */
  ghost predicate GuardOk(s: Store, k: GuardKey)
    requires k in s.guards
  {
    var tuple := s.guards[k].value;
    && IsTupleOf(tuple, k.location, k.role)
    && s.guards[k].version < s.nextVersion
    && (tuple.activeId.Some? ==> Holds(s, k.location, k.role, tuple.activeId.value))
  }

  /** The guard of a tuple names `id`. */
  predicate Names(s: Store, location: Location, role: Text, id: Text) {
    var k := GuardKey(location, role);
    k in s.guards && s.guards[k].value.activeId == Some(id)
  }

  /** Exactly the audit positions the lifecycle calls for, with the recorded event ids. */
  ghost predicate AuditsOf(s: Store, k: AssignmentKey) {
    var first, second := AuditKey(k.location, k.id, GRANT_SEQUENCE), AuditKey(k.location, k.id, REVOKE_SEQUENCE);
    if k !in s.assignments then first !in s.audits && second !in s.audits
    else
      var stored := s.assignments[k].value;
      && first in s.audits && s.audits[first] == StoredAudit(k.location, k.id, GRANT_SEQUENCE, stored.grantEventId)
      && (second in s.audits <==> stored.assignment.lifecycle.Revoked?)
      && (second in s.audits ==>
            stored.revokeEventId == Some(s.audits[second].eventId)
            && s.audits[second] == StoredAudit(k.location, k.id, REVOKE_SEQUENCE, s.audits[second].eventId))
  }

  ghost predicate IndexesOk(s: Store) {
    && (forall k | k in s.pointers :: KeyOfPointer(s.pointers[k]) == k)
    && (forall k | k in s.holders ::
          KeyOfHolder(s.holders[k]) == k && s.PointerAt(KeyOfPointer(s.holders[k])) == Some(s.holders[k]))
  }

  /**
   * Records, guards, audit positions and pointers agree, and no role-holder row is wrong. Rows may be missing, as they
   * are in a store older than its holder index.
   */
  ghost predicate StoreInv(s: Store) {
    && IndexesOk(s)
    && (forall k | k in s.assignments :: AssignmentOk(s, k))
    && (forall k | k in s.guards :: GuardOk(s, k))
    && (forall location, role, id | Holds(s, location, role, id) :: Names(s, location, role, id))
    && (forall k: AssignmentKey :: AuditsOf(s, k))
    && (forall k | k in s.audits :: k.sequence == GRANT_SEQUENCE || k.sequence == REVOKE_SEQUENCE)
  }

  // ---------------------------------------------------------------- how the store may move

  /** A record stays what it is, or an active one is revoked under a fresh version with its evidence kept. */
  predicate RecordEvolves(before: Versioned<StoredAssignment>, after: Versioned<StoredAssignment>, floor: nat) {
    || after == before
    || (&& before.value.assignment.lifecycle.Active?
        && after.value.assignment.lifecycle.Revoked?
        && Evidence(after.value) == Evidence(before.value)
        && after.version >= floor)
  }

  /** Everything that holds between the store now and at any later instant. */
  ghost predicate Evolves(s: Store, t: Store) {
    && s.nextVersion <= t.nextVersion
    && (forall k | k in s.pointers :: k in t.pointers && t.pointers[k] == s.pointers[k])
    && (forall k | k in s.holders :: k in t.holders && t.holders[k] == s.holders[k])
    && (forall k | k in s.audits :: k in t.audits && t.audits[k] == s.audits[k])
    && (forall k | k in s.assignments :: k in t.assignments && RecordEvolves(s.assignments[k], t.assignments[k], s.nextVersion))
    && (forall k | k in s.guards :: k in t.guards && (t.guards[k] == s.guards[k] || t.guards[k].version >= s.nextVersion))
    && (forall k | k in t.assignments && k !in s.assignments :: HasRow(t, k))
  }

  lemma EvolvesReflexive(s: Store)
    ensures Evolves(s, s)
  {
  }

  lemma EvolvesTransitive(s: Store, t: Store, u: Store)
    requires Evolves(s, t) && Evolves(t, u)
    ensures Evolves(s, u)
  {
    forall k | k in u.assignments && k !in s.assignments ensures HasRow(u, k) {
      if k in t.assignments {
        RowStays(t, u, k);
      }
    }
    hide HasRow, Evidence;
  }

  /** A holder row, once there, stays. */
  lemma RowStays(s: Store, t: Store, k: AssignmentKey)
    requires Evolves(s, t) && k in s.assignments && HasRow(s, k)
    ensures k in t.assignments && HasRow(t, k)
  {
    assert Evidence(t.assignments[k].value) == Evidence(s.assignments[k].value);
    assert Evidence(s.assignments[k].value).assignment.role == s.assignments[k].value.assignment.role;
    assert Evidence(t.assignments[k].value).assignment.role == t.assignments[k].value.assignment.role;
  }

  /** A complete holder index stays complete: a grant writes its row before its record. */
  lemma HoldersStayComplete(s: Store, t: Store, applicationId: Text)
    requires Evolves(s, t) && HoldersComplete(s, applicationId)
    ensures HoldersComplete(t, applicationId)
  {
    forall k | k in t.assignments && k.location.applicationId == applicationId ensures HasRow(t, k) {
      if k in s.assignments {
        RowStays(s, t, k);
      }
    }
  }

  // ---------------------------------------------------------------- what a grant in flight knows

  /** A guard read earlier: it is in the store still, unless another write replaced it under a new version. */
  ghost predicate GuardRead(s: Store, k: GuardKey, guard: Option<Versioned<StoredTuple>>) {
    guard.Some? ==>
      && k in s.guards
      && guard.value.version < s.nextVersion
      && (s.guards[k].version == guard.value.version ==> s.guards[k] == guard.value)
  }

  ghost predicate Claimed(s: Store, c: GrantCommand) {
    s.PointerAt(KeyOfPointer(c.Row())) == Some(c.Row())
  }

  ghost predicate Indexed(s: Store, c: GrantCommand) {
    Claimed(s, c) && KeyOfHolder(c.Row()) in s.holders && s.holders[KeyOfHolder(c.Row())] == c.Row()
  }

  /** The record `r` was this command's assignment at some time: its evidence is still the stored one. */
  ghost predicate Reported(s: Store, k: AssignmentKey, r: Versioned<StoredAssignment>) {
    k in s.assignments && Evidence(s.assignments[k].value) == Evidence(r.value)
  }

  ghost predicate GrantOk(s: Store, c: GrantCommand, pc: GrantPc) {
    match pc
    case GrantWritePointer => c.WellFormed()
    case GrantWriteHolder => c.WellFormed() && Claimed(s, c)
    case GrantReadGuard => c.WellFormed() && Indexed(s, c)
    case GrantReadExisting(guard) =>
      && c.WellFormed() && Indexed(s, c) && GuardRead(s, c.Guard(), guard)
      && (guard.Some? && guard.value.value.activeId.Some? ==> guard.value.value.activeId.value == c.assignment.id && c.Key() in s.assignments)
      && (guard.Some? ==> IsTupleOf(guard.value.value, c.Place(), c.assignment.role))
    case GrantCommit(guard) =>
      && c.WellFormed() && Indexed(s, c) && GuardRead(s, c.Guard(), guard)
      && (guard.Some? ==> guard.value.value.activeId.None? && IsTupleOf(guard.value.value, c.Place(), c.assignment.role))
    case GrantReadLanded => c.WellFormed() && Indexed(s, c)
    case GrantReadBack => c.Key() in s.assignments && Evidence(s.assignments[c.Key()].value) == c.Record() && Claimed(s, c)
    case GrantDone(Granted(record)) => Reported(s, c.Key(), record) && Evidence(record.value) == c.Record()
    case GrantDone(GrantUnchanged(record)) =>
      Reported(s, c.Key(), record) && record.value.grantEventId == c.auditEventId && record.value.assignment.role == c.assignment.role
    case GrantDone(GrantRefused(_)) => true
    case GrantDone(GrantInvalid) => !c.WellFormed()
    case GrantDone(GrantCorrupt) => false
  }

  lemma GrantStable(s: Store, t: Store, c: GrantCommand, pc: GrantPc)
    requires Evolves(s, t) && GrantOk(s, c, pc)
    ensures GrantOk(t, c, pc)
  {
  }

  /** The grant transaction claims a free tuple: it cannot put a second active assignment beside another. */
  lemma GrantCommitClaimsFreeTuple(
    s: Store, s': Store, c: GrantCommand, guard: Option<Versioned<StoredTuple>>, location: Location, role: Text, id: Text)
    requires s.TransactGrant(c, guard) == Some(s') && GuardRead(s, c.Guard(), guard)
    requires guard.Some? ==> guard.value.value.activeId.None?
    requires Holds(s', location, role, id) && (Holds(s, location, role, id) ==> Names(s, location, role, id))
    ensures Names(s', location, role, id)
  {
  }

  lemma GrantCommitAssignment(s: Store, s': Store, c: GrantCommand, guard: Option<Versioned<StoredTuple>>, k: AssignmentKey)
    requires s.TransactGrant(c, guard) == Some(s') && k in s'.assignments
    requires if k == c.Key() then c.WellFormed() && Indexed(s, c) else AssignmentOk(s, k)
    ensures AssignmentOk(s', k)
  {
  }

  lemma GrantCommitGuard(s: Store, s': Store, c: GrantCommand, guard: Option<Versioned<StoredTuple>>, k: GuardKey)
    requires s.TransactGrant(c, guard) == Some(s') && k in s'.guards && c.WellFormed()
    requires k != c.Guard() ==> GuardOk(s, k)
    ensures GuardOk(s', k)
  {
  }

  lemma GrantCommitAudits(s: Store, s': Store, c: GrantCommand, guard: Option<Versioned<StoredTuple>>, k: AssignmentKey)
    requires s.TransactGrant(c, guard) == Some(s') && AuditsOf(s, k) && c.WellFormed()
    ensures AuditsOf(s', k)
  {
  }

  lemma GrantCommitKeeps(s: Store, s': Store, c: GrantCommand, guard: Option<Versioned<StoredTuple>>)
    requires StoreInv(s) && GrantOk(s, c, GrantCommit(guard)) && s.TransactGrant(c, guard) == Some(s')
    ensures StoreInv(s') && Evolves(s, s') && GrantOk(s', c, GrantReadBack)
  {
    hide AssignmentOk, GuardOk, AuditsOf, Evolves, Names, Holds;
    forall k | k in s'.assignments ensures AssignmentOk(s', k) {
      GrantCommitAssignment(s, s', c, guard, k);
    }
    forall k | k in s'.guards ensures GuardOk(s', k) {
      GrantCommitGuard(s, s', c, guard, k);
    }
    forall location, role, id | Holds(s', location, role, id) ensures Names(s', location, role, id) {
      GrantCommitClaimsFreeTuple(s, s', c, guard, location, role, id);
    }
    forall k: AssignmentKey ensures AuditsOf(s', k) {
      GrantCommitAudits(s, s', c, guard, k);
    }
    GrantCommitEvolves(s, s', c, guard);
  }

  lemma GrantCommitEvolves(s: Store, s': Store, c: GrantCommand, guard: Option<Versioned<StoredTuple>>)
    requires s.TransactGrant(c, guard) == Some(s') && Indexed(s, c) && c.WellFormed()
    ensures Evolves(s, s') && GrantOk(s', c, GrantReadBack)
  {
  }

  /** Index writes leave every record alone. */
  lemma IndexWriteKeeps(s: Store, s': Store)
    requires StoreInv(s) && IndexesOk(s') && Evolves(s, s')
    requires s' == s.(pointers := s'.pointers, holders := s'.holders)
    ensures StoreInv(s')
  {
    hide IndexesOk;
    forall k | k in s'.assignments ensures AssignmentOk(s', k) {
      assert AssignmentOk(s, k);
    }
    forall k | k in s'.guards ensures GuardOk(s', k) {
      assert GuardOk(s, k);
    }
    forall location, role, id | Holds(s', location, role, id) ensures Names(s', location, role, id) {
      assert Holds(s, location, role, id);
    }
    forall k: AssignmentKey ensures AuditsOf(s', k) {
      assert AuditsOf(s, k);
    }
  }

  /** Every step of a grant keeps the store invariant, evolves the store, and never ends in the corrupt-record error. */
  lemma GrantStepSafe(s: Store, c: GrantCommand, pc: GrantPc, rejection: Rejection)
    requires StoreInv(s) && GrantOk(s, c, pc)
    ensures var (s', pc') := GrantStep(s, c, pc, rejection);
            StoreInv(s') && Evolves(s, s') && GrantOk(s', c, pc')
  {
    var (s', pc') := GrantStep(s, c, pc, rejection);
    if pc.GrantWritePointer? || pc.GrantWriteHolder? {
      GrantIndexStep(s, c, pc, rejection);
      IndexWriteKeeps(s, s');
    } else if pc.GrantCommit? && s.TransactGrant(c, pc.guard).Some? {
      GrantCommitKeeps(s, s', c, pc.guard);
    } else {
      GrantReadStep(s, c, pc, rejection);
    }
  }

  lemma GrantIndexStep(s: Store, c: GrantCommand, pc: GrantPc, rejection: Rejection)
    requires IndexesOk(s) && GrantOk(s, c, pc) && (pc.GrantWritePointer? || pc.GrantWriteHolder?)
    ensures var (s', pc') := GrantStep(s, c, pc, rejection);
            && s' == s.(pointers := s'.pointers, holders := s'.holders)
            && IndexesOk(s') && Evolves(s, s') && GrantOk(s', c, pc')
  {
    if pc.GrantWritePointer? {
      PointerWriteKeeps(s, c.Row());
    } else {
      HolderWriteKeeps(s, c.Row());
    }
  }

  lemma PointerWriteKeeps(s: Store, row: IndexRow)
    requires IndexesOk(s)
    ensures var (s', found, inserted) := s.InsertPointer(row);
            && s' == s.(pointers := s'.pointers)
            && IndexesOk(s') && Evolves(s, s')
            && KeyOfPointer(found) == KeyOfPointer(row)
            && s'.PointerAt(KeyOfPointer(row)) == Some(found)
            && (inserted ==> found == row)
  {
  }

  lemma HolderWriteKeeps(s: Store, row: IndexRow)
    requires IndexesOk(s) && s.PointerAt(KeyOfPointer(row)) == Some(row)
    ensures var (s', found, inserted) := s.InsertHolder(row);
            && s' == s.(holders := s'.holders)
            && IndexesOk(s') && Evolves(s, s')
            && found == row && KeyOfHolder(row) in s'.holders && s'.holders[KeyOfHolder(row)] == row
  {
    RowFound(s, row);
    HolderWriteEvolves(s, row);
    hide Evolves;
  }

  /** A row found at another row's key has that row's pointer, so it is that row. */
  lemma RowFound(s: Store, row: IndexRow)
    requires IndexesOk(s) && s.PointerAt(KeyOfPointer(row)) == Some(row)
    ensures KeyOfHolder(row) in s.holders ==> s.holders[KeyOfHolder(row)] == row
  {
  }

  lemma HolderWriteEvolves(s: Store, row: IndexRow)
    ensures Evolves(s, s.InsertHolder(row).0)
  {
    hide HasRow, Evidence;
  }

  /** Steps that only read: what they find is never corrupt, because the store invariant holds. */
  lemma GrantReadStep(s: Store, c: GrantCommand, pc: GrantPc, rejection: Rejection)
    requires StoreInv(s) && GrantOk(s, c, pc) && !pc.GrantWritePointer? && !pc.GrantWriteHolder?
    requires pc.GrantCommit? ==> s.TransactGrant(c, pc.guard).None?
    ensures var (s', pc') := GrantStep(s, c, pc, rejection); s' == s && GrantOk(s, c, pc') && Evolves(s, s)
  {
    if pc.GrantReadGuard? {
      GrantGuardStep(s, c, pc, rejection);
    } else {
      GrantRecordStep(s, c, pc, rejection);
    }
  }

  lemma GrantGuardStep(s: Store, c: GrantCommand, pc: GrantPc, rejection: Rejection)
    requires StoreInv(s) && GrantOk(s, c, pc) && pc.GrantReadGuard?
    ensures var (s', pc') := GrantStep(s, c, pc, rejection); s' == s && GrantOk(s, c, pc') && Evolves(s, s)
  {
    hide AuditsOf, IndexesOk, Names;
    if c.Guard() in s.guards {
      assert GuardOk(s, c.Guard());
    }
  }

  lemma GrantRecordStep(s: Store, c: GrantCommand, pc: GrantPc, rejection: Rejection)
    requires StoreInv(s) && GrantOk(s, c, pc) && !pc.GrantWritePointer? && !pc.GrantWriteHolder? && !pc.GrantReadGuard?
    requires pc.GrantCommit? ==> s.TransactGrant(c, pc.guard).None?
    ensures var (s', pc') := GrantStep(s, c, pc, rejection); s' == s && GrantOk(s, c, pc') && Evolves(s, s)
  {
    hide *;
    EvolvesReflexive(s);
    GrantRecordFound(s, c, pc);
    GrantRecordMoves(s, c, pc, rejection);
  }

  /** A record found at a claimed key is the one the pointer describes. */
  lemma GrantRecordFound(s: Store, c: GrantCommand, pc: GrantPc)
    requires StoreInv(s) && GrantOk(s, c, pc) && !pc.GrantWritePointer? && !pc.GrantWriteHolder? && !pc.GrantReadGuard?
    ensures c.Key() in s.assignments && !pc.GrantDone? ==>
              IsAssignmentOf(s.assignments[c.Key()].value, c.Place(), c.assignment.id, c.assignment.role)
  {
    hide AuditsOf, IndexesOk, Names, Holds, GuardOk;
    if c.Key() in s.assignments {
      assert AssignmentOk(s, c.Key());
    }
  }

  lemma GrantRecordMoves(s: Store, c: GrantCommand, pc: GrantPc, rejection: Rejection)
    requires GrantOk(s, c, pc) && !pc.GrantWritePointer? && !pc.GrantWriteHolder? && !pc.GrantReadGuard?
    requires pc.GrantCommit? ==> s.TransactGrant(c, pc.guard).None?
    requires c.Key() in s.assignments && !pc.GrantDone? ==>
               IsAssignmentOf(s.assignments[c.Key()].value, c.Place(), c.assignment.id, c.assignment.role)
    ensures var (s', pc') := GrantStep(s, c, pc, rejection); s' == s && GrantOk(s, c, pc')
  {
    hide Store.TransactGrant;
  }

  // ---------------------------------------------------------------- what a revoke in flight knows

  ghost predicate RecordRead(s: Store, k: AssignmentKey, r: Versioned<StoredAssignment>) {
    && k in s.assignments
    && r.version < s.nextVersion
    && Evidence(s.assignments[k].value) == Evidence(r.value)
    && (r.value.assignment.lifecycle.Revoked? ==> s.assignments[k] == r)
    && (s.assignments[k].version == r.version ==> s.assignments[k] == r)
  }

  ghost predicate RevokeOk(s: Store, c: RevokeCommand, pc: RevokePc) {
    match pc
    case RevokeLocate => c.WellFormed()
    case RevokeReadRecord(row) => c.WellFormed() && s.PointerAt(c.Pointer()) == Some(row) && KeyOfPointer(row) == c.Pointer()
    case RevokeReadGuard(row, existing) =>
      && s.PointerAt(c.Pointer()) == Some(row) && KeyOfPointer(row) == c.Pointer()
      && RecordRead(s, AssignmentKey(row.location, c.assignmentId), existing)
      && LifecycleOk(existing.value)
      && existing.value.assignment.lifecycle.Active? && existing.value.assignment.grantedAt <= c.revokedAt
    case RevokeCommit(row, existing, guard) =>
      && s.PointerAt(c.Pointer()) == Some(row) && KeyOfPointer(row) == c.Pointer()
      && RecordRead(s, AssignmentKey(row.location, c.assignmentId), existing)
      && LifecycleOk(existing.value)
      && existing.value.assignment.lifecycle.Active? && existing.value.assignment.grantedAt <= c.revokedAt
      && GuardRead(s, GuardKey(row.location, existing.value.assignment.role), Some(guard))
    case RevokeReadBack(row) =>
      && s.PointerAt(c.Pointer()) == Some(row) && KeyOfPointer(row) == c.Pointer()
      && var k := AssignmentKey(row.location, c.assignmentId);
      && k in s.assignments
      && RevokedBy(s.assignments[k].value, c)
    case RevokeDone(RevokeCommitted(record)) => RevokedBy(record.value, c) && Stays(s, record) && IsOf(record.value, c)
    case RevokeDone(RevokeUnchanged(record)) => RevokedBy(record.value, c) && Stays(s, record) && IsOf(record.value, c)
    case RevokeDone(RevokeNotFound) => true
    case RevokeDone(RevokeRefused(_)) => true
    case RevokeDone(RevokeInvalid) => !c.WellFormed()
    case RevokeDone(RevokeCorrupt) => false
  }

  /** The record is the one the command is about. */
  predicate IsOf(stored: StoredAssignment, c: RevokeCommand) {
    stored.location.applicationId == c.applicationId && stored.assignment.id == c.assignmentId
  }

  predicate RevokedBy(stored: StoredAssignment, c: RevokeCommand) {
    && stored.assignment.lifecycle == Revoked(c.revokedBy, c.revokedAt, c.reason)
    && stored.revokeEventId == Some(c.auditEventId)
  }

  /** A revoked record is terminal: what was reported is what is stored. */
  predicate Stays(s: Store, record: Versioned<StoredAssignment>) {
    var k := AssignmentKey(record.value.location, record.value.assignment.id);
    k in s.assignments && s.assignments[k] == record
  }

  lemma RevokeStable(s: Store, t: Store, c: RevokeCommand, pc: RevokePc)
    requires Evolves(s, t) && RevokeOk(s, c, pc)
    ensures RevokeOk(t, c, pc)
  {
  }

  lemma RevokeCommitKeeps(
    s: Store, s': Store, c: RevokeCommand, row: IndexRow, existing: Versioned<StoredAssignment>, guard: Versioned<StoredTuple>)
    requires StoreInv(s) && RevokeOk(s, c, RevokeCommit(row, existing, guard))
    requires s.TransactRevoke(row, c, existing, guard) == Some(s')
    ensures StoreInv(s') && Evolves(s, s') && RevokeOk(s', c, RevokeReadBack(row))
  {
    hide AssignmentOk, GuardOk, AuditsOf, Evolves, Names;
    var key := AssignmentKey(row.location, c.assignmentId);
    assert s.assignments[key] == existing;
    assert Holds(s, row.location, existing.value.assignment.role, c.assignmentId);
    forall k | k in s'.assignments ensures AssignmentOk(s', k) {
      RevokeCommitAssignment(s, s', c, row, existing, guard, k);
    }
    forall k | k in s'.guards ensures GuardOk(s', k) {
      RevokeCommitGuard(s, s', c, row, existing, guard, k);
    }
    forall location, role, id | Holds(s', location, role, id) ensures Names(s', location, role, id) {
      RevokeCommitFreesTuple(s, s', c, row, existing, guard, location, role, id);
    }
    forall k: AssignmentKey ensures AuditsOf(s', k) {
      RevokeCommitAudits(s, s', c, row, existing, guard, k);
    }
    RevokeCommitEvolves(s, s', c, row, existing, guard);
  }

  lemma RevokeCommitAssignment(
    s: Store, s': Store, c: RevokeCommand, row: IndexRow, existing: Versioned<StoredAssignment>, guard: Versioned<StoredTuple>,
    k: AssignmentKey)
    requires s.TransactRevoke(row, c, existing, guard) == Some(s') && k in s'.assignments && AssignmentOk(s, k)
    requires s.assignments[AssignmentKey(row.location, c.assignmentId)] == existing
    requires existing.value.assignment.grantedAt <= c.revokedAt
    ensures AssignmentOk(s', k)
  {
  }

  lemma RevokeCommitGuard(
    s: Store, s': Store, c: RevokeCommand, row: IndexRow, existing: Versioned<StoredAssignment>, guard: Versioned<StoredTuple>,
    k: GuardKey)
    requires s.TransactRevoke(row, c, existing, guard) == Some(s') && k in s'.guards && GuardOk(s, k)
    requires s.assignments[AssignmentKey(row.location, c.assignmentId)] == existing
    requires GuardRead(s, GuardKey(row.location, existing.value.assignment.role), Some(guard))
    ensures GuardOk(s', k)
  {
  }

  /** The revoked assignment was the one its guard named, so retiring the guard strands no other active assignment. */
  lemma RevokeCommitFreesTuple(
    s: Store, s': Store, c: RevokeCommand, row: IndexRow, existing: Versioned<StoredAssignment>, guard: Versioned<StoredTuple>,
    location: Location, role: Text, id: Text)
    requires s.TransactRevoke(row, c, existing, guard) == Some(s')
    requires GuardRead(s, GuardKey(row.location, existing.value.assignment.role), Some(guard))
    requires Holds(s', location, role, id) && (Holds(s, location, role, id) ==> Names(s, location, role, id))
    ensures Names(s', location, role, id)
  {
  }

  lemma RevokeCommitAudits(
    s: Store, s': Store, c: RevokeCommand, row: IndexRow, existing: Versioned<StoredAssignment>, guard: Versioned<StoredTuple>,
    k: AssignmentKey)
    requires s.TransactRevoke(row, c, existing, guard) == Some(s') && AuditsOf(s, k)
    requires s.assignments[AssignmentKey(row.location, c.assignmentId)] == existing
    ensures AuditsOf(s', k)
  {
  }

  lemma RevokeCommitEvolves(
    s: Store, s': Store, c: RevokeCommand, row: IndexRow, existing: Versioned<StoredAssignment>, guard: Versioned<StoredTuple>)
    requires s.TransactRevoke(row, c, existing, guard) == Some(s') && RevokeOk(s, c, RevokeCommit(row, existing, guard))
    ensures Evolves(s, s') && RevokeOk(s', c, RevokeReadBack(row))
  {
  }

  lemma RevokeStepSafe(s: Store, c: RevokeCommand, pc: RevokePc, rejection: Rejection)
    requires StoreInv(s) && RevokeOk(s, c, pc)
    ensures var (s', pc') := RevokeStep(s, c, pc, rejection);
            StoreInv(s') && Evolves(s, s') && RevokeOk(s', c, pc')
  {
    if pc.RevokeCommit? && s.TransactRevoke(pc.row, c, pc.existing, pc.guard).Some? {
      RevokeCommitKeeps(s, RevokeStep(s, c, pc, rejection).0, c, pc.row, pc.existing, pc.guard);
    } else {
      RevokeReadStep(s, c, pc, rejection);
    }
  }

  lemma RevokeReadStep(s: Store, c: RevokeCommand, pc: RevokePc, rejection: Rejection)
    requires StoreInv(s) && RevokeOk(s, c, pc)
    requires pc.RevokeCommit? ==> s.TransactRevoke(pc.row, c, pc.existing, pc.guard).None?
    ensures var (s', pc') := RevokeStep(s, c, pc, rejection); s' == s && RevokeOk(s, c, pc') && Evolves(s, s)
  {
    hide AuditsOf, Names, Holds, AssignmentOk, GuardOk, IndexesOk;
    if pc.RevokeLocate? {
      RevokeLocates(s, c);
    } else if pc.RevokeReadRecord? || pc.RevokeReadBack? {
      RevokeReadsRecord(s, c, pc.row);
    } else if pc.RevokeReadGuard? {
      RevokeFindsGuard(s, c, pc.row, pc.existing);
    }
  }

  lemma RevokeLocates(s: Store, c: RevokeCommand)
    requires IndexesOk(s)
    ensures c.Pointer() in s.pointers ==> KeyOfPointer(s.pointers[c.Pointer()]) == c.Pointer()
  {
  }

  lemma RevokeReadsRecord(s: Store, c: RevokeCommand, row: IndexRow)
    requires StoreInv(s) && s.PointerAt(c.Pointer()) == Some(row) && KeyOfPointer(row) == c.Pointer()
    ensures var k := AssignmentKey(row.location, c.assignmentId);
            k in s.assignments ==>
              && IsAssignmentOf(s.assignments[k].value, row.location, c.assignmentId, row.role)
              && s.assignments[k].version < s.nextVersion && LifecycleOk(s.assignments[k].value)
  {
    hide AuditsOf, Names, Holds, GuardOk, IndexesOk;
    var k := AssignmentKey(row.location, c.assignmentId);
    assert k in s.assignments ==> AssignmentOk(s, k);
  }

  /** A guard is never missing once an assignment was granted for its tuple. */
  lemma RevokeFindsGuard(s: Store, c: RevokeCommand, row: IndexRow, existing: Versioned<StoredAssignment>)
    requires StoreInv(s) && RevokeOk(s, c, RevokeReadGuard(row, existing))
    ensures var k := GuardKey(row.location, existing.value.assignment.role);
            k in s.guards && IsTupleOf(s.guards[k].value, k.location, k.role) && s.guards[k].version < s.nextVersion
  {
    hide AuditsOf, Names, Holds, IndexesOk;
    assert AssignmentOk(s, AssignmentKey(row.location, c.assignmentId));
    assert GuardOk(s, GuardKey(row.location, existing.value.assignment.role));
  }
}
