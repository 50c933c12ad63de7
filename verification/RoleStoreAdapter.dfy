/**
 * The role store called without interference: what each audited mutation answers, exactly, and
 * the one-off rebuild of the role-holder index.
 */
module RoleStoreAdapter {
  import opened Prelude
  import opened RoleRecords
  import opened RoleStore
  import opened RoleStoreSafety
  import opened RoleReads
  import opened RoleRebuild
  import opened RoleSeeding

  // ---------------------------------------------------------------- what a grant answers

  /** The id already points at another location or role. */
  predicate UsedElsewhere(s: Store, c: GrantCommand) {
    KeyOfPointer(c.Row()) in s.pointers && s.pointers[KeyOfPointer(c.Row())] != c.Row()
  }

  /** The answer of a grant in terms of the records alone. */
  ghost function GrantAnswer(s: Store, c: GrantCommand): GrantResult {
    if !(c.assignment.lifecycle.Active? && 0 <= c.assignment.grantedAt <= 0x1F_FFFF_FFFF_FFFF) then GrantInvalid
    else if UsedElsewhere(s, c) then GrantRefused(AssignmentIdTaken)
    else if HeldByAnother(s, c) then GrantRefused(ActiveTuple)
    else if c.Key() in s.assignments then
      if s.assignments[c.Key()].value.grantEventId == c.auditEventId
      then GrantUnchanged(s.assignments[c.Key()]) else GrantRefused(EventIdDiffers)
    else
      var place := Location(c.applicationId, c.assignment.principalId, c.assignment.scope);
      Granted(Versioned(StoredAssignment(place, c.assignment, c.auditEventId, None), s.nextVersion))
  }

  /** A granted assignment is added with its guard and audit position; any other answer leaves every record alone. */
  ghost predicate GrantEffect(s: Store, t: Store, c: GrantCommand) {
    if GrantAnswer(s, c).Granted? then
      && t.assignments == s.assignments[c.Key() := Versioned(c.Record(), s.nextVersion)]
      && t.guards.Keys == s.guards.Keys + {c.Guard()}
      && (forall k | k in s.guards && k != c.Guard() :: t.guards[k] == s.guards[k])
      && Names(t, c.Place(), c.assignment.role, c.assignment.id)
      && t.audits == s.audits[AuditKey(c.Place(), c.assignment.id, 1) := StoredAudit(c.Place(), c.assignment.id, 1, c.auditEventId)]
    else t.assignments == s.assignments && t.guards == s.guards && t.audits == s.audits
  }

  /** A grant of an id that is not elsewhere leaves its pointer and its role-holder row, and no other. */
  ghost predicate IndexEffect(s: Store, t: Store, c: GrantCommand) {
    if c.assignment.lifecycle.Active? && 0 <= c.assignment.grantedAt <= 0x1F_FFFF_FFFF_FFFF && !UsedElsewhere(s, c) then
      var row := IndexRow(Location(c.applicationId, c.assignment.principalId, c.assignment.scope), c.assignment.id, c.assignment.role);
      && t.pointers == s.pointers[PointerKey(c.applicationId, c.assignment.id) := row]
      && t.holders == s.holders[KeyOfHolder(row) := row]
    else t.pointers == s.pointers && t.holders == s.holders
  }

  ghost predicate IndexOnTrack(s: Store, t: Store, c: GrantCommand, pc: GrantPc) {
    match pc
    case GrantWritePointer => t.pointers == s.pointers && t.holders == s.holders && c.WellFormed()
    case GrantWriteHolder =>
      && t.pointers == s.pointers[KeyOfPointer(c.Row()) := c.Row()] && t.holders == s.holders && c.WellFormed() && !UsedElsewhere(s, c)
    case _ => IndexEffect(s, t, c)
  }

  lemma IndexTrack(s: Store, t: Store, c: GrantCommand, pc: GrantPc, rejection: Rejection)
    requires IndexesOk(t) && IndexOnTrack(s, t, c, pc)
    ensures var (t', pc') := GrantStep(t, c, pc, rejection); IndexOnTrack(s, t', c, pc')
  {
    hide *;
    if pc.GrantWritePointer? {
      PointerTrack(s, t, c, rejection);
    } else if pc.GrantWriteHolder? {
      HolderTrack(s, t, c, rejection);
    } else {
      LaterIndexTrack(s, t, c, pc, rejection);
    }
  }

  lemma PointerTrack(s: Store, t: Store, c: GrantCommand, rejection: Rejection)
    requires IndexesOk(t) && IndexOnTrack(s, t, c, GrantWritePointer)
    ensures var (t', pc') := GrantStep(t, c, GrantWritePointer, rejection); IndexOnTrack(s, t', c, pc')
  {
    var k := KeyOfPointer(c.Row());
    assert k in s.pointers ==> s.pointers[k := s.pointers[k]] == s.pointers;
  }

  lemma HolderTrack(s: Store, t: Store, c: GrantCommand, rejection: Rejection)
    requires IndexesOk(t) && IndexOnTrack(s, t, c, GrantWriteHolder)
    ensures var (t', pc') := GrantStep(t, c, GrantWriteHolder, rejection); IndexOnTrack(s, t', c, pc')
  {
    var k := KeyOfHolder(c.Row());
    assert k in s.holders ==> s.holders[k := s.holders[k]] == s.holders;
  }

  lemma LaterIndexTrack(s: Store, t: Store, c: GrantCommand, pc: GrantPc, rejection: Rejection)
    requires IndexOnTrack(s, t, c, pc) && !pc.GrantWritePointer? && !pc.GrantWriteHolder?
    ensures var (t', pc') := GrantStep(t, c, pc, rejection); IndexOnTrack(s, t', c, pc')
  {
    hide IndexEffect, IsTupleOf, IsAssignmentOf;
    IndexesKept(s, t, GrantStep(t, c, pc, rejection).0, c);
  }

  lemma IndexesKept(s: Store, t: Store, u: Store, c: GrantCommand)
    requires IndexEffect(s, t, c) && u.pointers == t.pointers && u.holders == t.holders
    ensures IndexEffect(s, u, c)
  {
    hide UsedElsewhere;
  }

  /** What an uninterrupted grant begun in `s` has established. */
  ghost predicate GrantOnTrack(s: Store, t: Store, c: GrantCommand, pc: GrantPc) {
    match pc
    case GrantReadBack => GrantEffect(s, t, c) && GrantAnswer(s, c).Granted?
    case GrantReadLanded => false
    case GrantDone(result) => GrantEffect(s, t, c) && result == GrantAnswer(s, c)
    case _ =>
      && t.assignments == s.assignments && t.guards == s.guards && t.audits == s.audits && t.nextVersion == s.nextVersion
      && c.WellFormed()
      && (!pc.GrantWritePointer? ==> !UsedElsewhere(s, c))
      && (pc.GrantWritePointer? ==> t == s)
      && (pc.GrantReadExisting? || pc.GrantCommit? ==> t.GuardAt(c.Guard()) == pc.guard && !HeldByAnother(s, c))
      && (pc.GrantCommit? ==> c.Key() !in s.assignments)
  }

  lemma GrantTrack(s: Store, t: Store, c: GrantCommand, pc: GrantPc, rejection: Rejection)
    requires StoreInv(t) && GrantOk(t, c, pc) && GrantOnTrack(s, t, c, pc) && !pc.GrantDone?
    requires StoreInv(s)
    ensures var (t', pc') := GrantStep(t, c, pc, rejection); GrantOnTrack(s, t', c, pc')
  {
    hide *;
    if pc.GrantReadGuard? {
      GrantReadsFreeTuple(s, t, c, pc, rejection);
    } else if pc.GrantWritePointer? || pc.GrantWriteHolder? {
      GrantTrackIndexes(s, t, c, pc, rejection);
    } else if pc.GrantReadExisting? {
      GrantTrackExisting(s, t, c, pc, rejection);
    } else {
      GrantTrackEnd(s, t, c, pc, rejection);
    }
  }

  lemma GrantTrackIndexes(s: Store, t: Store, c: GrantCommand, pc: GrantPc, rejection: Rejection)
    requires StoreInv(t) && GrantOk(t, c, pc) && GrantOnTrack(s, t, c, pc) && (pc.GrantWritePointer? || pc.GrantWriteHolder?)
    ensures var (t', pc') := GrantStep(t, c, pc, rejection); GrantOnTrack(s, t', c, pc')
  {
    hide StoreInv, HeldByAnother, Evolves;
    GrantStepSafe(t, c, pc, rejection);
  }

  lemma GrantTrackExisting(s: Store, t: Store, c: GrantCommand, pc: GrantPc, rejection: Rejection)
    requires StoreInv(t) && GrantOk(t, c, pc) && GrantOnTrack(s, t, c, pc) && pc.GrantReadExisting?
    ensures var (t', pc') := GrantStep(t, c, pc, rejection); GrantOnTrack(s, t', c, pc')
  {
    hide StoreInv, HeldByAnother;
    GrantStepSafe(t, c, pc, rejection);
    hide Evolves;
  }

  lemma GrantReadsFreeTuple(s: Store, t: Store, c: GrantCommand, pc: GrantPc, rejection: Rejection)
    requires StoreInv(s) && StoreInv(t) && GrantOk(t, c, pc) && GrantOnTrack(s, t, c, pc) && pc.GrantReadGuard?
    ensures var (t', pc') := GrantStep(t, c, pc, rejection); GrantOnTrack(s, t', c, pc')
  {
    hide StoreInv, HeldByAnother;
    OccupantIsHolder(s, c);
    GrantStepSafe(t, c, pc, rejection);
    hide Evolves;
  }

  lemma GrantTrackEnd(s: Store, t: Store, c: GrantCommand, pc: GrantPc, rejection: Rejection)
    requires StoreInv(t) && GrantOk(t, c, pc) && GrantOnTrack(s, t, c, pc) && !pc.GrantDone?
    requires pc.GrantCommit? || pc.GrantReadLanded? || pc.GrantReadBack?
    ensures var (t', pc') := GrantStep(t, c, pc, rejection); GrantOnTrack(s, t', c, pc')
  {
    hide *;
    if pc.GrantCommit? {
      GrantTrackCommit(s, t, c, pc, rejection);
    } else {
      GrantTrackReadBack(s, t, c, pc, rejection);
    }
  }

  lemma GrantTrackCommit(s: Store, t: Store, c: GrantCommand, pc: GrantPc, rejection: Rejection)
    requires StoreInv(t) && GrantOk(t, c, pc) && GrantOnTrack(s, t, c, pc) && pc.GrantCommit?
    ensures var (t', pc') := GrantStep(t, c, pc, rejection); GrantOnTrack(s, t', c, pc')
  {
    hide StoreInv, HeldByAnother, GrantOk;
    FreeGrantCommits(s, t, c, pc.guard);
  }

  lemma GrantTrackReadBack(s: Store, t: Store, c: GrantCommand, pc: GrantPc, rejection: Rejection)
    requires StoreInv(t) && GrantOk(t, c, pc) && GrantOnTrack(s, t, c, pc) && (pc.GrantReadLanded? || pc.GrantReadBack?)
    ensures var (t', pc') := GrantStep(t, c, pc, rejection); GrantOnTrack(s, t', c, pc')
  {
    hide StoreInv, HeldByAnother, Evolves;
    GrantStepSafe(t, c, pc, rejection);
  }

  /** The guard's occupant is the tuple's holder. */
  lemma OccupantIsHolder(s: Store, c: GrantCommand)
    requires StoreInv(s)
    ensures HeldByAnother(s, c) <==>
            && c.Guard() in s.guards && s.guards[c.Guard()].value.activeId.Some?
            && s.guards[c.Guard()].value.activeId.value != c.assignment.id
  {
    hide AuditsOf, AssignmentOk, IndexesOk;
    if HeldByAnother(s, c) {
      var id :| id != c.assignment.id && Holds(s, c.Place(), c.assignment.role, id);
      assert Names(s, c.Place(), c.assignment.role, id);
    }
    if c.Guard() in s.guards {
      assert GuardOk(s, c.Guard());
    }
  }

  lemma FreeGrantCommits(s: Store, t: Store, c: GrantCommand, guard: Option<Versioned<StoredTuple>>)
    requires StoreInv(t) && GrantOnTrack(s, t, c, GrantCommit(guard))
    ensures t.TransactGrant(c, guard).Some?
  {
    hide AssignmentOk, GuardOk, IndexesOk, Names;
    assert AuditsOf(t, c.Key());
  }

  // ---------------------------------------------------------------- what a revoke answers

  function RecordOf(s: Store, c: RevokeCommand): Option<Versioned<StoredAssignment>> {
    if c.Pointer() in s.pointers then s.AssignmentAt(AssignmentKey(s.pointers[c.Pointer()].location, c.assignmentId)) else None
  }

  /** The answer of a revoke in terms of the assignment record alone. */
  function RevokeAnswer(s: Store, c: RevokeCommand): RevokeResult {
    if !(0 <= c.revokedAt <= 0x1F_FFFF_FFFF_FFFF) then RevokeInvalid
    else
      match RecordOf(s, c)
      case None => RevokeNotFound
      case Some(record) =>
        if record.value.assignment.lifecycle.Revoked? then
          if RevokedBy(record.value, c) then RevokeUnchanged(record) else RevokeRefused(LifecycleConflict)
        else if record.version != c.expectedToken then RevokeRefused(ConcurrencyConflict)
        else if c.revokedAt < record.value.assignment.grantedAt then RevokeRefused(LifecycleConflict)
        else
          var was := record.value;
          RevokeCommitted(
            Versioned(
              StoredAssignment(
                was.location, was.assignment.(lifecycle := Revoked(c.revokedBy, c.revokedAt, c.reason)), was.grantEventId,
                Some(c.auditEventId)),
              s.nextVersion))
  }

  /** A committed revoke ends that one lifecycle, frees its tuple and adds its audit position; nothing else changes. */
  ghost predicate RevokeEffect(s: Store, t: Store, c: RevokeCommand) {
    if RevokeAnswer(s, c).RevokeCommitted? then
      var before := RecordOf(s, c).value.value;
      var key := AssignmentKey(before.location, c.assignmentId);
      var audit := AuditKey(before.location, c.assignmentId, 2);
      && t.assignments == s.assignments[key := RevokeAnswer(s, c).record]
      && t.guards.Keys == s.guards.Keys
      && (forall k | k in s.guards && k != GuardKey(before.location, before.assignment.role) :: t.guards[k] == s.guards[k])
      && (forall id :: !Holds(t, before.location, before.assignment.role, id))
      && t.audits == s.audits[audit := StoredAudit(before.location, c.assignmentId, 2, c.auditEventId)]
      && t.pointers == s.pointers && t.holders == s.holders
    else t == s
  }

  /** What an uninterrupted revoke begun in `s` has established. */
  ghost predicate RevokeOnTrack(s: Store, t: Store, c: RevokeCommand, pc: RevokePc) {
    match pc
    case RevokeLocate => t == s && c.WellFormed()
    case RevokeReadRecord(row) => t == s && c.WellFormed() && s.PointerAt(c.Pointer()) == Some(row)
    case RevokeReadGuard(row, existing) => t == s && ToCommit(s, c, row, existing)
    case RevokeCommit(row, existing, guard) =>
      && t == s && ToCommit(s, c, row, existing)
      && s.GuardAt(GuardKey(row.location, existing.value.assignment.role)) == Some(guard)
    case RevokeReadBack(row) => RevokeEffect(s, t, c) && RevokeAnswer(s, c).RevokeCommitted? && s.PointerAt(c.Pointer()) == Some(row)
    case RevokeDone(result) => RevokeEffect(s, t, c) && result == RevokeAnswer(s, c)
  }

  predicate ToCommit(s: Store, c: RevokeCommand, row: IndexRow, existing: Versioned<StoredAssignment>) {
    && RevokeAnswer(s, c).RevokeCommitted? && s.PointerAt(c.Pointer()) == Some(row) && RecordOf(s, c) == Some(existing)
    && existing.value.location == row.location
  }

  lemma RevokeTrack(s: Store, t: Store, c: RevokeCommand, pc: RevokePc, rejection: Rejection)
    requires StoreInv(t) && RevokeOk(t, c, pc) && RevokeOnTrack(s, t, c, pc) && !pc.RevokeDone?
    ensures var (t', pc') := RevokeStep(t, c, pc, rejection); RevokeOnTrack(s, t', c, pc')
  {
    hide StoreInv;
    if pc.RevokeReadRecord? {
      RevokeDecides(s, c, pc.row, rejection);
    } else if pc.RevokeCommit? {
      RevokeFreesTuple(s, c, pc.row, pc.existing, pc.guard);
      hide RevokeEffect, RevokeOk;
    } else {
      RevokeStepSafe(t, c, pc, rejection);
      hide Evolves, RevokeEffect;
    }
  }

  lemma RevokeDecides(s: Store, c: RevokeCommand, row: IndexRow, rejection: Rejection)
    requires StoreInv(s) && RevokeOk(s, c, RevokeReadRecord(row)) && RevokeOnTrack(s, s, c, RevokeReadRecord(row))
    ensures var (t', pc') := RevokeStep(s, c, RevokeReadRecord(row), rejection);
            t' == s && RevokeOnTrack(s, s, c, pc')
  {
    RevokeReadsRecord(s, c, row);
    hide StoreInv, RevokeOk;
  }

  /** The revoke's transaction is not refused, and afterwards nobody holds the tuple. */
  lemma RevokeFreesTuple(s: Store, c: RevokeCommand, row: IndexRow, existing: Versioned<StoredAssignment>, guard: Versioned<StoredTuple>)
    requires StoreInv(s) && RevokeOk(s, c, RevokeCommit(row, existing, guard))
    requires RevokeOnTrack(s, s, c, RevokeCommit(row, existing, guard))
    ensures s.TransactRevoke(row, c, existing, guard).Some?
    ensures RevokeEffect(s, s.TransactRevoke(row, c, existing, guard).value, c)
  {
    hide AssignmentOk, GuardOk, IndexesOk;
    assert AuditsOf(s, AssignmentKey(row.location, c.assignmentId));
    assert Holds(s, row.location, existing.value.assignment.role, c.assignmentId);
    assert Names(s, row.location, existing.value.assignment.role, c.assignmentId);
    var t := s.TransactRevoke(row, c, existing, guard).value;
    forall id ensures !Holds(t, row.location, existing.value.assignment.role, id) {
      assert Holds(s, row.location, existing.value.assignment.role, id) ==> Names(s, row.location, existing.value.assignment.role, id);
    }
  }

  // ---------------------------------------------------------------- following an undisturbed call

  /** An undisturbed grant begun in `s` has come to `t` and stands at `pc`. */
  ghost predicate GrantSoFar(s: Store, t: Store, c: GrantCommand, pc: GrantPc) {
    StoreInv(s) && StoreInv(t) && Evolves(s, t) && GrantOk(t, c, pc) && GrantOnTrack(s, t, c, pc) && IndexOnTrack(s, t, c, pc)
  }

  lemma GrantBegins(s: Store, c: GrantCommand)
    requires StoreInv(s)
    ensures GrantSoFar(s, s, c, BeginGrant(c))
  {
    EvolvesReflexive(s);
    hide StoreInv, Evolves;
  }

  lemma GrantGoesOn(s: Store, t: Store, c: GrantCommand, pc: GrantPc, rejection: Rejection)
    requires GrantSoFar(s, t, c, pc) && !pc.GrantDone?
    ensures var (t', pc') := GrantStep(t, c, pc, rejection); GrantSoFar(s, t', c, pc')
  {
    hide StoreInv, Evolves, GrantOk, GrantOnTrack, IndexOnTrack, GrantStep;
    GrantTrack(s, t, c, pc, rejection);
    IndexesOfStore(t);
    IndexTrack(s, t, c, pc, rejection);
    GrantStepSafe(t, c, pc, rejection);
    EvolvesTransitive(s, t, GrantStep(t, c, pc, rejection).0);
  }

  lemma IndexesOfStore(s: Store)
    requires StoreInv(s)
    ensures IndexesOk(s)
  {
    hide IndexesOk;
  }

  lemma GrantEnds(s: Store, t: Store, c: GrantCommand, result: GrantResult)
    requires GrantSoFar(s, t, c, GrantDone(result))
    ensures StoreInv(t) && Evolves(s, t) && result == GrantAnswer(s, c) && GrantEffect(s, t, c) && IndexEffect(s, t, c)
  {
    hide StoreInv, Evolves, GrantOk, GrantAnswer, GrantEffect, IndexEffect;
  }

  ghost predicate RevokeSoFar(s: Store, t: Store, c: RevokeCommand, pc: RevokePc) {
    StoreInv(t) && Evolves(s, t) && RevokeOk(t, c, pc) && RevokeOnTrack(s, t, c, pc)
  }

  lemma RevokeBegins(s: Store, c: RevokeCommand)
    requires StoreInv(s)
    ensures RevokeSoFar(s, s, c, BeginRevoke(c))
  {
    EvolvesReflexive(s);
    hide StoreInv, Evolves;
  }

  lemma RevokeGoesOn(s: Store, t: Store, c: RevokeCommand, pc: RevokePc, rejection: Rejection)
    requires RevokeSoFar(s, t, c, pc) && !pc.RevokeDone?
    ensures var (t', pc') := RevokeStep(t, c, pc, rejection); RevokeSoFar(s, t', c, pc')
  {
    hide StoreInv, Evolves, RevokeOk, RevokeOnTrack, RevokeStep;
    RevokeTrack(s, t, c, pc, rejection);
    RevokeStepSafe(t, c, pc, rejection);
    EvolvesTransitive(s, t, RevokeStep(t, c, pc, rejection).0);
  }

  lemma RevokeEnds(s: Store, t: Store, c: RevokeCommand, result: RevokeResult)
    requires RevokeSoFar(s, t, c, RevokeDone(result))
    ensures StoreInv(t) && Evolves(s, t) && result == RevokeAnswer(s, c) && RevokeEffect(s, t, c)
  {
    hide StoreInv, Evolves, RevokeOk, RevokeAnswer, RevokeEffect;
  }

  // ---------------------------------------------------------------- seeding

  /** Where a role was never assigned, a grant of it is refused only for an id that is another assignment's. */
  lemma UnseededAnswer(s: Store, c: GrantCommand)
    requires StoreInv(s) && !EverAssigned(s, c.Place(), c.assignment.role)
    ensures GrantAnswer(s, c) == if !c.WellFormed() then GrantInvalid
                                 else if UsedElsewhere(s, c) then GrantRefused(AssignmentIdTaken)
                                 else Granted(Versioned(c.Record(), s.nextVersion))
  {
    hide AuditsOf, GuardOk, IndexesOk, Names;
    if c.Key() in s.assignments {
      assert AssignmentOk(s, c.Key());
    }
  }

  lemma SeededHolds(s: Store, t: Store, c: GrantCommand)
    requires GrantAnswer(s, c).Granted? && GrantEffect(s, t, c)
    ensures Holds(t, c.Place(), c.assignment.role, c.assignment.id)
  {
    hide Names, HeldByAnother;
  }

  /** What a refused grant makes of the record that landed instead. */
  function LandedAnswer(c: GrantCommand, landed: Option<Versioned<StoredAssignment>>): GrantResult {
    if landed.None? then GrantRefused(ActiveTuple)
    else if !IsAssignmentOf(landed.value.value, c.Place(), c.assignment.id, c.assignment.role) then GrantCorrupt
    else if landed.value.value.grantEventId == c.auditEventId then GrantUnchanged(landed.value)
    else GrantRefused(AssignmentIdTaken)
  }

  /** The backend a role store is bound to, and the operations that run against it undisturbed. */
  class BoundStore {
    var store: Store

    constructor ()
      ensures store == EMPTY_STORE && StoreInv(store)
    {
      store := EMPTY_STORE;
    }

    /** `rejection` is the reason the backend would give for refusing the transaction. */
    method GrantRoleAssignmentWithAudit(c: GrantCommand, rejection: Rejection) returns (result: GrantResult)
      requires StoreInv(store)
      modifies this
      ensures StoreInv(store) && Evolves(old(store), store)
      ensures result == GrantAnswer(old(store), c) && GrantEffect(old(store), store, c) && IndexEffect(old(store), store, c)
    {
      hide StoreInv, Evolves, GrantOk, GrantSoFar, GrantAnswer, GrantEffect, IndexEffect;
      ghost var before := store;
      GrantBegins(before, c);
      if !c.WellFormed() {
        GrantEnds(before, store, c, GrantInvalid);
        return GrantInvalid;
      }

      GrantGoesOn(before, store, c, GrantWritePointer, rejection);
      var (withPointer, pointer, pointerInserted) := store.InsertPointer(c.Row());
      store := withPointer;
      if KeyOfPointer(pointer) != KeyOfPointer(c.Row()) {
        GrantEnds(before, store, c, GrantCorrupt);
        return GrantCorrupt;
      }
      if !pointerInserted && pointer != c.Row() {
        GrantEnds(before, store, c, GrantRefused(AssignmentIdTaken));
        return GrantRefused(AssignmentIdTaken);
      }

      GrantGoesOn(before, store, c, GrantWriteHolder, rejection);
      var (withHolder, holder, _) := store.InsertHolder(c.Row());
      store := withHolder;
      if holder != c.Row() {
        GrantEnds(before, store, c, GrantCorrupt);
        return GrantCorrupt;
      }

      GrantGoesOn(before, store, c, GrantReadGuard, rejection);
      var guard := store.GuardAt(c.Guard());
      if guard.Some? && !IsTupleOf(guard.value.value, c.Place(), c.assignment.role) {
        GrantEnds(before, store, c, GrantCorrupt);
        return GrantCorrupt;
      }
      if guard.Some? && guard.value.value.activeId.Some? && guard.value.value.activeId.value != c.assignment.id {
        GrantEnds(before, store, c, GrantRefused(ActiveTuple));
        return GrantRefused(ActiveTuple);
      }

      GrantGoesOn(before, store, c, GrantReadExisting(guard), rejection);
      var existing := store.AssignmentAt(c.Key());
      if existing.Some? {
        result := if !IsAssignmentOf(existing.value.value, c.Place(), c.assignment.id, c.assignment.role) then GrantCorrupt
                  else if existing.value.value.grantEventId == c.auditEventId then GrantUnchanged(existing.value)
                  else GrantRefused(EventIdDiffers);
        GrantEnds(before, store, c, result);
        return result;
      }

      GrantGoesOn(before, store, c, GrantCommit(guard), rejection);
      var outcome := store.TransactGrant(c, guard);
      if outcome.None? {
        if rejection != Exists {
          GrantEnds(before, store, c, GrantRefused(ActiveTuple));
          return GrantRefused(ActiveTuple);
        }
        GrantGoesOn(before, store, c, GrantReadLanded, rejection);
        var landed := store.AssignmentAt(c.Key());
        result := LandedAnswer(c, landed);
        GrantEnds(before, store, c, result);
        return result;
      }
      store := outcome.value;

      GrantGoesOn(before, store, c, GrantReadBack, rejection);
      var written := store.AssignmentAt(c.Key());
      result := if written.None? || !IsAssignmentOf(written.value.value, c.Place(), c.assignment.id, c.assignment.role)
                then GrantCorrupt else Granted(written.value);
      GrantEnds(before, store, c, result);
    }

    method RevokeRoleAssignmentWithAudit(c: RevokeCommand, rejection: Rejection) returns (result: RevokeResult)
      requires StoreInv(store)
      modifies this
      ensures StoreInv(store) && Evolves(old(store), store)
      ensures result == RevokeAnswer(old(store), c) && RevokeEffect(old(store), store, c)
    {
      hide StoreInv, Evolves, RevokeOk, RevokeSoFar, RevokeAnswer, RevokeEffect;
      ghost var before := store;
      RevokeBegins(before, c);
      if !c.WellFormed() {
        RevokeEnds(before, store, c, RevokeInvalid);
        return RevokeInvalid;
      }

      RevokeGoesOn(before, store, c, RevokeLocate, rejection);
      var location := store.PointerAt(c.Pointer());
      if location.None? || KeyOfPointer(location.value) != c.Pointer() {
        result := if location.None? then RevokeNotFound else RevokeCorrupt;
        RevokeEnds(before, store, c, result);
        return result;
      }
      var row := location.value;

      RevokeGoesOn(before, store, c, RevokeReadRecord(row), rejection);
      var found := store.AssignmentAt(AssignmentKey(row.location, c.assignmentId));
      if found.None? || !IsAssignmentOf(found.value.value, row.location, c.assignmentId, row.role) {
        result := if found.None? then RevokeNotFound else RevokeCorrupt;
        RevokeEnds(before, store, c, result);
        return result;
      }
      var existing := found.value;
      var current := existing.value.assignment;
      if current.lifecycle.Revoked? {
        result :=
          if existing.value.revokeEventId != Some(c.auditEventId) || current.lifecycle != Revoked(c.revokedBy, c.revokedAt, c.reason)
          then RevokeRefused(LifecycleConflict) else RevokeUnchanged(existing);
        RevokeEnds(before, store, c, result);
        return result;
      }
      if existing.version != c.expectedToken {
        RevokeEnds(before, store, c, RevokeRefused(ConcurrencyConflict));
        return RevokeRefused(ConcurrencyConflict);
      }
      if c.revokedAt < current.grantedAt {
        RevokeEnds(before, store, c, RevokeRefused(LifecycleConflict));
        return RevokeRefused(LifecycleConflict);
      }

      RevokeGoesOn(before, store, c, RevokeReadGuard(row, existing), rejection);
      var guard := store.GuardAt(GuardKey(row.location, current.role));
      if guard.None? || !IsTupleOf(guard.value.value, row.location, current.role) {
        RevokeEnds(before, store, c, RevokeCorrupt);
        return RevokeCorrupt;
      }

      RevokeGoesOn(before, store, c, RevokeCommit(row, existing, guard.value), rejection);
      var outcome := store.TransactRevoke(row, c, existing, guard.value);
      if outcome.None? {
        result := RevokeRefused(
          match rejection
          case Changed => ConcurrencyConflict
          case Exists => EventIdConflict
          case Missing => LifecycleConflict);
        RevokeEnds(before, store, c, result);
        return result;
      }
      store := outcome.value;

      RevokeGoesOn(before, store, c, RevokeReadBack(row), rejection);
      var written := store.AssignmentAt(AssignmentKey(row.location, c.assignmentId));
      result := if written.None? || !IsAssignmentOf(written.value.value, row.location, c.assignmentId, row.role)
                   || written.value.value.revokeEventId.None?
                then RevokeCorrupt else RevokeCommitted(written.value);
      RevokeEnds(before, store, c, result);
    }

    /**
     * `ensureSeededAssignment`: seeds a role for a principal unless there has ever been an assignment of it there. A
     * conflict says that the manifest's id is another assignment's, and changes no record.
     */
    method EnsureSeededAssignment(c: GrantCommand, rejection: Rejection) returns (result: SeedResult)
      requires StoreInv(store)
      modifies this
      ensures StoreInv(store) && Evolves(old(store), store)
      ensures EverAssigned(old(store), c.Place(), c.assignment.role) ==> result == AlreadySeeded && store == old(store)
      ensures !EverAssigned(old(store), c.Place(), c.assignment.role) && c.WellFormed() ==>
                result == if UsedElsewhere(old(store), c) then SeedConflict else Seeded
      ensures result != Seeded ==> store.assignments == old(store).assignments
      ensures result == Seeded ==> Holds(store, c.Place(), c.assignment.role, c.assignment.id)
    {
      EvolvesReflexive(store);
      if EverAssigned(store, c.Place(), c.assignment.role) {
        return AlreadySeeded;
      }
      UnseededAnswer(store, c);
      ghost var before := store;
      var answer := GrantRoleAssignmentWithAudit(c, rejection);
      hide StoreInv, Evolves, GrantAnswer;
      match answer
      case Granted(_) =>
        SeededHolds(before, store, c);
        return Seeded;
      case GrantUnchanged(_) => return AlreadySeeded;
      case GrantInvalid => return SeedInvalid;
      case _ => return SeedConflict;
    }

    /** A principal listing: reads the partition's rows, confirms each, and returns the assignments among them. */
    method ListRoleAssignments(location: Location) returns (found: map<Text, Assignment>)
      requires StoreInv(store)
      ensures forall id, a :: (id in found && found[id] == a) <==> IsStoredAt(store, location, id, a)
    {
      hide StoreInv, RowIds, RowAt;
      RowsAreThere(store, location);
      var known := RowIds(store, location);
      var rows: map<RowId, Row> := map[];
      while known != {}
        invariant forall id | id in known :: RowAt(store, location, id).Some?
        invariant forall id | id in rows :: RowAt(store, location, id) == Some(rows[id])
        invariant forall id | RowAt(store, location, id).Some? :: id in known || id in rows
        decreases |known|
      {
        var id :| id in known;
        known := known - {id};
        rows := rows[id := RowAt(store, location, id).value];
      }
      found := map[];
      var unconfirmed := rows.Keys;
      while unconfirmed != {}
        invariant unconfirmed <= rows.Keys
        invariant forall a | a in found :: AssignmentId(a) in rows && IsStoredAt(store, location, a, found[a])
        invariant forall a | AssignmentId(a) in rows && AssignmentId(a) !in unconfirmed :: a in found
        decreases |unconfirmed|
      {
        var id :| id in unconfirmed;
        unconfirmed := unconfirmed - {id};
        assert RowAt(store, location, id) == Some(rows[id]);
        FoundRow(store, location, id, rows[id]);
        if rows[id].AssignmentRow? {
          found := found[id.id := rows[id].assignment.assignment];
        }
      }
      forall id, a | IsStoredAt(store, location, id, a) ensures id in found && found[id] == a {
        FindsRow(store, location, id, a);
      }
    }

    /** The by-role read: the active assignments among the holder rows, each decided by its own record. */
    method ListActiveRoleAssignmentsByRole(q: ByRoleQuery) returns (found: map<Text, Assignment>)
      requires StoreInv(store)
      ensures forall id, a :: (id in found && found[id] == a) <==> ActiveAt(store, q, id, a) && q.Key(id) in store.holders
    {
      hide StoreInv, ActiveAt;
      var known := HolderIds(store, q);
      forall id | q.Key(id) in store.holders ensures id in known {
        HolderListed(store, q, id);
      }
      found := map[];
      while known != {}
        invariant forall id | id in known :: q.Key(id) in store.holders
        invariant forall id | id in found :: q.Key(id) in store.holders && ActiveAt(store, q, id, found[id])
        invariant forall id, a | ActiveAt(store, q, id, a) && q.Key(id) in store.holders && id !in known ::
                    id in found && found[id] == a
        decreases |known|
      {
        var id :| id in known;
        known := known - {id};
        RowDecides(store, q, id);
        var row := store.holders[q.Key(id)];
        var pointer := store.pointers[PointerKey(q.applicationId, row.assignmentId)];
        var current := store.AssignmentAt(AssignmentKey(pointer.location, row.assignmentId));
        if current.Some? && current.value.value.assignment.lifecycle.Active? {
          assert ActiveAt(store, q, id, current.value.value.assignment);
          found := found[id := current.value.value.assignment];
        }
      }
    }

    /** Confirms every pointer, then writes the row of each whose assignment exists, counting the rows written. */
    method RebuildRoleHolderIndex(applicationId: Text) returns (recorded: nat)
      requires StoreInv(store)
      modifies this
      ensures StoreInv(store) && Evolves(old(store), store) && HoldersComplete(store, applicationId)
      ensures store == old(store).(holders := store.holders)
      ensures forall k | k in store.holders && k !in old(store).holders :: store.holders[k] in MissingRows(old(store), applicationId)
      ensures recorded == |MissingRows(old(store), applicationId)|
      ensures HoldersComplete(old(store), applicationId) ==> recorded == 0 && store == old(store)
    {
      hide StoreInv, Evolves, HoldersComplete, MissingRows, HasRow;
      ghost var before := store;
      EvolvesReflexive(before);
      var known := PointerIds(store, applicationId);
      PointersKeyed(store, applicationId);
      var confirmed: set<Text> := {};
      while confirmed != known
        invariant confirmed <= known
        decreases known - confirmed
      {
        var id :| id in known && id !in confirmed;
        var pointer := store.pointers[PointerKey(applicationId, id)];
        assert KeyOfPointer(pointer) == PointerKey(applicationId, id) && store.PointerAt(KeyOfPointer(pointer)) == Some(pointer);
        confirmed := confirmed + {id};
      }
      recorded := 0;
      while known != {}
        invariant known <= PointerIds(before, applicationId)
        invariant StoreInv(store) && Evolves(before, store) && store == before.(holders := store.holders)
        invariant Filled(before, store, applicationId)
        invariant forall row | row in MissingRows(store, applicationId) :: row.assignmentId in known
        invariant recorded + |MissingRows(store, applicationId)| == |MissingRows(before, applicationId)|
        decreases known
      {
        var id :| id in known;
        known := known - {id};
        var pointer := store.pointers[PointerKey(applicationId, id)];
        RowOfPointer(store, applicationId, id);
        var k := AssignmentKey(pointer.location, pointer.assignmentId);
        if k in store.assignments {
          RowFills(store, k);
          RowWrite(store, pointer);
          var (next, found, inserted) := store.InsertHolder(pointer);
          FilledOn(before, store, next, applicationId, pointer);
          EvolvesTransitive(before, store, next);
          store := next;
          if inserted {
            recorded := recorded + 1;
          }
        }
      }
      CompleteWhenNoneMissing(store, applicationId);
      CompleteWhenNoneMissing(before, applicationId);
      if MissingRows(before, applicationId) == {} {
        NothingFilled(before, store, applicationId);
      }
    }
  }

  /** The assignment of `id` at `location` is `a`, active or revoked. */
  predicate IsStoredAt(s: Store, location: Location, id: Text, a: Assignment) {
    var k := AssignmentKey(location, id); k in s.assignments && s.assignments[k].value.assignment == a
  }

  lemma FoundRow(s: Store, location: Location, id: RowId, row: Row)
    requires RowAt(s, location, id) == Some(row)
    ensures row.AssignmentRow? <==> id.AssignmentId?
    ensures row.AssignmentRow? ==> IsStoredAt(s, location, id.id, row.assignment.assignment)
  {
  }

  lemma FindsRow(s: Store, location: Location, id: Text, a: Assignment)
    requires IsStoredAt(s, location, id, a)
    ensures RowAt(s, location, AssignmentId(id)).Some?
    ensures forall b | IsStoredAt(s, location, id, b) :: b == a
  {
  }

  /** Rows of `s` are kept, and the new ones are rows that `s` lacked. */
  ghost predicate Filled(s: Store, t: Store, applicationId: Text) {
    && MissingRows(t, applicationId) <= MissingRows(s, applicationId)
    && s.holders.Keys <= t.holders.Keys
    && forall k | k in t.holders ::
         if k in s.holders then t.holders[k] == s.holders[k] else t.holders[k] in MissingRows(s, applicationId)
  }

  lemma FilledOn(s: Store, t: Store, u: Store, applicationId: Text, row: IndexRow)
    requires Filled(s, t, applicationId) && u.holders == t.holders[KeyOfHolder(row) := row]
    requires KeyOfHolder(row) in t.holders ==> t.holders[KeyOfHolder(row)] == row
    requires KeyOfHolder(row) !in t.holders ==> row in MissingRows(t, applicationId)
    requires MissingRows(u, applicationId) <= MissingRows(t, applicationId)
    ensures Filled(s, u, applicationId)
  {
    hide MissingRows;
  }

  lemma NothingFilled(s: Store, t: Store, applicationId: Text)
    requires Filled(s, t, applicationId) && MissingRows(s, applicationId) == {} && t == s.(holders := t.holders)
    ensures t == s
  {
    assert t.holders == s.holders;
  }

  lemma PointersKeyed(s: Store, applicationId: Text)
    requires StoreInv(s)
    ensures forall id | id in PointerIds(s, applicationId) ::
              PointerKey(applicationId, id) in s.pointers && KeyOfPointer(s.pointers[PointerKey(applicationId, id)]) == PointerKey(applicationId, id)
    ensures Filled(s, s, applicationId)
    ensures forall row | row in MissingRows(s, applicationId) :: row.assignmentId in PointerIds(s, applicationId)
  {
    AssignmentsPointed(s, applicationId);
    hide AssignmentOk, AuditsOf, GuardOk, Names, Holds, HasRow;
  }

  /** What an id's pointer leads to: its assignment's row, when there is one. */
  lemma RowOfPointer(s: Store, applicationId: Text, id: Text)
    requires StoreInv(s) && PointerKey(applicationId, id) in s.pointers
    ensures var row := s.pointers[PointerKey(applicationId, id)]; var k := AssignmentKey(row.location, row.assignmentId);
            && row.assignmentId == id && row.location.applicationId == applicationId && KeyOfPointer(row) == PointerKey(applicationId, id)
            && (k in s.assignments ==> RowOf(k, s.assignments[k].value) == row)
            && (k !in s.assignments ==> forall missing | missing in MissingRows(s, applicationId) :: missing.assignmentId != id)
            && (forall missing | missing in MissingRows(s, applicationId) && missing.assignmentId == id :: missing == row)
  {
    var row := s.pointers[PointerKey(applicationId, id)];
    var k := AssignmentKey(row.location, row.assignmentId);
    PointersKeyed(s, applicationId);
    assert id in PointerIds(s, applicationId) by { assert PointerKey(applicationId, id).id == id; }
    forall m | m in s.assignments && m.location.applicationId == applicationId && m.id == id
      ensures m == k && RowOf(m, s.assignments[m].value) == row
    {
      PointedRow(s, m, row);
    }
    hide StoreInv, HasRow, IsAssignmentOf;
  }
}
