/**
 * The administration service: audited revoke behind the last-administrator guard.
 *
 * Serialize, pre-check, revoke, re-verify, compensate. The store-maintained role-holder
 * index supplies the candidates.
 */
module Administration {
  import opened Prelude
  import opened RoleRecords
  import opened RoleStore
  import opened RoleStoreSafety
  import opened RoleReads

  const GUARD_COMPENSATION_SYSTEM_ID: Text := Ascii("last-administrator-guard")
  const SEED_SYSTEM_ID: Text := Ascii("bootstrap")

  datatype Policy = Policy(administratorRole: Text, oneTimeSystemActors: set<Text>)

  datatype ManagedBy = ByHuman | BySystem

  function AssignmentManagedBy(a: Assignment, policy: Policy): ManagedBy {
    match a.grantedBy
    case Principal(_) => ByHuman
    case System(id) =>
      if id == GUARD_COMPENSATION_SYSTEM_ID || id == SEED_SYSTEM_ID || id in policy.oneTimeSystemActors then ByHuman else BySystem
  }

  /** Granted by a system actor that is neither the guard, nor the bootstrap ceremony, nor one-time under the policy. */
  predicate IsLocked(a: Assignment, policy: Policy) {
    && a.grantedBy.System? && a.grantedBy.systemId != Ascii("last-administrator-guard")
    && a.grantedBy.systemId != Ascii("bootstrap") && a.grantedBy.systemId !in policy.oneTimeSystemActors
  }

  lemma LockedIsSystemManaged(a: Assignment, policy: Policy)
    ensures AssignmentManagedBy(a, policy) == BySystem <==> IsLocked(a, policy)
  {
  }

  /** What a person granted, or the guard's compensation did, is never locked. */
  lemma NeverLocked(a: Assignment, policy: Policy, c: RevokeRoleCommand, current: Versioned<StoredAssignment>, choice: Choice)
    ensures a.grantedBy.Principal? ==> !IsLocked(a, policy) && AssignmentManagedBy(a, policy) == ByHuman
    ensures var restored := CompensationGrant(c, current, choice).assignment;
            !IsLocked(restored, policy) && AssignmentManagedBy(restored, policy) == ByHuman
  {
  }

  /** What a step may be given by its surroundings: a backend's wording, an iteration order, a clock, fresh ids. */
  datatype Choice = Choice(
    rejection: Rejection, pick: Option<Text>, row: Option<RowId>, now: Timestamp, id: Text, eventId: Text)

  // ---------------------------------------------------------------- anotherActiveHolderExists

  datatype HolderScan =
    | ScanQuery(pc: ByRolePc)
    | ScanRecheck(todo: map<Text, Assignment>)
    | ScanRead(todo: map<Text, Assignment>, candidate: Assignment, row: IndexRow)
    | ScanDone(found: Option<Text>)
    | ScanFailed

  const SCAN_START := ScanQuery(ByRoleStart)

  function ScanStep(s: Store, q: ByRoleQuery, excluding: Text, scan: HolderScan, pick: Option<Text>): HolderScan {
    match scan
    case ScanQuery(ByRoleDone(found)) => ScanRecheck(found)
    case ScanQuery(ByRoleFailed) => ScanFailed
    case ScanQuery(pc) => ScanQuery(ByRoleStep(s, q, pc, pick))
    case ScanRecheck(todo) =>
      if todo.Keys == {} then ScanDone(None)
      else if pick.None? || pick.value !in todo then scan
      else
        var candidate := todo[pick.value];
        var rest := todo - {pick.value};
        if candidate.principalId == excluding then ScanRecheck(rest)
        else
          (match s.PointerAt(PointerKey(q.applicationId, candidate.id))
           case None => ScanRecheck(rest)
           case Some(row) =>
             if KeyOfPointer(row) != PointerKey(q.applicationId, candidate.id) then ScanFailed
             else ScanRead(rest, candidate, row))
    case ScanRead(todo, candidate, row) =>
      (match s.AssignmentAt(AssignmentKey(row.location, candidate.id))
       case None => ScanRecheck(todo)
       case Some(current) =>
         var a := current.value.assignment;
         if !IsAssignmentOf(current.value, row.location, candidate.id, row.role) then ScanFailed
         else if a.lifecycle.Active? && a.role == q.role && a.principalId == candidate.principalId && a.scope == q.scope
         then ScanDone(Some(candidate.id))
         else ScanRecheck(todo))
    case ScanDone(_) => scan
    case ScanFailed => scan
  }

  /** `id` is an active holder of the queried role in the queried scope. */
  predicate IsHolder(s: Store, q: ByRoleQuery, id: Text) {
    var k := PointerKey(q.applicationId, id);
    k in s.pointers && q.Covers(s.pointers[k].location) && Holds(s, s.pointers[k].location, q.role, id)
  }

  /** An active holder whose row is in the holder index. */
  predicate IndexedHolder(s: Store, q: ByRoleQuery, id: Text) {
    IsHolder(s, q, id) && q.Key(id) in s.holders
  }

  function PrincipalOf(s: Store, q: ByRoleQuery, id: Text): Text
    requires IsHolder(s, q, id)
  {
    s.pointers[PointerKey(q.applicationId, id)].location.principalId
  }

  ghost predicate HasHolder(s: Store, q: ByRoleQuery) {
    exists id :: IsHolder(s, q, id)
  }

  lemma HolderFound(s: Store, q: ByRoleQuery, location: Location, id: Text)
    requires StoreInv(s) && q.Covers(location) && Holds(s, location, q.role, id)
    ensures IsHolder(s, q, id) && PrincipalOf(s, q, id) == location.principalId
  {
    assert AssignmentOk(s, AssignmentKey(location, id));
  }

  lemma CompleteIndexHasRow(s: Store, q: ByRoleQuery, id: Text)
    requires StoreInv(s) && HoldersComplete(s, q.applicationId) && IsHolder(s, q, id)
    ensures q.Key(id) in s.holders
  {
    hide AuditsOf, Names, GuardOk;
    var k := AssignmentKey(s.pointers[PointerKey(q.applicationId, id)].location, id);
    assert AssignmentOk(s, k) && HasRow(s, k);
  }

  lemma ActiveIsHolder(s: Store, q: ByRoleQuery, id: Text, a: Assignment)
    requires StoreInv(s) && ActiveAt(s, q, id, a)
    ensures IsHolder(s, q, id) && (q.Key(id) in s.holders ==> IndexedHolder(s, q, id))
  {
    hide StoreInv;
    HolderFound(s, q, Location(q.applicationId, a.principalId, q.scope), id);
  }

  lemma ActiveOnce(s: Store, q: ByRoleQuery, id: Text, a: Assignment, b: Assignment)
    requires StoreInv(s) && ActiveAt(s, q, id, a) && ActiveAt(s, q, id, b)
    ensures a == b
  {
    hide AuditsOf, GuardOk, Names, Holds;
    assert AssignmentOk(s, AssignmentKey(Location(q.applicationId, a.principalId, q.scope), id));
    assert AssignmentOk(s, AssignmentKey(Location(q.applicationId, b.principalId, q.scope), id));
  }

  ghost predicate ScanOk(s: Store, q: ByRoleQuery, scan: HolderScan) {
    match scan
    case ScanQuery(pc) => ByRoleOk(s, q, pc)
    case ScanRecheck(todo) => forall id | id in todo :: IsCandidate(s, q, id, todo[id])
    case ScanRead(todo, candidate, row) =>
      && (forall id | id in todo :: IsCandidate(s, q, id, todo[id]))
      && IsCandidate(s, q, candidate.id, candidate)
      && s.PointerAt(PointerKey(q.applicationId, candidate.id)) == Some(row)
      && KeyOfPointer(row) == PointerKey(q.applicationId, candidate.id)
    case ScanDone(_) => true
    case ScanFailed => false
  }

  lemma ScanStable(s: Store, t: Store, q: ByRoleQuery, scan: HolderScan)
    requires Evolves(s, t) && ScanOk(s, q, scan)
    ensures ScanOk(t, q, scan)
  {
    if scan.ScanQuery? {
      ByRoleStable(s, t, q, scan.pc);
    }
  }

  lemma ScanStepSafe(s: Store, q: ByRoleQuery, excluding: Text, scan: HolderScan, pick: Option<Text>)
    requires StoreInv(s) && ScanOk(s, q, scan)
    ensures ScanOk(s, q, ScanStep(s, q, excluding, scan, pick))
  {
    if scan.ScanQuery? {
      ByRoleStepSafe(s, q, scan.pc, pick);
      ScanQuerySafe(s, q, excluding, scan, pick);
    } else if scan.ScanRead? {
      ScanReadSafe(s, q, excluding, scan, pick);
    } else {
      ScanRecheckSafe(s, q, excluding, scan, pick);
    }
    hide *;
  }

  lemma ScanQuerySafe(s: Store, q: ByRoleQuery, excluding: Text, scan: HolderScan, pick: Option<Text>)
    requires ScanOk(s, q, scan) && scan.ScanQuery? && ByRoleOk(s, q, ByRoleStep(s, q, scan.pc, pick))
    ensures ScanOk(s, q, ScanStep(s, q, excluding, scan, pick))
  {
    hide ByRoleStep, IsCandidate, RowsOk;
  }

  lemma ScanRecheckSafe(s: Store, q: ByRoleQuery, excluding: Text, scan: HolderScan, pick: Option<Text>)
    requires StoreInv(s) && ScanOk(s, q, scan) && !scan.ScanQuery? && !scan.ScanRead?
    ensures ScanOk(s, q, ScanStep(s, q, excluding, scan, pick))
  {
    PointerKeyed(s, q, scan, pick);
    hide StoreInv, ByRoleStep, ByRoleOk, IsAssignmentOf;
  }

  lemma ScanReadSafe(s: Store, q: ByRoleQuery, excluding: Text, scan: HolderScan, pick: Option<Text>)
    requires StoreInv(s) && ScanOk(s, q, scan) && scan.ScanRead?
    ensures ScanOk(s, q, ScanStep(s, q, excluding, scan, pick))
  {
    PointedRecord(s, scan.row);
    hide StoreInv, ByRoleStep, ByRoleOk, IsAssignmentOf, IsCandidate;
  }

  lemma PointerKeyed(s: Store, q: ByRoleQuery, scan: HolderScan, pick: Option<Text>)
    requires StoreInv(s) && ScanOk(s, q, scan)
    ensures scan.ScanRecheck? && pick.Some? && pick.value in scan.todo ==>
              var key := PointerKey(q.applicationId, scan.todo[pick.value].id);
              scan.todo[pick.value].id == pick.value && (key in s.pointers ==> KeyOfPointer(s.pointers[key]) == key)
  {
    hide AssignmentOk, GuardOk, AuditsOf, Names, Holds, ByRoleOk;
  }

  lemma PointedRecord(s: Store, row: IndexRow)
    requires StoreInv(s) && s.PointerAt(KeyOfPointer(row)) == Some(row)
    ensures var k := AssignmentKey(row.location, row.assignmentId);
            k in s.assignments ==> IsAssignmentOf(s.assignments[k].value, row.location, row.assignmentId, row.role)
  {
    hide GuardOk, AuditsOf, Names, Holds, IndexesOk;
    var k := AssignmentKey(row.location, row.assignmentId);
    assert k in s.assignments ==> AssignmentOk(s, k);
  }

  /** The candidate being read is not of the excluded principal. */
  predicate ScanOutside(scan: HolderScan, excluding: Text) {
    scan.ScanRead? ==> scan.candidate.principalId != excluding
  }

  /** A scan that answers yes has just read an active holder outside the excluded principal. */
  lemma ScanAnswersTruly(s: Store, q: ByRoleQuery, excluding: Text, scan: HolderScan, pick: Option<Text>)
    requires StoreInv(s) && ScanOk(s, q, scan) && !scan.ScanDone?
    ensures match ScanStep(s, q, excluding, scan, pick)
            case ScanDone(Some(id)) =>
              IsHolder(s, q, id) && q.Key(id) in s.holders && (ScanOutside(scan, excluding) ==> PrincipalOf(s, q, id) != excluding)
            case _ => true
  {
    if scan.ScanRead? {
      PointedRecord(s, scan.row);
      hide StoreInv, ByRoleOk, ByRoleStep;
      ScanReadAnswers(s, q, excluding, scan, pick);
      hide ScanStep;
    } else {
      OnlyReadingAnswers(s, q, excluding, scan, pick);
      hide *;
    }
  }

  lemma OnlyReadingAnswers(s: Store, q: ByRoleQuery, excluding: Text, scan: HolderScan, pick: Option<Text>)
    requires !scan.ScanDone? && !scan.ScanRead?
    ensures var next := ScanStep(s, q, excluding, scan, pick); next.ScanDone? ==> next.found.None?
  {
    hide ByRoleStep;
  }

  lemma ScanReadAnswers(s: Store, q: ByRoleQuery, excluding: Text, scan: HolderScan, pick: Option<Text>)
    requires scan.ScanRead? && ScanOk(s, q, scan)
    requires var k := AssignmentKey(scan.row.location, scan.row.assignmentId);
             k in s.assignments ==> IsAssignmentOf(s.assignments[k].value, scan.row.location, scan.row.assignmentId, scan.row.role)
    ensures match ScanStep(s, q, excluding, scan, pick)
            case ScanDone(Some(id)) =>
              IsHolder(s, q, id) && q.Key(id) in s.holders && (ScanOutside(scan, excluding) ==> PrincipalOf(s, q, id) != excluding)
            case _ => true
  {
    hide ByRoleOk, ByRoleStep;
  }

  /** Where a scan stands on a holder that makes it answer yes. */
  ghost predicate WillFind(q: ByRoleQuery, scan: HolderScan, id: Text) {
    match scan
    case ScanQuery(pc) => WillReport(q, pc, id)
    case ScanRecheck(todo) => id in todo
    case ScanRead(todo, candidate, _) => id in todo || candidate.id == id
    case ScanDone(found) => found.Some?
    case ScanFailed => false
  }

  /** A holder with its row that stays active is not missed. */
  lemma ScanKeepsHolder(s: Store, q: ByRoleQuery, excluding: Text, scan: HolderScan, pick: Option<Text>, id: Text)
    requires StoreInv(s) && ScanOk(s, q, scan) && WillFind(q, scan, id)
    requires IsHolder(s, q, id) && q.Key(id) in s.holders && PrincipalOf(s, q, id) != excluding
    ensures WillFind(q, ScanStep(s, q, excluding, scan, pick), id)
  {
    hide StoreInv, ByRoleOk, IsCandidate, ByRoleStep;
    if scan.ScanQuery? {
      ByRoleKeepsHolder(s, q, scan.pc, pick, s.pointers[PointerKey(q.applicationId, id)].location, id);
    } else {
      RecheckKeepsHolder(s, q, excluding, scan, pick, id);
    }
  }

  lemma RecheckKeepsHolder(s: Store, q: ByRoleQuery, excluding: Text, scan: HolderScan, pick: Option<Text>, id: Text)
    requires StoreInv(s) && ScanOk(s, q, scan) && WillFind(q, scan, id) && !scan.ScanQuery?
    requires IsHolder(s, q, id) && q.Key(id) in s.holders && PrincipalOf(s, q, id) != excluding
    ensures WillFind(q, ScanStep(s, q, excluding, scan, pick), id)
  {
    hide StoreInv, ByRoleOk, ByRoleStep;
    ScanStepSafe(s, q, excluding, scan, pick);
    HolderIndexed(s, q, s.pointers[PointerKey(q.applicationId, id)].location, id);
    if scan.ScanRecheck? {
      CandidatePrincipal(s, q, id, scan.todo[id]);
    } else if scan.ScanRead? && scan.candidate.id == id {
      CandidatePrincipal(s, q, id, scan.candidate);
    }
  }

  /** An id lives in one partition, so a candidate for a holder's id names that holder's principal. */
  lemma CandidatePrincipal(s: Store, q: ByRoleQuery, id: Text, a: Assignment)
    requires StoreInv(s) && IsHolder(s, q, id) && IsCandidate(s, q, id, a)
    ensures a.principalId == PrincipalOf(s, q, id)
  {
    hide AuditsOf, Names, GuardOk;
    assert AssignmentOk(s, AssignmentKey(Location(q.applicationId, a.principalId, q.scope), id));
  }

  // ---------------------------------------------------------------- revokeRole

  datatype RevokeRoleCommand = RevokeRoleCommand(applicationId: Text, assignmentId: Text, actor: Actor, reason: Option<Text>)

  datatype AdminResult =
    | RoleRevoked(compensated: bool)
    | RoleNotFound
    | RoleAlreadyRevoked
    | RoleSystemManaged
    | LastAdministrator
    | RoleConflict
    | CompensationFailed
    | StoreFailed

  datatype AdminPc =
    | Queued
    | GetLocate
    | GetRead(row: IndexRow)
    | PreScan(current: Versioned<StoredAssignment>, scan: HolderScan)
    | RevokingRole(current: Versioned<StoredAssignment>, relied: Option<Text>, command: RevokeCommand, revoke: RevokePc)
    | PostScan(current: Versioned<StoredAssignment>, relied: Option<Text>, scan: HolderScan)
    | Compensating(current: Versioned<StoredAssignment>, grant: GrantCommand, grantPc: GrantPc)
    | FinalScan(current: Versioned<StoredAssignment>, scan: HolderScan)
    | AdminDone(result: AdminResult)

  function QueryOf(c: RevokeRoleCommand, current: Versioned<StoredAssignment>): ByRoleQuery {
    ByRoleQuery(c.applicationId, current.value.assignment.role, current.value.assignment.scope)
  }

  function StartRevoke(c: RevokeRoleCommand, current: Versioned<StoredAssignment>, relied: Option<Text>, choice: Choice): AdminPc {
    var command := RevokeCommand(
                     c.applicationId, current.value.assignment.id, current.version, c.actor, choice.now, c.reason, choice.eventId);
    RevokingRole(current, relied, command, BeginRevoke(command))
  }

  function CompensationGrant(c: RevokeRoleCommand, current: Versioned<StoredAssignment>, choice: Choice): GrantCommand {
    var a := current.value.assignment;
    GrantCommand(
      c.applicationId,
      Assignment(choice.id, a.principalId, a.role, a.scope, System(GUARD_COMPENSATION_SYSTEM_ID), choice.now, Active),
      choice.eventId)
  }

  /** The refusals decided on the record itself, before the guard looks at other holders. */
  function DecideRevoke(policy: Policy, c: RevokeRoleCommand, current: Versioned<StoredAssignment>, choice: Choice): AdminPc {
    var a := current.value.assignment;
    if a.lifecycle.Revoked? then AdminDone(RoleAlreadyRevoked)
    else if AssignmentManagedBy(a, policy) == BySystem then AdminDone(RoleSystemManaged)
    else if a.role == policy.administratorRole then PreScan(current, SCAN_START)
    else StartRevoke(c, current, None, choice)
  }

  /** One step of a started `revokeRole`. */
  function AdminStep(s: Store, policy: Policy, c: RevokeRoleCommand, pc: AdminPc, choice: Choice): (Store, AdminPc) {
    match pc
    case Queued => (s, pc)
    case GetLocate =>
      (match s.PointerAt(PointerKey(c.applicationId, c.assignmentId))
       case None => (s, AdminDone(RoleNotFound))
       case Some(row) =>
         (s, if KeyOfPointer(row) == PointerKey(c.applicationId, c.assignmentId) then GetRead(row) else AdminDone(StoreFailed)))
    case GetRead(row) =>
      (match s.AssignmentAt(AssignmentKey(row.location, c.assignmentId))
       case None => (s, AdminDone(RoleNotFound))
       case Some(current) =>
         (s, if IsAssignmentOf(current.value, row.location, c.assignmentId, row.role)
             then DecideRevoke(policy, c, current, choice) else AdminDone(StoreFailed)))
    case PreScan(current, scan) =>
      (match scan
       case ScanDone(None) => (s, AdminDone(LastAdministrator))
       case ScanDone(Some(id)) => (s, StartRevoke(c, current, Some(id), choice))
       case ScanFailed => (s, AdminDone(StoreFailed))
       case _ => (s, PreScan(current, ScanStep(s, QueryOf(c, current), current.value.assignment.principalId, scan, choice.pick))))
    case RevokingRole(current, relied, command, revoke) =>
      (match revoke
       case RevokeDone(RevokeNotFound) => (s, AdminDone(RoleNotFound))
       case RevokeDone(RevokeRefused(_)) => (s, AdminDone(RoleConflict))
       case RevokeDone(RevokeInvalid) => (s, AdminDone(StoreFailed))
       case RevokeDone(RevokeCorrupt) => (s, AdminDone(StoreFailed))
       case RevokeDone(_) =>
         (s, if current.value.assignment.role == policy.administratorRole
             then PostScan(current, relied, SCAN_START) else AdminDone(RoleRevoked(false)))
       case _ =>
         var (s', revoke') := RevokeStep(s, command, revoke, choice.rejection);
         (s', RevokingRole(current, relied, command, revoke')))
    case PostScan(current, relied, scan) =>
      (match scan
       case ScanDone(Some(_)) => (s, AdminDone(RoleRevoked(false)))
       case ScanDone(None) =>
         var grant := CompensationGrant(c, current, choice);
         (s, Compensating(current, grant, BeginGrant(grant)))
       case ScanFailed => (s, AdminDone(StoreFailed))
       case _ => (s, PostScan(current, relied, ScanStep(s, QueryOf(c, current), [], scan, choice.pick))))
    case Compensating(current, grant, grantPc) =>
      (match grantPc
       case GrantDone(Granted(_)) => (s, AdminDone(RoleRevoked(true)))
       case GrantDone(GrantUnchanged(_)) => (s, AdminDone(RoleRevoked(true)))
       case GrantDone(GrantRefused(_)) => (s, FinalScan(current, SCAN_START))
       case GrantDone(_) => (s, AdminDone(StoreFailed))
       case _ =>
         var (s', grantPc') := GrantStep(s, grant, grantPc, choice.rejection);
         (s', Compensating(current, grant, grantPc')))
    case FinalScan(current, scan) =>
      (match scan
       case ScanDone(Some(_)) => (s, AdminDone(RoleRevoked(false)))
       case ScanDone(None) => (s, AdminDone(CompensationFailed))
       case ScanFailed => (s, AdminDone(StoreFailed))
       case _ => (s, FinalScan(current, ScanStep(s, QueryOf(c, current), [], scan, choice.pick))))
    case AdminDone(_) => (s, pc)
  }

  /** The record a revocation works on: read from the store, active when read, and of the command's id. */
  ghost predicate CurrentOk(s: Store, c: RevokeRoleCommand, current: Versioned<StoredAssignment>) {
    var k := AssignmentKey(current.value.location, c.assignmentId);
    && current.value.location.applicationId == c.applicationId
    && IsAssignmentOf(current.value, current.value.location, c.assignmentId, current.value.assignment.role)
    && current.value.assignment.lifecycle.Active?
    && RecordRead(s, k, current)
  }

  ghost predicate AdminOk(s: Store, policy: Policy, c: RevokeRoleCommand, pc: AdminPc) {
    match pc
    case Queued => true
    case GetLocate => true
    case GetRead(row) =>
      && s.PointerAt(PointerKey(c.applicationId, c.assignmentId)) == Some(row)
      && KeyOfPointer(row) == PointerKey(c.applicationId, c.assignmentId)
    case PreScan(current, scan) =>
      CurrentOk(s, c, current) && ScanOk(s, QueryOf(c, current), scan) && current.value.assignment.role == policy.administratorRole
      && ScanOutside(scan, current.value.assignment.principalId)
    case RevokingRole(current, relied, command, revoke) =>
      && CurrentOk(s, c, current) && RevokeOk(s, command, revoke) && revoke != RevokeDone(RevokeInvalid)
      && command.applicationId == c.applicationId && command.assignmentId == c.assignmentId
      && command.expectedToken == current.version
      && (relied.Some? || current.value.assignment.role != policy.administratorRole)
    case PostScan(current, relied, scan) =>
      CurrentOk(s, c, current) && ScanOk(s, QueryOf(c, current), scan) && current.value.assignment.role == policy.administratorRole
      && relied.Some?
    case Compensating(current, grant, grantPc) =>
      && CurrentOk(s, c, current) && GrantOk(s, grant, grantPc) && grantPc != GrantDone(GrantInvalid)
      && current.value.assignment.role == policy.administratorRole
      && grant.Place() == current.value.location && grant.assignment.role == policy.administratorRole
    case FinalScan(current, scan) =>
      CurrentOk(s, c, current) && ScanOk(s, QueryOf(c, current), scan) && current.value.assignment.role == policy.administratorRole
    case AdminDone(result) => result != StoreFailed
  }

  lemma AdminStable(s: Store, t: Store, policy: Policy, c: RevokeRoleCommand, pc: AdminPc)
    requires Evolves(s, t) && AdminOk(s, policy, c, pc)
    ensures AdminOk(t, policy, c, pc)
  {
    hide ScanOk, RevokeOk, GrantOk, CurrentOk, HasRow, RecordEvolves;
    match pc
    case PreScan(current, scan) =>
      ScanStable(s, t, QueryOf(c, current), scan);
      CurrentStable(s, t, c, current);
    case PostScan(current, _, scan) =>
      ScanStable(s, t, QueryOf(c, current), scan);
      CurrentStable(s, t, c, current);
    case FinalScan(current, scan) =>
      ScanStable(s, t, QueryOf(c, current), scan);
      CurrentStable(s, t, c, current);
    case RevokingRole(current, _, command, revoke) =>
      RevokeStable(s, t, command, revoke);
      CurrentStable(s, t, c, current);
    case Compensating(current, grant, grantPc) =>
      GrantStable(s, t, grant, grantPc);
      CurrentStable(s, t, c, current);
    case _ =>
  }

  lemma AdminStepSafe(s: Store, policy: Policy, c: RevokeRoleCommand, pc: AdminPc, choice: Choice)
    requires StoreInv(s) && AdminOk(s, policy, c, pc)
    ensures var (s', pc') := AdminStep(s, policy, c, pc, choice);
            StoreInv(s') && Evolves(s, s') && AdminOk(s', policy, c, pc')
  {
    hide *;
    match pc
    case RevokingRole(_, _, _, _) => AdminRevokesSafe(s, policy, c, pc, choice);
    case Compensating(_, _, _) => AdminCompensatesSafe(s, policy, c, pc, choice);
    case PreScan(_, _) =>
      EvolvesReflexive(s);
      AdminPreScanSafe(s, policy, c, pc, choice);
    case PostScan(_, _, _) =>
      EvolvesReflexive(s);
      AdminPostScanSafe(s, policy, c, pc, choice);
    case FinalScan(_, _) =>
      EvolvesReflexive(s);
      AdminFinalScanSafe(s, policy, c, pc, choice);
    case _ =>
      EvolvesReflexive(s);
      AdminReadsSafe(s, policy, c, pc, choice);
  }

  lemma AdminPreScanSafe(s: Store, policy: Policy, c: RevokeRoleCommand, pc: AdminPc, choice: Choice)
    requires StoreInv(s) && AdminOk(s, policy, c, pc) && pc.PreScan?
    ensures var (s', pc') := AdminStep(s, policy, c, pc, choice); s' == s && AdminOk(s, policy, c, pc')
  {
    var current, scan := pc.current, pc.scan;
    hide StoreInv, ScanStep, CurrentOk, RevokeOk, ByRoleOk, IsCandidate, ScanOutside;
    ScanStepSafe(s, QueryOf(c, current), current.value.assignment.principalId, scan, choice.pick);
    if scan.ScanDone? && scan.found.Some? {
      RevokeStarts(s, c, current, scan.found, choice);
    } else {
      ScanStaysOutside(s, QueryOf(c, current), current.value.assignment.principalId, scan, choice.pick);
    }
  }

  lemma AdminPostScanSafe(s: Store, policy: Policy, c: RevokeRoleCommand, pc: AdminPc, choice: Choice)
    requires StoreInv(s) && AdminOk(s, policy, c, pc) && pc.PostScan?
    ensures var (s', pc') := AdminStep(s, policy, c, pc, choice); s' == s && AdminOk(s, policy, c, pc')
  {
    hide StoreInv, ScanStep, CurrentOk, GrantOk, ByRoleOk, IsCandidate;
    ScanStepSafe(s, QueryOf(c, pc.current), [], pc.scan, choice.pick);
    CompensationStarts(s, c, pc.current, choice);
  }

  lemma AdminFinalScanSafe(s: Store, policy: Policy, c: RevokeRoleCommand, pc: AdminPc, choice: Choice)
    requires StoreInv(s) && AdminOk(s, policy, c, pc) && pc.FinalScan?
    ensures var (s', pc') := AdminStep(s, policy, c, pc, choice); s' == s && AdminOk(s, policy, c, pc')
  {
    hide StoreInv, ScanStep, CurrentOk, ByRoleOk, IsCandidate;
    ScanStepSafe(s, QueryOf(c, pc.current), [], pc.scan, choice.pick);
  }

  lemma AdminRevokesSafe(s: Store, policy: Policy, c: RevokeRoleCommand, pc: AdminPc, choice: Choice)
    requires StoreInv(s) && AdminOk(s, policy, c, pc) && pc.RevokingRole?
    ensures var (s', pc') := AdminStep(s, policy, c, pc, choice);
            StoreInv(s') && Evolves(s, s') && AdminOk(s', policy, c, pc')
  {
    hide StoreInv, Evolves, RevokeStep, RevokeOk, CurrentOk, IsCandidate;
    EvolvesReflexive(s);
    RevokeStepSafe(s, pc.command, pc.revoke, choice.rejection);
    CurrentStable(s, RevokeStep(s, pc.command, pc.revoke, choice.rejection).0, c, pc.current);
    RevokeNotInvalid(s, pc.command, pc.revoke, choice.rejection);
    NeverCorrupt(s, pc.command);
  }

  lemma NeverCorrupt(s: Store, c: RevokeCommand)
    ensures !RevokeOk(s, c, RevokeDone(RevokeCorrupt))
  {
  }

  lemma AdminCompensatesSafe(s: Store, policy: Policy, c: RevokeRoleCommand, pc: AdminPc, choice: Choice)
    requires StoreInv(s) && AdminOk(s, policy, c, pc) && pc.Compensating?
    ensures var (s', pc') := AdminStep(s, policy, c, pc, choice);
            StoreInv(s') && Evolves(s, s') && AdminOk(s', policy, c, pc')
  {
    hide StoreInv, Evolves, GrantStep, CurrentOk, IsCandidate;
    EvolvesReflexive(s);
    GrantStepSafe(s, pc.grant, pc.grantPc, choice.rejection);
    CurrentStable(s, GrantStep(s, pc.grant, pc.grantPc, choice.rejection).0, c, pc.current);
    GrantNotInvalid(s, pc.grant, pc.grantPc, choice.rejection);
  }

  lemma CurrentStable(s: Store, t: Store, c: RevokeRoleCommand, current: Versioned<StoredAssignment>)
    requires Evolves(s, t) && CurrentOk(s, c, current)
    ensures CurrentOk(t, c, current)
  {
  }

  lemma ScanStaysOutside(s: Store, q: ByRoleQuery, excluding: Text, scan: HolderScan, pick: Option<Text>)
    requires ScanOutside(scan, excluding)
    ensures ScanOutside(ScanStep(s, q, excluding, scan, pick), excluding)
  {
  }

  lemma AdminReadsSafe(s: Store, policy: Policy, c: RevokeRoleCommand, pc: AdminPc, choice: Choice)
    requires StoreInv(s) && AdminOk(s, policy, c, pc)
    requires pc.Queued? || pc.GetLocate? || pc.GetRead? || pc.AdminDone?
    ensures var (s', pc') := AdminStep(s, policy, c, pc, choice); s' == s && AdminOk(s, policy, c, pc')
  {
    if pc.GetRead? {
      CurrentRead(s, pc.row);
      hide StoreInv, ByRoleOk, IsCandidate, AssignmentManagedBy;
      DecisionOk(s, policy, c, pc.row, choice);
      hide IsAssignmentOf, DecideRevoke;
    } else {
      PointersKeyed(s, PointerKey(c.applicationId, c.assignmentId));
      hide StoreInv, ScanOk;
    }
  }

  lemma DecisionOk(s: Store, policy: Policy, c: RevokeRoleCommand, row: IndexRow, choice: Choice)
    requires s.PointerAt(PointerKey(c.applicationId, c.assignmentId)) == Some(row)
    requires KeyOfPointer(row) == PointerKey(c.applicationId, c.assignmentId)
    ensures var k := AssignmentKey(row.location, c.assignmentId);
            k in s.assignments && IsAssignmentOf(s.assignments[k].value, row.location, c.assignmentId, row.role)
            && s.assignments[k].version < s.nextVersion ==>
              AdminOk(s, policy, c, DecideRevoke(policy, c, s.assignments[k], choice))
  {
    hide AssignmentManagedBy;
  }

  lemma PointersKeyed(s: Store, k: PointerKey)
    requires StoreInv(s)
    ensures k in s.pointers ==> KeyOfPointer(s.pointers[k]) == k
  {
    hide AssignmentOk, AuditsOf, Names, Holds, GuardOk;
  }

  lemma CurrentRead(s: Store, row: IndexRow)
    requires StoreInv(s) && s.PointerAt(KeyOfPointer(row)) == Some(row)
    ensures var k := AssignmentKey(row.location, row.assignmentId);
            k in s.assignments ==>
              && IsAssignmentOf(s.assignments[k].value, row.location, row.assignmentId, row.role)
              && s.assignments[k].version < s.nextVersion
  {
    PointedRecord(s, row);
    hide AuditsOf, Names, Holds, GuardOk, IndexesOk;
    var k := AssignmentKey(row.location, row.assignmentId);
    assert k in s.assignments ==> AssignmentOk(s, k);
  }

  lemma RevokeStarts(s: Store, c: RevokeRoleCommand, current: Versioned<StoredAssignment>, relied: Option<Text>, choice: Choice)
    requires CurrentOk(s, c, current)
    ensures var pc := StartRevoke(c, current, relied, choice);
            && pc.RevokingRole? && pc.current == current && pc.relied == relied
            && RevokeOk(s, pc.command, pc.revoke) && pc.revoke == RevokeLocate
            && pc.command.applicationId == c.applicationId && pc.command.assignmentId == c.assignmentId
            && pc.command.expectedToken == current.version
  {
  }

  lemma CompensationStarts(s: Store, c: RevokeRoleCommand, current: Versioned<StoredAssignment>, choice: Choice)
    requires CurrentOk(s, c, current)
    ensures var grant := CompensationGrant(c, current, choice);
            && BeginGrant(grant) == GrantWritePointer && GrantOk(s, grant, GrantWritePointer)
            && grant.Place() == current.value.location && grant.assignment.role == current.value.assignment.role
  {
  }

  lemma RevokeNotInvalid(s: Store, c: RevokeCommand, pc: RevokePc, rejection: Rejection)
    requires pc != RevokeDone(RevokeInvalid)
    ensures RevokeStep(s, c, pc, rejection).1 != RevokeDone(RevokeInvalid)
    ensures pc.RevokeDone? ==> RevokeStep(s, c, pc, rejection) == (s, pc)
  {
  }

  lemma GrantNotInvalid(s: Store, c: GrantCommand, pc: GrantPc, rejection: Rejection)
    requires pc != GrantDone(GrantInvalid)
    ensures GrantStep(s, c, pc, rejection).1 != GrantDone(GrantInvalid)
    ensures pc.GrantDone? ==> GrantStep(s, c, pc, rejection) == (s, pc)
  {
  }
}
