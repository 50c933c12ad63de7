/**
 * The administration service called without interference: its search for another holder, and what `revokeRole`
 * answers and leaves behind.
 */
module AdministrationService {
  import opened Prelude
  import opened RoleRecords
  import opened RoleStore
  import opened RoleStoreSafety
  import opened RoleReads
  import opened Administration
  import opened RoleStoreAdapter
  import SingleService

  /** `id` is an indexed holder of another principal than the excluded one. */
  predicate HeldOutside(s: Store, q: ByRoleQuery, excluding: Text, id: Text) {
    IndexedHolder(s, q, id) && PrincipalOf(s, q, id) != excluding
  }

  /** The holder index shows somebody other than the excluded principal who holds the queried role in the queried scope. */
  ghost predicate AnotherHolder(s: Store, q: ByRoleQuery, excluding: Text) {
    exists id :: HeldOutside(s, q, excluding, id)
  }

  /** With a complete index that is whoever there is. */
  lemma AnotherOfAll(s: Store, q: ByRoleQuery, excluding: Text)
    requires StoreInv(s) && HoldersComplete(s, q.applicationId)
    ensures AnotherHolder(s, q, excluding) <==> exists id :: IsHolder(s, q, id) && PrincipalOf(s, q, id) != excluding
  {
    hide StoreInv, HoldersComplete, IsHolder;
    forall id | IsHolder(s, q, id) && PrincipalOf(s, q, id) != excluding ensures HeldOutside(s, q, excluding, id) {
      CompleteIndexHasRow(s, q, id);
    }
    if AnotherHolder(s, q, excluding) {
      var id :| HeldOutside(s, q, excluding, id);
      assert IsHolder(s, q, id) && PrincipalOf(s, q, id) != excluding;
    }
  }

  /** The record a command's id leads to. */
  function CurrentOf(s: Store, c: RevokeRoleCommand): Option<Versioned<StoredAssignment>> {
    match s.PointerAt(PointerKey(c.applicationId, c.assignmentId))
    case None => None
    case Some(row) => s.AssignmentAt(AssignmentKey(row.location, c.assignmentId))
  }

  /** The answer of `revokeRole` in terms of the records alone. */
  ghost function RevokeRoleAnswer(policy: Policy, s: Store, c: RevokeRoleCommand, now: Timestamp): AdminResult {
    match CurrentOf(s, c)
    case None => RoleNotFound
    case Some(current) =>
      var a := current.value.assignment;
      if a.lifecycle.Revoked? then RoleAlreadyRevoked
      else if IsLocked(a, policy) then RoleSystemManaged
      else if a.role == policy.administratorRole && !AnotherHolder(s, QueryOf(c, current), a.principalId) then LastAdministrator
      else if now < a.grantedAt then RoleConflict
      else RoleRevoked(false)
  }

  /** The store command the service sends. */
  function CommandFor(c: RevokeRoleCommand, current: Versioned<StoredAssignment>, now: Timestamp, eventId: Text): RevokeCommand {
    RevokeCommand(c.applicationId, current.value.assignment.id, current.version, c.actor, now, c.reason, eventId)
  }

  // ---------------------------------------------------------------- candidates

  /** What the by-role read reports of an id is a holder of that principal, and a second read finds it so. */
  lemma CandidateDecides(s: Store, q: ByRoleQuery, id: Text, a: Assignment)
    requires StoreInv(s) && ActiveAt(s, q, id, a) && q.Key(id) in s.holders
    ensures IndexedHolder(s, q, id) && PrincipalOf(s, q, id) == a.principalId
    ensures var located := s.PointerAt(PointerKey(q.applicationId, a.id));
            located.Some? && (
              var current := s.AssignmentAt(AssignmentKey(located.value.location, a.id));
              current.Some? && current.value.value.assignment == a)
    ensures a.id == id && a.lifecycle.Active? && a.role == q.role && a.scope == q.scope
  {
    RowDecides(s, q, id);
    HolderFound(s, q, Location(q.applicationId, a.principalId, q.scope), id);
    hide StoreInv;
  }

  lemma HolderIsReported(s: Store, q: ByRoleQuery, id: Text)
    requires StoreInv(s) && IndexedHolder(s, q, id)
    ensures exists a :: ActiveAt(s, q, id, a) && a.principalId == PrincipalOf(s, q, id)
  {
    hide AuditsOf, Names, GuardOk;
    var k := AssignmentKey(s.pointers[PointerKey(q.applicationId, id)].location, id);
    assert AssignmentOk(s, k);
    assert ActiveAt(s, q, id, s.assignments[k].value.assignment);
  }


  lemma IndexedHasRow(s: Store, q: ByRoleQuery, id: Text)
    requires IndexedHolder(s, q, id)
    ensures q.Key(id) in s.holders && IsHolder(s, q, id)
  {
  }

  /** The by-role read reports every holder that may count. */
  lemma ReportedHolders(s: Store, q: ByRoleQuery, excluding: Text, found: map<Text, Assignment>)
    requires StoreInv(s)
    requires forall id, a :: (id in found && found[id] == a) <==> ActiveAt(s, q, id, a) && q.Key(id) in s.holders
    ensures forall id | id in found :: ActiveAt(s, q, id, found[id]) && q.Key(id) in s.holders
    ensures forall id | HeldOutside(s, q, excluding, id) :: id in found
  {
    hide StoreInv, ActiveAt, IndexedHolder, PrincipalOf;
    forall id | HeldOutside(s, q, excluding, id) ensures id in found {
      HolderIsReported(s, q, id);
      IndexedHasRow(s, q, id);
    }
  }

  lemma CandidateCounts(s: Store, q: ByRoleQuery, excluding: Text, id: Text, a: Assignment)
    requires StoreInv(s) && ActiveAt(s, q, id, a) && q.Key(id) in s.holders
    ensures HeldOutside(s, q, excluding, id) <==> a.principalId != excluding
    ensures HeldOutside(s, q, excluding, id) ==> AnotherHolder(s, q, excluding)
  {
    hide StoreInv, ActiveAt;
    CandidateDecides(s, q, id, a);
  }

  lemma NobodyElse(s: Store, q: ByRoleQuery, excluding: Text)
    requires forall id :: !HeldOutside(s, q, excluding, id)
    ensures !AnotherHolder(s, q, excluding)
  {
  }

  // ---------------------------------------------------------------- what a revoke leaves

  /** The service's command is refused only for a date before the grant. */
  lemma CommandAnswer(s: Store, c: RevokeRoleCommand, current: Versioned<StoredAssignment>, now: Timestamp, eventId: Text)
    requires StoreInv(s) && CurrentOf(s, c) == Some(current) && current.value.assignment.lifecycle.Active?
    ensures current.value.assignment.id == c.assignmentId && current.value.assignment.scope == current.value.location.scope
    ensures current.value.assignment.principalId == current.value.location.principalId
    ensures current.value.location.applicationId == c.applicationId
    ensures s.pointers[PointerKey(c.applicationId, c.assignmentId)].location == current.value.location
    ensures RevokeAnswer(s, CommandFor(c, current, now, eventId)) ==
            if now < current.value.assignment.grantedAt then RevokeRefused(LifecycleConflict)
            else RevokeCommitted(Versioned(RevokedForm(current.value, CommandFor(c, current, now, eventId)), s.nextVersion))
  {
    hide AuditsOf, Names, GuardOk, Holds;
    var row := s.pointers[PointerKey(c.applicationId, c.assignmentId)];
    assert AssignmentOk(s, AssignmentKey(row.location, c.assignmentId));
  }

  /** Every holder but the revoked record is still one. */
  lemma OthersRemain(s: Store, t: Store, c: RevokeCommand, q: ByRoleQuery, id: Text)
    requires Evolves(s, t) && RevokeEffect(s, t, c) && IsHolder(s, q, id) && (id != c.assignmentId || q.applicationId != c.applicationId)
    requires RecordOf(s, c).Some? ==> RecordOf(s, c).value.value.location.applicationId == c.applicationId
    ensures IsHolder(t, q, id) && PrincipalOf(t, q, id) == PrincipalOf(s, q, id)
    ensures q.Key(id) in s.holders ==> q.Key(id) in t.holders
  {
    hide HasRow;
    var k := AssignmentKey(s.pointers[PointerKey(q.applicationId, id)].location, id);
    assert t.pointers == s.pointers && k in t.assignments && t.assignments[k] == s.assignments[k];
  }

  /** A holder of another role is not the revoked record. */
  lemma RevokedHasItsRole(s: Store, c: RevokeRoleCommand, current: Versioned<StoredAssignment>, q: ByRoleQuery)
    requires CurrentOf(s, c) == Some(current) && q.applicationId == c.applicationId && IsHolder(s, q, c.assignmentId)
    ensures q.role == current.value.assignment.role
    ensures PrincipalOf(s, q, c.assignmentId) == s.pointers[PointerKey(c.applicationId, c.assignmentId)].location.principalId
  {
  }

  /** Somebody else's holding survives the revoke. */
  lemma AnotherRemains(s: Store, t: Store, c: RevokeRoleCommand, current: Versioned<StoredAssignment>, now: Timestamp, eventId: Text)
    requires StoreInv(s) && CurrentOf(s, c) == Some(current) && current.value.assignment.lifecycle.Active?
    requires Evolves(s, t) && RevokeEffect(s, t, CommandFor(c, current, now, eventId))
    requires AnotherHolder(s, QueryOf(c, current), current.value.assignment.principalId)
    ensures HasHolder(t, QueryOf(c, current))
    ensures SingleService.NamedHolders(s) ==> AnotherHolder(t, QueryOf(c, current), [])
  {
    var q := QueryOf(c, current);
    var id :| HeldOutside(s, q, current.value.assignment.principalId, id);
    CommandAnswer(s, c, current, now, eventId);
    if id == c.assignmentId {
      RevokedHasItsRole(s, c, current, q);
    }
    hide RevokeAnswer, RevokeEffect, StoreInv, Evolves;
    OthersRemain(s, t, CommandFor(c, current, now, eventId), q, id);
    hide IsHolder;
    if SingleService.NamedHolders(s) {
      SingleService.HolderNamed(s, q, id);
      assert HeldOutside(t, q, [], id);
    }
  }

  /** A scope's administrators do not run out in a revoke that the guard lets through. */
  lemma AdministratorsRemain(
    policy: Policy, s: Store, t: Store, c: RevokeRoleCommand, current: Versioned<StoredAssignment>, now: Timestamp, eventId: Text,
    q: ByRoleQuery)
    requires StoreInv(s) && CurrentOf(s, c) == Some(current) && current.value.assignment.lifecycle.Active?
    requires Evolves(s, t) && RevokeEffect(s, t, CommandFor(c, current, now, eventId))
    requires current.value.assignment.role == policy.administratorRole ==>
               AnotherHolder(s, QueryOf(c, current), current.value.assignment.principalId)
    requires q.role == policy.administratorRole && HasHolder(s, q)
    ensures HasHolder(t, q)
  {
    var id :| IsHolder(s, q, id);
    CommandAnswer(s, c, current, now, eventId);
    if q.applicationId == c.applicationId && id == c.assignmentId {
      RevokedHasItsRole(s, c, current, q);
      AnotherRemains(s, t, c, current, now, eventId);
      assert q == QueryOf(c, current);
    } else {
      hide RevokeAnswer, RevokeEffect, StoreInv;
      OthersRemain(s, t, CommandFor(c, current, now, eventId), q, id);
    }
  }

  lemma GrantKeepsHolders(s: Store, t: Store, c: GrantCommand, q: ByRoleQuery)
    requires Evolves(s, t) && GrantEffect(s, t, c) && HasHolder(s, q)
    ensures HasHolder(t, q)
  {
    var id :| IsHolder(s, q, id);
    hide GrantAnswer;
    assert IsHolder(t, q, id);
  }

  /** The record the command names is, in `t`, the record of `s` ended by the command's actor, at `now`, for its reason. */
  predicate IsRevokedBy(s: Store, t: Store, c: RevokeRoleCommand, now: Timestamp) {
    var was := CurrentOf(s, c);
    var record := CurrentOf(t, c);
    && was.Some? && record.Some?
    && record.value.value.assignment == was.value.value.assignment.(lifecycle := Revoked(c.actor, now, c.reason))
  }

  lemma RevokeIsRecorded(s: Store, t: Store, c: RevokeRoleCommand, current: Versioned<StoredAssignment>, now: Timestamp, eventId: Text)
    requires StoreInv(s) && CurrentOf(s, c) == Some(current) && current.value.assignment.lifecycle.Active?
    requires RevokeAnswer(s, CommandFor(c, current, now, eventId)).RevokeCommitted?
    requires RevokeEffect(s, t, CommandFor(c, current, now, eventId))
    ensures IsRevokedBy(s, t, c, now)
  {
    CommandAnswer(s, c, current, now, eventId);
    hide StoreInv, Holds;
  }

  lemma RevokedStays(s: Store, t: Store, u: Store, c: RevokeRoleCommand, now: Timestamp)
    requires IsRevokedBy(s, t, c, now) && Evolves(t, u)
    ensures IsRevokedBy(s, u, c, now)
  {
    hide HasRow;
  }

  // ---------------------------------------------------------------- the service

  class RoleAdministration {
    const policy: Policy
    const backend: BoundStore

    constructor (policy: Policy, backend: BoundStore)
      ensures this.policy == policy && this.backend == backend
    {
      this.policy, this.backend := policy, backend;
    }

    /** Candidates come from the by-role read; each is read again before it counts. */
    method AnotherActiveHolderExists(q: ByRoleQuery, excluding: Text) returns (found: bool)
      requires StoreInv(backend.store)
      ensures found <==> AnotherHolder(backend.store, q, excluding)
    {
      hide *;
      var s := backend.store;
      var todo := backend.ListActiveRoleAssignmentsByRole(q);
      ReportedHolders(s, q, excluding, todo);
      while todo != map[]
        invariant forall id | id in todo :: ActiveAt(s, q, id, todo[id]) && q.Key(id) in s.holders
        invariant forall id | HeldOutside(s, q, excluding, id) :: id in todo
        decreases |todo|
      {
        var id :| id in todo;
        var candidate := todo[id];
        todo := todo - {id};
        CandidateDecides(s, q, id, candidate);
        CandidateCounts(s, q, excluding, id, candidate);
        if candidate.principalId == excluding {
          continue;
        }
        var located := s.PointerAt(PointerKey(q.applicationId, candidate.id));
        if located.None? {
          continue;
        }
        var current := s.AssignmentAt(AssignmentKey(located.value.location, candidate.id));
        if current.Some? {
          var a := current.value.value.assignment;
          if a.lifecycle.Active? && a.role == q.role && a.principalId == candidate.principalId && a.scope == q.scope {
            return true;
          }
        }
      }
      NobodyElse(s, q, excluding);
      return false;
    }

    /**
     * `revokeRole`: refused, or committed with the guard's search before and after. No scope is left without the
     * administrator it had; and among principals with nonempty ids the answer is decided by the records, and
     * nothing is ever compensated.
     */
    method RevokeRole(c: RevokeRoleCommand, now: Timestamp, eventId: Text, choice: Choice, rejection: Rejection)
      returns (result: AdminResult)
      requires StoreInv(backend.store)
      modifies backend
      ensures StoreInv(backend.store)
      ensures SingleService.NamedHolders(old(backend.store)) ==> result == RevokeRoleAnswer(policy, old(backend.store), c, now)
      ensures result == RoleSystemManaged <==>
                var current := CurrentOf(old(backend.store), c);
                && current.Some? && current.value.value.assignment.lifecycle.Active?
                && IsLocked(current.value.value.assignment, policy)
      ensures result.RoleNotFound? || result.RoleAlreadyRevoked? || result.RoleSystemManaged? || result.LastAdministrator? || result.RoleConflict? ==>
                backend.store == old(backend.store)
      ensures result.RoleRevoked? || result.CompensationFailed? || result.StoreFailed? ==> IsRevokedBy(old(backend.store), backend.store, c, now)
      ensures forall q: ByRoleQuery | q.role == policy.administratorRole && HasHolder(old(backend.store), q) :: HasHolder(backend.store, q)
    {
      hide IsRevokedBy, StoreInv, Evolves, HasHolder, AnotherHolder, RevokeAnswer, RevokeEffect, GrantAnswer, GrantEffect;
      ghost var before := backend.store;
      var found := CurrentOf(backend.store, c);
      if found.None? {
        return RoleNotFound;
      }
      var current := found.value;
      var assignment := current.value.assignment;
      if assignment.lifecycle.Revoked? {
        return RoleAlreadyRevoked;
      }
      LockedIsSystemManaged(assignment, policy);
      if AssignmentManagedBy(assignment, policy) == BySystem {
        return RoleSystemManaged;
      }
      var guarded := assignment.role == policy.administratorRole;
      if guarded {
        var another := AnotherActiveHolderExists(QueryOf(c, current), assignment.principalId);
        if !another {
          return LastAdministrator;
        }
      }
      CommandAnswer(before, c, current, now, eventId);
      var revoked := backend.RevokeRoleAssignmentWithAudit(CommandFor(c, current, now, eventId), rejection);
      ghost var after := backend.store;
      if revoked.RevokeRefused? {
        RefusedLeavesStore(before, after, CommandFor(c, current, now, eventId));
        return RoleConflict;
      }
      forall q: ByRoleQuery | q.role == policy.administratorRole && HasHolder(before, q) ensures HasHolder(after, q) {
        AdministratorsRemain(policy, before, after, c, current, now, eventId, q);
      }
      RevokeIsRecorded(before, after, c, current, now, eventId);
      if !guarded {
        return RoleRevoked(false);
      }
      AnotherRemains(before, after, c, current, now, eventId);
      var remains := AnotherActiveHolderExists(QueryOf(c, current), []);
      if remains {
        return RoleRevoked(false);
      }
      var grant := CompensationGrant(c, current, choice);
      var compensation := backend.GrantRoleAssignmentWithAudit(grant, rejection);
      RevokedStays(before, after, backend.store, c, now);
      forall q: ByRoleQuery | q.role == policy.administratorRole && HasHolder(before, q) ensures HasHolder(backend.store, q) {
        GrantKeepsHolders(after, backend.store, grant, q);
      }
      if compensation.GrantRefused? {
        var restored := AnotherActiveHolderExists(QueryOf(c, current), []);
        return if restored then RoleRevoked(false) else CompensationFailed;
      }
      return if compensation.Granted? || compensation.GrantUnchanged? then RoleRevoked(true) else StoreFailed;
    }
  }

  lemma RefusedLeavesStore(s: Store, t: Store, c: RevokeCommand)
    requires RevokeEffect(s, t, c) && RevokeAnswer(s, c).RevokeRefused?
    ensures t == s
  {
    hide RevokeAnswer;
  }
}
