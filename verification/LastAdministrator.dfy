/**
 * The last-administrator guard over any number of service instances: a scope that has had an
 * administrator lacks one only while the call that removed the last one is still restoring it.
 */
module LastAdministrator {
  import opened Prelude
  import opened RoleRecords
  import opened RoleStore
  import opened RoleStoreSafety
  import opened RoleReads
  import opened RoleRebuild
  import opened RoleSeeding
  import opened Administration
  import opened RoleWorld
  import opened RoleTheorems

  // ---------------------------------------------------------------- what the guard assumes of its surroundings

  /** The id a call claims with a pointer of its own. */
  function ClaimOf(call: Call): Option<PointerKey> {
    match call
    case Granting(c, _) => Some(KeyOfPointer(c.Row()))
    case Seeding(c, _) => Some(KeyOfPointer(c.Row()))
    case Administering(_, _, _, Compensating(_, c, _)) => Some(KeyOfPointer(c.Row()))
    case _ => None
  }

  /** Administrator assignments are revoked only through the service. */
  predicate ThroughService(w: World, a: Action) {
    a.Advance? && a.p in w.calls && w.calls[a.p].Revoking? && w.calls[a.p].revokePc.RevokeCommit? ==>
      w.calls[a.p].revokePc.existing.value.assignment.role != w.policy.administratorRole
  }

  /** A generated compensation id was never used before, and nobody else uses it later. */
  predicate FreshIds(w: World, a: Action) {
    match a
    case Begin(_, StartGrant(c)) => KeyOfPointer(c.Row()) !in w.generated
    case Begin(_, StartSeeding(c)) => KeyOfPointer(c.Row()) !in w.generated
    case Begin(_, _) => true
    case Advance(p, choice) =>
      p in w.calls && w.calls[p].Administering? && w.calls[p].adminPc.PostScan? ==>
        var key := PointerKey(w.calls[p].command.applicationId, choice.id);
        && key !in w.generated && key !in w.store.pointers
        && (forall q | q in w.calls :: ClaimOf(w.calls[q]) != Some(key))
  }

  ghost predicate IsGuardedRun(r: Run) {
    IsRun(r) && forall i | 0 <= i < |r.actions| :: ThroughService(r.states[i], r.actions[i]) && FreshIds(r.states[i], r.actions[i])
  }

  // ---------------------------------------------------------------- compensation ids stay free until used

  predicate BeforeCommit(pc: GrantPc) {
    pc.GrantWritePointer? || pc.GrantWriteHolder? || pc.GrantReadGuard? || pc.GrantReadExisting? || pc.GrantCommit?
  }

  /** The id of a compensation grant is free in the store until the grant uses it. */
  predicate IdFree(s: Store, c: GrantCommand, pc: GrantPc) {
    && (pc.GrantWritePointer? ==> KeyOfPointer(c.Row()) !in s.pointers)
    && (BeforeCommit(pc) ==> c.Key() !in s.assignments)
  }

  predicate IsCompensating(w: World, p: nat) {
    p in w.calls && w.calls[p].Administering? && w.calls[p].adminPc.Compensating?
  }

  /** The compensation of `p` has its id to itself. */
  ghost predicate ClaimOk(w: World, p: nat)
    requires IsCompensating(w, p)
  {
    && ClaimOf(w.calls[p]).value in w.generated
    && IdFree(w.store, w.calls[p].adminPc.grant, w.calls[p].adminPc.grantPc)
    && forall q | q in w.calls && q != p :: ClaimOf(w.calls[q]) != ClaimOf(w.calls[p])
  }

  /** Every generated id is claimed by one call only, the compensation it was generated for. */
  ghost predicate ClaimsOk(w: World) {
    forall p | IsCompensating(w, p) :: ClaimOk(w, p)
  }

  /** A step adds pointers and assignments only under the id its own call claims. */
  lemma AddsOnlyOwn(policy: Policy, s: Store, call: Call, choice: Choice)
    ensures var t := CallStep(policy, s, call, choice).0;
            && (forall k | k in t.pointers && k !in s.pointers :: ClaimOf(call) == Some(k))
            && (forall k | k in t.assignments && k !in s.assignments :: ClaimOf(call) == Some(PointerKey(k.location.applicationId, k.id)))
  {
    hide GrantStep, RevokeStep, SeedStep, RebuildStep, ByRoleStep, ListStep, ScanStep;
    match call
    case Granting(c, pc) => GrantAddsOwn(s, c, pc, choice.rejection);
    case Seeding(c, pc) => SeedAddsOwn(s, c, pc, choice);
    case Rebuilding(applicationId, pc) => RebuildAddsNone(s, applicationId, pc, choice);
    case Revoking(c, pc) => RevokeAddsNone(s, c, pc, choice.rejection);
    case Administering(_, _, _, Compensating(_, c, pc)) => GrantAddsOwn(s, c, pc, choice.rejection);
    case Administering(_, _, _, RevokingRole(_, _, c, pc)) => RevokeAddsNone(s, c, pc, choice.rejection);
    case _ =>
  }

  lemma RebuildAddsNone(s: Store, applicationId: Text, pc: RebuildPc, choice: Choice)
    ensures var t := RebuildStep(s, applicationId, pc, choice.pick).0; t.pointers == s.pointers && t.assignments == s.assignments
  {
    hide ReadPointed;
  }

  lemma GrantAddsOwn(s: Store, c: GrantCommand, pc: GrantPc, rejection: Rejection)
    ensures var t := GrantStep(s, c, pc, rejection).0;
            && (forall k | k in t.pointers && k !in s.pointers :: k == KeyOfPointer(c.Row()))
            && (forall k | k in t.assignments && k !in s.assignments :: PointerKey(k.location.applicationId, k.id) == KeyOfPointer(c.Row()))
  {
  }

  lemma SeedAddsOwn(s: Store, c: GrantCommand, pc: SeedPc, choice: Choice)
    ensures var t := SeedStep(s, c, pc, choice.row, choice.rejection).0;
            && (forall k | k in t.pointers && k !in s.pointers :: k == KeyOfPointer(c.Row()))
            && (forall k | k in t.assignments && k !in s.assignments :: PointerKey(k.location.applicationId, k.id) == KeyOfPointer(c.Row()))
  {
    hide GrantStep, ListStep, ShowsRole;
    if pc.SeedGranting? {
      GrantAddsOwn(s, c, pc.grant, choice.rejection);
    }
  }

  lemma RevokeAddsNone(s: Store, c: RevokeCommand, pc: RevokePc, rejection: Rejection)
    ensures var t := RevokeStep(s, c, pc, rejection).0;
            && (forall k | k in t.pointers :: k in s.pointers) && (forall k | k in t.assignments :: k in s.assignments)
  {
  }

  lemma ClaimKept(policy: Policy, s: Store, call: Call, choice: Choice)
    ensures var call' := CallStep(policy, s, call, choice).1;
            || ClaimOf(call') == ClaimOf(call) || ClaimOf(call') == None
            || (&& call.Administering? && call.adminPc.PostScan? && call'.Administering? && call'.adminPc.Compensating?
                && ClaimOf(call') == Some(PointerKey(call.command.applicationId, choice.id)))
  {
  }

  lemma OwnIdFree(s: Store, c: GrantCommand, pc: GrantPc, rejection: Rejection)
    requires IdFree(s, c, pc)
    ensures IdFree(GrantStep(s, c, pc, rejection).0, c, GrantStep(s, c, pc, rejection).1)
  {
  }

  lemma IdFreeStable(policy: Policy, s: Store, call: Call, choice: Choice, c: GrantCommand, pc: GrantPc)
    requires IdFree(s, c, pc) && ClaimOf(call) != Some(KeyOfPointer(c.Row()))
    ensures IdFree(CallStep(policy, s, call, choice).0, c, pc)
  {
    AddsOnlyOwn(policy, s, call, choice);
    hide CallStep;
  }

  /** Another call's step leaves a compensation's claim alone. */
  lemma OtherClaimKept(w: World, p: nat, choice: Choice, q: nat)
    requires FreshIds(w, Advance(p, choice)) && Runnable(w, p)
    requires q != p && IsCompensating(w, q) && ClaimOk(w, q)
    ensures var w' := Step(w, Advance(p, choice)); IsCompensating(w', q) && ClaimOk(w', q)
  {
    OthersStay(w, Advance(p, choice), q);
    OwnStep(w, p, choice);
    IdFreeStable(w.policy, w.store, w.calls[p], choice, w.calls[q].adminPc.grant, w.calls[q].adminPc.grantPc);
    ClaimApart(w, p, choice, q);
    GeneratedStay(w, p, choice);
    hide CallStep, IdFree, Step, FreshIds;
  }

  lemma GeneratedStay(w: World, p: nat, choice: Choice)
    ensures var w' := Step(w, Advance(p, choice)); w.generated <= w'.generated
    ensures var w' := Step(w, Advance(p, choice)); forall q | q in w'.calls && q != p :: q in w.calls && w'.calls[q] == w.calls[q]
  {
    hide CallStep;
  }

  /** A step does not take a claim that another call has. */
  lemma ClaimApart(w: World, p: nat, choice: Choice, q: nat)
    requires FreshIds(w, Advance(p, choice)) && Runnable(w, p) && q != p && IsCompensating(w, q) && ClaimOk(w, q)
    ensures ClaimOf(CallStep(w.policy, w.store, w.calls[p], choice).1) != ClaimOf(w.calls[q])
  {
    ClaimKept(w.policy, w.store, w.calls[p], choice);
    hide CallStep, IdFree;
  }

  /** A compensation's own step keeps its claim. */
  lemma OwnClaimKept(w: World, p: nat, choice: Choice)
    requires IsCompensating(w, p) && ClaimOk(w, p)
    ensures var w' := Step(w, Advance(p, choice)); IsCompensating(w', p) ==> ClaimOk(w', p)
  {
    OwnStep(w, p, choice);
    OwnIdFree(w.store, w.calls[p].adminPc.grant, w.calls[p].adminPc.grantPc, choice.rejection);
    hide GrantStep, IdFree;
  }

  lemma NewCompensation(w: World, p: nat, choice: Choice)
    requires Runnable(w, p) && !IsCompensating(w, p) && IsCompensating(Step(w, Advance(p, choice)), p)
    ensures p in w.calls && w.calls[p].Administering? && w.calls[p].adminPc.PostScan?
    ensures var w' := Step(w, Advance(p, choice));
            p in w'.calls && w'.calls[p].Administering? && w'.calls[p].adminPc.Compensating? &&
            var pc := w'.calls[p].adminPc;
            && w'.store == w.store && w'.calls == w.calls[p := w'.calls[p]]
            && KeyOfPointer(pc.grant.Row()) == PointerKey(w.calls[p].command.applicationId, choice.id)
            && BeforeCommit(pc.grantPc) == pc.grantPc.GrantWritePointer?
            && KeyOfPointer(pc.grant.Row()) in w'.generated
  {
    hide GrantStep, RevokeStep, ScanStep, ByRoleStep, ListStep;
  }

  /** A new compensation starts with an id nobody else claims. */
  lemma NewClaimOk(w: World, p: nat, choice: Choice)
    requires WorldInv(w) && FreshIds(w, Advance(p, choice)) && Runnable(w, p) && !IsCompensating(w, p)
    ensures var w' := Step(w, Advance(p, choice)); IsCompensating(w', p) ==> ClaimOk(w', p)
  {
    hide *;
    if IsCompensating(Step(w, Advance(p, choice)), p) {
      NewCompensation(w, p, choice);
      NewIdIsFree(w, p, choice);
      NoAssignmentWithoutPointer(w, PointerKey(w.calls[p].command.applicationId, choice.id));
      NewClaim(w, Step(w, Advance(p, choice)), p, PointerKey(w.calls[p].command.applicationId, choice.id));
    }
  }

  lemma NewIdIsFree(w: World, p: nat, choice: Choice)
    requires FreshIds(w, Advance(p, choice)) && p in w.calls && w.calls[p].Administering? && w.calls[p].adminPc.PostScan?
    ensures var key := PointerKey(w.calls[p].command.applicationId, choice.id);
            key !in w.store.pointers && forall q | q in w.calls :: ClaimOf(w.calls[q]) != Some(key)
  {
    hide ClaimOf;
  }

  lemma NewClaim(w: World, w': World, p: nat, key: PointerKey)
    requires p in w.calls && p in w'.calls && w'.store == w.store && w'.calls == w.calls[p := w'.calls[p]] && IsCompensating(w', p)
    requires key !in w.store.pointers && forall q | q in w.calls :: ClaimOf(w.calls[q]) != Some(key)
    requires forall k | k in w.store.assignments :: PointerKey(k.location.applicationId, k.id) != key
    requires KeyOfPointer(w'.calls[p].adminPc.grant.Row()) == key && key in w'.generated
    requires BeforeCommit(w'.calls[p].adminPc.grantPc) == w'.calls[p].adminPc.grantPc.GrantWritePointer?
    ensures ClaimOk(w', p)
  {
  }

  lemma NoAssignmentWithoutPointer(w: World, key: PointerKey)
    requires WorldInv(w) && key !in w.store.pointers
    ensures forall k | k in w.store.assignments :: PointerKey(k.location.applicationId, k.id) != key
  {
    hide AuditsOf, GuardOk, IndexesOk, Names, CallOk;
    forall k | k in w.store.assignments ensures PointerKey(k.location.applicationId, k.id) != key {
      assert AssignmentOk(w.store, k);
    }
  }

  lemma ClaimsKept(w: World, a: Action)
    requires WorldInv(w) && ClaimsOk(w) && FreshIds(w, a)
    ensures ClaimsOk(Step(w, a))
  {
    if a.Advance? && Runnable(w, a.p) {
      hide WorldInv, ClaimOk, FreshIds, Step, IsCompensating;
      forall q | IsCompensating(Step(w, a), q) ensures ClaimOk(Step(w, a), q) {
        ClaimKeptBy(w, a.p, a.choice, q);
      }
    } else {
      IdleKeepsClaims(w, a);
      hide *;
    }
  }

  lemma ClaimKeptBy(w: World, p: nat, choice: Choice, q: nat)
    requires WorldInv(w) && ClaimsOk(w) && FreshIds(w, Advance(p, choice)) && Runnable(w, p)
    requires IsCompensating(Step(w, Advance(p, choice)), q)
    ensures ClaimOk(Step(w, Advance(p, choice)), q)
  {
    hide *;
    if q != p {
      WasCompensating(w, p, choice, q);
      ClaimHeld(w, q);
      OtherClaimKept(w, p, choice, q);
    } else if IsCompensating(w, q) {
      ClaimHeld(w, q);
      OwnClaimKept(w, q, choice);
    } else {
      NewClaimOk(w, q, choice);
    }
  }

  lemma ClaimHeld(w: World, q: nat)
    requires ClaimsOk(w) && IsCompensating(w, q)
    ensures ClaimOk(w, q)
  {
    hide ClaimOk;
  }

  lemma WasCompensating(w: World, p: nat, choice: Choice, q: nat)
    requires Runnable(w, p) && q != p && IsCompensating(Step(w, Advance(p, choice)), q)
    ensures IsCompensating(w, q)
  {
    hide CallStep;
  }

  /** Beginning a call, or starting a queued one, claims nothing that is claimed. */
  lemma IdleKeepsClaims(w: World, a: Action)
    requires ClaimsOk(w) && FreshIds(w, a) && !(a.Advance? && Runnable(w, a.p))
    ensures ClaimsOk(Step(w, a))
  {
    hide CallStep, IdFree;
    forall q | IsCompensating(Step(w, a), q) ensures ClaimOk(Step(w, a), q) {
      assert ClaimOk(w, q);
    }
  }

  // ---------------------------------------------------------------- the guard's invariant

  function AdminQuery(policy: Policy, d: Domain): ByRoleQuery {
    ByRoleQuery(d.applicationId, policy.administratorRole, d.scope)
  }

  /** A compensation grant that has seen the tuple free and has not committed. */
  predicate ViewFree(s: Store, c: GrantCommand, pc: GrantPc) {
    match pc
    case GrantReadExisting(guard) => s.GuardAt(c.Guard()) == guard
    case GrantCommit(guard) => s.GuardAt(c.Guard()) == guard
    case _ => BeforeCommit(pc)
  }

  predicate Removed(policy: Policy, d: Domain, current: Versioned<StoredAssignment>) {
    current.value.assignment.role == policy.administratorRole && current.value.assignment.scope == d.scope
  }

  /**
   * The call has committed an administrator's revocation in this scope and is still running: it has verified no
   * holder, and its compensation has neither been refused nor failed.
   */
  predicate Restoring(s: Store, policy: Policy, call: Call, d: Domain) {
    && call.Administering? && call.command.applicationId == d.applicationId
    && match call.adminPc
       case RevokingRole(current, _, _, revoke) =>
         Removed(policy, d, current) && (revoke.RevokeReadBack? || (revoke.RevokeDone? && revoke.result.RevokeCommitted?))
       case PostScan(current, _, scan) => Removed(policy, d, current) && !(scan.ScanDone? && scan.found.Some?)
       case Compensating(current, grant, grantPc) => Removed(policy, d, current) && ViewFree(s, grant, grantPc)
       case _ => false
  }

  ghost predicate Guarded(w: World, d: Domain) {
    || HasHolder(w.store, AdminQuery(w.policy, d))
    || (&& d in w.lastRevoker && w.lastRevoker[d] in w.calls
        && Restoring(w.store, w.policy, w.calls[w.lastRevoker[d]], d))
  }

  // ---------------------------------------------------------------- how the set of holders may change

  lemma HolderKeptByGrant(s: Store, t: Store, c: GrantCommand, read: Option<Versioned<StoredTuple>>, q: ByRoleQuery, id: Text)
    requires s.TransactGrant(c, read) == Some(t) && IsHolder(s, q, id)
    ensures IsHolder(t, q, id)
  {
  }

  /** Only a revoke of the holder's own record makes a holder disappear. */
  lemma HolderLostByRevoke(
    s: Store, t: Store, c: RevokeCommand, row: IndexRow, existing: Versioned<StoredAssignment>, guard: Versioned<StoredTuple>,
    q: ByRoleQuery, id: Text)
    requires s.TransactRevoke(row, c, existing, guard) == Some(t) && RevokeOk(s, c, RevokeCommit(row, existing, guard))
    requires IsHolder(s, q, id) && !IsHolder(t, q, id)
    ensures id == c.assignmentId && q.applicationId == c.applicationId
    ensures existing.value.assignment.role == q.role && row.location.scope == q.scope
  {
  }

  // ---------------------------------------------------------------- the removing step

  /** A service call that is about to revoke has located the record it read. */
  lemma RevokingItsCurrent(s: Store, policy: Policy, c: RevokeRoleCommand, pc: AdminPc)
    requires StoreInv(s) && AdminOk(s, policy, c, pc) && pc.RevokingRole? && pc.revoke.RevokeCommit?
    ensures pc.revoke.existing.value.assignment.role == pc.current.value.assignment.role
    ensures pc.revoke.row.location == pc.current.value.location && pc.command.applicationId == c.applicationId
    ensures pc.current.value.assignment.scope == pc.current.value.location.scope
  {
    hide AuditsOf, GuardOk, IndexesOk, Names;
    var k := AssignmentKey(pc.current.value.location, c.assignmentId);
    assert AssignmentOk(s, k);
    assert AssignmentOk(s, AssignmentKey(pc.revoke.row.location, c.assignmentId));
  }

  lemma HolderStaysWithRecords(s: Store, t: Store, q: ByRoleQuery, id: Text)
    requires IsHolder(s, q, id) && SameRecords(s, t) && Evolves(s, t)
    ensures IsHolder(t, q, id)
  {
  }

  lemma PerformsAsWritten(s: Store, t: Store, write: Write)
    ensures Performs(s, t, write) ==>
              match write
              case NoWrite => false
              case GrantWrite(c, read) => s.TransactGrant(c, read) == Some(t)
              case RevokeWrite(c, row, existing, guard) => s.TransactRevoke(row, c, existing, guard) == Some(t)
    ensures write.RevokeWrite? && WriteOk(s, write) ==>
              RevokeOk(s, write.revoke, RevokeCommit(write.row, write.existing, write.guard))
  {
    hide Store.TransactGrant, Store.TransactRevoke, RevokeOk, GrantOk;
  }

  /** A step that makes a holder disappear performs a revoke of that holder's record. */
  lemma LostByRevoke(policy: Policy, s: Store, call: Call, choice: Choice, q: ByRoleQuery, id: Text)
    requires StoreInv(s) && CallOk(policy, s, call)
    requires IsHolder(s, q, id) && !IsHolder(CallStep(policy, s, call, choice).0, q, id)
    ensures var write := PendingWrite(call);
            && write.RevokeWrite? && Performs(s, CallStep(policy, s, call, choice).0, write)
            && write.revoke.assignmentId == id && write.revoke.applicationId == q.applicationId
            && write.existing.value.assignment.role == q.role && write.row.location.scope == q.scope
  {
    hide *;
    var t := CallStep(policy, s, call, choice).0;
    CallStepSafe(policy, s, call, choice);
    CallStepWrites(policy, s, call, choice);
    PendingWriteOk(policy, s, call);
    PerformsAsWritten(s, t, PendingWrite(call));
    if SameRecords(s, t) {
      HolderStaysWithRecords(s, t, q, id);
    } else if PendingWrite(call).GrantWrite? {
      HolderKeptByGrant(s, t, PendingWrite(call).grant, PendingWrite(call).read, q, id);
    } else {
      var write := PendingWrite(call);
      HolderLostByRevoke(s, t, write.revoke, write.row, write.existing, write.guard, q, id);
    }
  }

  /** A service call that performs its revoke moves on to reading the revoked record back. */
  lemma AdminRevokeMoves(policy: Policy, s: Store, call: Call, choice: Choice)
    requires call.Administering? && PendingWrite(call).RevokeWrite?
    requires Performs(s, CallStep(policy, s, call, choice).0, PendingWrite(call)) && AdminOk(s, policy, call.command, call.adminPc)
    ensures var call' := CallStep(policy, s, call, choice).1;
            && call.adminPc.RevokingRole? && call.adminPc.revoke.RevokeCommit?
            && call' == call.(adminPc := call.adminPc.(revoke := RevokeReadBack(call.adminPc.revoke.row)))
            && PendingWrite(call).revoke == call.adminPc.command && PendingWrite(call).row == call.adminPc.revoke.row
            && PendingWrite(call).existing == call.adminPc.revoke.existing
            && call.adminPc.command.assignmentId == call.command.assignmentId
            && call.adminPc.command.applicationId == call.command.applicationId
  {
  }

  /** The call that makes an administrator disappear is a service call committing that administrator's revocation. */
  lemma RemoverCommits(policy: Policy, s: Store, call: Call, choice: Choice, q: ByRoleQuery, id: Text)
    requires StoreInv(s) && CallOk(policy, s, call) && q.role == policy.administratorRole
    requires RevokesNoAdministrator(policy, call)
    requires IsHolder(s, q, id) && !IsHolder(CallStep(policy, s, call, choice).0, q, id)
    ensures var call' := CallStep(policy, s, call, choice).1;
            && CommitsAdminRevoke(policy, call, call')
            && call.Administering? && call.adminPc.RevokingRole? && call.adminPc.revoke.RevokeCommit?
            && DomainOf(call) == Domain(q.applicationId, q.scope)
            && id == call.command.assignmentId
            && call' == call.(adminPc := call.adminPc.(revoke := RevokeReadBack(call.adminPc.revoke.row)))
  {
    hide StoreInv, IsHolder, AdminOk;
    LostByRevoke(policy, s, call, choice, q, id);
    hide CallStep;
    AdminRevokeMoves(policy, s, call, choice);
    RevokingItsCurrent(s, policy, call.command, call.adminPc);
  }

  /** The step that removes the last holder belongs to a service call, which then is restoring. */
  lemma RemovalIsGuarded(w: World, p: nat, choice: Choice, d: Domain)
    requires WorldInv(w) && Runnable(w, p) && ThroughService(w, Advance(p, choice))
    requires var q := AdminQuery(w.policy, d); HasHolder(w.store, q) && !HasHolder(Step(w, Advance(p, choice)).store, q)
    ensures var w' := Step(w, Advance(p, choice));
            && d in w'.lastRevoker && w'.lastRevoker[d] == p && p in w'.calls
            && Restoring(w'.store, w'.policy, w'.calls[p], d)
  {
    assert p in w.calls;
    hide *;
    OwnStep(w, p, choice);
    CallIsOk(w, p);
    ServiceOnly(w, p, choice);
    LastHolderRemoved(w.policy, w.store, w.calls[p], choice, d);
  }

  lemma ServiceOnly(w: World, p: nat, choice: Choice)
    requires ThroughService(w, Advance(p, choice)) && p in w.calls
    ensures RevokesNoAdministrator(w.policy, w.calls[p])
  {
  }

  /** The call is no direct revoke about to revoke an administrator. */
  predicate RevokesNoAdministrator(policy: Policy, call: Call) {
    call.Revoking? && call.revokePc.RevokeCommit? ==> call.revokePc.existing.value.assignment.role != policy.administratorRole
  }

  lemma LastHolderRemoved(policy: Policy, s: Store, call: Call, choice: Choice, d: Domain)
    requires StoreInv(s) && CallOk(policy, s, call) && RevokesNoAdministrator(policy, call)
    requires var (t, call') := CallStep(policy, s, call, choice);
             HasHolder(s, AdminQuery(policy, d)) && !HasHolder(t, AdminQuery(policy, d))
    ensures var (t, call') := CallStep(policy, s, call, choice);
            && CommitsAdminRevoke(policy, call, call') && DomainOf(call) == d && Restoring(t, policy, call', d)
  {
    hide *;
    var q := AdminQuery(policy, d);
    AdminQueryOf(policy, d);
    var id := SomeHolder(s, q);
    var (t, call') := CallStep(policy, s, call, choice);
    if IsHolder(t, q, id) {
      HolderIsSome(t, q, id);
    }
    RemoverCommits(policy, s, call, choice, q, id);
    RemoverRestores(t, policy, call, call', d);
  }

  lemma AdminQueryOf(policy: Policy, d: Domain)
    ensures var q := AdminQuery(policy, d);
            q.role == policy.administratorRole && Domain(q.applicationId, q.scope) == d
  {
  }

  lemma RemoverRestores(t: Store, policy: Policy, call: Call, call': Call, d: Domain)
    requires CommitsAdminRevoke(policy, call, call') && DomainOf(call) == d
    requires call.Administering? && call.adminPc.RevokingRole? && call.adminPc.revoke.RevokeCommit?
    requires call' == call.(adminPc := call.adminPc.(revoke := RevokeReadBack(call.adminPc.revoke.row)))
    ensures Restoring(t, policy, call', d)
  {
  }

  lemma SomeHolder(s: Store, q: ByRoleQuery) returns (id: Text)
    requires HasHolder(s, q)
    ensures IsHolder(s, q, id)
  {
    hide IsHolder;
    id :| IsHolder(s, q, id);
  }

  lemma HolderIsSome(s: Store, q: ByRoleQuery, id: Text)
    requires IsHolder(s, q, id)
    ensures HasHolder(s, q)
  {
    hide IsHolder;
  }

  // ---------------------------------------------------------------- while there is no holder

  /** A call that commits an administrator's revocation removes a holder, so there was one. */
  lemma CommitNeedsHolder(policy: Policy, s: Store, call: Call, choice: Choice)
    requires StoreInv(s) && CallOk(policy, s, call) && CommitsAdminRevoke(policy, call, CallStep(policy, s, call, choice).1)
    ensures HasHolder(s, AdminQuery(policy, DomainOf(call)))
  {
    hide AuditsOf, GuardOk, IndexesOk, Names;
    RevokingItsCurrent(s, policy, call.command, call.adminPc);
    CommittedWasActive(s, call.adminPc.command, call.adminPc.revoke, choice.rejection);
    hide CallStep;
    HolderFound(s, AdminQuery(policy, DomainOf(call)), call.adminPc.revoke.row.location, call.adminPc.command.assignmentId);
  }

  lemma CommittedWasActive(s: Store, c: RevokeCommand, pc: RevokePc, rejection: Rejection)
    requires RevokeOk(s, c, pc) && pc.RevokeCommit? && RevokeStep(s, c, pc, rejection).1.RevokeReadBack?
    ensures Holds(s, pc.row.location, pc.existing.value.assignment.role, c.assignmentId)
  {
  }

  predicate InDomain(policy: Policy, c: GrantCommand, d: Domain) {
    c.applicationId == d.applicationId && c.assignment.scope == d.scope && c.assignment.role == policy.administratorRole
  }

  lemma OccupiedIsHolder(s: Store, policy: Policy, c: GrantCommand, d: Domain)
    requires StoreInv(s) && Occupied(s, c) && InDomain(policy, c, d)
    ensures HasHolder(s, AdminQuery(policy, d))
  {
    hide StoreInv;
    var id :| Holds(s, c.Place(), c.assignment.role, id);
    HolderFound(s, AdminQuery(policy, d), c.Place(), id);
  }

  /** With no holder before or after it, another call's step leaves the compensation's view of its tuple alone. */
  lemma ViewFreeStable(policy: Policy, s: Store, call: Call, choice: Choice, c: GrantCommand, pc: GrantPc, d: Domain)
    requires StoreInv(s) && CallOk(policy, s, call) && InDomain(policy, c, d) && GrantOk(s, c, pc) && ViewFree(s, c, pc)
    requires var t := CallStep(policy, s, call, choice).0;
             !HasHolder(s, AdminQuery(policy, d)) && !HasHolder(t, AdminQuery(policy, d))
    ensures ViewFree(CallStep(policy, s, call, choice).0, c, pc)
  {
    hide *;
    var t := CallStep(policy, s, call, choice).0;
    CallStepSafe(policy, s, call, choice);
    CallStepWrites(policy, s, call, choice);
    PendingWriteOk(policy, s, call);
    if Occupied(s, c) {
      OccupiedIsHolder(s, policy, c, d);
    }
    if Occupied(t, c) {
      OccupiedIsHolder(t, policy, c, d);
    }
    if (pc.GrantReadExisting? || pc.GrantCommit?) && Performs(s, t, PendingWrite(call)) {
      ViewClaims(s, c, pc);
      WriteMovesHeldTuple(s, t, PendingWrite(call), c);
    }
    QuietKeepsView(s, t, c, pc);
  }

  lemma QuietKeepsView(s: Store, t: Store, c: GrantCommand, pc: GrantPc)
    requires ViewFree(s, c, pc)
    requires SameRecords(s, t) || (pc.GrantReadExisting? || pc.GrantCommit? ==> TupleQuiet(s, t, c))
    ensures ViewFree(t, c, pc)
  {
  }

  /** With no holder before or after its step, a compensation grant goes on seeing its tuple free. */
  lemma ViewFreeStep(policy: Policy, s: Store, c: GrantCommand, pc: GrantPc, rejection: Rejection, d: Domain)
    requires StoreInv(s) && InDomain(policy, c, d) && GrantOk(s, c, pc) && ViewFree(s, c, pc) && IdFree(s, c, pc)
    requires !HasHolder(s, AdminQuery(policy, d)) && !HasHolder(GrantStep(s, c, pc, rejection).0, AdminQuery(policy, d))
    ensures ViewFree(GrantStep(s, c, pc, rejection).0, c, GrantStep(s, c, pc, rejection).1)
  {
    var (t, pc') := GrantStep(s, c, pc, rejection);
    hide StoreInv, Evolves, HasHolder;
    GrantStepSafe(s, c, pc, rejection);
    if pc.GrantReadGuard? && c.Guard() in s.guards {
      GuardFreeWithoutHolder(s, policy, c, d);
    } else if pc.GrantCommit? {
      CompensationCommits(s, policy, c, pc.guard, d);
    }
  }

  lemma GuardFreeWithoutHolder(s: Store, policy: Policy, c: GrantCommand, d: Domain)
    requires StoreInv(s) && InDomain(policy, c, d) && c.Guard() in s.guards && !HasHolder(s, AdminQuery(policy, d))
    ensures s.guards[c.Guard()].value.activeId.None?
  {
    hide AuditsOf, AssignmentOk, IndexesOk, Names;
    assert GuardOk(s, c.Guard());
    if s.guards[c.Guard()].value.activeId.Some? {
      HolderFound(s, AdminQuery(policy, d), c.Place(), s.guards[c.Guard()].value.activeId.value);
    }
  }

  /** The compensation's transaction is not refused, and it makes its principal a holder. */
  lemma CompensationCommits(s: Store, policy: Policy, c: GrantCommand, guard: Option<Versioned<StoredTuple>>, d: Domain)
    requires StoreInv(s) && InDomain(policy, c, d) && GrantOk(s, c, GrantCommit(guard))
    requires ViewFree(s, c, GrantCommit(guard)) && IdFree(s, c, GrantCommit(guard))
    ensures s.TransactGrant(c, guard).Some? && HasHolder(s.TransactGrant(c, guard).value, AdminQuery(policy, d))
  {
    hide AssignmentOk, GuardOk, IndexesOk, Names;
    assert AuditsOf(s, c.Key());
    var t := s.TransactGrant(c, guard).value;
    GrantCommitKeeps(s, t, c, guard);
    hide StoreInv;
    HolderFound(t, AdminQuery(policy, d), c.Place(), c.assignment.id);
  }

  // ---------------------------------------------------------------- the guard's invariant is kept

  lemma CompensationInDomain(s: Store, policy: Policy, c: RevokeRoleCommand, pc: AdminPc, d: Domain)
    requires AdminOk(s, policy, c, pc) && pc.Compensating? && c.applicationId == d.applicationId && Removed(policy, d, pc.current)
    ensures InDomain(policy, pc.grant, d) && GrantOk(s, pc.grant, pc.grantPc)
  {
  }

  /** A restoring call's scan finds no holder while there is none. */
  lemma NoHolderFound(s: Store, q: ByRoleQuery, scan: HolderScan, pick: Option<Text>)
    requires StoreInv(s) && ScanOk(s, q, scan) && !HasHolder(s, q) && !(scan.ScanDone? && scan.found.Some?)
    ensures var scan' := ScanStep(s, q, [], scan, pick); !(scan'.ScanDone? && scan'.found.Some?)
  {
    if !scan.ScanDone? {
      ScanAnswersTruly(s, q, [], scan, pick);
    }
    hide StoreInv, ScanOk;
  }

  lemma RestoringReadsBack(policy: Policy, s: Store, call: Call, choice: Choice, d: Domain)
    requires StoreInv(s) && CallOk(policy, s, call) && Restoring(s, policy, call, d)
    requires call.Administering? && call.adminPc.RevokingRole?
    ensures var (t, call') := CallStep(policy, s, call, choice); Restoring(t, policy, call', d)
  {
    hide *;
    AdminCallOk(policy, s, call);
    RevokingIsOk(s, policy, call);
    RevokeReadsBackAnswer(s, call.adminPc.command, call.adminPc.revoke, choice.rejection);
    ReadBackStep(policy, s, call, choice, d);
  }

  lemma RevokingIsOk(s: Store, policy: Policy, call: Call)
    requires call.Administering? && call.adminPc.RevokingRole? && AdminOk(s, policy, call.command, call.adminPc)
    ensures RevokeOk(s, call.adminPc.command, call.adminPc.revoke)
  {
    hide RevokeOk, CurrentOk;
  }

  lemma ReadBackStep(policy: Policy, s: Store, call: Call, choice: Choice, d: Domain)
    requires Restoring(s, policy, call, d) && call.Administering? && call.adminPc.RevokingRole?
    requires call.adminPc.revoke.RevokeReadBack? ==>
               var pc' := RevokeStep(s, call.adminPc.command, call.adminPc.revoke, choice.rejection).1;
               pc'.RevokeDone? && pc'.result.RevokeCommitted?
    ensures var (t, call') := CallStep(policy, s, call, choice); Restoring(t, policy, call', d)
  {
    hide RevokeStep, GrantStep, ScanStep, SeedStep, RebuildStep, ListStep, ByRoleStep;
  }

  /** A committed revoke reads its record back and answers `committed`. */
  lemma RevokeReadsBackAnswer(s: Store, c: RevokeCommand, pc: RevokePc, rejection: Rejection)
    requires StoreInv(s) && RevokeOk(s, c, pc)
    ensures pc.RevokeReadBack? ==>
              var pc' := RevokeStep(s, c, pc, rejection).1; pc'.RevokeDone? && pc'.result.RevokeCommitted?
  {
    hide StoreInv;
    if pc.RevokeReadBack? {
      RevokeReadsRecord(s, c, pc.row);
    }
  }

  lemma AdminCallOk(policy: Policy, s: Store, call: Call)
    requires CallOk(policy, s, call) && call.Administering?
    ensures AdminOk(s, policy, call.command, call.adminPc)
  {
    hide AdminOk;
  }

  /** What a re-verifying call does next. */
  lemma PostScanStep(policy: Policy, s: Store, call: Call, choice: Choice)
    requires call.Administering? && call.adminPc.PostScan? && AdminOk(s, policy, call.command, call.adminPc)
    ensures var current, scan := call.adminPc.current, call.adminPc.scan;
            var (t, call') := CallStep(policy, s, call, choice);
            && t == s && CurrentOk(s, call.command, current) && ScanOk(s, QueryOf(call.command, current), scan)
            && !scan.ScanFailed?
            && (!scan.ScanDone? ==>
                  call' == call.(adminPc := PostScan(
                            current, call.adminPc.relied, ScanStep(s, QueryOf(call.command, current), [], scan, choice.pick))))
            && (scan == ScanDone(None) ==>
                  var grant := CompensationGrant(call.command, current, choice);
                  call' == call.(adminPc := Compensating(current, grant, BeginGrant(grant))))
  {
    hide ScanStep, CurrentOk, ByRoleOk, IsCandidate;
  }

  lemma RestoringScans(policy: Policy, s: Store, call: Call, choice: Choice, d: Domain)
    requires StoreInv(s) && CallOk(policy, s, call) && Restoring(s, policy, call, d)
    requires call.Administering? && call.adminPc.PostScan? && !HasHolder(s, AdminQuery(policy, d))
    ensures var (t, call') := CallStep(policy, s, call, choice); Restoring(t, policy, call', d)
  {
    hide *;
    var current, scan := call.adminPc.current, call.adminPc.scan;
    AdminCallOk(policy, s, call);
    PostScanStep(policy, s, call, choice);
    RestoringScan(s, policy, call, d);
    NoHolderFound(s, QueryOf(call.command, current), scan, choice.pick);
    CompensationStarts(s, call.command, current, choice);
    ScanGoesOn(s, policy, call, ScanStep(s, QueryOf(call.command, current), [], scan, choice.pick), d);
    CompensationIsRestoring(s, policy, call, CompensationGrant(call.command, current, choice), d);
  }

  lemma RestoringScan(s: Store, policy: Policy, call: Call, d: Domain)
    requires Restoring(s, policy, call, d) && call.Administering? && call.adminPc.PostScan?
    ensures QueryOf(call.command, call.adminPc.current) == AdminQuery(policy, d)
    ensures !(call.adminPc.scan.ScanDone? && call.adminPc.scan.found.Some?)
  {
  }

  lemma ScanGoesOn(s: Store, policy: Policy, call: Call, scan: HolderScan, d: Domain)
    requires Restoring(s, policy, call, d) && call.Administering? && call.adminPc.PostScan?
    requires !(scan.ScanDone? && scan.found.Some?)
    ensures Restoring(s, policy, call.(adminPc := PostScan(call.adminPc.current, call.adminPc.relied, scan)), d)
  {
  }

  lemma CompensationIsRestoring(s: Store, policy: Policy, call: Call, grant: GrantCommand, d: Domain)
    requires Restoring(s, policy, call, d) && call.Administering? && call.adminPc.PostScan?
    ensures Restoring(s, policy, call.(adminPc := Compensating(call.adminPc.current, grant, GrantWritePointer)), d)
  {
  }

  /** A compensating call takes a step of its grant. */
  lemma CompensatingStep(policy: Policy, s: Store, call: Call, choice: Choice)
    requires call.Administering? && call.adminPc.Compensating? && !call.adminPc.grantPc.GrantDone?
    ensures var (t, grantPc') := GrantStep(s, call.adminPc.grant, call.adminPc.grantPc, choice.rejection);
            CallStep(policy, s, call, choice) == (t, call.(adminPc := call.adminPc.(grantPc := grantPc')))
  {
    hide GrantStep;
  }

  lemma RestoringGrants(policy: Policy, s: Store, call: Call, choice: Choice, d: Domain)
    requires StoreInv(s) && CallOk(policy, s, call) && Restoring(s, policy, call, d)
    requires call.Administering? && call.adminPc.Compensating?
    requires IdFree(s, call.adminPc.grant, call.adminPc.grantPc)
    requires var t := CallStep(policy, s, call, choice).0;
             !HasHolder(s, AdminQuery(policy, d)) && !HasHolder(t, AdminQuery(policy, d))
    ensures var (t, call') := CallStep(policy, s, call, choice); Restoring(t, policy, call', d)
  {
    hide *;
    var grant, grantPc := call.adminPc.grant, call.adminPc.grantPc;
    AdminCallOk(policy, s, call);
    RestoringView(s, policy, call, d);
    CompensatingStep(policy, s, call, choice);
    CompensationInDomain(s, policy, call.command, call.adminPc, d);
    ViewFreeStep(policy, s, grant, grantPc, choice.rejection, d);
    var (t, grantPc') := GrantStep(s, grant, grantPc, choice.rejection);
    StillCompensating(s, t, policy, call, grantPc', d);
  }

  lemma RestoringView(s: Store, policy: Policy, call: Call, d: Domain)
    requires Restoring(s, policy, call, d) && call.Administering? && call.adminPc.Compensating?
    ensures call.command.applicationId == d.applicationId && Removed(policy, d, call.adminPc.current)
    ensures ViewFree(s, call.adminPc.grant, call.adminPc.grantPc) && !call.adminPc.grantPc.GrantDone?
  {
  }

  lemma StillCompensating(s: Store, t: Store, policy: Policy, call: Call, grantPc: GrantPc, d: Domain)
    requires Restoring(s, policy, call, d) && call.Administering? && call.adminPc.Compensating?
    requires ViewFree(t, call.adminPc.grant, grantPc)
    ensures Restoring(t, policy, call.(adminPc := call.adminPc.(grantPc := grantPc)), d)
  {
  }

  lemma RestoringOwnStep(policy: Policy, s: Store, call: Call, choice: Choice, d: Domain)
    requires StoreInv(s) && CallOk(policy, s, call) && Restoring(s, policy, call, d) && call.Administering?
    requires call.adminPc.Compensating? ==> IdFree(s, call.adminPc.grant, call.adminPc.grantPc)
    requires var t := CallStep(policy, s, call, choice).0;
             !HasHolder(s, AdminQuery(policy, d)) && !HasHolder(t, AdminQuery(policy, d))
    ensures var (t, call') := CallStep(policy, s, call, choice); Restoring(t, policy, call', d)
  {
    hide *;
    RestoringKinds(s, policy, call, d);
    if call.adminPc.RevokingRole? {
      RestoringReadsBack(policy, s, call, choice, d);
    } else if call.adminPc.PostScan? {
      RestoringScans(policy, s, call, choice, d);
    } else {
      RestoringGrants(policy, s, call, choice, d);
    }
  }

  lemma RestoringKinds(s: Store, policy: Policy, call: Call, d: Domain)
    requires Restoring(s, policy, call, d)
    ensures call.Administering? && (call.adminPc.RevokingRole? || call.adminPc.PostScan? || call.adminPc.Compensating?)
  {
  }

  /** Another call's step leaves a restoring call restoring while there is no holder. */
  lemma RestoringStable(policy: Policy, s: Store, actor: Call, choice: Choice, call: Call, d: Domain)
    requires StoreInv(s) && CallOk(policy, s, actor) && CallOk(policy, s, call) && Restoring(s, policy, call, d)
    requires var t := CallStep(policy, s, actor, choice).0;
             !HasHolder(s, AdminQuery(policy, d)) && !HasHolder(t, AdminQuery(policy, d))
    ensures Restoring(CallStep(policy, s, actor, choice).0, policy, call, d)
  {
    hide StoreInv, CallStep, HasHolder, GrantOk, ViewFree;
    if call.adminPc.Compensating? {
      CompensationInDomain(s, policy, call.command, call.adminPc, d);
      ViewFreeStable(policy, s, actor, choice, call.adminPc.grant, call.adminPc.grantPc, d);
    }
  }

  ghost predicate GuardInv(w: World) {
    WorldInv(w) && ClaimsOk(w)
  }

  /** No step ends the restoring of a scope without a holder, other than by making a holder. */
  lemma GuardedStep(w: World, p: nat, choice: Choice, d: Domain)
    requires WorldInv(w) && ClaimsOk(w) && Guarded(w, d) && Runnable(w, p) && ThroughService(w, Advance(p, choice))
    ensures Guarded(Step(w, Advance(p, choice)), d)
  {
    var w' := Step(w, Advance(p, choice));
    var q := AdminQuery(w.policy, d);
    OwnStep(w, p, choice);
    if !HasHolder(w'.store, q) {
      hide Step, WorldInv, ClaimsOk, HasHolder, Restoring, CallStep, ThroughService;
      if HasHolder(w.store, q) {
        RemovalIsGuarded(w, p, choice, d);
      } else {
        StillRestoring(w, p, choice, d);
      }
    }
  }

  lemma StillRestoring(w: World, p: nat, choice: Choice, d: Domain)
    requires WorldInv(w) && ClaimsOk(w) && Runnable(w, p) && !HasHolder(w.store, AdminQuery(w.policy, d))
    requires d in w.lastRevoker && w.lastRevoker[d] in w.calls
    requires Restoring(w.store, w.policy, w.calls[w.lastRevoker[d]], d)
    requires var w' := Step(w, Advance(p, choice)); !HasHolder(w'.store, AdminQuery(w.policy, d))
    ensures var w' := Step(w, Advance(p, choice));
            && d in w'.lastRevoker && w'.lastRevoker[d] in w'.calls
            && Restoring(w'.store, w'.policy, w'.calls[w'.lastRevoker[d]], d)
  {
    hide *;
    var r := w.lastRevoker[d];
    RunnableIsCall(w, p);
    var call := w.calls[p];
    OwnStep(w, p, choice);
    CallIsOk(w, p);
    CallIsOk(w, r);
    if CommitsAdminRevoke(w.policy, call, CallStep(w.policy, w.store, call, choice).1) {
      CommitNeedsHolder(w.policy, w.store, call, choice);
    }
    if r == p {
      RestoringClaim(w, r, d);
      RestoringOwnStep(w.policy, w.store, call, choice, d);
    } else {
      OthersStay(w, Advance(p, choice), r);
      RestoringStable(w.policy, w.store, call, choice, w.calls[r], d);
    }
  }

  lemma RunnableIsCall(w: World, p: nat)
    requires Runnable(w, p)
    ensures p in w.calls
  {
  }

  lemma RestoringClaim(w: World, r: nat, d: Domain)
    requires ClaimsOk(w) && r in w.calls && Restoring(w.store, w.policy, w.calls[r], d)
    ensures w.calls[r].Administering?
    ensures w.calls[r].adminPc.Compensating? ==> IdFree(w.store, w.calls[r].adminPc.grant, w.calls[r].adminPc.grantPc)
  {
    assert IsCompensating(w, r) ==> ClaimOk(w, r);
  }

  /** Beginning a call, or starting a queued one, changes nothing the guard depends on. */
  lemma GuardedIdle(w: World, a: Action, d: Domain)
    requires Guarded(w, d) && !(a.Advance? && Runnable(w, a.p))
    ensures Guarded(Step(w, a), d)
  {
    hide HasHolder, CallStep;
  }

  lemma {:induction false} GuardInvHolds(r: Run, i: nat)
    requires IsGuardedRun(r) && i < |r.states|
    ensures GuardInv(r.states[i])
  {
    RunSafe(r, i);
    hide WorldInv;
    if i > 0 {
      GuardInvHolds(r, i - 1);
      RunSteps(r, i);
      hide IsRun, FreshIds, Step, ClaimsOk;
      ClaimsKept(r.states[i - 1], r.actions[i - 1]);
    }
  }

  lemma GuardedNext(w: World, a: Action, d: Domain)
    requires GuardInv(w) && ThroughService(w, a) && Guarded(w, d)
    ensures Guarded(Step(w, a), d)
  {
    assert WorldInv(w) && ClaimsOk(w);
    hide *;
    if a.Advance? && Runnable(w, a.p) {
      GuardedStep(w, a.p, a.choice, d);
    } else {
      GuardedIdle(w, a, d);
    }
  }

  /** From the instant a scope has an administrator on, it has one or the last removal is being made good. */
  lemma {:induction false} GuardedFrom(r: Run, j: nat, i: nat, d: Domain)
    requires IsGuardedRun(r) && j <= i < |r.states| && HasHolder(r.states[j].store, AdminQuery(r.states[j].policy, d))
    ensures Guarded(r.states[i], d)
    decreases i
  {
    hide *;
    if j < i {
      GuardedRunStep(r, i - 1);
      GuardedFrom(r, j, i - 1, d);
      GuardInvHolds(r, i - 1);
      GuardedNext(r.states[i - 1], r.actions[i - 1], d);
    } else {
      HolderIsGuarded(r.states[j], d);
    }
  }

  lemma HolderIsGuarded(w: World, d: Domain)
    requires HasHolder(w.store, AdminQuery(w.policy, d))
    ensures Guarded(w, d)
  {
    hide HasHolder;
  }

  lemma GuardedRunStep(r: Run, i: nat)
    requires IsGuardedRun(r) && i + 1 < |r.states|
    ensures i < |r.actions| && r.states[i + 1] == Step(r.states[i], r.actions[i])
    ensures ThroughService(r.states[i], r.actions[i]) && FreshIds(r.states[i], r.actions[i])
  {
    hide Step, ThroughService, FreshIds, StoreInv;
  }

  // ---------------------------------------------------------------- the theorem

  predicate RevokeRunning(w: World, p: nat) {
    p in w.calls && w.calls[p].Administering? && !w.calls[p].adminPc.Queued? && !Settled(w.calls[p])
  }

  /**
   * Once a scope has had an administrator, whenever it has none the call that last committed a removal there is
   * still running, and it has neither verified a holder nor failed its compensation.
   */
  lemma AdministratorLossIsBeingRestored(r: Run, j: nat, i: nat, d: Domain)
    requires IsGuardedRun(r) && j <= i < |r.states|
    requires var q := AdminQuery(r.states[0].policy, d);
             HasHolder(r.states[j].store, q) && !HasHolder(r.states[i].store, q)
    ensures var w := r.states[i];
            && d in w.lastRevoker && RevokeRunning(w, w.lastRevoker[d])
            && Restoring(w.store, r.states[0].policy, w.calls[w.lastRevoker[d]], d)
  {
    PolicyFixed(r, j);
    PolicyFixed(r, i);
    GuardedFrom(r, j, i, d);
    hide IsRun, IsGuardedRun, HasHolder;
  }

  lemma {:induction false} PolicyFixed(r: Run, i: nat)
    requires IsRun(r) && i < |r.states|
    ensures r.states[i].policy == r.states[0].policy
  {
    if i > 0 {
      PolicyFixed(r, i - 1);
      RunSteps(r, i);
    }
  }

  /** When no revocation is running, a scope that has had an administrator has one. */
  lemma AdministratorRemains(r: Run, j: nat, i: nat, d: Domain)
    requires IsGuardedRun(r) && j <= i < |r.states|
    requires HasHolder(r.states[j].store, AdminQuery(r.states[0].policy, d))
    requires forall p :: !RevokeRunning(r.states[i], p)
    ensures HasHolder(r.states[i].store, AdminQuery(r.states[0].policy, d))
  {
    hide IsRun, HasHolder, RevokeRunning;
    if !HasHolder(r.states[i].store, AdminQuery(r.states[0].policy, d)) {
      AdministratorLossIsBeingRestored(r, j, i, d);
    }
  }
}
