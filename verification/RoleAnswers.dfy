/** What the answers of `revokeRole`, and the refusals of the store's grants and revokes, say about the records, over every run. */
module RoleAnswers {
  import opened Prelude
  import opened RoleRecords
  import opened RoleStore
  import opened RoleStoreSafety
  import opened RoleReads
  import opened RoleRebuild
  import opened RoleSeeding
  import opened Administration
  import opened RoleWorld
  import opened RoleTheorems
  import opened LastAdministrator
  import opened TwinGrants

  // ---------------------------------------------------------------- the record a command is about

  /** The assignment of the command's id, found through its pointer. */
  function RecordAt(s: Store, applicationId: Text, id: Text): Option<StoredAssignment> {
    match s.PointerAt(PointerKey(applicationId, id))
    case None => None
    case Some(row) =>
      var k := AssignmentKey(row.location, id);
      if k in s.assignments then Some(s.assignments[k].value) else None
  }

  /** That is the one assignment of the id in the application, if there is one. */
  lemma RecordIsTheOne(s: Store, k: AssignmentKey)
    requires StoreInv(s) && k in s.assignments
    ensures RecordAt(s, k.location.applicationId, k.id) == Some(s.assignments[k].value)
  {
    hide AuditsOf, GuardOk, Names, Holds, IndexesOk;
    assert AssignmentOk(s, k);
  }

  predicate RevokedFor(s: Store, c: RevokeRoleCommand) {
    var record := RecordAt(s, c.applicationId, c.assignmentId);
    && record.Some? && record.value.assignment.lifecycle.Revoked?
    && record.value.assignment.lifecycle.revokedBy == c.actor && record.value.assignment.lifecycle.reason == c.reason
  }

  /** The record is, or until its revocation was, one that a system actor locks. */
  predicate LockedRecord(s: Store, policy: Policy, c: RevokeRoleCommand) {
    var record := RecordAt(s, c.applicationId, c.assignmentId);
    record.Some? && IsLocked(record.value.assignment, policy)
  }

  predicate RevokedRecord(s: Store, c: RevokeRoleCommand) {
    var record := RecordAt(s, c.applicationId, c.assignmentId);
    record.Some? && record.value.assignment.lifecycle.Revoked?
  }

  /** What each step of `revokeRole` goes by, and what its answer says for good. */
  predicate Means(s: Store, policy: Policy, c: RevokeRoleCommand, pc: AdminPc) {
    match pc
    case PreScan(current, _) => !IsLocked(current.value.assignment, policy)
    case RevokingRole(current, _, command, revoke) =>
      && !IsLocked(current.value.assignment, policy)
      && command.revokedBy == c.actor && command.reason == c.reason && RecordAt(s, c.applicationId, c.assignmentId).Some?
      && revoke != RevokeDone(RevokeNotFound)
    case PostScan(_, _, _) => RevokedFor(s, c)
    case Compensating(_, _, _) => RevokedFor(s, c)
    case FinalScan(_, _) => RevokedFor(s, c)
    case AdminDone(RoleRevoked(_)) => RevokedFor(s, c)
    case AdminDone(CompensationFailed) => RevokedFor(s, c)
    case AdminDone(RoleAlreadyRevoked) => RevokedRecord(s, c)
    case AdminDone(RoleSystemManaged) => LockedRecord(s, policy, c)
    case _ => true
  }

  lemma RecordStays(s: Store, t: Store, applicationId: Text, id: Text)
    requires Evolves(s, t) && RecordAt(s, applicationId, id).Some?
    ensures var before, after := RecordAt(s, applicationId, id).value, RecordAt(t, applicationId, id);
            && after.Some? && after.value.assignment.grantedBy == before.assignment.grantedBy
            && (before.assignment.lifecycle.Revoked? ==> after.value == before)
  {
    hide HasRow;
    var k := AssignmentKey(s.pointers[PointerKey(applicationId, id)].location, id);
    assert Evidence(t.assignments[k].value) == Evidence(s.assignments[k].value);
    assert Evidence(s.assignments[k].value).assignment.grantedBy == s.assignments[k].value.assignment.grantedBy;
  }

  lemma MeansStable(s: Store, t: Store, policy: Policy, c: RevokeRoleCommand, pc: AdminPc)
    requires Evolves(s, t) && Means(s, policy, c, pc)
    ensures Means(t, policy, c, pc)
  {
    hide Evolves, RecordAt;
    if RecordAt(s, c.applicationId, c.assignmentId).Some? {
      RecordStays(s, t, c.applicationId, c.assignmentId);
    }
  }

  lemma CurrentIsRecord(s: Store, c: RevokeRoleCommand, current: Versioned<StoredAssignment>)
    requires StoreInv(s) && CurrentOk(s, c, current)
    ensures RecordAt(s, c.applicationId, c.assignmentId).Some?
    ensures RecordAt(s, c.applicationId, c.assignmentId).value.assignment.grantedBy == current.value.assignment.grantedBy
  {
    var k := AssignmentKey(current.value.location, c.assignmentId);
    RecordIsTheOne(s, k);
    hide StoreInv;
    assert Evidence(s.assignments[k].value) == Evidence(current.value);
    assert Evidence(current.value).assignment.grantedBy == current.value.assignment.grantedBy;
    assert Evidence(s.assignments[k].value).assignment.grantedBy == s.assignments[k].value.assignment.grantedBy;
  }

  /** A revoke that has committed, or found its work done, leaves the record revoked by its own command. */
  lemma RevokedIsRecorded(s: Store, c: RevokeCommand, result: RevokeResult)
    requires StoreInv(s) && RevokeOk(s, c, RevokeDone(result)) && (result.RevokeCommitted? || result.RevokeUnchanged?)
    requires result.record.value.location.applicationId == c.applicationId && result.record.value.assignment.id == c.assignmentId
    ensures RecordAt(s, c.applicationId, c.assignmentId) == Some(result.record.value)
  {
    RecordIsTheOne(s, AssignmentKey(result.record.value.location, c.assignmentId));
    hide StoreInv;
  }

  lemma LocateDecides(s: Store, policy: Policy, c: RevokeRoleCommand, choice: Choice)
    requires StoreInv(s)
    ensures var pc' := AdminStep(s, policy, c, GetLocate, choice).1;
            || (pc' == AdminDone(RoleNotFound) && RecordAt(s, c.applicationId, c.assignmentId).None?)
            || (pc'.GetRead? && s.PointerAt(PointerKey(c.applicationId, c.assignmentId)) == Some(pc'.row))
  {
    PointersKeyed(s, PointerKey(c.applicationId, c.assignmentId));
    hide StoreInv, ScanOk;
  }

  /** What `revokeRole` decides when it has read the record of the command's id. */
  predicate Decided(policy: Policy, c: RevokeRoleCommand, record: Option<StoredAssignment>, pc: AdminPc) {
    if record.None? then pc == AdminDone(RoleNotFound)
    else if record.value.assignment.lifecycle.Revoked? then pc == AdminDone(RoleAlreadyRevoked)
    else if IsLocked(record.value.assignment, policy) then pc == AdminDone(RoleSystemManaged)
    else if record.value.assignment.role == policy.administratorRole then
      pc.PreScan? && pc.current.value == record.value && pc.scan == SCAN_START
    else
      && pc.RevokingRole? && pc.current.value == record.value && pc.relied == None && pc.revoke == RevokeLocate
      && pc.command.applicationId == c.applicationId && pc.command.assignmentId == c.assignmentId
      && pc.command.expectedToken == pc.current.version && pc.command.revokedBy == c.actor && pc.command.reason == c.reason
  }

  lemma ReadDecides(s: Store, policy: Policy, c: RevokeRoleCommand, pc: AdminPc, choice: Choice)
    requires StoreInv(s) && AdminOk(s, policy, c, pc) && pc.GetRead?
    ensures Decided(policy, c, RecordAt(s, c.applicationId, c.assignmentId), AdminStep(s, policy, c, pc, choice).1)
  {
    CurrentRead(s, pc.row);
    hide StoreInv, ScanOk, ScanStep, GrantStep, RevokeStep;
    var k := AssignmentKey(pc.row.location, c.assignmentId);
    if k in s.assignments {
      DecisionIs(policy, c, s.assignments[k], choice);
    }
    hide DecideRevoke, Decided, IsAssignmentOf;
  }

  lemma DecisionIs(policy: Policy, c: RevokeRoleCommand, current: Versioned<StoredAssignment>, choice: Choice)
    requires current.value.assignment.id == c.assignmentId
    ensures Decided(policy, c, Some(current.value), DecideRevoke(policy, c, current, choice))
    ensures Decided(policy, c, None, AdminDone(RoleNotFound))
  {
    LockedIsSystemManaged(current.value.assignment, policy);
    hide AssignmentManagedBy, IsLocked;
  }

  lemma DecidedMeans(s: Store, policy: Policy, c: RevokeRoleCommand, pc: AdminPc)
    requires Decided(policy, c, RecordAt(s, c.applicationId, c.assignmentId), pc)
    ensures Means(s, policy, c, pc)
  {
    hide IsLocked, RecordAt;
  }

  // ---------------------------------------------------------------- every step keeps what it means

  lemma MeansStep(s: Store, policy: Policy, c: RevokeRoleCommand, pc: AdminPc, choice: Choice)
    requires StoreInv(s) && AdminOk(s, policy, c, pc) && Means(s, policy, c, pc)
    ensures var (t, pc') := AdminStep(s, policy, c, pc, choice); Means(t, policy, c, pc')
  {
    hide *;
    match pc
    case GetLocate => LocateMeans(s, policy, c, choice);
    case GetRead(_) =>
      ReadDecides(s, policy, c, pc, choice);
      DecidedMeans(s, policy, c, AdminStep(s, policy, c, pc, choice).1);
      AdminReadsSafe(s, policy, c, pc, choice);
    case PreScan(_, _) => PreScanMeans(s, policy, c, pc, choice);
    case RevokingRole(_, _, _, _) => RevokingMeans(s, policy, c, pc, choice);
    case _ =>
      AdminStepSafe(s, policy, c, pc, choice);
      LaterMeans(s, policy, c, pc, choice);
      MeansStable(s, AdminStep(s, policy, c, pc, choice).0, policy, c, AdminStep(s, policy, c, pc, choice).1);
  }

  lemma LocateMeans(s: Store, policy: Policy, c: RevokeRoleCommand, choice: Choice)
    requires StoreInv(s)
    ensures var (t, pc') := AdminStep(s, policy, c, GetLocate, choice); Means(t, policy, c, pc')
  {
    LocateDecides(s, policy, c, choice);
    hide StoreInv, RecordAt;
  }

  lemma PreScanMeans(s: Store, policy: Policy, c: RevokeRoleCommand, pc: AdminPc, choice: Choice)
    requires StoreInv(s) && AdminOk(s, policy, c, pc) && Means(s, policy, c, pc) && pc.PreScan?
    ensures var (t, pc') := AdminStep(s, policy, c, pc, choice); Means(t, policy, c, pc')
  {
    CurrentIsRecord(s, c, pc.current);
    hide StoreInv, ScanStep, ScanOk, CurrentOk, RecordAt, IsLocked, GrantStep, RevokeStep;
  }

  lemma RevokingMeans(s: Store, policy: Policy, c: RevokeRoleCommand, pc: AdminPc, choice: Choice)
    requires StoreInv(s) && AdminOk(s, policy, c, pc) && Means(s, policy, c, pc) && pc.RevokingRole?
    ensures var (t, pc') := AdminStep(s, policy, c, pc, choice); Means(t, policy, c, pc')
  {
    hide StoreInv, RevokeStep, RevokeOk, CurrentOk, RecordAt, IsLocked, ScanStep, GrantStep, Evolves;
    if pc.revoke.RevokeDone? {
      if pc.revoke.result.RevokeCommitted? || pc.revoke.result.RevokeUnchanged? {
        RevokedForIt(s, c, pc.command, pc.revoke.result);
      }
    } else {
      RevokeStepSafe(s, pc.command, pc.revoke, choice.rejection);
      RecordStays(s, RevokeStep(s, pc.command, pc.revoke, choice.rejection).0, c.applicationId, c.assignmentId);
      RevokeFinds(s, pc.command, pc.revoke, choice.rejection);
    }
  }

  lemma RevokedForIt(s: Store, c: RevokeRoleCommand, command: RevokeCommand, result: RevokeResult)
    requires StoreInv(s) && RevokeOk(s, command, RevokeDone(result)) && (result.RevokeCommitted? || result.RevokeUnchanged?)
    requires command.applicationId == c.applicationId && command.assignmentId == c.assignmentId
    requires command.revokedBy == c.actor && command.reason == c.reason
    ensures RevokedFor(s, c)
  {
    RevokedIsRecorded(s, command, result);
    hide StoreInv, RecordAt;
  }

  /** A revoke whose record is there does not answer that it is not. */
  lemma RevokeFinds(s: Store, c: RevokeCommand, pc: RevokePc, rejection: Rejection)
    requires RevokeOk(s, c, pc) && RecordAt(s, c.applicationId, c.assignmentId).Some? && !pc.RevokeDone?
    ensures RevokeStep(s, c, pc, rejection).1 != RevokeDone(RevokeNotFound)
  {
    hide Store.TransactRevoke, RevokeDecision;
    RevokeDecides(c, pc);
  }

  lemma RevokeDecides(c: RevokeCommand, pc: RevokePc)
    ensures forall row, existing :: RevokeDecision(c, row, existing) != RevokeDone(RevokeNotFound)
  {
  }

  lemma LaterMeans(s: Store, policy: Policy, c: RevokeRoleCommand, pc: AdminPc, choice: Choice)
    requires AdminOk(s, policy, c, pc) && Means(s, policy, c, pc)
    requires pc.Queued? || pc.PostScan? || pc.Compensating? || pc.FinalScan? || pc.AdminDone?
    ensures Means(s, policy, c, AdminStep(s, policy, c, pc, choice).1)
  {
    hide ScanStep, GrantStep, ScanOk, GrantOk, CurrentOk, RevokedFor, RevokedRecord, LockedRecord;
  }

  // ---------------------------------------------------------------- over every run

  ghost predicate AllMean(w: World) {
    forall p | p in w.calls && w.calls[p].Administering? :: Means(w.store, w.policy, w.calls[p].command, w.calls[p].adminPc)
  }

  lemma MeansKept(w: World, a: Action, p: nat)
    requires WorldInv(w) && AllMean(w) && p in Step(w, a).calls && Step(w, a).calls[p].Administering?
    ensures Means(Step(w, a).store, Step(w, a).policy, Step(w, a).calls[p].command, Step(w, a).calls[p].adminPc)
  {
    hide *;
    StepSafe(w, a);
    if a.Advance? && a.p == p {
      if Runnable(w, p) {
        OwnMeansKept(w, a, p);
      } else {
        QueuedMeansKept(w, a, p);
      }
    } else if p in w.calls {
      OthersStay(w, a, p);
      AllMeanHere(w, p);
      PolicyStays(w, a);
      MeansStable(w.store, Step(w, a).store, w.policy, w.calls[p].command, w.calls[p].adminPc);
    } else {
      NewMeans(w, a, p);
    }
  }

  lemma AllMeanHere(w: World, p: nat)
    requires AllMean(w) && p in w.calls && w.calls[p].Administering?
    ensures Means(w.store, w.policy, w.calls[p].command, w.calls[p].adminPc)
  {
    hide Means;
  }

  lemma PolicyStays(w: World, a: Action)
    ensures Step(w, a).policy == w.policy
  {
    hide CallStep;
  }

  lemma OwnMeansKept(w: World, a: Action, p: nat)
    requires WorldInv(w) && AllMean(w) && a.Advance? && a.p == p && Runnable(w, p)
    requires p in Step(w, a).calls && Step(w, a).calls[p].Administering?
    ensures Means(Step(w, a).store, Step(w, a).policy, Step(w, a).calls[p].command, Step(w, a).calls[p].adminPc)
  {
    OwnStep(w, p, a.choice);
    CallIsOk(w, p);
    AdminWas(w.policy, w.store, w.calls[p], a.choice);
    hide WorldInv, Step, CallStep, Means, AdminStep, AllMean, CallOk, StoreInv;
    AllMeanHere(w, p);
    AdminCallOk(w.policy, w.store, w.calls[p]);
    MeansStep(w.store, w.policy, w.calls[p].command, w.calls[p].adminPc, a.choice);
  }

  /** A call of the administration service has always been one, and steps as one. */
  lemma AdminWas(policy: Policy, s: Store, call: Call, choice: Choice)
    ensures CallStep(policy, s, call, choice).1.Administering? ==>
              && call.Administering? && CallStep(policy, s, call, choice).1.command == call.command
              && (CallStep(policy, s, call, choice).0, CallStep(policy, s, call, choice).1.adminPc) ==
                 AdminStep(s, policy, call.command, call.adminPc, choice)
  {
    hide AdminStep, GrantStep, RevokeStep, ListStep, ByRoleStep, RebuildStep, SeedStep;
  }

  lemma QueuedMeansKept(w: World, a: Action, p: nat)
    requires AllMean(w) && a.Advance? && a.p == p && !Runnable(w, p)
    requires p in Step(w, a).calls && Step(w, a).calls[p].Administering?
    ensures Means(Step(w, a).store, Step(w, a).policy, Step(w, a).calls[p].command, Step(w, a).calls[p].adminPc)
  {
    hide CallStep;
  }

  lemma NewMeans(w: World, a: Action, p: nat)
    requires p !in w.calls && p in Step(w, a).calls && Step(w, a).calls[p].Administering?
    ensures Means(Step(w, a).store, Step(w, a).policy, Step(w, a).calls[p].command, Step(w, a).calls[p].adminPc)
  {
    hide CallStep;
  }

  lemma {:induction false} AllAlwaysMean(r: Run, j: nat)
    requires IsRun(r) && j < |r.states|
    ensures AllMean(r.states[j])
  {
    hide *;
    if j == 0 {
      NoCallsYet(r);
      NoneMean(r.states[0]);
    } else {
      RunSteps(r, j);
      AllAlwaysMean(r, j - 1);
      RunSafe(r, j - 1);
      forall p | p in r.states[j].calls && r.states[j].calls[p].Administering?
        ensures Means(r.states[j].store, r.states[j].policy, r.states[j].calls[p].command, r.states[j].calls[p].adminPc)
      {
        MeansKept(r.states[j - 1], r.actions[j - 1], p);
      }
      AllOf(r.states[j]);
    }
  }

  lemma NoneMean(w: World)
    requires w.calls == map[]
    ensures AllMean(w)
  {
  }

  lemma AllOf(w: World)
    requires forall p | p in w.calls && w.calls[p].Administering? :: Means(w.store, w.policy, w.calls[p].command, w.calls[p].adminPc)
    ensures AllMean(w)
  {
  }

  /**
   * What an answered `revokeRole` says, at its answer and for good. `revoked`, and the failure to compensate: the record
   * is revoked by the command's actor for its reason. `already_revoked`: the record is revoked. `system_managed`: the
   * record was granted by a system actor other than the guard, the bootstrap ceremony and the policy's one-time actors.
   */
  lemma AdminAnswersTruly(r: Run, j: nat, p: nat, result: AdminResult)
    requires IsRun(r) && j < |r.states| && p in r.states[j].calls && r.states[j].calls[p].Administering?
    requires r.states[j].calls[p].adminPc == AdminDone(result)
    ensures var c := r.states[j].calls[p].command;
            AnswerSays(r.states[j].policy, c, RecordAt(r.states[j].store, c.applicationId, c.assignmentId), result)
  {
    hide *;
    AllAlwaysMean(r, j);
    AllMeanHere(r.states[j], p);
    MeansSays(r.states[j].store, r.states[j].policy, r.states[j].calls[p].command, result);
  }

  predicate AnswerSays(policy: Policy, c: RevokeRoleCommand, record: Option<StoredAssignment>, result: AdminResult) {
    && (result.RoleRevoked? || result == CompensationFailed ==>
          && record.Some? && record.value.assignment.lifecycle.Revoked?
          && record.value.assignment.lifecycle.revokedBy == c.actor && record.value.assignment.lifecycle.reason == c.reason)
    && (result == RoleAlreadyRevoked ==> record.Some? && record.value.assignment.lifecycle.Revoked?)
    && (result == RoleSystemManaged ==>
          && record.Some? && record.value.assignment.grantedBy.System?
          && record.value.assignment.grantedBy.systemId != Ascii("last-administrator-guard")
          && record.value.assignment.grantedBy.systemId != Ascii("bootstrap")
          && record.value.assignment.grantedBy.systemId !in policy.oneTimeSystemActors)
  }

  lemma MeansSays(s: Store, policy: Policy, c: RevokeRoleCommand, result: AdminResult)
    requires Means(s, policy, c, AdminDone(result))
    ensures AnswerSays(policy, c, RecordAt(s, c.applicationId, c.assignmentId), result)
  {
    hide RecordAt;
  }

  /** The step at which `revokeRole` reads the record decides on nothing else, in all five ways. */
  lemma AdminReadDecides(r: Run, m: nat, p: nat)
    requires IsRun(r) && m < |r.actions| && r.actions[m].Advance? && r.actions[m].p == p
    requires p in r.states[m].calls && r.states[m].calls[p].Administering? && r.states[m].calls[p].adminPc.GetRead?
    ensures m + 1 < |r.states| && p in r.states[m + 1].calls && r.states[m + 1].calls[p].Administering?
    ensures var c := r.states[m].calls[p].command;
            Decided(r.states[m].policy, c, RecordAt(r.states[m].store, c.applicationId, c.assignmentId), r.states[m + 1].calls[p].adminPc)
  {
    hide *;
    RunLength(r);
    RunSteps(r, m + 1);
    RunSafe(r, m);
    CallIsOk(r.states[m], p);
    AdminCallOk(r.states[m].policy, r.states[m].store, r.states[m].calls[p]);
    AdminAdvances(r.states[m], p, r.actions[m]);
    ReadDecides(r.states[m].store, r.states[m].policy, r.states[m].calls[p].command, r.states[m].calls[p].adminPc, r.actions[m].choice);
  }

  lemma AdminAdvances(w: World, p: nat, a: Action)
    requires p in w.calls && w.calls[p].Administering? && !w.calls[p].adminPc.Queued? && a.Advance? && a.p == p
    ensures var v := Step(w, a);
            && p in v.calls && v.calls[p].Administering? && v.calls[p].command == w.calls[p].command && v.policy == w.policy
            && (v.store, v.calls[p].adminPc) == AdminStep(w.store, w.policy, w.calls[p].command, w.calls[p].adminPc, a.choice)
  {
    OwnStep(w, p, a.choice);
    hide AdminStep;
  }

  lemma RunLength(r: Run)
    requires IsRun(r)
    ensures |r.states| == |r.actions| + 1
  {
  }

  // ---------------------------------------------------------------- what a grant is answered

  predicate StoredUnder(s: Store, c: GrantCommand, same: bool) {
    c.Key() in s.assignments && (s.assignments[c.Key()].value.grantEventId == c.auditEventId) == same
  }

  /** The id points at another location or role. */
  predicate IdElsewhere(s: Store, c: GrantCommand) {
    KeyOfPointer(c.Row()) in s.pointers && s.pointers[KeyOfPointer(c.Row())] != c.Row()
  }

  /** Every answer of a grant, by where the grant stood and what the store held when it was given. */
  ghost predicate GrantAnswered(s: Store, c: GrantCommand, pc: GrantPc, rejection: Rejection, result: GrantResult) {
    && (result == GrantRefused(AssignmentIdTaken) <==>
          (pc.GrantWritePointer? && IdElsewhere(s, c)) || (pc.GrantReadLanded? && StoredUnder(s, c, false)))
    && (result == GrantRefused(EventIdDiffers) <==> pc.GrantReadExisting? && StoredUnder(s, c, false))
    && (result == GrantRefused(ActiveTuple) <==> Blocked(s, c, pc, rejection))
    && (result.GrantUnchanged? <==> (pc.GrantReadExisting? || pc.GrantReadLanded?) && StoredUnder(s, c, true))
    && (result.Granted? <==> pc.GrantReadBack?)
  }

  lemma GrantStepAnswers(s: Store, c: GrantCommand, pc: GrantPc, rejection: Rejection)
    requires StoreInv(s) && GrantOk(s, c, pc) && !pc.GrantDone? && GrantStep(s, c, pc, rejection).1.GrantDone?
    ensures GrantAnswered(s, c, pc, rejection, GrantStep(s, c, pc, rejection).1.result)
  {
    NotCorrupt(s, c, pc, rejection);
    hide *;
    GuardShowsAnother(s, c);
    GrantStepCases(s, c, pc, rejection);
  }

  lemma GrantStepCases(s: Store, c: GrantCommand, pc: GrantPc, rejection: Rejection)
    requires HeldByAnother(s, c) <==>
             && c.Guard() in s.guards && s.guards[c.Guard()].value.activeId.Some?
             && s.guards[c.Guard()].value.activeId.value != c.assignment.id
    requires !pc.GrantDone? && GrantStep(s, c, pc, rejection).1.GrantDone?
    requires GrantStep(s, c, pc, rejection).1 != GrantDone(GrantCorrupt)
    ensures GrantAnswered(s, c, pc, rejection, GrantStep(s, c, pc, rejection).1.result)
  {
    hide HeldByAnother, IsAssignmentOf, IsTupleOf;
  }

  /** In every run a grant, by whatever call, is answered exactly as the records call for at the instant of its answer. */
  lemma GrantAnswersTruly(r: Run, m: nat, p: nat, c: GrantCommand, pc: GrantPc, result: GrantResult)
    requires IsRun(r) && AnswersAt(r, m, p, c, pc, result)
    ensures m < |r.actions| && r.actions[m].Advance?
    ensures GrantAnswered(r.states[m].store, c, pc, r.actions[m].choice.rejection, result)
  {
    hide *;
    AnswerStep(r, m, p, c, pc, result);
    GrantInOk(r, m, p, c, pc);
    GrantStepAnswers(r.states[m].store, c, pc, r.actions[m].choice.rejection);
  }

  // ---------------------------------------------------------------- what a revoke is answered

  function RevokeIn(call: Call): Option<(RevokeCommand, RevokePc)> {
    match call
    case Revoking(c, pc) => Some((c, pc))
    case Administering(_, _, _, RevokingRole(_, _, c, pc)) => Some((c, pc))
    case _ => None
  }

  /** A record or a guard that was read for the transaction is not in the store any more. */
  predicate HasMoved(s: Store, c: RevokeCommand, pc: RevokePc)
    requires pc.RevokeCommit?
  {
    var k := AssignmentKey(pc.row.location, c.assignmentId);
    var g := GuardKey(pc.row.location, pc.existing.value.assignment.role);
    s.AssignmentAt(k) != Some(pc.existing) || s.GuardAt(g) != Some(pc.guard)
  }

  function VersionAt(s: Store, k: AssignmentKey): Option<nat> {
    if k in s.assignments then Some(s.assignments[k].version) else None
  }

  /** The record stands as this very command would have left it. */
  predicate RevokedByIt(record: StoredAssignment, c: RevokeCommand) {
    record.assignment.lifecycle == Revoked(c.revokedBy, c.revokedAt, c.reason) && record.revokeEventId == Some(c.auditEventId)
  }

  /** Every answer of a revoke, by where the revoke stood and what the store held when it was given. */
  predicate RevokeAnswered(s: Store, c: RevokeCommand, pc: RevokePc, rejection: Rejection, result: RevokeResult) {
    var record := RecordAt(s, c.applicationId, c.assignmentId);
    var found := pc.RevokeReadRecord? && record.Some?;
    var active := found && record.value.assignment.lifecycle.Active?;
    var expected := active && VersionAt(s, AssignmentKey(pc.row.location, c.assignmentId)) == Some(c.expectedToken);
    var refused := pc.RevokeCommit? && HasMoved(s, c, pc);
    && (result == RevokeNotFound <==> record.None?)
    && (result.RevokeUnchanged? <==> found && !active && RevokedByIt(record.value, c))
    && (result == RevokeRefused(LifecycleConflict) <==>
          || (found && !active && !RevokedByIt(record.value, c))
          || (expected && c.revokedAt < record.value.assignment.grantedAt)
          || (refused && rejection == Missing))
    && (result == RevokeRefused(ConcurrencyConflict) <==> (active && !expected) || (refused && rejection == Changed))
    && (result == RevokeRefused(EventIdConflict) <==> refused && rejection == Exists)
    && (result.RevokeCommitted? <==> pc.RevokeReadBack?)
  }

  lemma RevokeStepAnswers(s: Store, c: RevokeCommand, pc: RevokePc, rejection: Rejection)
    requires StoreInv(s) && RevokeOk(s, c, pc) && !pc.RevokeDone? && RevokeStep(s, c, pc, rejection).1.RevokeDone?
    ensures RevokeAnswered(s, c, pc, rejection, RevokeStep(s, c, pc, rejection).1.result)
  {
    RevokeNotCorrupt(s, c, pc, rejection);
    hide *;
    match pc
    case RevokeLocate => LocateAnswers(s, c, rejection);
    case RevokeReadRecord(row) => RecordAnswers(s, c, row, rejection);
    case RevokeReadGuard(row, existing) => GuardAnswers(s, c, pc, rejection);
    case RevokeCommit(row, existing, guard) => CommitAnswers(s, c, pc, rejection);
    case RevokeReadBack(row) => ReadBackAnswers(s, c, row, rejection);
  }

  lemma RevokeNotCorrupt(s: Store, c: RevokeCommand, pc: RevokePc, rejection: Rejection)
    requires StoreInv(s) && RevokeOk(s, c, pc)
    ensures RevokeStep(s, c, pc, rejection).1 != RevokeDone(RevokeCorrupt)
  {
    hide *;
    RevokeStepSafe(s, c, pc, rejection);
    NeverCorrupt(RevokeStep(s, c, pc, rejection).0, c);
  }

  lemma LocateAnswers(s: Store, c: RevokeCommand, rejection: Rejection)
    requires RevokeStep(s, c, RevokeLocate, rejection).1.RevokeDone?
    requires RevokeStep(s, c, RevokeLocate, rejection).1 != RevokeDone(RevokeCorrupt)
    ensures RevokeAnswered(s, c, RevokeLocate, rejection, RevokeStep(s, c, RevokeLocate, rejection).1.result)
  {
  }

  lemma RecordAnswers(s: Store, c: RevokeCommand, row: IndexRow, rejection: Rejection)
    requires RevokeOk(s, c, RevokeReadRecord(row)) && RevokeStep(s, c, RevokeReadRecord(row), rejection).1.RevokeDone?
    requires RevokeStep(s, c, RevokeReadRecord(row), rejection).1 != RevokeDone(RevokeCorrupt)
    ensures RevokeAnswered(s, c, RevokeReadRecord(row), rejection, RevokeStep(s, c, RevokeReadRecord(row), rejection).1.result)
  {
    hide IsAssignmentOf;
  }

  lemma GuardAnswers(s: Store, c: RevokeCommand, pc: RevokePc, rejection: Rejection)
    requires pc.RevokeReadGuard? && RevokeStep(s, c, pc, rejection).1.RevokeDone?
    ensures RevokeStep(s, c, pc, rejection).1 == RevokeDone(RevokeCorrupt)
  {
  }

  lemma CommitAnswers(s: Store, c: RevokeCommand, pc: RevokePc, rejection: Rejection)
    requires StoreInv(s) && RevokeOk(s, c, pc) && pc.RevokeCommit? && RevokeStep(s, c, pc, rejection).1.RevokeDone?
    ensures RevokeAnswered(s, c, pc, rejection, RevokeStep(s, c, pc, rejection).1.result)
  {
    hide *;
    RefusedHasMoved(s, c, pc);
    CommitHasRecord(s, c, pc);
    CommitStep(s, c, pc, rejection);
    RefusedAnswers(s, c, pc, rejection);
  }

  function RefusalFor(rejection: Rejection): RevokeResult {
    RevokeRefused(if rejection == Changed then ConcurrencyConflict else if rejection == Exists then EventIdConflict else LifecycleConflict)
  }

  lemma RefusedAnswers(s: Store, c: RevokeCommand, pc: RevokePc, rejection: Rejection)
    requires RecordAt(s, c.applicationId, c.assignmentId).Some? && pc.RevokeCommit?
    ensures HasMoved(s, c, pc) ==> RevokeAnswered(s, c, pc, rejection, RefusalFor(rejection))
  {
    hide RecordAt, HasMoved, VersionAt, RevokedByIt;
  }

  lemma CommitHasRecord(s: Store, c: RevokeCommand, pc: RevokePc)
    requires RevokeOk(s, c, pc) && pc.RevokeCommit?
    ensures RecordAt(s, c.applicationId, c.assignmentId).Some?
  {
  }

  lemma CommitStep(s: Store, c: RevokeCommand, pc: RevokePc, rejection: Rejection)
    requires pc.RevokeCommit?
    ensures RevokeStep(s, c, pc, rejection).1 ==
            if s.TransactRevoke(pc.row, c, pc.existing, pc.guard).Some? then RevokeReadBack(pc.row)
            else RevokeDone(RefusalFor(rejection))
  {
    hide Store.TransactRevoke;
  }

  /** A revoke's transaction is refused exactly when its record or its guard has moved. */
  lemma RefusedHasMoved(s: Store, c: RevokeCommand, pc: RevokePc)
    requires StoreInv(s) && RevokeOk(s, c, pc) && pc.RevokeCommit?
    ensures s.TransactRevoke(pc.row, c, pc.existing, pc.guard).None? <==> HasMoved(s, c, pc)
  {
    hide AssignmentOk, GuardOk, IndexesOk, Names, Holds;
    assert AuditsOf(s, AssignmentKey(pc.row.location, c.assignmentId));
  }

  lemma ReadBackAnswers(s: Store, c: RevokeCommand, row: IndexRow, rejection: Rejection)
    requires RevokeOk(s, c, RevokeReadBack(row)) && RevokeStep(s, c, RevokeReadBack(row), rejection).1.RevokeDone?
    requires RevokeStep(s, c, RevokeReadBack(row), rejection).1 != RevokeDone(RevokeCorrupt)
    ensures RevokeAnswered(s, c, RevokeReadBack(row), rejection, RevokeStep(s, c, RevokeReadBack(row), rejection).1.result)
  {
    hide IsAssignmentOf;
  }

  /** At instant `m` call `p` has the revoke `c` at `pc`, and the action taken then answers it with `result`. */
  predicate RevokeAnswersAt(r: Run, m: nat, p: nat, c: RevokeCommand, pc: RevokePc, result: RevokeResult) {
    && m + 1 < |r.states| && m < |r.actions| && r.actions[m].Advance? && r.actions[m].p == p
    && p in r.states[m].calls && RevokeIn(r.states[m].calls[p]) == Some((c, pc)) && !pc.RevokeDone?
    && p in r.states[m + 1].calls && RevokeIn(r.states[m + 1].calls[p]) == Some((c, RevokeDone(result)))
  }

  /** In every run a revoke, by whatever call, is answered exactly as the records call for at the instant of its answer. */
  lemma RevokeAnswersTruly(r: Run, m: nat, p: nat, c: RevokeCommand, pc: RevokePc, result: RevokeResult)
    requires IsRun(r) && RevokeAnswersAt(r, m, p, c, pc, result)
    ensures m < |r.actions| && r.actions[m].Advance?
    ensures RevokeAnswered(r.states[m].store, c, pc, r.actions[m].choice.rejection, result)
  {
    RevokeAnswerParts(r, m, p, c, pc, result);
    hide *;
    RunSteps(r, m + 1);
    RunSafe(r, m);
    CallIsOk(r.states[m], p);
    RevokeInOk(r.states[m].policy, r.states[m].store, r.states[m].calls[p], c, pc);
    RevokeInAdvances(r.states[m], p, r.actions[m], c, pc);
    RevokeStepAnswers(r.states[m].store, c, pc, r.actions[m].choice.rejection);
  }

  lemma RevokeAnswerParts(r: Run, m: nat, p: nat, c: RevokeCommand, pc: RevokePc, result: RevokeResult)
    requires RevokeAnswersAt(r, m, p, c, pc, result)
    ensures m + 1 < |r.states| && m < |r.actions| && r.actions[m].Advance? && r.actions[m].p == p
    ensures p in r.states[m].calls && RevokeIn(r.states[m].calls[p]) == Some((c, pc)) && !pc.RevokeDone?
    ensures p in r.states[m + 1].calls && RevokeIn(r.states[m + 1].calls[p]) == Some((c, RevokeDone(result)))
  {
    hide RevokeIn;
  }

  lemma RevokeInOk(policy: Policy, s: Store, call: Call, c: RevokeCommand, pc: RevokePc)
    requires CallOk(policy, s, call) && RevokeIn(call) == Some((c, pc))
    ensures RevokeOk(s, c, pc)
  {
    hide RevokeOk;
  }

  lemma RevokeInAdvances(w: World, p: nat, a: Action, c: RevokeCommand, pc: RevokePc)
    requires p in w.calls && RevokeIn(w.calls[p]) == Some((c, pc)) && !pc.RevokeDone? && a.Advance? && a.p == p
    ensures var v := Step(w, a);
            p in v.calls && RevokeIn(v.calls[p]) == Some((c, RevokeStep(w.store, c, pc, a.choice.rejection).1))
  {
    OwnStep(w, p, a.choice);
    hide RevokeStep;
  }

  // ---------------------------------------------------------------- when the guard refuses

  /** `id` is an indexed administrator of the record's scope, of another principal than the record's. */
  predicate AnotherAdministrator(s: Store, policy: Policy, c: RevokeRoleCommand, id: Text) {
    var record := RecordAt(s, c.applicationId, c.assignmentId);
    record.Some? &&
    var q := ByRoleQuery(c.applicationId, policy.administratorRole, record.value.assignment.scope);
    IndexedHolder(s, q, id) && PrincipalOf(s, q, id) != record.value.assignment.principalId
  }

  /** The guard's search will come upon `id`, or has. */
  ghost predicate WillPass(c: RevokeRoleCommand, pc: AdminPc, id: Text) {
    match pc
    case PreScan(current, scan) => WillFind(QueryOf(c, current), scan, id)
    case AdminDone(LastAdministrator) => false
    case _ => true
  }

  lemma CurrentScope(s: Store, c: RevokeRoleCommand, current: Versioned<StoredAssignment>)
    requires StoreInv(s) && CurrentOk(s, c, current)
    ensures var record := RecordAt(s, c.applicationId, c.assignmentId);
            && record.Some? && record.value.assignment.scope == current.value.assignment.scope
            && record.value.assignment.principalId == current.value.assignment.principalId
  {
    var k := AssignmentKey(current.value.location, c.assignmentId);
    RecordIsTheOne(s, k);
    hide StoreInv;
    assert Evidence(s.assignments[k].value) == Evidence(current.value);
    assert Evidence(current.value).assignment.scope == current.value.assignment.scope;
    assert Evidence(s.assignments[k].value).assignment.scope == s.assignments[k].value.assignment.scope;
    assert Evidence(current.value).assignment.principalId == current.value.assignment.principalId;
    assert Evidence(s.assignments[k].value).assignment.principalId == s.assignments[k].value.assignment.principalId;
  }

  lemma PreScanPasses(s: Store, policy: Policy, c: RevokeRoleCommand, pc: AdminPc, choice: Choice, id: Text)
    requires StoreInv(s) && AdminOk(s, policy, c, pc) && pc.PreScan? && WillPass(c, pc, id) && AnotherAdministrator(s, policy, c, id)
    ensures WillPass(c, AdminStep(s, policy, c, pc, choice).1, id)
  {
    hide *;
    PreScanParts(s, policy, c, pc, id);
    ScanKeepsHolder(s, QueryOf(c, pc.current), pc.current.value.assignment.principalId, pc.scan, choice.pick, id);
    PreScanGoesOn(s, policy, c, pc, choice, id);
  }

  lemma PreScanParts(s: Store, policy: Policy, c: RevokeRoleCommand, pc: AdminPc, id: Text)
    requires StoreInv(s) && AdminOk(s, policy, c, pc) && pc.PreScan? && WillPass(c, pc, id) && AnotherAdministrator(s, policy, c, id)
    ensures var q := QueryOf(c, pc.current);
            && ScanOk(s, q, pc.scan) && WillFind(q, pc.scan, id)
            && IsHolder(s, q, id) && q.Key(id) in s.holders && PrincipalOf(s, q, id) != pc.current.value.assignment.principalId
  {
    CurrentScope(s, c, pc.current);
    hide StoreInv, ScanOk, CurrentOk, WillFind, IsHolder, PrincipalOf, RecordAt;
  }

  lemma PreScanGoesOn(s: Store, policy: Policy, c: RevokeRoleCommand, pc: AdminPc, choice: Choice, id: Text)
    requires pc.PreScan? && WillFind(QueryOf(c, pc.current), pc.scan, id)
    requires var q := QueryOf(c, pc.current);
             WillFind(q, ScanStep(s, q, pc.current.value.assignment.principalId, pc.scan, choice.pick), id)
    ensures WillPass(c, AdminStep(s, policy, c, pc, choice).1, id)
  {
    hide ScanStep, WillReport;
  }

  lemma OtherStepPasses(s: Store, policy: Policy, c: RevokeRoleCommand, pc: AdminPc, choice: Choice, id: Text)
    requires !pc.PreScan? && WillPass(c, pc, id)
    ensures WillPass(c, AdminStep(s, policy, c, pc, choice).1, id)
  {
    hide ScanStep, RevokeStep, GrantStep, AssignmentManagedBy;
  }

  predicate IsRevokeRole(w: World, p: nat, c: RevokeRoleCommand) {
    p in w.calls && w.calls[p].Administering? && w.calls[p].command == c
  }

  /** One step of the world, seen from a `revokeRole` under way. */
  lemma PassesOn(w: World, a: Action, p: nat, c: RevokeRoleCommand, id: Text)
    requires WorldInv(w) && IsRevokeRole(w, p, c) && WillPass(c, w.calls[p].adminPc, id)
    requires AnotherAdministrator(w.store, w.policy, c, id)
    ensures IsRevokeRole(Step(w, a), p, c) && WillPass(c, Step(w, a).calls[p].adminPc, id)
  {
    hide *;
    RevokeRoleCall(w, p, c);
    if a.Advance? && a.p == p && !w.calls[p].adminPc.Queued? {
      CallIsOk(w, p);
      AdminCallOk(w.policy, w.store, w.calls[p]);
      AdminAdvances(w, p, a);
      if w.calls[p].adminPc.PreScan? {
        PreScanPasses(w.store, w.policy, c, w.calls[p].adminPc, a.choice, id);
      } else {
        OtherStepPasses(w.store, w.policy, c, w.calls[p].adminPc, a.choice, id);
      }
      IsItsCall(Step(w, a), p, c);
    } else {
      IdlePasses(w, a, p, c, id);
    }
  }

  lemma RevokeRoleCall(w: World, p: nat, c: RevokeRoleCommand)
    requires IsRevokeRole(w, p, c)
    ensures p in w.calls && w.calls[p].Administering? && w.calls[p].command == c
  {
  }

  lemma IsItsCall(w: World, p: nat, c: RevokeRoleCommand)
    requires p in w.calls && w.calls[p].Administering? && w.calls[p].command == c
    ensures IsRevokeRole(w, p, c)
  {
  }

  lemma IdlePasses(w: World, a: Action, p: nat, c: RevokeRoleCommand, id: Text)
    requires IsRevokeRole(w, p, c) && WillPass(c, w.calls[p].adminPc, id)
    requires !(a.Advance? && a.p == p && !w.calls[p].adminPc.Queued?)
    ensures IsRevokeRole(Step(w, a), p, c) && WillPass(c, Step(w, a).calls[p].adminPc, id)
  {
    hide CallStep, WillFind;
  }

  lemma {:induction false} GuardTracked(r: Run, i: nat, j: nat, p: nat, service: nat, c: RevokeRoleCommand, id: Text)
    requires IsRun(r) && i < j < |r.states| && p !in r.states[i].calls && r.actions[i] == Begin(p, StartRevokeRole(service, c))
    requires forall m | i < m < j :: AnotherAdministrator(r.states[m].store, r.states[m].policy, c, id)
    ensures IsRevokeRole(r.states[j], p, c) && WillPass(c, r.states[j].calls[p].adminPc, id)
    decreases j
  {
    hide *;
    RunSteps(r, j);
    if i + 1 < j {
      GuardTracked(r, i, j - 1, p, service, c, id);
      RunSafe(r, j - 1);
      PassesOn(r.states[j - 1], r.actions[j - 1], p, c, id);
    } else {
      RevokeRoleOpens(r.states[i], p, service, c, id);
    }
  }

  lemma RevokeRoleOpens(w: World, p: nat, service: nat, c: RevokeRoleCommand, id: Text)
    requires p !in w.calls
    ensures var v := Step(w, Begin(p, StartRevokeRole(service, c))); IsRevokeRole(v, p, c) && WillPass(c, v.calls[p].adminPc, id)
  {
    hide CallStep;
  }

  /**
   * `revokeRole` refuses for want of another administrator only if there was none to go by: no other principal's
   * administrator of the scope, in the holder index, stayed one throughout the call.
   */
  lemma GuardRefusesTruly(r: Run, i: nat, j: nat, p: nat, service: nat, c: RevokeRoleCommand, id: Text)
    requires IsRun(r) && i < j < |r.states| && p !in r.states[i].calls && r.actions[i] == Begin(p, StartRevokeRole(service, c))
    requires p in r.states[j].calls && r.states[j].calls[p].Administering? && r.states[j].calls[p].adminPc == AdminDone(LastAdministrator)
    ensures exists m :: i < m < j && !AnotherAdministrator(r.states[m].store, r.states[m].policy, c, id)
  {
    if forall m | i < m < j :: AnotherAdministrator(r.states[m].store, r.states[m].policy, c, id) {
      GuardTracked(r, i, j, p, service, c, id);
    }
    hide IsRun, Step, AnotherAdministrator;
  }

  // ---------------------------------------------------------------- what a seeding says

  /** A seeding answered `granted` or `already` only where the role was in fact assigned, then and for good. */
  lemma SeedingAnswersTruly(r: Run, j: nat, p: nat, c: GrantCommand, answer: SeedResult)
    requires IsRun(r) && j < |r.states| && SeedingDone(r.states[j], p, c, answer)
    ensures answer == Seeded || answer == AlreadySeeded ==> EverAssigned(r.states[j].store, c.Place(), c.assignment.role)
    ensures answer == SeedInvalid ==> !c.WellFormed()
  {
    hide *;
    RunSafe(r, j);
    SeedingDoneIsCall(r.states[j], p, c, answer);
    SeedingIsOk(r.states[j], p, c);
    SeedDoneOk(r.states[j].store, c, answer);
  }

  lemma SeedingDoneIsCall(w: World, p: nat, c: GrantCommand, answer: SeedResult)
    requires SeedingDone(w, p, c, answer)
    ensures IsSeeding(w, p, c) && p in w.calls && w.calls[p] == Seeding(c, SeedDone(answer))
  {
  }

  lemma SeedDoneOk(s: Store, c: GrantCommand, answer: SeedResult)
    requires SeedOk(s, c, SeedDone(answer))
    ensures answer == Seeded || answer == AlreadySeeded ==> EverAssigned(s, c.Place(), c.assignment.role)
    ensures answer == SeedInvalid ==> !c.WellFormed()
  {
    hide EverAssigned;
  }

  // ---------------------------------------------------------------- what a rebuild has recorded

  /** How many steps before instant `j` call `b` took that wrote a row. */
  function RowsWritten(r: Run, b: nat, j: nat): nat
    requires j <= |r.actions| && j < |r.states|
  {
    if j == 0 then 0
    else
      var a := r.actions[j - 1];
      RowsWritten(r, b, j - 1) + if a.Advance? && a.p == b && r.states[j].store.holders != r.states[j - 1].store.holders then 1 else 0
  }

  lemma RebuildStepCounts(s: Store, applicationId: Text, pc: RebuildPc, pick: Option<Text>)
    requires StoreInv(s) && RebuildOk(s, applicationId, pc)
    ensures var (t, pc') := RebuildStep(s, applicationId, pc, pick);
            Recorded(pc') == Recorded(pc) + if t.holders != s.holders then 1 else 0
  {
    hide *;
    if pc.RebuildWriting? {
      WritingKnows(s, applicationId, pc);
      RowWrite(s, pc.row);
      WritingCounts(s, applicationId, pc, pick);
    } else {
      RebuildStepSafe(s, applicationId, pc, pick);
      ReadsOnly(s, applicationId, pc, pick);
      ReadingCounts(s, applicationId, pc, pick);
    }
  }

  lemma WritingCounts(s: Store, applicationId: Text, pc: RebuildPc, pick: Option<Text>)
    requires pc.RebuildWriting? && s.InsertHolder(pc.row).1 == pc.row
    requires s.InsertHolder(pc.row).2 <==> KeyOfHolder(pc.row) !in s.holders
    requires s.InsertHolder(pc.row).0.holders == s.holders[KeyOfHolder(pc.row) := pc.row]
    ensures var (t, pc') := RebuildStep(s, applicationId, pc, pick);
            Recorded(pc') == Recorded(pc) + if t.holders != s.holders then 1 else 0
  {
  }

  lemma ReadingCounts(s: Store, applicationId: Text, pc: RebuildPc, pick: Option<Text>)
    requires !pc.RebuildWriting? && RebuildOk(s, applicationId, RebuildStep(s, applicationId, pc, pick).1)
    ensures var (t, pc') := RebuildStep(s, applicationId, pc, pick); t == s && Recorded(pc') == Recorded(pc)
  {
    hide PointersRead, MissingWithin;
  }

  lemma ReadsOnly(s: Store, applicationId: Text, pc: RebuildPc, pick: Option<Text>)
    requires !pc.RebuildWriting?
    ensures RebuildStep(s, applicationId, pc, pick).0 == s
  {
    hide ReadPointed;
  }

  predicate IsRebuild(w: World, b: nat, applicationId: Text) {
    b in w.calls && w.calls[b].Rebuilding? && w.calls[b].applicationId == applicationId
  }

  lemma RebuildMoves(w: World, a: Action, b: nat, applicationId: Text)
    requires IsRebuild(w, b, applicationId)
    ensures IsRebuild(Step(w, a), b, applicationId)
    ensures if a.Advance? && a.p == b
            then (Step(w, a).store, Step(w, a).calls[b].rebuildPc) == RebuildStep(w.store, applicationId, w.calls[b].rebuildPc, a.choice.pick)
            else Step(w, a).calls[b] == w.calls[b]
  {
    if a.Advance? && a.p == b {
      OwnStep(w, b, a.choice);
      hide Step, RebuildStep;
    } else {
      OthersStay(w, a, b);
      hide Step;
    }
  }

  /**
   * A rebuild records as many rows as it has itself written, whatever others write meanwhile: each of them the row of a
   * stored assignment that had none.
   */
  lemma {:induction false} RebuildCountsItsRows(r: Run, i: nat, j: nat, b: nat, applicationId: Text)
    requires IsRun(r) && i < j < |r.states| && b !in r.states[i].calls && r.actions[i] == Begin(b, StartRebuild(applicationId))
    ensures j <= |r.actions| && i + 1 <= |r.actions| && i + 1 < |r.states| && IsRebuild(r.states[j], b, applicationId)
    ensures RowsWritten(r, b, j) == RowsWritten(r, b, i + 1) + Recorded(r.states[j].calls[b].rebuildPc)
    decreases j
  {
    hide *;
    RunLength(r);
    RunSteps(r, j);
    RowsWrittenBy(r, b, j);
    if i + 1 < j {
      RebuildCountsItsRows(r, i, j - 1, b, applicationId);
      RunSafe(r, j - 1);
      RebuildIsOk(r.states[j - 1], b, applicationId);
      RebuildMoves(r.states[j - 1], r.actions[j - 1], b, applicationId);
      RebuildStepCounts(r.states[j - 1].store, applicationId, r.states[j - 1].calls[b].rebuildPc, PickOf(r.actions[j - 1]));
    } else {
      RebuildOpens(r.states[i], b, applicationId);
    }
  }

  function PickOf(a: Action): Option<Text> {
    if a.Advance? then a.choice.pick else None
  }

  lemma RowsWrittenBy(r: Run, b: nat, j: nat)
    requires 0 < j <= |r.actions| && j < |r.states|
    ensures var a := r.actions[j - 1];
            RowsWritten(r, b, j) == RowsWritten(r, b, j - 1) +
              if a.Advance? && a.p == b && r.states[j].store.holders != r.states[j - 1].store.holders then 1 else 0
    ensures PickOf(r.actions[j - 1]) == if r.actions[j - 1].Advance? then r.actions[j - 1].choice.pick else None
  {
  }

  lemma RebuildOpens(w: World, b: nat, applicationId: Text)
    requires b !in w.calls
    ensures var v := Step(w, Begin(b, StartRebuild(applicationId)));
            IsRebuild(v, b, applicationId) && b in v.calls && v.calls[b].Rebuilding? && Recorded(v.calls[b].rebuildPc) == 0
  {
    hide CallStep;
  }

  lemma RebuildIsOk(w: World, b: nat, applicationId: Text)
    requires WorldInv(w) && IsRebuild(w, b, applicationId)
    ensures b in w.calls && w.calls[b].Rebuilding? && StoreInv(w.store) && RebuildOk(w.store, applicationId, w.calls[b].rebuildPc)
  {
    CallIsOk(w, b);
    hide WorldInv, StoreInv, RebuildOk;
  }
}
