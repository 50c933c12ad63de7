/** What callers of the role store may rely on over every run. */
module RoleTheorems {
  import opened Prelude
  import opened RoleRecords
  import opened RoleStore
  import opened RoleStoreSafety
  import opened RoleReads
  import opened RoleRebuild
  import opened RoleSeeding
  import opened Administration
  import opened RoleWorld

  // ---------------------------------------------------------------- records

  /** A tuple has at most one active assignment, and its guard names exactly that one. */
  lemma OneActiveAssignment(r: Run, i: nat, location: Location, role: Text)
    requires IsRun(r) && i < |r.states|
    ensures var s := r.states[i].store;
            && (forall a, b | Holds(s, location, role, a) && Holds(s, location, role, b) :: a == b)
            && (forall id :: Holds(s, location, role, id) <==> Names(s, location, role, id))
  {
    StoreSafe(r, i);
    hide IsRun, Step, AuditsOf, AssignmentOk, IndexesOk;
    var s := r.states[i].store;
    assert GuardKey(location, role) in s.guards ==> GuardOk(s, GuardKey(location, role));
    forall id ensures Holds(s, location, role, id) <==> Names(s, location, role, id) {
    }
    forall a, b | Holds(s, location, role, a) && Holds(s, location, role, b) ensures a == b {
      assert Names(s, location, role, a) && Names(s, location, role, b);
    }
  }

  /** An assignment id lives in one partition. */
  lemma OnePartitionPerId(r: Run, i: nat, k: AssignmentKey, m: AssignmentKey)
    requires IsRun(r) && i < |r.states|
    requires k in r.states[i].store.assignments && m in r.states[i].store.assignments
    requires k.id == m.id && k.location.applicationId == m.location.applicationId
    ensures k == m
  {
    StoreSafe(r, i);
    hide IsRun, Step, AuditsOf, GuardOk, IndexesOk, Names;
    assert AssignmentOk(r.states[i].store, k) && AssignmentOk(r.states[i].store, m);
  }

  /**
   * Every stored assignment has its pointer. It has its holder row too if it was granted during the run, or if the
   * application's holder index was complete when the run began.
   */
  lemma EveryAssignmentIsIndexed(r: Run, i: nat, k: AssignmentKey)
    requires IsRun(r) && i < |r.states| && k in r.states[i].store.assignments
    ensures var s := r.states[i].store;
            var row := IndexRow(k.location, k.id, s.assignments[k].value.assignment.role);
            && s.PointerAt(PointerKey(k.location.applicationId, k.id)) == Some(row)
            && (k !in r.states[0].store.assignments || HoldersComplete(r.states[0].store, k.location.applicationId) ==>
                  KeyOfHolder(row) in s.holders && s.holders[KeyOfHolder(row)] == row)
  {
    StoreSafe(r, i);
    RunEvolves(r, 0, i);
    hide IsRun, Step, StoreInv, Evolves, HoldersComplete;
    StoredIsIndexed(r.states[0].store, r.states[i].store, k);
  }

  lemma StoreSafe(r: Run, i: nat)
    requires IsRun(r) && i < |r.states|
    ensures StoreInv(r.states[i].store)
  {
    RunSafe(r, i);
    hide IsRun, Step, StoreInv, CallOk;
  }

  lemma StoredIsIndexed(began: Store, s: Store, k: AssignmentKey)
    requires StoreInv(s) && Evolves(began, s) && k in s.assignments
    ensures s.PointerAt(PointerKey(k.location.applicationId, k.id)) == Some(RowOf(k, s.assignments[k].value))
    ensures k !in began.assignments || HoldersComplete(began, k.location.applicationId) ==> HasRow(s, k)
  {
    hide AuditsOf, GuardOk, IndexesOk, Names;
    assert AssignmentOk(s, k);
    if HoldersComplete(began, k.location.applicationId) {
      HoldersStayComplete(began, s, k.location.applicationId);
    }
  }

  function RevokeEventOf(stored: StoredAssignment): Text {
    if stored.revokeEventId.Some? then stored.revokeEventId.value else []
  }

  /** Audit position 1 exists exactly for stored assignments, position 2 exactly for revoked ones, with their event ids. */
  lemma AuditTrail(r: Run, i: nat, k: AssignmentKey, sequence: nat)
    requires IsRun(r) && i < |r.states|
    ensures var s := r.states[i].store;
            AuditKey(k.location, k.id, sequence) in s.audits <==>
            && k in s.assignments
            && (sequence == 1 || (sequence == 2 && s.assignments[k].value.assignment.lifecycle.Revoked?))
    ensures var s := r.states[i].store;
            var position := AuditKey(k.location, k.id, sequence);
            position in s.audits ==>
              && s.audits[position].eventId ==
                 (if sequence == 1 then s.assignments[k].value.grantEventId else RevokeEventOf(s.assignments[k].value))
              && s.audits[position] == StoredAudit(k.location, k.id, sequence, s.audits[position].eventId)
  {
    StoreSafe(r, i);
    hide IsRun, Step, AssignmentOk, GuardOk, IndexesOk, Names;
    assert AuditsOf(r.states[i].store, k);
  }

  /** Grant evidence never changes and revocation is terminal. */
  lemma HistoryIsPermanent(r: Run, i: nat, j: nat, k: AssignmentKey)
    requires IsRun(r) && i <= j < |r.states| && k in r.states[i].store.assignments
    ensures k in r.states[j].store.assignments
    ensures var before, after := r.states[i].store.assignments[k].value, r.states[j].store.assignments[k].value;
            Evidence(after) == Evidence(before) && (before.assignment.lifecycle.Revoked? ==> after == before)
  {
    RunEvolves(r, i, j);
    hide IsRun, Step;
  }

  /** A revocation carries its event id and is never dated before the grant. */
  lemma RevocationFollowsGrant(r: Run, i: nat, k: AssignmentKey)
    requires IsRun(r) && i < |r.states| && k in r.states[i].store.assignments
    ensures var stored := r.states[i].store.assignments[k].value;
            && (stored.assignment.lifecycle.Revoked? <==> stored.revokeEventId.Some?)
            && (stored.assignment.lifecycle.Revoked? ==> stored.assignment.grantedAt <= stored.assignment.lifecycle.revokedAt)
  {
    StoreSafe(r, i);
    hide IsRun, Step, AuditsOf, GuardOk, IndexesOk, Names;
    assert AssignmentOk(r.states[i].store, k);
  }

  // ---------------------------------------------------------------- which step writes records

  datatype Write =
    | NoWrite
    | GrantWrite(grant: GrantCommand, read: Option<Versioned<StoredTuple>>)
    | RevokeWrite(revoke: RevokeCommand, row: IndexRow, existing: Versioned<StoredAssignment>, guard: Versioned<StoredTuple>)

  function GrantWriteOf(c: GrantCommand, pc: GrantPc): Write {
    if pc.GrantCommit? then GrantWrite(c, pc.guard) else NoWrite
  }

  function RevokeWriteOf(c: RevokeCommand, pc: RevokePc): Write {
    if pc.RevokeCommit? then RevokeWrite(c, pc.row, pc.existing, pc.guard) else NoWrite
  }

  /** The transaction a call submits at its next step. */
  function PendingWrite(call: Call): Write {
    match call
    case Granting(c, pc) => GrantWriteOf(c, pc)
    case Revoking(c, pc) => RevokeWriteOf(c, pc)
    case Seeding(c, SeedGranting(pc)) => GrantWriteOf(c, pc)
    case Administering(_, _, _, RevokingRole(_, _, c, pc)) => RevokeWriteOf(c, pc)
    case Administering(_, _, _, Compensating(_, c, pc)) => GrantWriteOf(c, pc)
    case _ => NoWrite
  }

  predicate SameRecords(s: Store, t: Store) {
    t.assignments == s.assignments && t.guards == s.guards && t.audits == s.audits
  }

  predicate Performs(s: Store, t: Store, write: Write) {
    match write
    case NoWrite => false
    case GrantWrite(c, read) => s.TransactGrant(c, read) == Some(t)
    case RevokeWrite(c, row, existing, guard) => s.TransactRevoke(row, c, existing, guard) == Some(t)
  }

  ghost predicate WriteOk(s: Store, write: Write) {
    match write
    case NoWrite => true
    case GrantWrite(c, read) => GrantOk(s, c, GrantCommit(read))
    case RevokeWrite(c, row, existing, guard) => RevokeOk(s, c, RevokeCommit(row, existing, guard))
  }

  lemma GrantStepWrites(s: Store, c: GrantCommand, pc: GrantPc, rejection: Rejection)
    ensures var s' := GrantStep(s, c, pc, rejection).0; SameRecords(s, s') || Performs(s, s', GrantWriteOf(c, pc))
  {
  }

  lemma RevokeStepWrites(s: Store, c: RevokeCommand, pc: RevokePc, rejection: Rejection)
    ensures var s' := RevokeStep(s, c, pc, rejection).0; s' == s || Performs(s, s', RevokeWriteOf(c, pc))
  {
  }

  lemma SeedStepWrites(s: Store, c: GrantCommand, pc: SeedPc, choice: Choice)
    ensures var s' := SeedStep(s, c, pc, choice.row, choice.rejection).0;
            SameRecords(s, s') || Performs(s, s', PendingWrite(Seeding(c, pc)))
  {
    hide GrantStep, ListStep, Performs, ShowsRole;
    if pc.SeedGranting? {
      GrantStepWrites(s, c, pc.grant, choice.rejection);
    }
  }

  lemma RebuildStepWrites(s: Store, applicationId: Text, pc: RebuildPc, pick: Option<Text>)
    ensures SameRecords(s, RebuildStep(s, applicationId, pc, pick).0)
  {
    hide ReadPointed;
  }

  /** Records change only by the call's own pending transaction. */
  lemma CallStepWrites(policy: Policy, s: Store, call: Call, choice: Choice)
    ensures var s' := CallStep(policy, s, call, choice).0; SameRecords(s, s') || Performs(s, s', PendingWrite(call))
  {
    hide GrantStep, RevokeStep, Performs, ByRoleStep, ListStep, SeedStep, RebuildStep, ScanStep;
    match call
    case Granting(c, pc) => GrantStepWrites(s, c, pc, choice.rejection);
    case Revoking(c, pc) => RevokeStepWrites(s, c, pc, choice.rejection);
    case Seeding(c, pc) => SeedStepWrites(s, c, pc, choice);
    case Rebuilding(applicationId, pc) => RebuildStepWrites(s, applicationId, pc, choice.pick);
    case Administering(_, _, _, RevokingRole(_, _, c, pc)) => RevokeStepWrites(s, c, pc, choice.rejection);
    case Administering(_, _, _, Compensating(_, c, pc)) => GrantStepWrites(s, c, pc, choice.rejection);
    case _ =>
  }

  lemma PendingWriteOk(policy: Policy, s: Store, call: Call)
    requires CallOk(policy, s, call)
    ensures WriteOk(s, PendingWrite(call))
  {
  }

  // ---------------------------------------------------------------- active_tuple tells the truth

  ghost predicate Occupied(s: Store, c: GrantCommand) {
    exists id :: Holds(s, c.Place(), c.assignment.role, id)
  }

  /** The two records a grant in flight depends on have not moved. */
  predicate TupleQuiet(s: Store, t: Store, c: GrantCommand) {
    t.GuardAt(c.Guard()) == s.GuardAt(c.Guard()) && (c.Key() in t.assignments ==> c.Key() in s.assignments)
  }

  /** A transaction moves a tuple's guard or adds its assignment only while the tuple is held, before or after. */
  lemma WriteMovesHeldTuple(s: Store, t: Store, write: Write, c: GrantCommand)
    requires WriteOk(s, write) && Performs(s, t, write) && Claimed(s, c)
    ensures TupleQuiet(s, t, c) || Occupied(s, c) || Occupied(t, c)
  {
    match write
    case GrantWrite(g, _) =>
      if g.Guard() == c.Guard() {
        assert Holds(t, c.Place(), c.assignment.role, g.assignment.id);
      }
    case RevokeWrite(v, row, existing, _) =>
      if GuardKey(row.location, existing.value.assignment.role) == c.Guard() {
        assert Holds(s, c.Place(), c.assignment.role, v.assignmentId);
      }
  }

  /** What a grant has read is still so. */
  predicate FreshView(s: Store, c: GrantCommand, pc: GrantPc) {
    match pc
    case GrantReadExisting(guard) => s.GuardAt(c.Guard()) == guard
    case GrantCommit(guard) => s.GuardAt(c.Guard()) == guard && c.Key() !in s.assignments
    case GrantReadLanded => false
    case GrantDone(result) => result != GrantRefused(ActiveTuple)
    case _ => true
  }

  /** With a fresh view, a step answers `active_tuple` only on a held tuple, and its transaction cannot be refused. */
  lemma FreshStep(s: Store, c: GrantCommand, pc: GrantPc, rejection: Rejection)
    requires StoreInv(s) && GrantOk(s, c, pc) && FreshView(s, c, pc)
    ensures FreshView(GrantStep(s, c, pc, rejection).0, c, GrantStep(s, c, pc, rejection).1) || Occupied(s, c)
  {
    hide AssignmentOk, IndexesOk, Names;
    if pc.GrantReadGuard? && c.Guard() in s.guards {
      assert GuardOk(s, c.Guard());
    } else if pc.GrantCommit? {
      assert AuditsOf(s, c.Key());
    }
  }

  ghost predicate HeldDuring(r: Run, i: nat, j: nat, c: GrantCommand) {
    exists m :: i < m <= j && m < |r.states| && Occupied(r.states[m].store, c)
  }

  /** A call keeps its command, so a grant begun at `i` is that grant at every later instant. */
  lemma {:induction false} GrantPersists(r: Run, i: nat, j: nat, p: nat, c: GrantCommand)
    requires IsRun(r) && i < j < |r.states| && p !in r.states[i].calls && r.actions[i] == Begin(p, StartGrant(c))
    ensures p in r.states[j].calls && r.states[j].calls[p].Granting? && r.states[j].calls[p].grant == c
    decreases j
  {
    hide CallStep;
    if i + 1 < j {
      GrantPersists(r, i, j - 1, p, c);
      var w, a := r.states[j - 1], r.actions[j - 1];
      assert r.states[j] == Step(w, a);
      assert forall choice :: CallStep(w.policy, w.store, w.calls[p], choice).1.Granting?
                              && CallStep(w.policy, w.store, w.calls[p], choice).1.grant == c by { GrantStaysGrant(w, p); }
    } else {
      assert r.states[j] == Step(r.states[i], r.actions[i]);
    }
  }

  lemma GrantStaysGrant(w: World, p: nat)
    requires p in w.calls && w.calls[p].Granting?
    ensures forall choice ::
              var call' := CallStep(w.policy, w.store, w.calls[p], choice).1; call'.Granting? && call'.grant == w.calls[p].grant
  {
  }

  lemma {:induction false} GrantViewFreshOrHeld(r: Run, i: nat, j: nat, p: nat, c: GrantCommand)
    requires IsRun(r) && i < j < |r.states| && p !in r.states[i].calls && r.actions[i] == Begin(p, StartGrant(c))
    ensures p in r.states[j].calls && r.states[j].calls[p].Granting? && r.states[j].calls[p].grant == c
    ensures FreshView(r.states[j].store, c, r.states[j].calls[p].grantPc) || HeldDuring(r, i, j, c)
    decreases j
  {
    hide *;
    GrantPersists(r, i, j, p, c);
    RunSteps(r, j);
    if i + 1 < j {
      GrantViewFreshOrHeld(r, i, j - 1, p, c);
      HeldNow(r, i, j, c);
      if !HeldDuring(r, i, j - 1, c) {
        RunSafe(r, j - 1);
        FreshViewStep(r.states[j - 1], r.actions[j - 1], p, c);
      }
    } else {
      GrantOpensFresh(r.states[i], p, c);
    }
  }

  lemma GrantOpensFresh(w: World, p: nat, c: GrantCommand)
    requires p !in w.calls
    ensures var w' := Step(w, Begin(p, StartGrant(c)));
            p in w'.calls && w'.calls[p].Granting? && FreshView(w'.store, c, w'.calls[p].grantPc)
  {
    hide CallStep;
  }

  lemma HeldNow(r: Run, i: nat, j: nat, c: GrantCommand)
    requires 0 < j < |r.states| && i < j - 1
    ensures Occupied(r.states[j - 1].store, c) || Occupied(r.states[j].store, c) ==> HeldDuring(r, i, j, c)
    ensures HeldDuring(r, i, j - 1, c) ==> HeldDuring(r, i, j, c)
  {
  }

  lemma FreshViewStep(w: World, a: Action, p: nat, c: GrantCommand)
    requires WorldInv(w) && p in w.calls && w.calls[p].Granting? && w.calls[p].grant == c
    requires FreshView(w.store, c, w.calls[p].grantPc)
    ensures var w' := Step(w, a);
            p in w'.calls && w'.calls[p].Granting? &&
            (FreshView(w'.store, c, w'.calls[p].grantPc) || Occupied(w.store, c) || Occupied(w'.store, c))
  {
    hide *;
    var pc := w.calls[p].grantPc;
    CallIsOk(w, p);
    GrantCallOk(w.policy, w.store, w.calls[p]);
    if a.Advance? && a.p == p {
      GrantAdvances(w, p, a);
      FreshStep(w.store, c, pc, a.choice.rejection);
    } else {
      OthersStay(w, a, p);
      if a.Advance? && Runnable(w, a.p) {
        OwnStep(w, a.p, a.choice);
        CallIsOk(w, a.p);
        OtherKeepsFresh(w.policy, w.store, w.calls[a.p], a.choice, c, pc);
        ActionIsAdvance(a);
      } else {
        IdleKeepsStore(w, a);
      }
    }
  }

  lemma GrantCallOk(policy: Policy, s: Store, call: Call)
    requires CallOk(policy, s, call) && call.Granting?
    ensures GrantOk(s, call.grant, call.grantPc)
  {
    hide GrantOk;
  }

  lemma ActionIsAdvance(a: Action)
    requires a.Advance?
    ensures a == Advance(a.p, a.choice)
  {
  }

  lemma IdleKeepsStore(w: World, a: Action)
    requires !(a.Advance? && Runnable(w, a.p))
    ensures Step(w, a).store == w.store
  {
    hide CallStep;
  }

  lemma GrantAdvances(w: World, p: nat, a: Action)
    requires p in w.calls && w.calls[p].Granting? && a.Advance? && a.p == p
    ensures var w' := Step(w, a); var (t, pc') := GrantStep(w.store, w.calls[p].grant, w.calls[p].grantPc, a.choice.rejection);
            && w'.store == t && p in w'.calls && w'.calls[p] == Granting(w.calls[p].grant, pc')
  {
    OwnStep(w, p, a.choice);
    hide GrantStep;
  }

  /** Another call's step leaves what a grant has read as it is, or moves the tuple while it is held. */
  lemma OtherKeepsFresh(policy: Policy, s: Store, call: Call, choice: Choice, c: GrantCommand, pc: GrantPc)
    requires CallOk(policy, s, call) && GrantOk(s, c, pc) && FreshView(s, c, pc)
    ensures var t := CallStep(policy, s, call, choice).0; FreshView(t, c, pc) || Occupied(s, c) || Occupied(t, c)
  {
    hide *;
    var t := CallStep(policy, s, call, choice).0;
    CallStepWrites(policy, s, call, choice);
    PendingWriteOk(policy, s, call);
    if Performs(s, t, PendingWrite(call)) && (pc.GrantReadExisting? || pc.GrantCommit?) {
      ViewClaims(s, c, pc);
      WriteMovesHeldTuple(s, t, PendingWrite(call), c);
    }
    QuietKeepsFresh(s, t, c, pc);
  }

  lemma QuietKeepsFresh(s: Store, t: Store, c: GrantCommand, pc: GrantPc)
    requires FreshView(s, c, pc)
    ensures SameRecords(s, t) || !(pc.GrantReadExisting? || pc.GrantCommit?) || TupleQuiet(s, t, c) ==> FreshView(t, c, pc)
  {
  }

  lemma ViewClaims(s: Store, c: GrantCommand, pc: GrantPc)
    requires GrantOk(s, c, pc) && (pc.GrantReadExisting? || pc.GrantCommit?)
    ensures Claimed(s, c)
  {
  }

  /**
   * A grant answers `active_tuple` only if an active assignment held that tuple at some instant of the call,
   * on every path to that answer and whatever reason the backend gave for a refusal.
   */
  lemma ActiveTupleWasHeld(r: Run, i: nat, j: nat, p: nat, c: GrantCommand)
    requires IsRun(r) && i < j < |r.states| && p !in r.states[i].calls && r.actions[i] == Begin(p, StartGrant(c))
    requires p in r.states[j].calls && r.states[j].calls[p] == Granting(c, GrantDone(GrantRefused(ActiveTuple)))
    ensures exists m, id :: i < m <= j && Holds(r.states[m].store, c.Place(), c.assignment.role, id)
  {
    GrantViewFreshOrHeld(r, i, j, p, c);
    var m :| i < m <= j && m < |r.states| && Occupied(r.states[m].store, c);
    var id :| Holds(r.states[m].store, c.Place(), c.assignment.role, id);
  }

  // ---------------------------------------------------------------- each id is granted once

  predicate Stored(pc: GrantPc) {
    pc.GrantReadBack? || (pc.GrantDone? && pc.result.Granted?)
  }

  /** The grant a call has under way: its own, a seeding's or a compensation's. */
  function GrantIn(call: Call): Option<(GrantCommand, GrantPc)> {
    match call
    case Granting(c, pc) => Some((c, pc))
    case Seeding(c, SeedGranting(pc)) => Some((c, pc))
    case Administering(_, _, _, Compensating(_, c, pc)) => Some((c, pc))
    case _ => None
  }

  /** The grant that a call has had committed and reports as `granted`. */
  function GrantedBy(call: Call): Option<GrantCommand> {
    if call.Seeding? && call.seedPc == SeedDone(Seeded) then Some(call.seed)
    else if GrantIn(call).Some? && Stored(GrantIn(call).value.1) then Some(GrantIn(call).value.0)
    else None
  }

  /** The instant at which a grant that reports success stored its assignment: absent before, present after. */
  lemma {:induction false} CommitInstant(r: Run, j: nat, p: nat) returns (m: nat)
    requires IsRun(r) && j < |r.states| && p in r.states[j].calls && GrantedBy(r.states[j].calls[p]).Some?
    ensures m < j && m < |r.actions| && r.actions[m].Advance? && r.actions[m].p == p
    ensures var key := GrantedBy(r.states[j].calls[p]).value.Key();
            key !in r.states[m].store.assignments && key in r.states[m + 1].store.assignments
  {
    hide *;
    NoCallsYet(r);
    RunSteps(r, j);
    var w, a := r.states[j - 1], r.actions[j - 1];
    if p in w.calls && GrantedBy(w.calls[p]).Some? {
      SuccessKept(w, a, p);
      m := CommitInstant(r, j - 1, p);
    } else {
      SuccessCommits(w, a, p);
      m := j - 1;
    }
  }

  lemma NoCallsYet(r: Run)
    requires IsRun(r)
    ensures r.states[0].calls == map[]
  {
  }

  lemma SuccessKept(w: World, a: Action, p: nat)
    requires p in w.calls && GrantedBy(w.calls[p]).Some?
    requires p in Step(w, a).calls && GrantedBy(Step(w, a).calls[p]).Some?
    ensures GrantedBy(Step(w, a).calls[p]) == GrantedBy(w.calls[p])
  {
    if a.Advance? && a.p == p {
      OwnStep(w, p, a.choice);
      SuccessKeptByStep(w.policy, w.store, w.calls[p], a.choice);
    } else {
      OthersStay(w, a, p);
    }
    hide *;
  }

  lemma SuccessKeptByStep(policy: Policy, s: Store, call: Call, choice: Choice)
    requires GrantedBy(call).Some? && GrantedBy(CallStep(policy, s, call, choice).1).Some?
    ensures GrantedBy(CallStep(policy, s, call, choice).1) == GrantedBy(call)
  {
    hide RevokeStep, ByRoleStep, ListStep, RebuildStep;
  }

  lemma SuccessCommits(w: World, a: Action, p: nat)
    requires p in Step(w, a).calls && GrantedBy(Step(w, a).calls[p]).Some? && !(p in w.calls && GrantedBy(w.calls[p]).Some?)
    ensures a.Advance? && a.p == p
    ensures var key := GrantedBy(Step(w, a).calls[p]).value.Key();
            key !in w.store.assignments && key in Step(w, a).store.assignments
  {
    if a.Advance? && a.p == p {
      assert p in w.calls && !(w.calls[p].Administering? && w.calls[p].adminPc.Queued?) by { hide CallStep; }
      OwnStep(w, p, a.choice);
      SuccessCommitsByStep(w.policy, w.store, w.calls[p], a.choice);
    } else if p in w.calls {
      OthersStay(w, a, p);
    } else {
      hide CallStep;
    }
  }

  lemma SuccessCommitsByStep(policy: Policy, s: Store, call: Call, choice: Choice)
    requires GrantedBy(call).None? && GrantedBy(CallStep(policy, s, call, choice).1).Some?
    ensures var (t, call') := CallStep(policy, s, call, choice);
            var key := GrantedBy(call').value.Key(); key !in s.assignments && key in t.assignments
  {
    if GrantIn(call).Some? {
      GrantStepStores(s, GrantIn(call).value.0, GrantIn(call).value.1, choice.rejection);
    }
    hide GrantStep, RevokeStep, ByRoleStep, ListStep, RebuildStep, ScanStep, AssignmentManagedBy, ShowsRole;
  }

  lemma GrantStepStores(s: Store, c: GrantCommand, pc: GrantPc, rejection: Rejection)
    ensures var (t, pc') := GrantStep(s, c, pc, rejection);
            && (Stored(pc') && !Stored(pc) ==> c.Key() !in s.assignments && c.Key() in t.assignments)
            && (pc.GrantDone? ==> t == s && pc' == pc)
  {
  }

  lemma StoredFrom(r: Run, i: nat, j: nat, k: AssignmentKey)
    requires IsRun(r) && i <= j < |r.states| && k in r.states[i].store.assignments
    ensures k in r.states[j].store.assignments
  {
    RunEvolves(r, i, j);
  }

  /** Over a whole run at most one call is answered `granted` for an id, counting grants, seedings and compensations. */
  lemma GrantedOnce(r: Run, j: nat, p: nat, q: nat)
    requires IsRun(r) && j < |r.states| && p in r.states[j].calls && q in r.states[j].calls
    requires GrantedBy(r.states[j].calls[p]).Some? && GrantedBy(r.states[j].calls[q]).Some?
    requires var c, d := GrantedBy(r.states[j].calls[p]).value, GrantedBy(r.states[j].calls[q]).value;
             c.applicationId == d.applicationId && c.assignment.id == d.assignment.id
    ensures p == q
  {
    var m := CommitInstant(r, j, p);
    var n := CommitInstant(r, j, q);
    var k, l := GrantedBy(r.states[j].calls[p]).value.Key(), GrantedBy(r.states[j].calls[q]).value.Key();
    hide IsRun, Step, GrantedBy;
    StoredFrom(r, m + 1, j, k);
    StoredFrom(r, n + 1, j, l);
    OnePartitionPerId(r, j, k, l);
    FirstStoredOnce(r, m, n, k);
  }

  lemma FirstStoredOnce(r: Run, m: nat, n: nat, k: AssignmentKey)
    requires IsRun(r) && m + 1 < |r.states| && n + 1 < |r.states|
    requires k !in r.states[m].store.assignments && k in r.states[m + 1].store.assignments
    requires k !in r.states[n].store.assignments && k in r.states[n + 1].store.assignments
    ensures m == n
  {
    hide IsRun, Step;
    if m < n {
      StoredFrom(r, m + 1, n, k);
    } else if n < m {
      StoredFrom(r, n + 1, m, k);
    }
  }

  // ---------------------------------------------------------------- replays change nothing

  /** Once its assignment is stored, no step of any grant of that id writes anything but that assignment's missing row. */
  lemma GrantReplayWritesNothing(s: Store, c: GrantCommand, pc: GrantPc, rejection: Rejection, k: AssignmentKey)
    requires StoreInv(s) && GrantOk(s, c, pc)
    requires k in s.assignments && k.location.applicationId == c.applicationId && k.id == c.assignment.id
    ensures var t := GrantStep(s, c, pc, rejection).0;
            t == if HasRow(s, k) || !pc.GrantWriteHolder? then s
                 else s.(holders := s.holders[KeyOfHolder(c.Row()) := RowOf(k, s.assignments[k].value)])
  {
    hide *;
    IdIsPointed(s, c, k);
    if pc.GrantWriteHolder? {
      StoredRowReplayed(s, c, pc, rejection, k);
    } else {
      StoredGrantReplayed(s, c, pc, rejection, k);
    }
  }

  /** A stored id's pointer is that assignment's row. */
  lemma IdIsPointed(s: Store, c: GrantCommand, k: AssignmentKey)
    requires StoreInv(s) && k in s.assignments && k.location.applicationId == c.applicationId && k.id == c.assignment.id
    ensures s.PointerAt(KeyOfPointer(c.Row())) == Some(RowOf(k, s.assignments[k].value)) && IndexesOk(s)
  {
    hide AuditsOf, GuardOk, Names, Holds, IndexesOk;
    assert AssignmentOk(s, k);
  }

  lemma StoredRowReplayed(s: Store, c: GrantCommand, pc: GrantPc, rejection: Rejection, k: AssignmentKey)
    requires GrantOk(s, c, pc) && pc.GrantWriteHolder? && k in s.assignments && IndexesOk(s)
    requires s.PointerAt(KeyOfPointer(c.Row())) == Some(RowOf(k, s.assignments[k].value))
    ensures var t := GrantStep(s, c, pc, rejection).0;
            t == if HasRow(s, k) then s else s.(holders := s.holders[KeyOfHolder(c.Row()) := RowOf(k, s.assignments[k].value)])
  {
    RowFound(s, c.Row());
    hide IndexesOk;
  }

  lemma StoredGrantReplayed(s: Store, c: GrantCommand, pc: GrantPc, rejection: Rejection, k: AssignmentKey)
    requires GrantOk(s, c, pc) && !pc.GrantWriteHolder? && k in s.assignments
    requires k.location.applicationId == c.applicationId && k.id == c.assignment.id
    requires s.PointerAt(KeyOfPointer(c.Row())) == Some(RowOf(k, s.assignments[k].value))
    ensures GrantStep(s, c, pc, rejection).0 == s
  {
    hide IsAssignmentOf, IsTupleOf;
    assert pc.GrantCommit? ==> k == c.Key();
  }

  /** Once its assignment is revoked, no step of any revoke of that id writes anything. */
  lemma RevokeReplayWritesNothing(s: Store, c: RevokeCommand, pc: RevokePc, rejection: Rejection, k: AssignmentKey)
    requires StoreInv(s) && RevokeOk(s, c, pc)
    requires k in s.assignments && k.location.applicationId == c.applicationId && k.id == c.assignmentId
    requires s.assignments[k].value.assignment.lifecycle.Revoked?
    ensures RevokeStep(s, c, pc, rejection).0 == s
  {
    hide AuditsOf, GuardOk, Names, Holds;
    assert AssignmentOk(s, k);
  }

  // ---------------------------------------------------------------- a principal listing is a snapshot

  ghost predicate ListsAll(s: Store, location: Location, ids: set<RowId>) {
    forall a | AssignmentKey(location, a) in s.assignments :: AssignmentId(a) in ids
  }

  ghost predicate SeenAll(s: Store, location: Location, rows: map<RowId, Row>) {
    forall id | id in rows :: Seen(s, location, id, rows[id])
  }

  ghost predicate StoodAt(s: Store, location: Location, rows: map<RowId, Row>, ids: set<RowId>) {
    forall id | id in ids && id in rows && rows[id].AssignmentRow? :: RowAt(s, location, id) == Some(rows[id])
  }

  /** What a listing has established: `began` is the store when it began, `end` the store when its list read ended. */
  ghost predicate ListProgress(began: Store, end: Store, location: Location, pc: ListPc) {
    match pc
    case ListStart => true
    case ListReading(must, _) => ListsAll(began, location, must)
    case ListConfirming(rows, confirmed) =>
      ListsAll(began, location, rows.Keys) && SeenAll(end, location, rows) && StoodAt(end, location, rows, confirmed)
    case ListDone(rows) =>
      ListsAll(began, location, rows.Keys) && StoodAt(end, location, rows, rows.Keys)
    case _ => true
  }

  predicate ListEnded(pc: ListPc) {
    !pc.ListStart? && !pc.ListReading?
  }

  /** The action taken at instant `e` ends the list read of listing `p`. */
  predicate ListEndsAt(r: Run, e: nat, p: nat) {
    && e + 1 < |r.states| && p in r.states[e].calls && p in r.states[e + 1].calls
    && r.states[e].calls[p].ListingPrincipal? && !ListEnded(r.states[e].calls[p].listPc)
    && r.states[e + 1].calls[p].ListingPrincipal? && ListEnded(r.states[e + 1].calls[p].listPc)
  }

  lemma ListBegins(began: Store, now: Store, location: Location)
    requires Evolves(began, now)
    ensures ListsAll(began, location, RowIds(now, location))
  {
    hide Evolves;
    forall a | AssignmentKey(location, a) in began.assignments ensures AssignmentId(a) in RowIds(now, location) {
      StillStored(began, now, AssignmentKey(location, a));
      assert AssignmentKey(location, a).id == a;
    }
  }

  lemma StillStored(s: Store, t: Store, k: AssignmentKey)
    requires Evolves(s, t) && k in s.assignments
    ensures k in t.assignments
  {
  }

  lemma ListConfirms(end: Store, now: Store, location: Location, rows: map<RowId, Row>, confirmed: set<RowId>, id: RowId)
    requires Evolves(end, now) && SeenAll(end, location, rows) && StoodAt(end, location, rows, confirmed)
    requires id in rows && RowAt(now, location, id) == Some(rows[id])
    ensures StoodAt(end, location, rows, confirmed + {id})
  {
    hide Evolves, Seen;
    if rows[id].AssignmentRow? {
      ConfirmedAtEnd(end, now, location, id, rows[id]);
    }
  }

  lemma ListingStep(began: Store, end: Store, now: Store, location: Location, pc: ListPc, pick: Option<RowId>)
    requires ListOk(now, location, pc) && ListProgress(began, end, location, pc) && Evolves(began, now)
    requires ListEnded(pc) ==> Evolves(end, now)
    ensures var pc' := ListStep(now, location, pc, pick);
            ListProgress(began, if ListEnded(pc) then end else now, location, pc')
  {
    hide Evolves, Seen, RowIds, RowAt;
    match pc
    case ListStart => ListBegins(began, now, location);
    case ListConfirming(rows, confirmed) =>
      if pick.Some? && pick.value in rows && RowAt(now, location, pick.value) == Some(rows[pick.value]) {
        ListConfirms(end, now, location, rows, confirmed, pick.value);
      }
    case _ =>
  }

  lemma ListingIsOk(r: Run, i: nat, p: nat)
    requires IsRun(r) && i < |r.states| && p in r.states[i].calls && r.states[i].calls[p].ListingPrincipal?
    ensures ListOk(r.states[i].store, r.states[i].calls[p].location, r.states[i].calls[p].listPc)
  {
    RunSafe(r, i);
    hide StoreInv, ListOk;
    assert CallOk(r.states[i].policy, r.states[i].store, r.states[i].calls[p]);
  }

  /** One step of the world, seen from a listing under way; the instant its list read ends moves only until it has ended. */
  lemma ListingAdvances(began: Store, end: Store, w: World, a: Action, p: nat)
    requires p in w.calls && w.calls[p].ListingPrincipal? && ListOk(w.store, w.calls[p].location, w.calls[p].listPc)
    requires Evolves(began, w.store) && Evolves(end, w.store)
    requires ListProgress(began, end, w.calls[p].location, w.calls[p].listPc)
    ensures var w' := Step(w, a);
            && p in w'.calls && w'.calls[p].ListingPrincipal? && w'.calls[p].location == w.calls[p].location
            && ListProgress(began, if ListEnded(w.calls[p].listPc) then end else w.store, w.calls[p].location, w'.calls[p].listPc)
  {
    hide ListOk, ListStep, Evolves;
    if a.Advance? && a.p == p {
      OwnStep(w, p, a.choice);
      ListingStep(began, end, w.store, w.calls[p].location, w.calls[p].listPc, a.choice.row);
    } else {
      OthersStay(w, a, p);
    }
    hide Step;
  }

  lemma {:induction false} ListingTracked(r: Run, i: nat, j: nat, p: nat, location: Location) returns (e: nat)
    requires IsRun(r) && i < j < |r.states| && p !in r.states[i].calls && r.actions[i] == Begin(p, StartListing(location))
    ensures p in r.states[j].calls && r.states[j].calls[p].ListingPrincipal? && r.states[j].calls[p].location == location
    ensures i < e <= j && ListProgress(r.states[i].store, r.states[e].store, location, r.states[j].calls[p].listPc)
    ensures ListEnded(r.states[j].calls[p].listPc) ==> ListEndsAt(r, e, p)
    decreases j
  {
    hide *;
    RunSteps(r, j);
    var w, a := r.states[j - 1], r.actions[j - 1];
    if i + 1 == j {
      ListingOpens(w, p, location, r.states[i].store, r.states[j].store);
      e := j;
    } else {
      e := ListingTracked(r, i, j - 1, p, location);
      RunEvolves(r, i, j - 1);
      RunEvolves(r, e, j - 1);
      ListingIsOk(r, j - 1, p);
      ListingAdvances(r.states[i].store, r.states[e].store, w, a, p);
      if !ListEnded(w.calls[p].listPc) {
        ListingEnds(r, j - 1, p);
        e := j - 1;
      }
    }
  }

  lemma ListingOpens(w: World, p: nat, location: Location, began: Store, end: Store)
    requires p !in w.calls
    ensures var w' := Step(w, Begin(p, StartListing(location)));
            && p in w'.calls && w'.calls[p].ListingPrincipal? && w'.calls[p].location == location
            && !ListEnded(w'.calls[p].listPc) && ListProgress(began, end, location, w'.calls[p].listPc)
  {
    hide CallStep;
  }

  lemma ListingEnds(r: Run, e: nat, p: nat)
    requires e + 1 < |r.states| && p in r.states[e].calls && p in r.states[e + 1].calls
    requires r.states[e].calls[p].ListingPrincipal? && !ListEnded(r.states[e].calls[p].listPc)
    requires r.states[e + 1].calls[p].ListingPrincipal?
    ensures ListEnded(r.states[e + 1].calls[p].listPc) ==> ListEndsAt(r, e, p)
  {
    hide ListEnded;
  }

  /**
   * A principal listing that returns reports assignments that all stood together at one instant, the end of its
   * list read, and it reports every assignment stored before it began.
   */
  lemma ListingIsSnapshot(r: Run, i: nat, j: nat, p: nat, location: Location, rows: map<RowId, Row>)
    requires IsRun(r) && i < j < |r.states| && p !in r.states[i].calls && r.actions[i] == Begin(p, StartListing(location))
    requires p in r.states[j].calls && r.states[j].calls[p] == ListingPrincipal(location, ListDone(rows))
    ensures exists e :: i < e <= j && ListEndsAt(r, e, p)
                        && forall id | id in rows && rows[id].AssignmentRow? :: RowAt(r.states[e].store, location, id) == Some(rows[id])
    ensures forall a | AssignmentKey(location, a) in r.states[i].store.assignments :: AssignmentId(a) in rows
  {
    var e := ListingTracked(r, i, j, p, location);
    hide IsRun, Step;
    assert StoodAt(r.states[e].store, location, rows, rows.Keys);
  }

  // ---------------------------------------------------------------- the by-role read

  ghost predicate WasActive(r: Run, i: nat, j: nat, q: ByRoleQuery, id: Text, a: Assignment) {
    exists m :: i < m <= j && m < |r.states| && ActiveAt(r.states[m].store, q, id, a)
  }

  ghost predicate StaysHolder(r: Run, i: nat, j: nat, q: ByRoleQuery, id: Text)
    requires j < |r.states|
  {
    forall m | i < m <= j :: IndexedHolder(r.states[m].store, q, id)
  }

  /** What a by-role read has verified so far was active at some instant of the call. */
  ghost predicate VerifiedTruly(r: Run, i: nat, j: nat, q: ByRoleQuery, pc: ByRolePc) {
    match pc
    case ByRoleVerifying(_, _, verified) =>
      forall id | id in verified && verified[id].Some? :: WasActive(r, i, j, q, id, verified[id].value)
    case ByRoleDone(found) => forall id | id in found :: WasActive(r, i, j, q, id, found[id])
    case _ => true
  }

  lemma WasActiveLater(r: Run, i: nat, j: nat, q: ByRoleQuery, id: Text, a: Assignment)
    requires 0 < j && WasActive(r, i, j - 1, q, id, a)
    ensures WasActive(r, i, j, q, id, a)
  {
  }

  lemma VerifiedStillTruly(r: Run, i: nat, j: nat, q: ByRoleQuery, pc: ByRolePc)
    requires 0 < j && VerifiedTruly(r, i, j - 1, q, pc)
    ensures VerifiedTruly(r, i, j, q, pc)
  {
    hide WasActive;
    match pc
    case ByRoleVerifying(_, _, verified) =>
      forall id | id in verified && verified[id].Some? ensures WasActive(r, i, j, q, id, verified[id].value) {
        WasActiveLater(r, i, j, q, id, verified[id].value);
      }
    case ByRoleDone(found) =>
      forall id | id in found ensures WasActive(r, i, j, q, id, found[id]) {
        WasActiveLater(r, i, j, q, id, found[id]);
      }
    case _ =>
  }

  /** A step of the read taken in state `j - 1`, which is an instant of the call. */
  lemma ByRoleStepTruly(r: Run, i: nat, j: nat, q: ByRoleQuery, pc: ByRolePc, pick: Option<Text>)
    requires i < j - 1 && j - 1 < |r.states| && VerifiedTruly(r, i, j, q, pc)
    requires StoreInv(r.states[j - 1].store) && ByRoleOk(r.states[j - 1].store, q, pc)
    ensures VerifiedTruly(r, i, j, q, ByRoleStep(r.states[j - 1].store, q, pc, pick))
  {
    hide WasActive, StoreInv, ByRoleOk;
    var s := r.states[j - 1].store;
    var pc' := ByRoleStep(s, q, pc, pick);
    if pc.ByRoleVerifying? && pc'.ByRoleVerifying? {
      forall id | id in pc'.verified && pc'.verified[id].Some?
        ensures WasActive(r, i, j, q, id, pc'.verified[id].value)
      {
        if id !in pc.verified || pc.verified[id] != pc'.verified[id] {
          ByRoleReportsActive(s, q, pc, pick, id);
          ActiveNow(r, i, j, q, id, pc'.verified[id].value);
        }
      }
    }
  }

  lemma ActiveNow(r: Run, i: nat, j: nat, q: ByRoleQuery, id: Text, a: Assignment)
    requires i < j - 1 && j - 1 < |r.states| && ActiveAt(r.states[j - 1].store, q, id, a)
    ensures WasActive(r, i, j, q, id, a)
  {
  }

  lemma ByRoleIsOk(r: Run, i: nat, p: nat)
    requires IsRun(r) && i < |r.states| && p in r.states[i].calls && r.states[i].calls[p].ListingByRole?
    ensures StoreInv(r.states[i].store) && ByRoleOk(r.states[i].store, r.states[i].calls[p].query, r.states[i].calls[p].rolePc)
  {
    RunSafe(r, i);
    hide StoreInv, ByRoleOk;
    assert CallOk(r.states[i].policy, r.states[i].store, r.states[i].calls[p]);
  }

  predicate IsByRole(w: World, p: nat, q: ByRoleQuery) {
    p in w.calls && w.calls[p].ListingByRole? && w.calls[p].query == q
  }

  /** A by-role read keeps its query; its own step is a `ByRoleStep` on the store of that instant. */
  lemma ByRoleAdvances(w: World, a: Action, p: nat, q: ByRoleQuery)
    requires IsByRole(w, p, q)
    ensures IsByRole(Step(w, a), p, q)
    ensures Step(w, a).calls[p].rolePc ==
            if a.Advance? && a.p == p then ByRoleStep(w.store, q, w.calls[p].rolePc, a.choice.pick) else w.calls[p].rolePc
  {
    if a.Advance? && a.p == p {
      OwnStep(w, p, a.choice);
    } else {
      OthersStay(w, a, p);
    }
    hide Step;
  }

  lemma {:induction false} ByRoleTracked(r: Run, i: nat, j: nat, p: nat, q: ByRoleQuery)
    requires IsRun(r) && i < j < |r.states| && p !in r.states[i].calls && r.actions[i] == Begin(p, StartByRole(q))
    ensures IsByRole(r.states[j], p, q)
    ensures VerifiedTruly(r, i, j, q, r.states[j].calls[p].rolePc)
    ensures forall id | StaysHolder(r, i, j, q, id) :: WillReport(q, r.states[j].calls[p].rolePc, id)
    decreases j
  {
    RunSteps(r, j);
    if i + 1 < j {
      hide IsRun, Step, VerifiedTruly, StoreInv, ByRoleOk, ByRoleStep;
      ByRoleTracked(r, i, j - 1, p, q);
      ByRoleIsOk(r, j - 1, p);
      var w, a := r.states[j - 1], r.actions[j - 1];
      ByRoleAdvances(w, a, p, q);
      VerifiedStillTruly(r, i, j, q, w.calls[p].rolePc);
      if a.Advance? && a.p == p {
        ByRoleStepTruly(r, i, j, q, w.calls[p].rolePc, a.choice.pick);
        forall id | StaysHolder(r, i, j, q, id) ensures WillReport(q, r.states[j].calls[p].rolePc, id) {
          var location := w.store.pointers[PointerKey(q.applicationId, id)].location;
          ByRoleKeepsHolder(w.store, q, w.calls[p].rolePc, a.choice.pick, location, id);
        }
      }
    }
  }

  /**
   * The by-role read reports only assignments that were active at some instant of the call, and every one that was
   * active and indexed throughout it.
   */
  lemma ByRoleReadIsExact(r: Run, i: nat, j: nat, p: nat, q: ByRoleQuery, found: map<Text, Assignment>)
    requires IsRun(r) && i < j < |r.states| && p !in r.states[i].calls && r.actions[i] == Begin(p, StartByRole(q))
    requires p in r.states[j].calls && r.states[j].calls[p] == ListingByRole(q, ByRoleDone(found))
    ensures forall id | id in found :: exists m :: i < m <= j && ActiveAt(r.states[m].store, q, id, found[id])
    ensures forall id | (forall m | i < m <= j :: IndexedHolder(r.states[m].store, q, id)) :: id in found
  {
    ByRoleTracked(r, i, j, p, q);
    hide IsRun, Step, IndexedHolder, ActiveAt;
    forall id | id in found ensures exists m :: i < m <= j && ActiveAt(r.states[m].store, q, id, found[id]) {
      assert WasActive(r, i, j, q, id, found[id]);
    }
    forall id | (forall m | i < m <= j :: IndexedHolder(r.states[m].store, q, id)) ensures id in found {
      assert StaysHolder(r, i, j, q, id);
    }
  }

  /** While nothing else writes, the by-role read is the scan of all partitions, less the holders without a row. */
  lemma QuietByRoleReadIsScan(r: Run, i: nat, j: nat, p: nat, q: ByRoleQuery, found: map<Text, Assignment>, s: Store)
    requires IsRun(r) && i < j < |r.states| && p !in r.states[i].calls && r.actions[i] == Begin(p, StartByRole(q))
    requires p in r.states[j].calls && r.states[j].calls[p] == ListingByRole(q, ByRoleDone(found))
    requires forall m | i < m <= j :: r.states[m].store == s
    ensures forall id, a :: (id in found && found[id] == a) <==> ActiveAt(s, q, id, a) && q.Key(id) in s.holders
    ensures HoldersComplete(s, q.applicationId) ==>
              forall id, a :: (id in found && found[id] == a) <==> ActiveAt(s, q, id, a)
  {
    hide IsRun, Step, StoreInv, ActiveAt, IndexedHolder, ByRoleOk, HoldersComplete;
    ByRoleReadIsExact(r, i, j, p, q, found);
    ByRoleIsOk(r, j, p);
    FoundIsIndexed(s, q, found);
    forall id, a | ActiveAt(s, q, id, a) && q.Key(id) in s.holders ensures id in found && found[id] == a {
      ActiveIsHolder(s, q, id, a);
      assert id in found;
      ActiveOnce(s, q, id, a, found[id]);
    }
    forall id, a | HoldersComplete(s, q.applicationId) && ActiveAt(s, q, id, a) ensures q.Key(id) in s.holders {
      ActiveIsHolder(s, q, id, a);
      CompleteIndexHasRow(s, q, id);
    }
  }

  lemma FoundIsIndexed(s: Store, q: ByRoleQuery, found: map<Text, Assignment>)
    requires ByRoleOk(s, q, ByRoleDone(found))
    ensures forall id | id in found :: q.Key(id) in s.holders
  {
  }

  // ---------------------------------------------------------------- the index after a rebuild

  predicate IsRebuilt(w: World, b: nat, applicationId: Text) {
    b in w.calls && w.calls[b].Rebuilding? && w.calls[b].applicationId == applicationId && w.calls[b].rebuildPc.RebuildDone?
  }

  /** From the instant a rebuild ends the holder index is complete, whatever was granted and revoked during and after it. */
  lemma RebuildCompletes(r: Run, i: nat, j: nat, b: nat, applicationId: Text)
    requires IsRun(r) && i <= j < |r.states| && IsRebuilt(r.states[i], b, applicationId)
    ensures HoldersComplete(r.states[j].store, applicationId)
  {
    hide *;
    RunSafe(r, i);
    RunEvolves(r, i, j);
    RebuiltHere(r.states[i], b, applicationId);
    HoldersStayComplete(r.states[i].store, r.states[j].store, applicationId);
  }

  lemma RebuiltHere(w: World, b: nat, applicationId: Text)
    requires WorldInv(w) && IsRebuilt(w, b, applicationId)
    ensures HoldersComplete(w.store, applicationId)
  {
    CallIsOk(w, b);
    hide WorldInv, StoreInv, HoldersComplete, MissingWithin;
    RebuiltIsComplete(w.store, applicationId, w.calls[b].rebuildPc.recorded);
  }

  /**
   * A by-role read begun after a rebuild has ended misses no assignment that is active throughout; and if nothing else
   * writes meanwhile, it is the scan of all partitions.
   */
  lemma ByRoleReadAfterRebuild(
    r: Run, i: nat, j: nat, p: nat, q: ByRoleQuery, found: map<Text, Assignment>, b: nat)
    requires IsRun(r) && i < j < |r.states| && p !in r.states[i].calls && r.actions[i] == Begin(p, StartByRole(q))
    requires p in r.states[j].calls && r.states[j].calls[p] == ListingByRole(q, ByRoleDone(found))
    requires IsRebuilt(r.states[i], b, q.applicationId)
    ensures forall id | (forall m | i < m <= j :: IsHolder(r.states[m].store, q, id)) :: id in found
    ensures (forall m | i < m <= j :: r.states[m].store == r.states[j].store) ==>
              forall id, a :: (id in found && found[id] == a) <==> ActiveAt(r.states[j].store, q, id, a)
  {
    ByRoleReadIsExact(r, i, j, p, q, found);
    forall id | (forall m | i < m <= j :: IsHolder(r.states[m].store, q, id)) ensures id in found {
      forall m | i < m <= j ensures IndexedHolder(r.states[m].store, q, id) {
        RebuildCompletes(r, i, m, b, q.applicationId);
        RunSafe(r, m);
        hide StoreInv, HoldersComplete, IsHolder;
        CompleteIndexHasRow(r.states[m].store, q, id);
      }
    }
    RebuildCompletes(r, i, j, b, q.applicationId);
    hide HoldersComplete, IsHolder, ActiveAt, IsRebuilt, IndexedHolder, Step;
    if forall m | i < m <= j :: r.states[m].store == r.states[j].store {
      QuietByRoleReadIsScan(r, i, j, p, q, found, r.states[j].store);
    }
  }

  predicate RecordsNothing(w: World, b: nat, applicationId: Text) {
    && b in w.calls && w.calls[b].Rebuilding? && w.calls[b].applicationId == applicationId
    && Recorded(w.calls[b].rebuildPc) == 0
  }

  /** A rebuild begun over a complete index records nothing, whatever is granted and revoked meanwhile. */
  lemma {:induction false} RebuildOfCompleteRecordsNothing(r: Run, i: nat, j: nat, b: nat, applicationId: Text)
    requires IsRun(r) && i < j < |r.states| && b !in r.states[i].calls && r.actions[i] == Begin(b, StartRebuild(applicationId))
    requires HoldersComplete(r.states[i].store, applicationId)
    ensures RecordsNothing(r.states[j], b, applicationId)
    decreases j
  {
    hide *;
    RunSteps(r, j);
    if i + 1 < j {
      RebuildOfCompleteRecordsNothing(r, i, j - 1, b, applicationId);
      RunSafe(r, j - 1);
      RunEvolves(r, i, j - 1);
      HoldersStayComplete(r.states[i].store, r.states[j - 1].store, applicationId);
      RebuildAdvances(r.states[j - 1], r.actions[j - 1], b, applicationId);
    } else {
      RebuildBegins(r.states[i], b, applicationId);
    }
  }

  lemma RebuildBegins(w: World, b: nat, applicationId: Text)
    requires b !in w.calls
    ensures RecordsNothing(Step(w, Begin(b, StartRebuild(applicationId))), b, applicationId)
  {
    hide CallStep;
  }

  lemma RebuildAdvances(w: World, a: Action, b: nat, applicationId: Text)
    requires WorldInv(w) && RecordsNothing(w, b, applicationId) && HoldersComplete(w.store, applicationId)
    ensures RecordsNothing(Step(w, a), b, applicationId)
  {
    if a.Advance? && a.p == b {
      assert CallOk(w.policy, w.store, w.calls[b]);
      OwnStep(w, b, a.choice);
      hide Step, StoreInv, HoldersComplete, RebuildStep, Recorded, RebuildOk, WorldInv;
      RebuildRecordsNothing(w.store, w.calls[b].applicationId, w.calls[b].rebuildPc, a.choice.pick);
    } else {
      OthersStay(w, a, b);
      hide Step;
    }
  }
}
