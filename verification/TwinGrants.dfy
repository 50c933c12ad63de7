/**
 * Two calls with one grant: when does the later one converge on the earlier one's record, and when does it answer
 * `active_tuple`? The same question for two seedings of one manifest, where that answer becomes a conflict.
 */
module TwinGrants {
  import opened Prelude
  import opened RoleRecords
  import opened RoleStore
  import opened RoleStoreSafety
  import opened RoleReads
  import opened RoleSeeding
  import opened Administration
  import opened RoleWorld
  import opened RoleTheorems

  /** The command's assignment is stored, active or revoked, under the command's event id. */
  predicate TwinStored(s: Store, c: GrantCommand) {
    && c.Key() in s.assignments && s.assignments[c.Key()].value.grantEventId == c.auditEventId
    && s.assignments[c.Key()].value.assignment.role == c.assignment.role
  }

  lemma TwinStays(s: Store, t: Store, c: GrantCommand)
    requires Evolves(s, t) && TwinStored(s, c)
    ensures TwinStored(t, c)
  {
    hide HasRow;
    assert Evidence(t.assignments[c.Key()].value) == Evidence(s.assignments[c.Key()].value);
    assert Evidence(s.assignments[c.Key()].value).grantEventId == s.assignments[c.Key()].value.grantEventId;
    assert Evidence(s.assignments[c.Key()].value).assignment.role == s.assignments[c.Key()].value.assignment.role;
  }

  // ---------------------------------------------------------------- one step

  /** A grant at this step finds its tuple taken, or its transaction refused for a reason other than `exists`. */
  ghost predicate Blocked(s: Store, c: GrantCommand, pc: GrantPc, rejection: Rejection) {
    || (pc.GrantReadGuard? && HeldByAnother(s, c))
    || (pc.GrantCommit? && s.TransactGrant(c, pc.guard).None? && rejection != Exists)
    || (pc.GrantReadLanded? && c.Key() !in s.assignments)
  }

  predicate Converged(pc: GrantPc, result: GrantResult) {
    result.GrantUnchanged? || (result.Granted? && pc.GrantReadBack?)
  }

  /** Another holder shows in the guard, and only another holder does. */
  lemma GuardShowsAnother(s: Store, c: GrantCommand)
    requires StoreInv(s)
    ensures HeldByAnother(s, c) <==>
            && c.Guard() in s.guards && s.guards[c.Guard()].value.activeId.Some?
            && s.guards[c.Guard()].value.activeId.value != c.assignment.id
    ensures c.Guard() in s.guards ==> IsTupleOf(s.guards[c.Guard()].value, c.Place(), c.assignment.role)
  {
    hide AssignmentOk, IndexesOk, AuditsOf;
    assert c.Guard() in s.guards ==> GuardOk(s, c.Guard());
    if HeldByAnother(s, c) {
      var id :| id != c.assignment.id && Holds(s, c.Place(), c.assignment.role, id);
      assert Names(s, c.Place(), c.assignment.role, id);
    }
  }

  /** Once the assignment is stored its pointer is the command's, and so is its record. */
  lemma StoredIsClaimed(s: Store, c: GrantCommand)
    requires StoreInv(s) && TwinStored(s, c)
    ensures s.PointerAt(KeyOfPointer(c.Row())) == Some(c.Row())
    ensures IsAssignmentOf(s.assignments[c.Key()].value, c.Place(), c.assignment.id, c.assignment.role)
  {
    hide AuditsOf, GuardOk, Names, IndexesOk;
    assert AssignmentOk(s, c.Key());
  }

  /** At a step that answers, a grant whose twin is stored by `t` answers `active_tuple` exactly when it is blocked. */
  lemma TwinStep(s: Store, t: Store, c: GrantCommand, pc: GrantPc, rejection: Rejection)
    requires StoreInv(s) && StoreInv(t) && Evolves(s, t) && TwinStored(t, c)
    requires GrantOk(s, c, pc) && !pc.GrantDone? && GrantStep(s, c, pc, rejection).1.GrantDone?
    ensures var result := GrantStep(s, c, pc, rejection).1.result;
            && (result == GrantRefused(ActiveTuple) <==> Blocked(s, c, pc, rejection))
            && (result != GrantRefused(ActiveTuple) ==> Converged(pc, result))
  {
    NotCorrupt(s, c, pc, rejection);
    hide *;
    TwinSoFar(s, t, c);
    GuardShowsAnother(s, c);
    TwinStepCases(s, c, pc, rejection);
  }

  lemma NotCorrupt(s: Store, c: GrantCommand, pc: GrantPc, rejection: Rejection)
    requires StoreInv(s) && GrantOk(s, c, pc)
    ensures GrantStep(s, c, pc, rejection).1 != GrantDone(GrantCorrupt)
  {
    hide *;
    GrantStepSafe(s, c, pc, rejection);
    CorruptIsNotOk(GrantStep(s, c, pc, rejection).0, c);
  }

  lemma CorruptIsNotOk(s: Store, c: GrantCommand)
    ensures !GrantOk(s, c, GrantDone(GrantCorrupt))
  {
  }

  lemma TwinStepCases(s: Store, c: GrantCommand, pc: GrantPc, rejection: Rejection)
    requires KeyOfPointer(c.Row()) in s.pointers ==> s.pointers[KeyOfPointer(c.Row())] == c.Row()
    requires c.Key() in s.assignments ==> TwinStored(s, c)
    requires c.Key() in s.assignments ==>
               IsAssignmentOf(s.assignments[c.Key()].value, c.Place(), c.assignment.id, c.assignment.role)
    requires HeldByAnother(s, c) <==>
             && c.Guard() in s.guards && s.guards[c.Guard()].value.activeId.Some?
             && s.guards[c.Guard()].value.activeId.value != c.assignment.id
    requires !pc.GrantDone? && GrantStep(s, c, pc, rejection).1.GrantDone?
    requires GrantStep(s, c, pc, rejection).1 != GrantDone(GrantCorrupt)
    ensures var result := GrantStep(s, c, pc, rejection).1.result;
            && (result == GrantRefused(ActiveTuple) <==> Blocked(s, c, pc, rejection))
            && (result != GrantRefused(ActiveTuple) ==> Converged(pc, result))
  {
    hide HeldByAnother, IsAssignmentOf, IsTupleOf;
  }

  /** Until its twin is stored nothing else takes a command's id. */
  lemma TwinSoFar(s: Store, t: Store, c: GrantCommand)
    requires StoreInv(s) && StoreInv(t) && Evolves(s, t) && TwinStored(t, c)
    ensures KeyOfPointer(c.Row()) in s.pointers ==> s.pointers[KeyOfPointer(c.Row())] == c.Row()
    ensures c.Key() in s.assignments ==> TwinStored(s, c)
    ensures c.Key() in s.assignments ==>
              IsAssignmentOf(s.assignments[c.Key()].value, c.Place(), c.assignment.id, c.assignment.role)
  {
    hide *;
    StoredIsClaimed(t, c);
    TwinWasSame(s, t, c);
    if c.Key() in s.assignments {
      StoredIsClaimed(s, c);
    }
  }

  lemma TwinWasSame(s: Store, t: Store, c: GrantCommand)
    requires Evolves(s, t) && TwinStored(t, c) && t.PointerAt(KeyOfPointer(c.Row())) == Some(c.Row())
    ensures KeyOfPointer(c.Row()) in s.pointers ==> s.pointers[KeyOfPointer(c.Row())] == c.Row()
    ensures c.Key() in s.assignments ==> TwinStored(s, c)
  {
    hide HasRow;
    if c.Key() in s.assignments {
      assert Evidence(t.assignments[c.Key()].value) == Evidence(s.assignments[c.Key()].value);
      assert Evidence(s.assignments[c.Key()].value).grantEventId == s.assignments[c.Key()].value.grantEventId;
      assert Evidence(s.assignments[c.Key()].value).assignment.role == s.assignments[c.Key()].value.assignment.role;
    }
  }

  /** Where the twin is stored already, being blocked is a matter of the guard read and of the backend's wording alone. */
  lemma BlockedByTwin(s: Store, c: GrantCommand, pc: GrantPc, rejection: Rejection)
    requires TwinStored(s, c)
    ensures Blocked(s, c, pc, rejection) <==>
            (pc.GrantReadGuard? && HeldByAnother(s, c)) || (pc.GrantCommit? && rejection != Exists)
  {
  }

  /** A stored twin and another holder at once: then the twin has been revoked. */
  lemma AnotherAfterTwin(s: Store, c: GrantCommand)
    requires StoreInv(s) && TwinStored(s, c) && HeldByAnother(s, c)
    ensures s.assignments[c.Key()].value.assignment.lifecycle.Revoked?
  {
    hide AssignmentOk, IndexesOk, AuditsOf, GuardOk;
    var id :| id != c.assignment.id && Holds(s, c.Place(), c.assignment.role, id);
    assert Names(s, c.Place(), c.assignment.role, id);
    assert Holds(s, c.Place(), c.assignment.role, c.assignment.id) ==> Names(s, c.Place(), c.assignment.role, c.assignment.id);
  }

  // ---------------------------------------------------------------- every run

  /** At instant `m` call `p` has the grant `c` at `pc`, and the action taken then answers it with `result`. */
  predicate AnswersAt(r: Run, m: nat, p: nat, c: GrantCommand, pc: GrantPc, result: GrantResult) {
    && m + 1 < |r.states| && m < |r.actions| && r.actions[m].Advance? && r.actions[m].p == p
    && p in r.states[m].calls && GrantIn(r.states[m].calls[p]) == Some((c, pc)) && !pc.GrantDone?
    && p in r.states[m + 1].calls && GrantIn(r.states[m + 1].calls[p]) == Some((c, GrantDone(result)))
  }

  /** A grant that is under way takes the step of its command. */
  lemma GrantInSteps(w: World, p: nat, choice: Choice, c: GrantCommand, pc: GrantPc)
    requires p in w.calls && GrantIn(w.calls[p]) == Some((c, pc)) && !pc.GrantDone?
    ensures var w' := Step(w, Advance(p, choice));
            && p in w'.calls
            && Some((c, GrantStep(w.store, c, pc, choice.rejection).1)) == GrantIn(w'.calls[p])
            && w'.store == GrantStep(w.store, c, pc, choice.rejection).0
  {
    OwnStep(w, p, choice);
    GrantInCallSteps(w.policy, w.store, w.calls[p], choice, c, pc);
    hide *;
  }

  lemma GrantInCallSteps(policy: Policy, s: Store, call: Call, choice: Choice, c: GrantCommand, pc: GrantPc)
    requires GrantIn(call) == Some((c, pc)) && !pc.GrantDone?
    ensures var (t, call') := CallStep(policy, s, call, choice);
            GrantIn(call') == Some((c, GrantStep(s, c, pc, choice.rejection).1)) && t == GrantStep(s, c, pc, choice.rejection).0
  {
    hide GrantStep;
  }

  lemma GrantInOk(r: Run, m: nat, p: nat, c: GrantCommand, pc: GrantPc)
    requires IsRun(r) && m < |r.states| && p in r.states[m].calls && GrantIn(r.states[m].calls[p]) == Some((c, pc))
    ensures StoreInv(r.states[m].store) && GrantOk(r.states[m].store, c, pc)
  {
    RunSafe(r, m);
    hide IsRun;
    CallIsOk(r.states[m], p);
    GrantInCallOk(r.states[m].policy, r.states[m].store, r.states[m].calls[p], c, pc);
    hide *;
  }

  lemma GrantInCallOk(policy: Policy, s: Store, call: Call, c: GrantCommand, pc: GrantPc)
    requires CallOk(policy, s, call) && GrantIn(call) == Some((c, pc))
    ensures GrantOk(s, c, pc)
  {
    hide GrantOk;
  }

  /**
   * A grant, by whatever call, of an assignment that is stored under the same event id when the run ends: if the grant
   * answers at all, it answers `active_tuple` if and only if it is blocked at that instant, and otherwise reports the
   * stored assignment.
   */
  lemma TwinGrantAnswers(r: Run, m: nat, p: nat, c: GrantCommand, pc: GrantPc, result: GrantResult, j: nat)
    requires IsRun(r) && AnswersAt(r, m, p, c, pc, result) && m <= j < |r.states| && TwinStored(r.states[j].store, c)
    ensures result == GrantRefused(ActiveTuple) <==> Blocked(r.states[m].store, c, pc, r.actions[m].choice.rejection)
    ensures result != GrantRefused(ActiveTuple) ==> Converged(pc, result)
  {
    AnswerStep(r, m, p, c, pc, result);
    hide *;
    RunEvolves(r, m, j);
    GrantInOk(r, m, p, c, pc);
    StoreSafe(r, j);
    TwinStep(r.states[m].store, r.states[j].store, c, pc, r.actions[m].choice.rejection);
  }

  lemma AnswerStep(r: Run, m: nat, p: nat, c: GrantCommand, pc: GrantPc, result: GrantResult)
    requires IsRun(r) && AnswersAt(r, m, p, c, pc, result)
    ensures m < |r.actions| && m + 1 < |r.states| && r.actions[m].Advance? && r.actions[m].p == p
    ensures p in r.states[m].calls && GrantIn(r.states[m].calls[p]) == Some((c, pc)) && !pc.GrantDone?
    ensures GrantStep(r.states[m].store, c, pc, r.actions[m].choice.rejection).1 == GrantDone(result)
  {
    RunSteps(r, m + 1);
    hide IsRun, Step, GrantIn;
    GrantInSteps(r.states[m], p, r.actions[m].choice, c, pc);
    hide GrantStep;
  }

  /** Every answered grant was answered at some instant. */
  lemma {:induction false} AnswerInstant(r: Run, j: nat, p: nat, c: GrantCommand, result: GrantResult) returns (m: nat, pc: GrantPc)
    requires IsRun(r) && j < |r.states| && p in r.states[j].calls
    requires GrantIn(r.states[j].calls[p]) == Some((c, GrantDone(result))) && result != GrantInvalid
    ensures m < j && AnswersAt(r, m, p, c, pc, result)
  {
    hide *;
    NoCallsYet(r);
    RunSteps(r, j);
    AnswerBefore(r.states[j - 1], r.actions[j - 1], p, c, result);
    if GrantIn(r.states[j - 1].calls[p]) == Some((c, GrantDone(result))) {
      m, pc := AnswerInstant(r, j - 1, p, c, result);
    } else {
      m, pc := j - 1, GrantIn(r.states[j - 1].calls[p]).value.1;
      IsAnswer(r, m, p, c, pc, result);
    }
  }

  lemma IsAnswer(r: Run, m: nat, p: nat, c: GrantCommand, pc: GrantPc, result: GrantResult)
    requires m + 1 < |r.states| && m < |r.actions| && r.actions[m].Advance? && r.actions[m].p == p
    requires p in r.states[m].calls && GrantIn(r.states[m].calls[p]) == Some((c, pc)) && !pc.GrantDone?
    requires p in r.states[m + 1].calls && GrantIn(r.states[m + 1].calls[p]) == Some((c, GrantDone(result)))
    ensures AnswersAt(r, m, p, c, pc, result)
  {
    hide GrantIn;
  }

  /** An answered grant was answered before this step, or is answered by it. */
  lemma AnswerBefore(w: World, a: Action, p: nat, c: GrantCommand, result: GrantResult)
    requires p in Step(w, a).calls && GrantIn(Step(w, a).calls[p]) == Some((c, GrantDone(result))) && result != GrantInvalid
    ensures p in w.calls && GrantIn(w.calls[p]).Some? && GrantIn(w.calls[p]).value.0 == c
    ensures var pc := GrantIn(w.calls[p]).value.1;
            if pc.GrantDone? then pc.result == result else a.Advance? && a.p == p
  {
    if a.Advance? && Runnable(w, a.p) && a.p == p {
      OwnStep(w, p, a.choice);
      hide Step;
      AnswerBeforeStep(w.policy, w.store, w.calls[p], a.choice, c, result);
    } else {
      hide CallStep;
    }
  }

  lemma AnswerBeforeStep(policy: Policy, s: Store, call: Call, choice: Choice, c: GrantCommand, result: GrantResult)
    requires GrantIn(CallStep(policy, s, call, choice).1) == Some((c, GrantDone(result))) && result != GrantInvalid
    ensures GrantIn(call).Some? && GrantIn(call).value.0 == c
    ensures GrantIn(call).value.1.GrantDone? ==> GrantIn(call).value.1.result == result
  {
    DoneStays(s, c, result, choice.rejection);
    if GrantIn(call).Some? && GrantIn(call).value.1.GrantDone? {
      DoneStays(s, GrantIn(call).value.0, GrantIn(call).value.1.result, choice.rejection);
    }
    hide GrantStep, RevokeStep, ListStep, ByRoleStep, ScanStep, AssignmentManagedBy;
  }

  lemma DoneStays(s: Store, c: GrantCommand, result: GrantResult, rejection: Rejection)
    ensures GrantStep(s, c, GrantDone(result), rejection) == (s, GrantDone(result))
  {
  }

  /**
   * A grant that has been answered while its twin was stored. It converges unless its guard read found another holder
   * (and then the twin had been revoked) or its transaction was refused for a reason other than `exists`.
   */
  lemma TwinGrantConverges(r: Run, j: nat, p: nat, c: GrantCommand, result: GrantResult) returns (m: nat, pc: GrantPc)
    requires IsRun(r) && j < |r.states| && p in r.states[j].calls
    requires GrantIn(r.states[j].calls[p]) == Some((c, GrantDone(result))) && result != GrantInvalid
    ensures m < j && m < |r.actions| && r.actions[m].Advance? && AnswersAt(r, m, p, c, pc, result)
    ensures TwinStored(r.states[m].store, c) ==>
              && (result == GrantRefused(ActiveTuple) <==>
                    || (pc.GrantReadGuard? && HeldByAnother(r.states[m].store, c))
                    || (pc.GrantCommit? && r.actions[m].choice.rejection != Exists))
              && (result != GrantRefused(ActiveTuple) ==> Converged(pc, result))
  {
    hide *;
    m, pc := AnswerInstant(r, j, p, c, result);
    AnswerStep(r, m, p, c, pc, result);
    if TwinStored(r.states[m].store, c) {
      TwinGrantAnswers(r, m, p, c, pc, result, m);
      BlockedByTwin(r.states[m].store, c, pc, r.actions[m].choice.rejection);
    }
  }

  // ---------------------------------------------------------------- seedings

  predicate IsSeeding(w: World, p: nat, c: GrantCommand) {
    p in w.calls && w.calls[p].Seeding? && w.calls[p].seed == c
  }

  /** A seeding's own step, and any other step. */
  lemma SeedingAdvances(w: World, a: Action, p: nat, c: GrantCommand)
    requires IsSeeding(w, p, c)
    ensures IsSeeding(Step(w, a), p, c)
    ensures if a.Advance? && a.p == p
            then (Step(w, a).store, Step(w, a).calls[p].seedPc) ==
                 SeedStep(w.store, c, w.calls[p].seedPc, a.choice.row, a.choice.rejection)
            else Step(w, a).calls[p] == w.calls[p]
  {
    if a.Advance? && a.p == p {
      OwnStep(w, p, a.choice);
      hide Step, SeedStep;
    } else {
      OthersStay(w, a, p);
      hide Step;
    }
  }

  /** The seeding has not begun to grant, and will not. */
  predicate KeepsOff(w: World, p: nat, c: GrantCommand, id: RowId) {
    IsSeeding(w, p, c) && WillSee(w.calls[p].seedPc, id)
  }

  lemma SeedingBegins(w: World, p: nat, c: GrantCommand, id: RowId)
    requires p !in w.calls
    ensures KeepsOff(Step(w, Begin(p, StartSeeding(c))), p, c, id)
  {
    hide CallStep;
  }

  lemma SeedingKeepsOff(w: World, a: Action, p: nat, c: GrantCommand, k: AssignmentKey)
    requires WorldInv(w) && KeepsOff(w, p, c, AssignmentId(k.id))
    requires k in w.store.assignments && k.location == c.Place() && w.store.assignments[k].value.assignment.role == c.assignment.role
    ensures KeepsOff(Step(w, a), p, c, AssignmentId(k.id))
    ensures a.Advance? && a.p == p ==> Step(w, a).store == w.store
  {
    SeedingIsOk(w, p, c);
    hide WorldInv, Step, StoreInv, SeedOk, SeedStep, WillSee;
    SeedingAdvances(w, a, p, c);
    if a.Advance? && a.p == p {
      SeedSees(w.store, c, w.calls[p].seedPc, a.choice.row, a.choice.rejection, k);
    }
  }

  lemma SeedingIsOk(w: World, p: nat, c: GrantCommand)
    requires WorldInv(w) && IsSeeding(w, p, c)
    ensures StoreInv(w.store) && SeedOk(w.store, c, w.calls[p].seedPc)
  {
    CallIsOk(w, p);
    hide WorldInv, StoreInv, SeedOk;
  }

  lemma RoleKept(s: Store, t: Store, k: AssignmentKey)
    requires Evolves(s, t) && k in s.assignments
    ensures k in t.assignments && t.assignments[k].value.assignment.role == s.assignments[k].value.assignment.role
  {
    hide HasRow;
    assert Evidence(t.assignments[k].value) == Evidence(s.assignments[k].value);
    assert Evidence(s.assignments[k].value).assignment.role == s.assignments[k].value.assignment.role;
  }

  lemma {:induction false} SeedingTracked(r: Run, i: nat, j: nat, p: nat, c: GrantCommand, k: AssignmentKey)
    requires IsRun(r) && i < j < |r.states| && p !in r.states[i].calls && r.actions[i] == Begin(p, StartSeeding(c))
    requires k in r.states[i].store.assignments && k.location == c.Place()
    requires r.states[i].store.assignments[k].value.assignment.role == c.assignment.role
    ensures KeepsOff(r.states[j], p, c, AssignmentId(k.id))
    decreases j
  {
    hide *;
    RunSteps(r, j);
    if i + 1 < j {
      SeedingTracked(r, i, j - 1, p, c, k);
      RunSafe(r, j - 1);
      RunEvolves(r, i, j - 1);
      RoleKept(r.states[i].store, r.states[j - 1].store, k);
      SeedingKeepsOff(r.states[j - 1], r.actions[j - 1], p, c, k);
    } else {
      SeedingBegins(r.states[i], p, c, AssignmentId(k.id));
    }
  }

  /**
   * A seeding begun where the role was ever assigned to the principal, be it revoked by now, never grants: it ends with
   * `already`, or asks for a retry of its history read.
   */
  lemma SeedingNeverRestores(r: Run, i: nat, j: nat, p: nat, c: GrantCommand)
    requires IsRun(r) && i < j < |r.states| && p !in r.states[i].calls && r.actions[i] == Begin(p, StartSeeding(c))
    requires EverAssigned(r.states[i].store, c.Place(), c.assignment.role)
    ensures p in r.states[j].calls && r.states[j].calls[p].Seeding? && !r.states[j].calls[p].seedPc.SeedGranting?
    ensures var pc := r.states[j].calls[p].seedPc; pc.SeedDone? ==> pc.result == AlreadySeeded || pc.result == SeedRetry
  {
    var s := r.states[i].store;
    var k :| k in s.assignments && k.location == c.Place() && s.assignments[k].value.assignment.role == c.assignment.role;
    hide IsRun;
    SeedingTracked(r, i, j, p, c, k);
  }

  lemma SeedStepAnswers(s: Store, c: GrantCommand, pc: SeedPc, row: Option<RowId>, rejection: Rejection)
    ensures SeedStep(s, c, pc, row, rejection).1.SeedDone? ==>
              var answer := SeedStep(s, c, pc, row, rejection).1.result;
              || (pc.SeedDone? && pc.result == answer)
              || (pc.SeedHistory? && (answer == AlreadySeeded || answer == SeedRetry || answer == SeedCorrupt))
              || (pc.SeedGranting? && pc.grant.GrantDone? && answer == SeedAnswer(pc.grant.result))
  {
    hide ListStep, GrantStep, ShowsRole;
  }

  predicate SeedingDone(w: World, p: nat, c: GrantCommand, answer: SeedResult) {
    p in w.calls && w.calls[p] == Seeding(c, SeedDone(answer))
  }

  predicate SeedingAnswered(w: World, p: nat, c: GrantCommand, result: GrantResult) {
    p in w.calls && w.calls[p] == Seeding(c, SeedGranting(GrantDone(result)))
  }

  /** Where a seeding's answer comes from: the history it read, or the answer of its grant. */
  lemma {:induction false} SeedingAnswer(r: Run, j: nat, p: nat, c: GrantCommand, answer: SeedResult)
    returns (n: nat, result: Option<GrantResult>)
    requires IsRun(r) && j < |r.states| && SeedingDone(r.states[j], p, c, answer)
    ensures result.None? ==> answer == AlreadySeeded || answer == SeedRetry || answer == SeedCorrupt
    ensures result.Some? ==> n < j && SeedingAnswered(r.states[n], p, c, result.value) && SeedAnswer(result.value) == answer
  {
    hide *;
    NotYetDone(r, p, c, answer);
    RunSteps(r, j);
    SeedingDoneBefore(r.states[j - 1], r.actions[j - 1], p, c, answer);
    if SeedingDone(r.states[j - 1], p, c, answer) {
      n, result := SeedingAnswer(r, j - 1, p, c, answer);
    } else if answer == AlreadySeeded && SeedingReads(r.states[j - 1], p, c) {
      n, result := 0, None;
    } else if answer == SeedRetry || answer == SeedCorrupt {
      n, result := 0, None;
    } else {
      n, result := j - 1, Some(SeedingResult(r.states[j - 1], p));
    }
  }

  predicate SeedingReads(w: World, p: nat, c: GrantCommand) {
    p in w.calls && w.calls[p].Seeding? && w.calls[p].seed == c && w.calls[p].seedPc.SeedHistory?
  }

  function SeedingResult(w: World, p: nat): GrantResult
    requires p in w.calls
  {
    match w.calls[p]
    case Seeding(_, SeedGranting(GrantDone(result))) => result
    case _ => GrantCorrupt
  }

  lemma NotYetDone(r: Run, p: nat, c: GrantCommand, answer: SeedResult)
    requires IsRun(r)
    ensures !SeedingDone(r.states[0], p, c, answer)
  {
    NoCallsYet(r);
    hide IsRun;
  }

  lemma SeedingDoneBefore(w: World, a: Action, p: nat, c: GrantCommand, answer: SeedResult)
    requires SeedingDone(Step(w, a), p, c, answer)
    ensures p in w.calls
    ensures || SeedingDone(w, p, c, answer)
            || (SeedingReads(w, p, c) && (answer == AlreadySeeded || answer == SeedRetry || answer == SeedCorrupt))
            || (SeedingAnswered(w, p, c, SeedingResult(w, p)) && SeedAnswer(SeedingResult(w, p)) == answer)
  {
    if p in w.calls && w.calls[p].Seeding? {
      SeedingAdvances(w, a, p, w.calls[p].seed);
      if a.Advance? && a.p == p {
        SeedStepAnswers(w.store, w.calls[p].seed, w.calls[p].seedPc, a.choice.row, a.choice.rejection);
      }
      hide Step, SeedStep;
    } else {
      NoNewSeedingDone(w, a, p, c, answer);
    }
  }

  lemma NoNewSeedingDone(w: World, a: Action, p: nat, c: GrantCommand, answer: SeedResult)
    requires !(p in w.calls && w.calls[p].Seeding?)
    ensures !SeedingDone(Step(w, a), p, c, answer)
  {
    hide GrantStep, RevokeStep, ListStep, ByRoleStep, ScanStep, SeedStep, AdminStep;
  }

  /** A seeding that was answered `granted` left its assignment stored. */
  lemma SeededIsStored(r: Run, j: nat, p: nat, c: GrantCommand)
    requires IsRun(r) && j < |r.states| && SeedingDone(r.states[j], p, c, Seeded)
    ensures TwinStored(r.states[j].store, c)
  {
    var n, result := SeedingAnswer(r, j, p, c, Seeded);
    hide IsRun, Step;
    GrantInOk(r, n, p, c, GrantDone(result.value));
    hide StoreInv;
    RunEvolves(r, n, j);
    TwinReported(r.states[n].store, c, result.value);
    TwinStays(r.states[n].store, r.states[j].store, c);
  }

  lemma TwinReported(s: Store, c: GrantCommand, result: GrantResult)
    requires GrantOk(s, c, GrantDone(result)) && result.Granted?
    ensures TwinStored(s, c)
  {
    assert Evidence(s.assignments[c.Key()].value) == c.Record();
    assert Evidence(s.assignments[c.Key()].value).assignment.role == s.assignments[c.Key()].value.assignment.role;
    assert Evidence(s.assignments[c.Key()].value).grantEventId == s.assignments[c.Key()].value.grantEventId;
  }

  lemma SeedingDoneGrants(w: World, p: nat, c: GrantCommand)
    requires SeedingDone(w, p, c, Seeded)
    ensures p in w.calls && GrantedBy(w.calls[p]) == Some(c)
  {
  }

  lemma SeedingAnsweredGrant(r: Run, n: nat, q: nat, d: GrantCommand, result: GrantResult)
    requires IsRun(r) && n < |r.states| && SeedingAnswered(r.states[n], q, d, result) && d.WellFormed()
    ensures q in r.states[n].calls && GrantIn(r.states[n].calls[q]) == Some((d, GrantDone(result))) && result != GrantInvalid
  {
    hide IsRun;
    GrantInOk(r, n, q, d, GrantDone(result));
    hide StoreInv;
  }

  lemma SeedingNotCorrupt(r: Run, j: nat, q: nat, d: GrantCommand, answer: SeedResult)
    requires IsRun(r) && j < |r.states| && SeedingDone(r.states[j], q, d, answer)
    ensures answer != SeedCorrupt
  {
    hide IsRun;
    NeverCorrupted(r, j, q);
  }

  lemma TwinsShareKeys(s: Store, c: GrantCommand, d: GrantCommand)
    requires TwinStored(s, c) && AreTwins(c, d)
    ensures TwinStored(s, d) && c.applicationId == d.applicationId && c.assignment.id == d.assignment.id
  {
    assert c.Key().location == c.Place() && d.Key().location == d.Place();
  }

  /** Two commands for one assignment under one event id; who grants it and when may differ. */
  predicate AreTwins(c: GrantCommand, d: GrantCommand) {
    c.Key() == d.Key() && c.assignment.role == d.assignment.role && c.auditEventId == d.auditEventId
  }

  lemma SeedAnswerOfTwin(pc: GrantPc, result: GrantResult)
    requires Converged(pc, result) || result == GrantRefused(ActiveTuple)
    ensures SeedAnswer(result) == Seeded || SeedAnswer(result) == AlreadySeeded || SeedAnswer(result) == SeedConflict
    ensures SeedAnswer(result) == SeedConflict <==> result == GrantRefused(ActiveTuple)
  {
  }

  /**
   * Seedings of one manifest, however they interleave with each other and with everything else. Once one of them has
   * been answered `granted`, no other is; and another whose grant was answered is answered `conflict` if and only if
   * its guard read found another holder, its transaction was refused for a reason other than `exists`, or it was
   * refused as existing and yet not found. All others are answered `already`, or asked to retry the history read.
   */
  lemma DuplicateSeedings(r: Run, j: nat, p: nat, q: nat, c: GrantCommand, d: GrantCommand, answer: SeedResult)
    returns (m: nat, pc: Option<GrantPc>)
    requires IsRun(r) && j < |r.states| && p != q && AreTwins(c, d) && d.WellFormed()
    requires SeedingDone(r.states[j], p, c, Seeded) && SeedingDone(r.states[j], q, d, answer)
    ensures answer != Seeded
    ensures pc.None? ==> answer == AlreadySeeded || answer == SeedRetry
    ensures pc.Some? ==>
              && m < j && m < |r.actions| && r.actions[m].Advance? && r.actions[m].p == q
              && q in r.states[m].calls && GrantIn(r.states[m].calls[q]) == Some((d, pc.value))
              && (answer == SeedConflict <==> Blocked(r.states[m].store, d, pc.value, r.actions[m].choice.rejection))
              && (answer != SeedConflict ==> answer == AlreadySeeded)
  {
    hide *;
    SeededIsStored(r, j, p, c);
    TwinsShareKeys(r.states[j].store, c, d);
    SeedingDoneGrants(r.states[j], p, c);
    if answer == Seeded {
      SeedingDoneGrants(r.states[j], q, d);
      GrantedOnce(r, j, p, q);
    }
    SeedingNotCorrupt(r, j, q, d, answer);
    var n, result := SeedingAnswer(r, j, q, d, answer);
    if result.None? {
      m, pc := 0, None;
    } else {
      SeedingAnsweredGrant(r, n, q, d, result.value);
      var at;
      m, at := AnswerInstant(r, n, q, d, result.value);
      pc := Some(at);
      AnswerStep(r, m, q, d, at, result.value);
      TwinGrantAnswers(r, m, q, d, at, result.value, j);
      SeedAnswerOfTwin(at, result.value);
    }
  }

  /** Where the seeded assignment is stored when the other one is answered, that comes to the two reasons of a grant. */
  lemma DuplicateSeedingConflicts(s: Store, d: GrantCommand, pc: GrantPc, rejection: Rejection)
    requires StoreInv(s) && TwinStored(s, d)
    ensures Blocked(s, d, pc, rejection) <==>
            || (pc.GrantReadGuard? && HeldByAnother(s, d))
            || (pc.GrantCommit? && rejection != Exists)
    ensures HeldByAnother(s, d) ==> s.assignments[d.Key()].value.assignment.lifecycle.Revoked?
  {
    hide *;
    BlockedByTwin(s, d, pc, rejection);
    if HeldByAnother(s, d) {
      AnotherAfterTwin(s, d);
    }
  }
}
