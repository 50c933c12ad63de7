/**
 * The promise chain of a service instance, and what it adds when one instance performs every
 * administrator revocation: the number of administrators never drops from positive to zero.
 */
module SingleService {
  import opened Prelude
  import opened RoleRecords
  import opened RoleStore
  import opened RoleStoreSafety
  import opened RoleReads
  import opened RoleSeeding
  import opened Administration
  import opened RoleWorld
  import opened RoleTheorems
  import opened LastAdministrator

  // ---------------------------------------------------------------- one revocation at a time

  predicate IsAdmin(w: World, p: nat) {
    p in w.calls && w.calls[p].Administering?
  }

  predicate Begun(w: World, p: nat) {
    IsAdmin(w, p) && !w.calls[p].adminPc.Queued?
  }

  predicate Ended(w: World, p: nat) {
    IsAdmin(w, p) && w.calls[p].adminPc.AdminDone?
  }

  /** The `k`th call on an instance's chain waits for the one before it. */
  predicate Linked(w: World, service: nat, chain: seq<nat>, k: nat)
    requires k < |chain|
  {
    && IsAdmin(w, chain[k]) && w.calls[chain[k]].service == service
    && w.calls[chain[k]].previous == (if k == 0 then None else Some(chain[k - 1]))
  }

  /** A call that has begun finds all earlier ones ended. */
  ghost predicate InOrder(w: World, chain: seq<nat>) {
    forall k, l | 0 <= k < l < |chain| && Begun(w, chain[l]) :: Ended(w, chain[k])
  }

  /** The calls of one instance are the ones on its chain, linked and run in order. */
  ghost predicate ChainOk(w: World, service: nat) {
    var chain := ChainOf(w, service);
    && (forall k | 0 <= k < |chain| :: Linked(w, service, chain, k))
    && (forall k, l | 0 <= k < l < |chain| :: chain[k] != chain[l])
    && InOrder(w, chain)
    && (forall p | IsAdmin(w, p) && w.calls[p].service == service :: p in chain)
  }

  predicate SameAdmin(w: World, w': World, p: nat) {
    && (IsAdmin(w', p) <==> IsAdmin(w, p))
    && (IsAdmin(w, p) ==> w'.calls[p].service == w.calls[p].service && w'.calls[p].previous == w.calls[p].previous)
    && (Ended(w, p) ==> Ended(w', p))
  }

  /** A step that only starts calls whose predecessor has settled keeps the chain's order. */
  lemma ChainFrame(w: World, w': World, service: nat)
    requires ChainOk(w, service) && ChainOf(w', service) == ChainOf(w, service)
    requires forall p :: SameAdmin(w, w', p)
    requires forall p | Begun(w', p) && !Begun(w, p) :: IsAdmin(w, p) && MayStart(w, w.calls[p])
    ensures ChainOk(w', service)
  {
    hide MayStart, ChainOf;
    var chain := ChainOf(w, service);
    forall k | 0 <= k < |chain| ensures Linked(w', service, chain, k) {
      assert Linked(w, service, chain, k) && SameAdmin(w, w', chain[k]);
    }
    forall k, l | 0 <= k < l < |chain| && Begun(w', chain[l]) ensures Ended(w', chain[k]) {
      assert SameAdmin(w, w', chain[k]);
      if !Begun(w, chain[l]) {
        assert Linked(w, service, chain, l) && Linked(w, service, chain, l - 1);
        PredecessorEnded(w, chain[l], chain[l - 1]);
        assert k < l - 1 ==> Ended(w, chain[k]);
      }
    }
    forall p | IsAdmin(w', p) && w'.calls[p].service == service ensures p in chain {
      assert SameAdmin(w, w', p);
    }
  }

  lemma PredecessorEnded(w: World, p: nat, q: nat)
    requires IsAdmin(w, p) && MayStart(w, w.calls[p]) && w.calls[p].previous == Some(q) && IsAdmin(w, q)
    ensures Ended(w, q) && Begun(w, q)
  {
  }

  /** A new revocation goes to the end of its chain and waits for the one that was last. */
  lemma ChainGrows(w: World, p: nat, start: Start, service: nat)
    requires ChainOk(w, service) && p !in w.calls
    ensures ChainOk(Step(w, Begin(p, start)), service)
  {
    hide Step, ChainOf, Settled;
    var w' := Step(w, Begin(p, start));
    var chain, chain' := ChainOf(w, service), ChainOf(w', service);
    ChainAfter(w, p, start, service);
    BeginKeepsOthers(w, p, start);
    NewcomerLinked(w, p, start, service);
    forall k | 0 <= k < |chain'| ensures Linked(w', service, chain', k) {
      if k < |chain| {
        assert Linked(w, service, chain, k) && SameAdmin(w, w', chain[k]);
      }
    }
    forall k, l | 0 <= k < l < |chain'| ensures chain'[k] != chain'[l] {
      assert Linked(w, service, chain, k);
    }
    forall k, l | 0 <= k < l < |chain'| && Begun(w', chain'[l]) ensures Ended(w', chain'[k]) {
      assert chain'[l] != p && l < |chain|;
      assert SameAdmin(w, w', chain[k]);
    }
    forall q | IsAdmin(w', q) && w'.calls[q].service == service ensures q in chain' {
      if q != p {
        assert SameAdmin(w, w', q) && q in chain;
      } else {
        assert chain'[|chain|] == p;
      }
    }
  }

  lemma ChainAfter(w: World, p: nat, start: Start, service: nat)
    requires p !in w.calls
    ensures ChainOf(Step(w, Begin(p, start)), service) ==
            if start.StartRevokeRole? && start.service == service then ChainOf(w, service) + [p] else ChainOf(w, service)
  {
    hide CallStep;
  }

  lemma BeginKeepsOthers(w: World, p: nat, start: Start)
    requires p !in w.calls
    ensures var w' := Step(w, Begin(p, start));
            && (forall q | q != p :: SameAdmin(w, w', q) && (Begun(w', q) ==> Begun(w, q)))
            && !Begun(w', p)
  {
  }

  lemma NewcomerLinked(w: World, p: nat, start: Start, service: nat)
    requires p !in w.calls
    ensures var w' := Step(w, Begin(p, start));
            var chain := ChainOf(w, service);
            if start.StartRevokeRole? && start.service == service then Linked(w', service, chain + [p], |chain|)
            else IsAdmin(w', p) ==> w'.calls[p].service != service
  {
  }

  lemma ChainStep(w: World, a: Action, service: nat)
    requires ChainOk(w, service)
    ensures ChainOk(Step(w, a), service)
  {
    if a.Begin? && a.p !in w.calls {
      ChainGrows(w, a.p, a.start, service);
    } else {
      hide ChainOk;
      AdvanceKeepsAdmins(w, a);
      ChainFrame(w, Step(w, a), service);
    }
  }

  lemma AdvanceKeepsAdmins(w: World, a: Action)
    requires a.Begin? ==> a.p in w.calls
    ensures var w' := Step(w, a);
            && w'.chains == w.chains && (forall p :: SameAdmin(w, w', p))
            && (forall p | Begun(w', p) && !Begun(w, p) :: IsAdmin(w, p) && MayStart(w, w.calls[p]))
  {
    if a.Advance? && Runnable(w, a.p) {
      AdminStays(w, a.p, a.choice);
      hide Step, CallStep;
    } else {
      hide CallStep;
    }
  }

  lemma AdminStays(w: World, p: nat, choice: Choice)
    requires Runnable(w, p)
    ensures var w' := Step(w, Advance(p, choice));
            && w'.chains == w.chains && w'.calls == w.calls[p := w'.calls[p]]
            && SameAdmin(w, w', p) && (Begun(w', p) ==> Begun(w, p))
  {
  }

  lemma {:induction false} ChainHolds(r: Run, i: nat, service: nat)
    requires IsRun(r) && i < |r.states|
    ensures ChainOk(r.states[i], service)
  {
    if i > 0 {
      ChainHolds(r, i - 1, service);
      ChainStep(r.states[i - 1], r.actions[i - 1], service);
      RunSteps(r, i);
    }
    hide Step;
  }

  /** An instance runs its revocations one at a time, in the order they were asked for, whatever became of earlier ones. */
  lemma OneRevokeAtATime(r: Run, i: nat, p: nat, q: nat)
    requires IsRun(r) && i < |r.states| && RevokeRunning(r.states[i], p) && RevokeRunning(r.states[i], q)
    requires r.states[i].calls[p].service == r.states[i].calls[q].service
    ensures p == q
  {
    var w := r.states[i];
    ChainHolds(r, i, w.calls[p].service);
    hide IsRun, Step;
    var chain := ChainOf(w, w.calls[p].service);
    var k :| 0 <= k < |chain| && chain[k] == p;
    var l :| 0 <= l < |chain| && chain[l] == q;
    RunningIsFirst(w, w.calls[p].service, k, l);
    RunningIsFirst(w, w.calls[p].service, l, k);
  }

  /** A running revocation has none begun behind it. */
  lemma RunningIsFirst(w: World, service: nat, k: nat, l: nat)
    requires ChainOk(w, service) && k < |ChainOf(w, service)| && l < |ChainOf(w, service)|
    requires RevokeRunning(w, ChainOf(w, service)[k]) && Begun(w, ChainOf(w, service)[l])
    ensures l <= k
  {
  }

  // ---------------------------------------------------------------- one instance revokes all administrators

  /** The call is not at the point of revoking an administrator. */
  predicate SparesAdministrators(policy: Policy, call: Call) {
    && (call.Revoking? && call.revokePc.RevokeCommit? ==>
          call.revokePc.existing.value.assignment.role != policy.administratorRole)
    && (call.Administering? && call.adminPc.RevokingRole? && call.adminPc.revoke.RevokeCommit? ==>
          call.adminPc.current.value.assignment.role != policy.administratorRole)
  }

  predicate OfInstance(w: World, p: nat, service: nat) {
    IsAdmin(w, p) && w.calls[p].service == service
  }

  /** Only calls of instance `service` revoke administrators, and principals have nonempty ids. */
  predicate SoloAction(w: World, a: Action, service: nat) {
    && (a.Advance? && a.p in w.calls && !OfInstance(w, a.p, service) ==> SparesAdministrators(w.policy, w.calls[a.p]))
    && (a.Begin? && a.start.StartGrant? ==> a.start.grant.assignment.principalId != [])
    && (a.Begin? && a.start.StartSeeding? ==> a.start.seed.assignment.principalId != [])
  }

  ghost predicate IsSoloRun(r: Run, service: nat) {
    && IsRun(r) && NamedHolders(r.states[0].store)
    && forall i | 0 <= i < |r.actions| :: SoloAction(r.states[i], r.actions[i], service)
  }

  /** The holder a revocation relies on: active, indexed, and of another principal than the one being revoked. */
  predicate ReliesOn(s: Store, q: ByRoleQuery, current: Versioned<StoredAssignment>, relied: Option<Text>) {
    && relied.Some? && IsHolder(s, q, relied.value) && q.Key(relied.value) in s.holders
    && PrincipalOf(s, q, relied.value) != current.value.assignment.principalId
  }

  /** What the instance's running revocation rests on, from its pre-check to its re-verification. */
  ghost predicate Relies(s: Store, policy: Policy, c: RevokeRoleCommand, pc: AdminPc) {
    match pc
    case PreScan(current, scan) => scan.ScanDone? && scan.found.Some? ==> ReliesOn(s, QueryOf(c, current), current, scan.found)
    case RevokingRole(current, relied, _, _) =>
      current.value.assignment.role == policy.administratorRole ==> ReliesOn(s, QueryOf(c, current), current, relied)
    case PostScan(current, relied, scan) =>
      ReliesOn(s, QueryOf(c, current), current, relied) && WillFind(QueryOf(c, current), scan, relied.value)
    case Compensating(_, _, _) => false
    case FinalScan(_, _) => false
    case AdminDone(result) => result != RoleRevoked(true) && result != CompensationFailed
    case _ => true
  }

  /** The revoked record is not the one relied on: an id has one principal. */
  lemma ReliedIsAnother(s: Store, c: RevokeRoleCommand, current: Versioned<StoredAssignment>, relied: Option<Text>)
    requires StoreInv(s) && CurrentOk(s, c, current) && ReliesOn(s, QueryOf(c, current), current, relied)
    ensures relied.value != c.assignmentId
  {
    hide AuditsOf, GuardOk, IndexesOk, Names;
    assert AssignmentOk(s, AssignmentKey(current.value.location, c.assignmentId));
  }

  /** A holder other than the record being revoked by this call is a holder after its step. */
  lemma OtherHolderStays(policy: Policy, s: Store, call: Call, choice: Choice, q: ByRoleQuery, id: Text)
    requires StoreInv(s) && CallOk(policy, s, call) && q.role == policy.administratorRole && IsHolder(s, q, id)
    requires SparesAdministrators(policy, call) || (call.Administering? && id != call.command.assignmentId)
    ensures var t := CallStep(policy, s, call, choice).0;
            && IsHolder(t, q, id) && PrincipalOf(t, q, id) == PrincipalOf(s, q, id)
            && (q.Key(id) in s.holders ==> q.Key(id) in t.holders)
  {
    hide *;
    CallStepSafe(policy, s, call, choice);
    StillHolder(policy, s, call, choice, q, id);
    HolderKeepsRow(s, CallStep(policy, s, call, choice).0, q, id);
  }

  lemma StillHolder(policy: Policy, s: Store, call: Call, choice: Choice, q: ByRoleQuery, id: Text)
    requires StoreInv(s) && CallOk(policy, s, call) && q.role == policy.administratorRole && IsHolder(s, q, id)
    requires SparesAdministrators(policy, call) || (call.Administering? && id != call.command.assignmentId)
    ensures IsHolder(CallStep(policy, s, call, choice).0, q, id)
  {
    hide StoreInv, CallOk, IsHolder, CallStep;
    if !IsHolder(CallStep(policy, s, call, choice).0, q, id) {
      RemoverCommits(policy, s, call, choice, q, id);
    }
  }

  lemma HolderKeepsRow(s: Store, t: Store, q: ByRoleQuery, id: Text)
    requires Evolves(s, t) && IsHolder(s, q, id) && IsHolder(t, q, id)
    ensures PrincipalOf(t, q, id) == PrincipalOf(s, q, id)
    ensures q.Key(id) in s.holders ==> q.Key(id) in t.holders
  {
    hide HasRow, Evidence;
  }

  lemma ReliesOnStays(
    policy: Policy, s: Store, actor: Call, choice: Choice, q: ByRoleQuery, current: Versioned<StoredAssignment>,
    relied: Option<Text>)
    requires StoreInv(s) && CallOk(policy, s, actor) && ReliesOn(s, q, current, relied) && q.role == policy.administratorRole
    requires SparesAdministrators(policy, actor) || (actor.Administering? && relied.value != actor.command.assignmentId)
    ensures ReliesOn(CallStep(policy, s, actor, choice).0, q, current, relied)
  {
    hide StoreInv, CallOk, CallStep, IsHolder, SparesAdministrators;
    OtherHolderStays(policy, s, actor, choice, q, relied.value);
  }

  /** What a running revocation rests on survives the steps of calls that spare administrators. */
  lemma ReliesStable(policy: Policy, s: Store, actor: Call, choice: Choice, c: RevokeRoleCommand, pc: AdminPc)
    requires StoreInv(s) && CallOk(policy, s, actor) && AdminOk(s, policy, c, pc) && Relies(s, policy, c, pc)
    requires SparesAdministrators(policy, actor)
    ensures Relies(CallStep(policy, s, actor, choice).0, policy, c, pc)
  {
    hide StoreInv, CallOk, CallStep, ReliesOn, CurrentOk, RevokeOk, ScanOk, SparesAdministrators, GrantOk, WillFind;
    match pc
    case PreScan(current, scan) =>
      if scan.ScanDone? && scan.found.Some? {
        ReliesOnStays(policy, s, actor, choice, QueryOf(c, current), current, scan.found);
      }
    case RevokingRole(current, relied, _, _) =>
      if current.value.assignment.role == policy.administratorRole {
        ReliesOnStays(policy, s, actor, choice, QueryOf(c, current), current, relied);
      }
    case PostScan(current, relied, scan) =>
      ReliesOnStays(policy, s, actor, choice, QueryOf(c, current), current, relied);
    case _ =>
  }

  lemma PreScanRelies(policy: Policy, s: Store, c: RevokeRoleCommand, pc: AdminPc, choice: Choice)
    requires StoreInv(s) && AdminOk(s, policy, c, pc) && Relies(s, policy, c, pc) && pc.PreScan?
    ensures var (t, pc') := AdminStep(s, policy, c, pc, choice); Relies(t, policy, c, pc')
  {
    hide *;
    if pc.scan.ScanDone? {
      PreScanEnds(policy, s, c, pc, choice);
    } else {
      PreScanFinds(policy, s, c, pc, choice);
      PreScanGoesOn(policy, s, c, pc, choice);
    }
  }

  lemma PreScanEnds(policy: Policy, s: Store, c: RevokeRoleCommand, pc: AdminPc, choice: Choice)
    requires Relies(s, policy, c, pc) && pc.PreScan? && pc.scan.ScanDone?
    ensures var (t, pc') := AdminStep(s, policy, c, pc, choice); Relies(t, policy, c, pc')
  {
    hide ScanStep, ReliesOn;
  }

  lemma PreScanGoesOn(policy: Policy, s: Store, c: RevokeRoleCommand, pc: AdminPc, choice: Choice)
    requires pc.PreScan? && !pc.scan.ScanDone?
    requires var q := QueryOf(c, pc.current);
             var scan := ScanStep(s, q, pc.current.value.assignment.principalId, pc.scan, choice.pick);
             scan.ScanDone? && scan.found.Some? ==> ReliesOn(s, q, pc.current, scan.found)
    ensures var (t, pc') := AdminStep(s, policy, c, pc, choice); Relies(t, policy, c, pc')
  {
    hide ScanStep, ReliesOn;
  }

  /** What the pre-check finds is a holder to rely on. */
  lemma PreScanFinds(policy: Policy, s: Store, c: RevokeRoleCommand, pc: AdminPc, choice: Choice)
    requires StoreInv(s) && AdminOk(s, policy, c, pc) && pc.PreScan? && !pc.scan.ScanDone?
    ensures var q := QueryOf(c, pc.current);
            var scan := ScanStep(s, q, pc.current.value.assignment.principalId, pc.scan, choice.pick);
            scan.ScanDone? && scan.found.Some? ==> ReliesOn(s, q, pc.current, scan.found)
  {
    hide StoreInv, ScanStep, ScanOk, CurrentOk;
    ScanAnswersTruly(s, QueryOf(c, pc.current), pc.current.value.assignment.principalId, pc.scan, choice.pick);
    hide IsHolder, ScanOutside;
  }

  lemma RevokingRelies(policy: Policy, s: Store, c: RevokeRoleCommand, pc: AdminPc, choice: Choice)
    requires StoreInv(s) && AdminOk(s, policy, c, pc) && Relies(s, policy, c, pc) && pc.RevokingRole?
    ensures var (t, pc') := AdminStep(s, policy, c, pc, choice); Relies(t, policy, c, pc')
  {
    hide StoreInv, AdminOk, AdminStep, ReliesOn, WillFind;
    RevokingMoves(policy, s, c, pc, choice);
    if pc.current.value.assignment.role == policy.administratorRole {
      AdminReliesOnStays(policy, s, c, pc, choice);
    }
    ScanBegins(QueryOf(c, pc.current));
  }

  lemma ScanBegins(q: ByRoleQuery)
    ensures forall id :: WillFind(q, SCAN_START, id)
  {
  }

  /** The call's own revoke does not touch the holder it relies on. */
  lemma AdminReliesOnStays(policy: Policy, s: Store, c: RevokeRoleCommand, pc: AdminPc, choice: Choice)
    requires StoreInv(s) && AdminOk(s, policy, c, pc) && pc.RevokingRole?
    requires pc.current.value.assignment.role == policy.administratorRole
    requires ReliesOn(s, QueryOf(c, pc.current), pc.current, pc.relied)
    ensures pc.relied.Some? && ReliesOn(AdminStep(s, policy, c, pc, choice).0, QueryOf(c, pc.current), pc.current, pc.relied)
  {
    assert pc.relied.Some?;
    hide StoreInv, RevokeOk, CurrentOk, IsHolder, AdminStep, ReliesOn;
    ReliedIsAnother(s, c, pc.current, pc.relied);
    AdminIsCall(policy, s, c, pc, choice);
    hide AdminOk, CallOk, CallStep;
    ReliesOnStays(policy, s, Administering(0, None, c, pc), choice, QueryOf(c, pc.current), pc.current, pc.relied);
  }

  lemma AdminIsCall(policy: Policy, s: Store, c: RevokeRoleCommand, pc: AdminPc, choice: Choice)
    ensures CallOk(policy, s, Administering(0, None, c, pc)) <==> AdminOk(s, policy, c, pc)
    ensures CallStep(policy, s, Administering(0, None, c, pc), choice).0 == AdminStep(s, policy, c, pc, choice).0
  {
    hide AdminOk, AdminStep;
  }

  lemma RevokingMoves(policy: Policy, s: Store, c: RevokeRoleCommand, pc: AdminPc, choice: Choice)
    requires pc.RevokingRole?
    ensures var pc' := AdminStep(s, policy, c, pc, choice).1;
            || (pc'.RevokingRole? && pc'.current == pc.current && pc'.relied == pc.relied)
            || pc' == PostScan(pc.current, pc.relied, SCAN_START)
            || pc' == AdminDone(RoleNotFound) || pc' == AdminDone(RoleConflict) || pc' == AdminDone(StoreFailed)
            || pc' == AdminDone(RoleRevoked(false))
    ensures AdminStep(s, policy, c, pc, choice).1.PostScan? ==> pc.current.value.assignment.role == policy.administratorRole
  {
    hide RevokeStep;
  }

  /** The re-verification cannot miss the holder the pre-check relied on. */
  lemma PostScanRelies(policy: Policy, s: Store, c: RevokeRoleCommand, pc: AdminPc, choice: Choice)
    requires StoreInv(s) && AdminOk(s, policy, c, pc) && Relies(s, policy, c, pc) && pc.PostScan? && NamedHolders(s)
    ensures var (t, pc') := AdminStep(s, policy, c, pc, choice); Relies(t, policy, c, pc')
  {
    hide *;
    var q := QueryOf(c, pc.current);
    PostScanFacts(policy, s, c, pc);
    PostScanMoves(policy, s, c, pc, choice);
    ScanKeepsHolder(s, q, [], pc.scan, choice.pick, pc.relied.value);
    StillRelies(policy, s, c, pc, ScanStep(s, q, [], pc.scan, choice.pick));
  }

  lemma PostScanFacts(policy: Policy, s: Store, c: RevokeRoleCommand, pc: AdminPc)
    requires AdminOk(s, policy, c, pc) && Relies(s, policy, c, pc) && pc.PostScan? && NamedHolders(s)
    ensures var q := QueryOf(c, pc.current);
            && ScanOk(s, q, pc.scan) && ReliesOn(s, q, pc.current, pc.relied) && pc.relied.Some?
            && IsHolder(s, q, pc.relied.value) && q.Key(pc.relied.value) in s.holders
            && PrincipalOf(s, q, pc.relied.value) != [] && WillFind(q, pc.scan, pc.relied.value)
  {
    hide ScanOk, CurrentOk, IsHolder, NamedHolders, WillFind, PrincipalOf;
    HolderNamed(s, QueryOf(c, pc.current), pc.relied.value);
  }

  lemma StillRelies(policy: Policy, s: Store, c: RevokeRoleCommand, pc: AdminPc, scan: HolderScan)
    requires pc.PostScan? && ReliesOn(s, QueryOf(c, pc.current), pc.current, pc.relied) && pc.relied.Some?
    requires WillFind(QueryOf(c, pc.current), scan, pc.relied.value)
    ensures Relies(s, policy, c, PostScan(pc.current, pc.relied, scan)) && Relies(s, policy, c, AdminDone(RoleRevoked(false)))
  {
    hide ReliesOn, WillFind;
  }

  /** A re-verification that has found somebody ends; one that has not found out goes on. */
  lemma PostScanMoves(policy: Policy, s: Store, c: RevokeRoleCommand, pc: AdminPc, choice: Choice)
    requires pc.PostScan? && pc.relied.Some? && WillFind(QueryOf(c, pc.current), pc.scan, pc.relied.value)
    ensures AdminStep(s, policy, c, pc, choice) ==
            (s, if pc.scan.ScanDone? then AdminDone(RoleRevoked(false))
                else PostScan(pc.current, pc.relied, ScanStep(s, QueryOf(c, pc.current), [], pc.scan, choice.pick)))
  {
    hide ScanStep, WillReport;
  }

  lemma OwnRelies(policy: Policy, s: Store, c: RevokeRoleCommand, pc: AdminPc, choice: Choice)
    requires StoreInv(s) && AdminOk(s, policy, c, pc) && Relies(s, policy, c, pc) && NamedHolders(s)
    ensures var (t, pc') := AdminStep(s, policy, c, pc, choice); Relies(t, policy, c, pc')
  {
    hide *;
    if pc.PreScan? {
      PreScanRelies(policy, s, c, pc, choice);
    } else if pc.RevokingRole? {
      RevokingRelies(policy, s, c, pc, choice);
    } else if pc.PostScan? {
      PostScanRelies(policy, s, c, pc, choice);
    } else {
      EarlyRelies(policy, s, c, pc, choice);
    }
  }

  lemma EarlyRelies(policy: Policy, s: Store, c: RevokeRoleCommand, pc: AdminPc, choice: Choice)
    requires Relies(s, policy, c, pc) && !pc.PreScan? && !pc.RevokingRole? && !pc.PostScan?
    ensures var (t, pc') := AdminStep(s, policy, c, pc, choice); Relies(t, policy, c, pc')
  {
  }

  /** No stored assignment has an empty principal id. */
  ghost predicate NamedHolders(s: Store) {
    forall k | k in s.assignments :: k.location.principalId != []
  }

  lemma HolderNamed(s: Store, q: ByRoleQuery, id: Text)
    requires NamedHolders(s) && IsHolder(s, q, id)
    ensures PrincipalOf(s, q, id) != []
  {
  }

  // ---------------------------------------------------------------- the invariant of a solo run

  /** Principals in flight are named too. */
  predicate NamedCall(call: Call) {
    && (call.Granting? ==> call.grant.assignment.principalId != [])
    && (call.Seeding? ==> call.seed.assignment.principalId != [])
  }

  ghost predicate SoloInv(w: World, service: nat) {
    && WorldInv(w) && ChainOk(w, service) && NamedHolders(w.store)
    && (forall p | p in w.calls :: NamedCall(w.calls[p]))
    && (forall p | OfInstance(w, p, service) :: Relies(w.store, w.policy, w.calls[p].command, w.calls[p].adminPc))
  }

  lemma NamedStay(policy: Policy, s: Store, call: Call, choice: Choice)
    requires NamedHolders(s) && NamedCall(call) && CallOk(policy, s, call)
    ensures var (t, call') := CallStep(policy, s, call, choice); NamedHolders(t) && NamedCall(call')
  {
    hide *;
    CallStepWrites(policy, s, call, choice);
    WritesNamed(policy, s, call);
    WriteKeepsNamed(s, CallStep(policy, s, call, choice).0, PendingWrite(call));
    NamedCallStays(policy, s, call, choice);
  }

  lemma NamedCallStays(policy: Policy, s: Store, call: Call, choice: Choice)
    requires NamedCall(call)
    ensures NamedCall(CallStep(policy, s, call, choice).1)
  {
    hide GrantStep, RevokeStep, ByRoleStep, ListStep, SeedStep, AdminStep;
  }

  lemma WritesNamed(policy: Policy, s: Store, call: Call)
    requires NamedHolders(s) && NamedCall(call) && CallOk(policy, s, call)
    ensures PendingWrite(call).GrantWrite? ==> PendingWrite(call).grant.assignment.principalId != []
  {
    if call.Administering? && call.adminPc.Compensating? {
      CompensatedIsNamed(policy, s, call);
    }
    hide CallOk;
  }

  lemma WriteKeepsNamed(s: Store, t: Store, write: Write)
    requires NamedHolders(s) && (SameRecords(s, t) || Performs(s, t, write))
    requires write.GrantWrite? ==> write.grant.assignment.principalId != []
    ensures NamedHolders(t)
  {
  }

  /** A compensation grants to the principal it revoked. */
  lemma CompensatedIsNamed(policy: Policy, s: Store, call: Call)
    requires NamedHolders(s) && CallOk(policy, s, call) && call.Administering? && call.adminPc.Compensating?
    ensures call.adminPc.grant.assignment.principalId != []
  {
  }

  /** Among an instance's calls only one is past the queue and not ended. */
  lemma OnlyRunning(w: World, service: nat, p: nat, q: nat)
    requires ChainOk(w, service) && p != q && RevokeRunning(w, p) && IsAdmin(w, q)
    requires w.calls[p].service == service && w.calls[q].service == service
    ensures w.calls[q].adminPc.Queued? || Ended(w, q)
  {
    hide ChainOf;
    var chain := ChainOf(w, service);
    assert p in chain && q in chain;
    var k :| 0 <= k < |chain| && chain[k] == p;
    var l :| 0 <= l < |chain| && chain[l] == q;
    assert k < l && Begun(w, chain[l]) ==> Ended(w, chain[k]);
    assert l < k ==> Ended(w, chain[l]);
  }

  /** What `q` relies on survives a step of another call `p`. */
  lemma OtherRelies(w: World, service: nat, p: nat, choice: Choice, q: nat)
    requires SoloInv(w, service) && SoloAction(w, Advance(p, choice), service) && Runnable(w, p)
    requires OfInstance(w, q, service) && q != p
    ensures Relies(CallStep(w.policy, w.store, w.calls[p], choice).0, w.policy, w.calls[q].command, w.calls[q].adminPc)
  {
    hide *;
    SoloFacts(w, service, p);
    SoloFacts(w, service, q);
    SoloAdmin(w, service, q);
    AdminCallOk(w.policy, w.store, w.calls[q]);
    if RevokeRunning(w, q) {
      ActorSpares(w, service, p, choice, q);
      ReliesStable(w.policy, w.store, w.calls[p], choice, w.calls[q].command, w.calls[q].adminPc);
    } else {
      NotRunningRelies(w, q, CallStep(w.policy, w.store, w.calls[p], choice).0);
    }
  }

  lemma SoloFacts(w: World, service: nat, p: nat)
    requires SoloInv(w, service) && (Runnable(w, p) || OfInstance(w, p, service))
    ensures p in w.calls && StoreInv(w.store) && CallOk(w.policy, w.store, w.calls[p])
    ensures ChainOk(w, service) && NamedHolders(w.store) && NamedCall(w.calls[p])
  {
    hide StoreInv, ChainOk, NamedHolders, NamedCall, CallOk;
  }

  lemma SoloAdmin(w: World, service: nat, q: nat)
    requires SoloInv(w, service) && OfInstance(w, q, service)
    ensures q in w.calls && w.calls[q].Administering? && Relies(w.store, w.policy, w.calls[q].command, w.calls[q].adminPc)
  {
    hide StoreInv, ChainOk, NamedHolders, NamedCall, CallOk, Relies;
  }

  lemma NotRunningRelies(w: World, q: nat, t: Store)
    requires q in w.calls && w.calls[q].Administering? && !RevokeRunning(w, q)
    requires Relies(w.store, w.policy, w.calls[q].command, w.calls[q].adminPc)
    ensures Relies(t, w.policy, w.calls[q].command, w.calls[q].adminPc)
  {
    hide ReliesOn, WillFind;
  }

  /** While `q` runs, no other call of its instance revokes, and calls of others spare administrators. */
  lemma ActorSpares(w: World, service: nat, p: nat, choice: Choice, q: nat)
    requires ChainOk(w, service) && SoloAction(w, Advance(p, choice), service) && Runnable(w, p)
    requires OfInstance(w, q, service) && RevokeRunning(w, q) && q != p
    ensures SparesAdministrators(w.policy, w.calls[p])
  {
    hide ChainOk;
    if OfInstance(w, p, service) {
      OnlyRunning(w, service, q, p);
    }
  }

  lemma SoloAdvance(w: World, service: nat, p: nat, choice: Choice)
    requires SoloInv(w, service) && SoloAction(w, Advance(p, choice), service) && Runnable(w, p)
    ensures SoloInv(Step(w, Advance(p, choice)), service)
  {
    var a := Advance(p, choice);
    var w' := Step(w, a);
    hide StoreInv, ChainOk, NamedHolders, NamedCall, Relies, CallOk, CallStep, SparesAdministrators;
    StepSafe(w, a);
    ChainStep(w, a, service);
    OwnStep(w, p, choice);
    AdminStays(w, p, choice);
    hide WorldInv, Step;
    SoloNamed(w, service, p, choice);
    forall q | OfInstance(w', q, service) ensures Relies(w'.store, w'.policy, w'.calls[q].command, w'.calls[q].adminPc) {
      if q == p {
        SoloOwn(w, service, p, choice);
      } else {
        OtherRelies(w, service, p, choice, q);
      }
    }
  }

  lemma SoloNamed(w: World, service: nat, p: nat, choice: Choice)
    requires SoloInv(w, service) && Runnable(w, p)
    ensures var (t, call') := CallStep(w.policy, w.store, w.calls[p], choice); NamedHolders(t) && NamedCall(call')
  {
    assert CallOk(w.policy, w.store, w.calls[p]);
    hide StoreInv, ChainOk, NamedHolders, NamedCall, CallOk, CallStep;
    NamedStay(w.policy, w.store, w.calls[p], choice);
  }

  lemma SoloOwn(w: World, service: nat, p: nat, choice: Choice)
    requires SoloInv(w, service) && Runnable(w, p) && OfInstance(w, p, service)
    ensures var (t, call') := CallStep(w.policy, w.store, w.calls[p], choice);
            && call'.Administering? && call'.command == w.calls[p].command
            && Relies(t, w.policy, call'.command, call'.adminPc)
  {
    assert CallOk(w.policy, w.store, w.calls[p]);
    hide StoreInv, ChainOk, NamedHolders, NamedCall, Relies, AdminOk, AdminStep;
    OwnRelies(w.policy, w.store, w.calls[p].command, w.calls[p].adminPc, choice);
  }

  lemma SoloIdle(w: World, service: nat, a: Action)
    requires SoloInv(w, service) && SoloAction(w, a, service) && !(a.Advance? && Runnable(w, a.p))
    ensures SoloInv(Step(w, a), service)
  {
    hide *;
    SoloParts(w, service);
    StepSafe(w, a);
    ChainStep(w, a, service);
    IdleKeeps(w, service, a);
    SoloWhole(Step(w, a), service);
  }

  /** The calls of a solo run are named, and those of its instance have something to rely on. */
  ghost predicate SoloCalls(w: World, service: nat) {
    && (forall p | p in w.calls :: NamedCall(w.calls[p]))
    && (forall p | OfInstance(w, p, service) :: Relies(w.store, w.policy, w.calls[p].command, w.calls[p].adminPc))
  }

  lemma SoloParts(w: World, service: nat)
    requires SoloInv(w, service)
    ensures WorldInv(w) && ChainOk(w, service) && NamedHolders(w.store) && SoloCalls(w, service)
  {
    hide WorldInv, ChainOk, NamedHolders, NamedCall, Relies;
  }

  lemma SoloWhole(w: World, service: nat)
    requires WorldInv(w) && ChainOk(w, service) && NamedHolders(w.store) && SoloCalls(w, service)
    ensures SoloInv(w, service)
  {
    hide WorldInv, ChainOk, NamedHolders, NamedCall, Relies;
  }

  lemma IdleKeeps(w: World, service: nat, a: Action)
    requires SoloAction(w, a, service) && !(a.Advance? && Runnable(w, a.p)) && NamedHolders(w.store) && SoloCalls(w, service)
    ensures NamedHolders(Step(w, a).store) && SoloCalls(Step(w, a), service)
  {
    hide NamedHolders, CallStep, SparesAdministrators, ReliesOn, WillFind;
  }

  lemma {:induction false} SoloHolds(r: Run, i: nat, service: nat)
    requires IsSoloRun(r, service) && i < |r.states|
    ensures SoloInv(r.states[i], service)
  {
    hide *;
    if i == 0 {
      SoloBegins(r, service);
    } else {
      SoloRunStep(r, i - 1, service);
      SoloHolds(r, i - 1, service);
      var w, a := r.states[i - 1], r.actions[i - 1];
      if a.Advance? && Runnable(w, a.p) {
        SoloAdvance(w, service, a.p, a.choice);
        ActionIsAdvance(a);
      } else {
        SoloIdle(w, service, a);
      }
    }
  }

  lemma SoloBegins(r: Run, service: nat)
    requires IsSoloRun(r, service)
    ensures |r.states| > 0 && SoloInv(r.states[0], service)
  {
    InitialSafe(r.states[0].policy, r.states[0].store);
    hide WorldInv, Step, StoreInv, NamedHolders;
  }

  lemma SoloRunStep(r: Run, i: nat, service: nat)
    requires IsSoloRun(r, service) && i + 1 < |r.states|
    ensures IsRun(r) && i < |r.actions| && r.states[i + 1] == Step(r.states[i], r.actions[i])
    ensures SoloAction(r.states[i], r.actions[i], service)
  {
    hide Step, SoloAction, StoreInv, NamedHolders;
  }

  // ---------------------------------------------------------------- the theorem

  /** Administrators never run out, whatever the holder index lacks: no step takes a scope from some to none. */
  lemma NeverLosesLastAdministrator(r: Run, i: nat, service: nat, d: Domain)
    requires IsSoloRun(r, service) && i < |r.actions|
    requires HasHolder(r.states[i].store, AdminQuery(r.states[i].policy, d))
    ensures HasHolder(r.states[i + 1].store, AdminQuery(r.states[i].policy, d))
  {
    SoloLength(r, service);
    hide *;
    SoloHolds(r, i, service);
    SoloRunStep(r, i, service);
    StepKeepsSomeHolder(r.states[i], r.actions[i], service, d);
  }

  lemma SoloLength(r: Run, service: nat)
    requires IsSoloRun(r, service)
    ensures |r.states| == |r.actions| + 1
  {
    hide Step, SoloAction, StoreInv, NamedHolders;
  }

  lemma StepKeepsSomeHolder(w: World, a: Action, service: nat, d: Domain)
    requires SoloInv(w, service) && SoloAction(w, a, service) && HasHolder(w.store, AdminQuery(w.policy, d))
    ensures HasHolder(Step(w, a).store, AdminQuery(w.policy, d))
  {
    hide *;
    if a.Advance? && Runnable(w, a.p) {
      OwnStep(w, a.p, a.choice);
      ActionIsAdvance(a);
      AdminRole(w.policy, d);
      AdvanceKeepsSomeHolder(w, service, a.p, a.choice, AdminQuery(w.policy, d));
    } else {
      IdleKeepsStore(w, a);
    }
  }

  lemma AdminRole(policy: Policy, d: Domain)
    ensures AdminQuery(policy, d).role == policy.administratorRole
  {
  }

  lemma AdvanceKeepsSomeHolder(w: World, service: nat, p: nat, choice: Choice, q: ByRoleQuery)
    requires SoloInv(w, service) && SoloAction(w, Advance(p, choice), service) && Runnable(w, p)
    requires q.role == w.policy.administratorRole && HasHolder(w.store, q)
    ensures HasHolder(CallStep(w.policy, w.store, w.calls[p], choice).0, q)
  {
    hide *;
    SoloFacts(w, service, p);
    if OfInstance(w, p, service) {
      SoloAdmin(w, service, p);
    } else {
      OtherSpares(w, service, p, choice);
    }
    SomeHolderSurvives(w.policy, w.store, w.calls[p], choice, q);
  }

  lemma OtherSpares(w: World, service: nat, p: nat, choice: Choice)
    requires SoloAction(w, Advance(p, choice), service) && p in w.calls && !OfInstance(w, p, service)
    ensures SparesAdministrators(w.policy, w.calls[p])
  {
    hide SparesAdministrators;
  }

  lemma SomeHolderSurvives(policy: Policy, s: Store, call: Call, choice: Choice, q: ByRoleQuery)
    requires StoreInv(s) && CallOk(policy, s, call) && q.role == policy.administratorRole && HasHolder(s, q)
    requires SparesAdministrators(policy, call) || (call.Administering? && Relies(s, policy, call.command, call.adminPc))
    ensures HasHolder(CallStep(policy, s, call, choice).0, q)
  {
    hide *;
    var id := SomeHolder(s, q);
    if !IsHolder(CallStep(policy, s, call, choice).0, q, id) {
      SparesOrRevokes(policy, call);
      RemoverCommits(policy, s, call, choice, q, id);
      CommittingRelies(policy, s, call, choice, q);
      AdminCallOk(policy, s, call);
      ReliedIsAnother(s, call.command, call.adminPc.current, call.adminPc.relied);
      OtherHolderStays(policy, s, call, choice, q, call.adminPc.relied.value);
      HolderIsSome(CallStep(policy, s, call, choice).0, q, call.adminPc.relied.value);
    } else {
      HolderIsSome(CallStep(policy, s, call, choice).0, q, id);
    }
  }

  lemma SparesOrRevokes(policy: Policy, call: Call)
    requires SparesAdministrators(policy, call) || call.Administering?
    ensures RevokesNoAdministrator(policy, call)
  {
  }

  /** A call that commits an administrator's revocation relies on another holder of the same scope. */
  lemma CommittingRelies(policy: Policy, s: Store, call: Call, choice: Choice, q: ByRoleQuery)
    requires SparesAdministrators(policy, call) || (call.Administering? && Relies(s, policy, call.command, call.adminPc))
    requires CommitsAdminRevoke(policy, call, CallStep(policy, s, call, choice).1) && DomainOf(call) == Domain(q.applicationId, q.scope)
    requires q.role == policy.administratorRole && CallOk(policy, s, call)
    ensures call.Administering? && call.adminPc.RevokingRole? && q == QueryOf(call.command, call.adminPc.current)
    ensures CurrentOk(s, call.command, call.adminPc.current) && ReliesOn(s, q, call.adminPc.current, call.adminPc.relied)
    ensures call.adminPc.relied.Some? && IsHolder(s, q, call.adminPc.relied.value)
  {
    hide CallStep, CurrentOk, RevokeOk, IsHolder;
  }

  /** The instance never writes a compensation, and none of its revocations reports one. */
  lemma NeverCompensates(r: Run, i: nat, service: nat, p: nat)
    requires IsSoloRun(r, service) && i < |r.states| && OfInstance(r.states[i], p, service)
    ensures var pc := r.states[i].calls[p].adminPc;
            && !pc.Compensating? && !pc.FinalScan?
            && pc != AdminDone(RoleRevoked(true)) && pc != AdminDone(CompensationFailed)
  {
    hide *;
    SoloHolds(r, i, service);
    SoloAdmin(r.states[i], service, p);
    ReliesSpared(r.states[i], p);
  }

  lemma ReliesSpared(w: World, p: nat)
    requires p in w.calls && w.calls[p].Administering? && Relies(w.store, w.policy, w.calls[p].command, w.calls[p].adminPc)
    ensures var pc := w.calls[p].adminPc;
            && !pc.Compensating? && !pc.FinalScan?
            && pc != AdminDone(RoleRevoked(true)) && pc != AdminDone(CompensationFailed)
  {
    hide ReliesOn, WillFind;
  }
}
