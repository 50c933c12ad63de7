/**
 * Any number of role-store and administration calls over one shared store, interleaved at
 * their store operations, and what holds in every state of every run.
 */
module RoleWorld {
  import opened Prelude
  import opened RoleRecords
  import opened RoleStore
  import opened RoleStoreSafety
  import opened RoleReads
  import opened RoleRebuild
  import opened RoleSeeding
  import opened Administration

  datatype Call =
    | Granting(grant: GrantCommand, grantPc: GrantPc)
    | Revoking(revoke: RevokeCommand, revokePc: RevokePc)
    | ListingByRole(query: ByRoleQuery, rolePc: ByRolePc)
    | ListingPrincipal(location: Location, listPc: ListPc)
    | Rebuilding(applicationId: Text, rebuildPc: RebuildPc)
    | Seeding(seed: GrantCommand, seedPc: SeedPc)
    | Administering(service: nat, previous: Option<nat>, command: RevokeRoleCommand, adminPc: AdminPc)

  datatype Start =
    | StartGrant(grant: GrantCommand)
    | StartRevoke(revoke: RevokeCommand)
    | StartByRole(query: ByRoleQuery)
    | StartListing(location: Location)
    | StartRebuild(applicationId: Text)
    | StartSeeding(seed: GrantCommand)
    | StartRevokeRole(service: nat, command: RevokeRoleCommand)

  datatype Domain = Domain(applicationId: Text, scope: Scope)

  /**
   * The store, the calls made so far, and the revocations each service instance has put on its promise
   * chain; the chain's tail is the last of them. `lastRevoker` and `generated` are history: who last
   * committed an administrator revocation in a scope, and which ids were drawn for compensation grants.
   */
  datatype World = World(
    policy: Policy,
    store: Store,
    calls: map<nat, Call>,
    chains: map<nat, seq<nat>>,
    lastRevoker: map<Domain, nat>,
    generated: set<PointerKey>)

  datatype Action = Begin(p: nat, start: Start) | Advance(p: nat, choice: Choice)

  predicate Settled(call: Call) {
    match call
    case Granting(_, pc) => pc.GrantDone?
    case Revoking(_, pc) => pc.RevokeDone?
    case ListingByRole(_, pc) => pc.ByRoleDone? || pc.ByRoleFailed?
    case ListingPrincipal(_, pc) => pc.ListDone? || pc.ListRetry? || pc.ListCorrupt?
    case Rebuilding(_, pc) => pc.RebuildDone? || pc.RebuildFailed?
    case Seeding(_, pc) => pc.SeedDone?
    case Administering(_, _, _, pc) => pc.AdminDone?
  }

  function ChainOf(w: World, service: nat): seq<nat> {
    if service in w.chains then w.chains[service] else []
  }

  function Last(chain: seq<nat>): Option<nat> {
    if chain == [] then None else Some(chain[|chain| - 1])
  }

  function Opening(w: World, start: Start): Call {
    match start
    case StartGrant(c) => Granting(c, BeginGrant(c))
    case StartRevoke(c) => Revoking(c, BeginRevoke(c))
    case StartByRole(q) => ListingByRole(q, ByRoleStart)
    case StartListing(location) => ListingPrincipal(location, ListStart)
    case StartRebuild(applicationId) => Rebuilding(applicationId, RebuildStart)
    case StartSeeding(c) => Seeding(c, SEED_START)
    case StartRevokeRole(service, c) =>
      Administering(service, Last(ChainOf(w, service)), c, Queued)
  }

  /** A queued revocation waits for the one before it on its chain to settle, whether it succeeded or failed. */
  predicate MayStart(w: World, call: Call)
    requires call.Administering?
  {
    call.previous.None? || (call.previous.value in w.calls && Settled(w.calls[call.previous.value]))
  }

  function CallStep(policy: Policy, s: Store, call: Call, choice: Choice): (Store, Call) {
    match call
    case Granting(c, pc) => var (s', pc') := GrantStep(s, c, pc, choice.rejection); (s', Granting(c, pc'))
    case Revoking(c, pc) => var (s', pc') := RevokeStep(s, c, pc, choice.rejection); (s', Revoking(c, pc'))
    case ListingByRole(q, pc) => (s, ListingByRole(q, ByRoleStep(s, q, pc, choice.pick)))
    case ListingPrincipal(location, pc) => (s, ListingPrincipal(location, ListStep(s, location, pc, choice.row)))
    case Rebuilding(applicationId, pc) =>
      var (s', pc') := RebuildStep(s, applicationId, pc, choice.pick); (s', Rebuilding(applicationId, pc'))
    case Seeding(c, pc) => var (s', pc') := SeedStep(s, c, pc, choice.row, choice.rejection); (s', Seeding(c, pc'))
    case Administering(service, previous, c, pc) =>
      var (s', pc') := AdminStep(s, policy, c, pc, choice); (s', Administering(service, previous, c, pc'))
  }

  /** Whether this step of a call commits the revocation of an administrator. */
  predicate CommitsAdminRevoke(policy: Policy, call: Call, call': Call) {
    && call.Administering? && call'.Administering?
    && call.adminPc.RevokingRole? && call'.adminPc.RevokingRole?
    && call.adminPc.revoke.RevokeCommit? && call'.adminPc.revoke.RevokeReadBack?
    && call.adminPc.current.value.assignment.role == policy.administratorRole
  }

  function DomainOf(call: Call): Domain
    requires call.Administering? && call.adminPc.RevokingRole?
  {
    Domain(call.command.applicationId, call.adminPc.current.value.assignment.scope)
  }

  function Step(w: World, a: Action): World {
    match a
    case Begin(p, start) =>
      if p in w.calls then w
      else
        var w' := w.(calls := w.calls[p := Opening(w, start)]);
        if start.StartRevokeRole? then w'.(chains := w.chains[start.service := ChainOf(w, start.service) + [p]]) else w'
    case Advance(p, choice) =>
      if p !in w.calls then w
      else
        var call := w.calls[p];
        if call.Administering? && call.adminPc.Queued? then
          if MayStart(w, call) then w.(calls := w.calls[p := call.(adminPc := GetLocate)]) else w
        else
          var (s', call') := CallStep(w.policy, w.store, call, choice);
          w.(
          store := s',
          calls := w.calls[p := call'],
          lastRevoker := if CommitsAdminRevoke(w.policy, call, call') then w.lastRevoker[DomainOf(call) := p] else w.lastRevoker,
          generated :=
            if call.Administering? && call.adminPc.PostScan? && call'.adminPc.Compensating?
            then w.generated + {KeyOfPointer(call'.adminPc.grant.Row())} else w.generated)
  }

  /** A step moves at most the acting call; every other call and its command stay. */
  lemma OthersStay(w: World, a: Action, p: nat)
    requires p in w.calls && !(a.Advance? && a.p == p)
    ensures p in Step(w, a).calls && Step(w, a).calls[p] == w.calls[p]
  {
  }

  predicate Runnable(w: World, p: nat) {
    p in w.calls && !(w.calls[p].Administering? && w.calls[p].adminPc.Queued?)
  }

  /** A step of a call that is past its queue. */
  lemma OwnStep(w: World, p: nat, choice: Choice)
    requires Runnable(w, p)
    ensures var w' := Step(w, Advance(p, choice));
            && p in w'.calls && (w'.store, w'.calls[p]) == CallStep(w.policy, w.store, w.calls[p], choice)
            && w'.policy == w.policy && w'.calls.Keys == w.calls.Keys
            && w'.lastRevoker ==
               if CommitsAdminRevoke(w.policy, w.calls[p], w'.calls[p]) then w.lastRevoker[DomainOf(w.calls[p]) := p] else w.lastRevoker
  {
  }

  /** No calls yet, over a store that an earlier life may have filled. */
  function Initial(policy: Policy, store: Store): World {
    World(policy, store, map[], map[], map[], {})
  }

  datatype Run = Run(states: seq<World>, actions: seq<Action>)

  /** A run begins with any store whose records agree, such as the empty one; holder rows may be missing. */
  ghost predicate IsRun(r: Run) {
    && |r.states| == |r.actions| + 1
    && StoreInv(r.states[0].store) && r.states[0] == Initial(r.states[0].policy, r.states[0].store)
    && forall i | 0 <= i < |r.actions| :: r.states[i + 1] == Step(r.states[i], r.actions[i])
  }

  lemma RunSteps(r: Run, i: nat)
    requires IsRun(r) && 0 < i < |r.states|
    ensures i <= |r.actions| && r.states[i] == Step(r.states[i - 1], r.actions[i - 1])
  {
  }

  /** Some run over `store` reaches `w`. */
  ghost predicate Reached(store: Store, w: World) {
    exists r: Run :: IsRun(r) && r.states[0].store == store && r.states[|r.states| - 1] == w
  }

  lemma ReachedFirst(policy: Policy, store: Store)
    requires StoreInv(store)
    ensures Reached(store, Initial(policy, store))
  {
    var w := Initial(policy, store);
    hide StoreInv;
    assert IsRun(Run([w], [])) && Run([w], []).states[0].store == store;
  }

  lemma ReachedNext(store: Store, w: World, a: Action)
    requires Reached(store, w)
    ensures Reached(store, Step(w, a))
  {
    var r: Run :| IsRun(r) && r.states[0].store == store && r.states[|r.states| - 1] == w;
    var next := Run(r.states + [Step(w, a)], r.actions + [a]);
    RunExtends(r, next, a);
    assert next.states[|next.states| - 1] == Step(w, a);
    hide *;
  }

  lemma RunExtends(r: Run, next: Run, a: Action)
    requires IsRun(r) && next == Run(r.states + [Step(r.states[|r.states| - 1], a)], r.actions + [a])
    ensures IsRun(next) && next.states[0] == r.states[0]
  {
    hide Step, StoreInv;
    forall i | 0 <= i < |next.actions| ensures next.states[i + 1] == Step(next.states[i], next.actions[i]) {
      assert i < |r.actions| ==> r.states[i + 1] == Step(r.states[i], r.actions[i]);
    }
  }

  // ---------------------------------------------------------------- safety of every run

  ghost predicate CallOk(policy: Policy, s: Store, call: Call) {
    match call
    case Granting(c, pc) => GrantOk(s, c, pc)
    case Revoking(c, pc) => RevokeOk(s, c, pc)
    case ListingByRole(q, pc) => ByRoleOk(s, q, pc)
    case ListingPrincipal(location, pc) => ListOk(s, location, pc)
    case Rebuilding(applicationId, pc) => RebuildOk(s, applicationId, pc)
    case Seeding(c, pc) => SeedOk(s, c, pc)
    case Administering(_, _, c, pc) => AdminOk(s, policy, c, pc)
  }

  ghost predicate WorldInv(w: World) {
    StoreInv(w.store) && forall p | p in w.calls :: CallOk(w.policy, w.store, w.calls[p])
  }

  lemma CallIsOk(w: World, p: nat)
    requires WorldInv(w) && p in w.calls
    ensures StoreInv(w.store) && CallOk(w.policy, w.store, w.calls[p])
  {
    hide StoreInv, CallOk;
  }

  lemma CallStable(policy: Policy, s: Store, t: Store, call: Call)
    requires Evolves(s, t) && CallOk(policy, s, call)
    ensures CallOk(policy, t, call)
  {
    hide Evolves, GrantOk, RevokeOk, ByRoleOk, ListOk, RebuildOk, SeedOk, AdminOk;
    match call
    case Granting(c, pc) => GrantStable(s, t, c, pc);
    case Revoking(c, pc) => RevokeStable(s, t, c, pc);
    case ListingByRole(q, pc) => ByRoleStable(s, t, q, pc);
    case ListingPrincipal(location, pc) => ListStable(s, t, location, pc);
    case Rebuilding(applicationId, pc) => RebuildStable(s, t, applicationId, pc);
    case Seeding(c, pc) => SeedStable(s, t, c, pc);
    case Administering(_, _, c, pc) => AdminStable(s, t, policy, c, pc);
  }

  lemma CallStepSafe(policy: Policy, s: Store, call: Call, choice: Choice)
    requires StoreInv(s) && CallOk(policy, s, call)
    ensures var (s', call') := CallStep(policy, s, call, choice);
            StoreInv(s') && Evolves(s, s') && CallOk(policy, s', call')
  {
    hide StoreInv, Evolves, GrantOk, RevokeOk, ByRoleOk, ListOk, RebuildOk, SeedOk, AdminOk;
    hide GrantStep, RevokeStep, ByRoleStep, ListStep, RebuildStep, SeedStep, AdminStep;
    EvolvesReflexive(s);
    match call
    case Granting(c, pc) => GrantStepSafe(s, c, pc, choice.rejection);
    case Revoking(c, pc) => RevokeStepSafe(s, c, pc, choice.rejection);
    case ListingByRole(q, pc) => ByRoleStepSafe(s, q, pc, choice.pick);
    case ListingPrincipal(location, pc) => ListStepSafe(s, location, pc, choice.row);
    case Rebuilding(applicationId, pc) => RebuildStepSafe(s, applicationId, pc, choice.pick);
    case Seeding(c, pc) => SeedStepSafe(s, c, pc, choice.row, choice.rejection);
    case Administering(_, _, c, pc) => AdminStepSafe(s, policy, c, pc, choice);
  }

  lemma OpeningOk(w: World, start: Start)
    ensures CallOk(w.policy, w.store, Opening(w, start))
  {
  }

  lemma StepSafe(w: World, a: Action)
    requires WorldInv(w)
    ensures WorldInv(Step(w, a)) && Evolves(w.store, Step(w, a).store)
  {
    hide StoreInv, Evolves, CallOk, CallStep;
    var w' := Step(w, a);
    EvolvesReflexive(w.store);
    if a.Begin? {
      OpeningOk(w, a.start);
    } else if a.p in w.calls {
      var call := w.calls[a.p];
      if call.Administering? && call.adminPc.Queued? {
        StartedOk(w, call);
      } else {
        CallStepSafe(w.policy, w.store, call, a.choice);
        forall p | p in w'.calls
          ensures CallOk(w'.policy, w'.store, w'.calls[p])
        {
          if p != a.p {
            CallStable(w.policy, w.store, w'.store, w.calls[p]);
          }
        }
      }
    }
  }

  lemma StartedOk(w: World, call: Call)
    requires call.Administering?
    ensures CallOk(w.policy, w.store, call.(adminPc := GetLocate))
  {
  }

  lemma InitialSafe(policy: Policy, store: Store)
    requires StoreInv(store)
    ensures WorldInv(Initial(policy, store))
  {
  }

  /** The empty store is one a run may begin with, and its holder index is complete. */
  lemma EmptyStoreAgrees()
    ensures StoreInv(EMPTY_STORE) && forall applicationId :: HoldersComplete(EMPTY_STORE, applicationId)
  {
  }

  /** In every state of every run the records and indexes agree. */
  lemma {:induction false} RunSafe(r: Run, i: nat)
    requires IsRun(r) && i < |r.states|
    ensures WorldInv(r.states[i])
  {
    hide WorldInv, Step, Initial, StoreInv;
    if i == 0 {
      InitialSafe(r.states[0].policy, r.states[0].store);
    } else {
      RunSafe(r, i - 1);
      StepSafe(r.states[i - 1], r.actions[i - 1]);
    }
  }

  /** The corrupt-record errors: the outcomes that the store invariant rules out. */
  predicate Corrupted(call: Call) {
    match call
    case Granting(_, pc) => pc == GrantDone(GrantCorrupt)
    case Revoking(_, pc) => pc == RevokeDone(RevokeCorrupt)
    case ListingByRole(_, pc) => pc == ByRoleFailed
    case ListingPrincipal(_, pc) => pc == ListCorrupt
    case Rebuilding(_, pc) => pc == RebuildFailed
    case Seeding(_, pc) => pc == SeedDone(SeedCorrupt)
    case Administering(_, _, _, pc) => pc == AdminDone(StoreFailed)
  }

  /** No grant, revoke, listing, rebuild, seeding or administration call of any run reaches a corrupt-record error. */
  lemma NeverCorrupted(r: Run, i: nat, p: nat)
    requires IsRun(r) && i < |r.states| && p in r.states[i].calls
    ensures !Corrupted(r.states[i].calls[p])
  {
    RunSafe(r, i);
    hide StoreInv;
  }

  /** Between any two instants of a run the store only evolves. */
  lemma {:induction false} RunEvolves(r: Run, i: nat, j: nat)
    requires IsRun(r) && i <= j < |r.states|
    ensures Evolves(r.states[i].store, r.states[j].store)
    decreases j
  {
    hide Step, WorldInv, Evolves, Initial, StoreInv;
    if i == j {
      EvolvesReflexive(r.states[i].store);
    } else {
      RunEvolves(r, i, j - 1);
      RunSafe(r, j - 1);
      StepSafe(r.states[j - 1], r.actions[j - 1]);
      EvolvesTransitive(r.states[i].store, r.states[j - 1].store, r.states[j].store);
    }
  }
}
