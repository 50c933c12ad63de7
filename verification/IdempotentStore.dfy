/**
 * The host's retries and the role store run as one system: a retry whose turn comes sends the store the command of its
 * manifest, and ends when the store answers or the answer is lost.
 */
module IdempotentStore {
  import opened Prelude
  import RoleRecords
  import RoleStore
  import RoleStoreSafety
  import Administration
  import RoleWorld
  import RoleTheorems
  import opened Idempotency

  function GrantFor(application: Text, c: Command, m: Manifest): RoleRecords.GrantCommand
    requires c.GrantRole? && m.GrantManifest?
  {
    RoleRecords.GrantCommand(
      application,
      RoleRecords.Assignment(m.assignmentId, c.principalId, c.role, c.scope, RoleRecords.Principal(c.actor), m.at, RoleRecords.Active),
      m.auditEventId)
  }

  function RevokeFor(application: Text, c: Command, m: Manifest): RoleRecords.RevokeCommand
    requires c.RevokeRole? && m.RevokeManifest?
  {
    RoleRecords.RevokeCommand(
      application, c.assignmentId, m.expectedToken, RoleRecords.Principal(c.actor), m.at, c.reason, m.auditEventId)
  }

  /** The store call of a command under its manifest. */
  function StartFor(application: Text, c: Command, m: Manifest): Option<RoleWorld.Start> {
    match (c, m)
    case (GrantRole(_, _, _, _), GrantManifest(_, _, _)) => Some(RoleWorld.StartGrant(GrantFor(application, c, m)))
    case (RevokeRole(_, _, _), RevokeManifest(_, _, _)) => Some(RoleWorld.StartRevoke(RevokeFor(application, c, m)))
    case _ => None
  }

  function StartOf(application: Text, w: World, id: nat): Option<RoleWorld.Start> {
    if id in w.retries && w.retries[id].key in w.registry && w.registry[w.retries[id].key].manifest.Some?
    then StartFor(application, w.retries[id].command, w.registry[w.retries[id].key].manifest.value)
    else None
  }

  /** `lost` is the attempts whose store call failed without an answer; the call may have taken effect, or may yet. */
  datatype Host = Host(commands: World, roles: RoleWorld.World, lost: set<nat>)

  datatype Event =
    | Handling(handling: Action)
    | Sending(id: nat, call: nat)
    | Storing(storing: RoleWorld.Action)
    | Answering(id: nat)
    | Losing(id: nat)

  ghost predicate Possible(application: Text, h: Host, e: Event) {
    match e
    case Handling(a) => !a.Execute? && !a.Settle? && Enabled(h.commands, a)
    case Sending(id, call) =>
      Enabled(h.commands, Execute(id, call)) && call !in h.roles.calls && StartOf(application, h.commands, id).Some?
    case Storing(_) => true
    case Answering(id) =>
      && Enabled(h.commands, Settle(id)) && id in h.commands.executions
      && h.commands.executions[id] in h.roles.calls && RoleWorld.Settled(h.roles.calls[h.commands.executions[id]])
    case Losing(id) => Enabled(h.commands, Settle(id))
  }

  ghost function Next(application: Text, h: Host, e: Event): Host
    requires Possible(application, h, e)
  {
    match e
    case Handling(a) => h.(commands := Apply(application, h.commands, a))
    case Sending(id, call) =>
      h.(commands := Apply(application, h.commands, Execute(id, call)),
      roles := RoleWorld.Step(h.roles, RoleWorld.Begin(call, StartOf(application, h.commands, id).value)))
    case Storing(a) => h.(roles := RoleWorld.Step(h.roles, a))
    case Answering(id) => h.(commands := Apply(application, h.commands, Settle(id)))
    case Losing(id) => h.(commands := Apply(application, h.commands, Settle(id)), lost := h.lost + {id})
  }

  function Begun(policy: Administration.Policy, store: RoleStore.Store): Host {
    Host(World(map[], map[], {}, map[]), RoleWorld.Initial(policy, store), {})
  }

  /** The host after `events` over a store that held `store`, if each of them was possible when it happened. */
  ghost function HostAfter(application: Text, policy: Administration.Policy, store: RoleStore.Store, events: seq<Event>): Option<Host> {
    if events == [] then Some(Begun(policy, store))
    else
      match HostAfter(application, policy, store, events[..|events| - 1])
      case None => None
      case Some(h) =>
        var e := events[|events| - 1];
        if Possible(application, h, e) then Some(Next(application, h, e)) else None
  }

  // ---------------------------------------------------------------- the two parts are runs of their own

  function CommandsOf(e: Event): seq<Action> {
    match e
    case Handling(a) => [a]
    case Sending(id, call) => [Execute(id, call)]
    case Storing(_) => []
    case Answering(id) => [Settle(id)]
    case Losing(id) => [Settle(id)]
  }

  function CommandActions(events: seq<Event>): seq<Action> {
    if events == [] then [] else CommandActions(events[..|events| - 1]) + CommandsOf(events[|events| - 1])
  }

  lemma CommandStep(application: Text, h: Host, e: Event)
    requires Possible(application, h, e)
    ensures |CommandsOf(e)| <= 1
    ensures if CommandsOf(e) == [] then Next(application, h, e).commands == h.commands
            else Enabled(h.commands, CommandsOf(e)[0]) && Next(application, h, e).commands == Apply(application, h.commands, CommandsOf(e)[0])
  {
    hide Enabled, Apply;
  }

  /** The retries of the host are a run of the retries. */
  lemma {:induction false} CommandsRun(application: Text, policy: Administration.Policy, store: RoleStore.Store, events: seq<Event>)
    requires HostAfter(application, policy, store, events).Some?
    ensures After(application, CommandActions(events)) == Some(HostAfter(application, policy, store, events).value.commands)
  {
    if events != [] {
      var before := events[..|events| - 1];
      CommandsRun(application, policy, store, before);
      var h := HostAfter(application, policy, store, before).value;
      var e := events[|events| - 1];
      CommandStep(application, h, e);
      hide Possible, Next, Enabled, Apply;
      CommandsExtend(application, CommandActions(before), h.commands, CommandsOf(e), Next(application, h, e).commands);
    }
  }

  lemma CommandsExtend(application: Text, actions: seq<Action>, w: World, more: seq<Action>, v: World)
    requires After(application, actions) == Some(w) && |more| <= 1
    requires if more == [] then v == w else Enabled(w, more[0]) && v == Apply(application, w, more[0])
    ensures After(application, actions + more) == Some(v)
  {
    hide Enabled, Apply;
    if more == [] {
      assert actions + more == actions;
    } else {
      var all := actions + more;
      assert all[..|all| - 1] == actions && all[|all| - 1] == more[0];
    }
  }

  lemma RolesStep(application: Text, h: Host, e: Event, store: RoleStore.Store)
    requires Possible(application, h, e) && RoleWorld.Reached(store, h.roles)
    ensures RoleWorld.Reached(store, Next(application, h, e).roles)
  {
    hide RoleWorld.Step, RoleWorld.Reached, Enabled, Apply;
    match e
    case Sending(id, call) => RoleWorld.ReachedNext(store, h.roles, RoleWorld.Begin(call, StartOf(application, h.commands, id).value));
    case Storing(a) => RoleWorld.ReachedNext(store, h.roles, a);
    case _ =>
  }

  // ---------------------------------------------------------------- what ties them together

  predicate Carries(call: RoleWorld.Call, start: RoleWorld.Start) {
    || (call.Granting? && start.StartGrant? && call.grant == start.grant)
    || (call.Revoking? && start.StartRevoke? && call.revoke == start.revoke)
  }

  /** The store call of an attempt carries the command of its manifest. */
  ghost predicate Sent(application: Text, h: Host, id: nat) {
    && id in h.commands.executions && h.commands.executions[id] in h.roles.calls && StartOf(application, h.commands, id).Some?
    && Carries(h.roles.calls[h.commands.executions[id]], StartOf(application, h.commands, id).value)
  }

  ghost predicate SentInv(application: Text, h: Host) {
    forall id | id in h.commands.executions :: Sent(application, h, id)
  }

  predicate Over(h: Host, id: nat) {
    id in h.commands.executions && h.commands.executions[id] in h.roles.calls && RoleWorld.Settled(h.roles.calls[h.commands.executions[id]])
  }

  /** An attempt that has ended with its answer has a store call that has ended. */
  predicate AnsweredInv(h: Host) {
    forall id | id in h.commands.executions && SettledAt(h.commands, id) && id !in h.lost :: Over(h, id)
  }

  /** A store call keeps its command, and once settled it stays so. */
  lemma CallKept(w: RoleWorld.World, a: RoleWorld.Action, p: nat, start: RoleWorld.Start)
    requires p in w.calls && Carries(w.calls[p], start)
    ensures p in RoleWorld.Step(w, a).calls && Carries(RoleWorld.Step(w, a).calls[p], start)
    ensures RoleWorld.Settled(w.calls[p]) ==> RoleWorld.Settled(RoleWorld.Step(w, a).calls[p])
  {
    if a.Advance? && a.p == p {
      RoleWorld.OwnStep(w, p, a.choice);
      CallStepKept(w.policy, w.store, w.calls[p], a.choice, start);
    } else {
      RoleWorld.OthersStay(w, a, p);
    }
    hide *;
  }

  lemma CallStepKept(
    policy: Administration.Policy, s: RoleStore.Store, call: RoleWorld.Call, choice: Administration.Choice, start: RoleWorld.Start)
    requires Carries(call, start)
    ensures Carries(RoleWorld.CallStep(policy, s, call, choice).1, start)
    ensures RoleWorld.Settled(call) ==> RoleWorld.Settled(RoleWorld.CallStep(policy, s, call, choice).1)
  {
    var rejection := choice.rejection;
    if call.Granting? && call.grantPc.GrantDone? {
      assert RoleStore.GrantStep(s, call.grant, call.grantPc, rejection) == (s, call.grantPc);
    }
    if call.Revoking? && call.revokePc.RevokeDone? {
      assert RoleStore.RevokeStep(s, call.revoke, call.revokePc, rejection) == (s, call.revokePc);
    }
    hide RoleStore.GrantStep, RoleStore.RevokeStep;
  }

  /** A handling step leaves a retry's store command as it was. */
  lemma StartKept(application: Text, w: World, a: Action, id: nat)
    requires Enabled(w, a) && StartOf(application, w, id).Some? && id in w.retries
    ensures StartOf(application, Apply(application, w, a), id) == StartOf(application, w, id)
  {
    StepBinds(application, w, a, w.retries[id].key);
    RetryKept(application, w, a, id);
    hide Enabled, Apply, StartFor;
  }

  lemma RetryKept(application: Text, w: World, a: Action, id: nat)
    requires Enabled(w, a) && id in w.retries
    ensures var v := Apply(application, w, a);
            id in v.retries && v.retries[id].key == w.retries[id].key && v.retries[id].command == w.retries[id].command
  {
    hide Fingerprint, Reached;
  }

  /** An attempt is behind a manifest of its command's kind. */
  ghost predicate Sendable(application: Text, w: World) {
    forall id | id in w.retries && Attempted(w.retries[id].pc) :: StartOf(application, w, id).Some?
  }

  lemma SendableStep(application: Text, w: World, a: Action)
    requires Enabled(w, a) && Inv(application, w) && Sendable(application, w)
    ensures Sendable(application, Apply(application, w, a))
  {
    var v := Apply(application, w, a);
    forall id | id in v.retries && Attempted(v.retries[id].pc) ensures StartOf(application, v, id).Some? {
      if id in w.retries && Attempted(w.retries[id].pc) {
        StartKept(application, w, a, id);
      } else {
        NewAttempt(application, w, a, id);
      }
    }
  }

  lemma NewAttempt(application: Text, w: World, a: Action, id: nat)
    requires Enabled(w, a) && BindingInv(application, w) && IdsInv(w) && !(id in w.retries && Attempted(w.retries[id].pc))
    requires var v := Apply(application, w, a); id in v.retries && Attempted(v.retries[id].pc)
    ensures StartOf(application, Apply(application, w, a), id).Some?
  {
    hide Fingerprint, Reached;
    OnlyProceedingAttempts(application, w, a, id);
    FingerprintsIdentifyCommands(application, w.retries[id].command, w.registry[w.retries[id].key].command);
  }

  lemma OnlyProceedingAttempts(application: Text, w: World, a: Action, id: nat)
    requires Enabled(w, a) && !(id in w.retries && Attempted(w.retries[id].pc))
    requires var v := Apply(application, w, a); id in v.retries && Attempted(v.retries[id].pc)
    ensures a == Proceed(id)
  {
    hide Fingerprint, Reached;
  }

  ghost predicate CommandsOk(application: Text, w: World) {
    Inv(application, w) && Sendable(application, w)
  }

  lemma HandlingKeeps(application: Text, h: Host, a: Action, id: nat)
    requires Enabled(h.commands, a) && !a.Execute? && Sent(application, h, id)
    ensures var commands := Apply(application, h.commands, a);
            commands.executions == h.commands.executions && Sent(application, h.(commands := commands), id)
    ensures var commands := Apply(application, h.commands, a);
            SettledAt(commands, id) ==> SettledAt(h.commands, id) || a == Settle(id)
  {
    StartKept(application, h.commands, a, id);
    hide StartOf, Fingerprint, Carries;
  }

  lemma StoringKeeps(application: Text, h: Host, a: RoleWorld.Action, id: nat)
    requires Sent(application, h, id)
    ensures Sent(application, h.(roles := RoleWorld.Step(h.roles, a)), id)
    ensures Over(h, id) ==> Over(h.(roles := RoleWorld.Step(h.roles, a)), id)
  {
    CallKept(h.roles, a, h.commands.executions[id], StartOf(application, h.commands, id).value);
    hide StartOf, Carries, RoleWorld.Step, RoleWorld.Settled;
  }

  lemma SendingCarries(w: RoleWorld.World, call: nat, start: RoleWorld.Start)
    requires call !in w.calls && (start.StartGrant? || start.StartRevoke?)
    ensures var v := RoleWorld.Step(w, RoleWorld.Begin(call, start));
            && call in v.calls && Carries(v.calls[call], start)
            && forall p | p in w.calls :: p in v.calls && v.calls[p] == w.calls[p]
  {
    hide RoleWorld.CallStep;
  }

  lemma SendingKeeps(application: Text, h: Host, id: nat, call: nat)
    requires Possible(application, h, Sending(id, call)) && SentInv(application, h) && AnsweredInv(h)
    ensures var k := Next(application, h, Sending(id, call)); SentInv(application, k) && AnsweredInv(k)
  {
    var start := StartOf(application, h.commands, id).value;
    var k := Next(application, h, Sending(id, call));
    SendingCarries(h.roles, call, start);
    hide RoleWorld.Step, RoleWorld.Settled, Carries, Reached;
    forall x | x in k.commands.executions ensures Sent(application, k, x) {
      if x != id {
        assert Sent(application, h, x);
      }
      StartKept(application, h.commands, Execute(id, call), x);
    }
    hide StartOf, Fingerprint;
    forall x | x in k.commands.executions && SettledAt(k.commands, x) && x !in k.lost ensures Over(k, x) {
      assert x != id && Over(h, x);
    }
  }

  lemma {:induction false} HostSafe(application: Text, policy: Administration.Policy, store: RoleStore.Store, events: seq<Event>)
    requires RoleStoreSafety.StoreInv(store) && HostAfter(application, policy, store, events).Some?
    ensures var h := HostAfter(application, policy, store, events).value;
            && CommandsOk(application, h.commands) && RoleWorld.Reached(store, h.roles)
            && SentInv(application, h) && AnsweredInv(h)
  {
    if events == [] {
      hide *;
      RoleWorld.ReachedFirst(policy, store);
      BegunIsOk(application, policy, store);
    } else {
      var before := events[..|events| - 1];
      HostSafe(application, policy, store, before);
      CommandsRun(application, policy, store, before);
      var h := HostAfter(application, policy, store, before).value;
      var e := events[|events| - 1];
      hide *;
      HostStep(application, store, CommandActions(before), h, e);
    }
  }

  lemma BegunIsOk(application: Text, policy: Administration.Policy, store: RoleStore.Store)
    ensures HostAfter(application, policy, store, []) == Some(Begun(policy, store))
    ensures var h := Begun(policy, store);
            && h.roles == RoleWorld.Initial(policy, store)
            && CommandsOk(application, h.commands) && SentInv(application, h) && AnsweredInv(h)
  {
    RunKeepsInv(application, []);
    assert After(application, []) == Some(Begun(policy, store).commands);
    hide RoleWorld.Initial;
  }

  lemma HostStep(application: Text, store: RoleStore.Store, actions: seq<Action>, h: Host, e: Event)
    requires Possible(application, h, e) && After(application, actions) == Some(h.commands)
    requires CommandsOk(application, h.commands) && RoleWorld.Reached(store, h.roles) && SentInv(application, h) && AnsweredInv(h)
    ensures var k := Next(application, h, e);
            && CommandsOk(application, k.commands) && RoleWorld.Reached(store, k.roles)
            && SentInv(application, k) && AnsweredInv(k)
  {
    hide *;
    RolesStep(application, h, e, store);
    CommandsStay(application, actions, h, e);
    TiesStay(application, h, e);
  }

  lemma CommandsStay(application: Text, actions: seq<Action>, h: Host, e: Event)
    requires Possible(application, h, e) && After(application, actions) == Some(h.commands) && CommandsOk(application, h.commands)
    ensures CommandsOk(application, Next(application, h, e).commands)
  {
    CommandStep(application, h, e);
    var v := Next(application, h, e).commands;
    hide Possible, Next, Inv, Sendable, Enabled, Apply;
    if CommandsOf(e) != [] {
      CommandsExtend(application, actions, h.commands, CommandsOf(e), v);
      RunKeepsInv(application, actions + CommandsOf(e));
      SendableStep(application, h.commands, CommandsOf(e)[0]);
    }
  }

  lemma TiesStay(application: Text, h: Host, e: Event)
    requires Possible(application, h, e) && SentInv(application, h) && AnsweredInv(h)
    ensures var k := Next(application, h, e); SentInv(application, k) && AnsweredInv(k)
  {
    hide *;
    match e
    case Sending(id, call) => SendingKeeps(application, h, id, call);
    case Storing(a) => StoringKeepsTies(application, h, a);
    case _ => HandlingKeepsTies(application, h, e);
  }

  lemma StoringKeepsTies(application: Text, h: Host, a: RoleWorld.Action)
    requires Possible(application, h, Storing(a)) && SentInv(application, h) && AnsweredInv(h)
    ensures var k := Next(application, h, Storing(a)); SentInv(application, k) && AnsweredInv(k)
  {
    hide Enabled, Apply, Sent, Over, RoleWorld.Step, SettledAt;
    var k := Next(application, h, Storing(a));
    forall x | x in h.commands.executions ensures Sent(application, k, x) && (Over(h, x) ==> Over(k, x)) {
      StoringKeeps(application, h, a, x);
    }
  }

  lemma HandlingKeepsTies(application: Text, h: Host, e: Event)
    requires Possible(application, h, e) && !e.Sending? && !e.Storing? && SentInv(application, h) && AnsweredInv(h)
    ensures var k := Next(application, h, e); SentInv(application, k) && AnsweredInv(k)
  {
    var k := Next(application, h, e);
    var a := CommandsOf(e)[0];
    HandlingParts(application, h, e);
    hide Next, Enabled, Apply, Sent, SettledAt, StartOf;
    forall x | x in h.commands.executions
      ensures Sent(application, k, x) && (Over(h, x) ==> Over(k, x))
      ensures SettledAt(k.commands, x) ==> SettledAt(h.commands, x) || a == Settle(x)
    {
      HandlingKeeps(application, h, a, x);
      SentSame(application, h, k, x);
    }
    hide Over;
  }

  lemma HandlingParts(application: Text, h: Host, e: Event)
    requires Possible(application, h, e) && !e.Sending? && !e.Storing?
    ensures |CommandsOf(e)| == 1 && Enabled(h.commands, CommandsOf(e)[0]) && !CommandsOf(e)[0].Execute?
    ensures var k := Next(application, h, e);
            && k.commands == Apply(application, h.commands, CommandsOf(e)[0]) && k.roles == h.roles
            && k.commands.executions == h.commands.executions && h.lost <= k.lost
            && (forall x | x !in k.lost && CommandsOf(e)[0] == Settle(x) :: Over(h, x))
  {
    hide Fingerprint, Reached, StartOf, RoleWorld.Step, RoleWorld.Settled;
  }

  lemma SentSame(application: Text, h: Host, k: Host, id: nat)
    requires k.commands.executions == h.commands.executions && k.roles == h.roles
    ensures Over(k, id) == Over(h, id)
    ensures Sent(application, k, id) == Sent(application, h.(commands := k.commands), id)
  {
    hide RoleWorld.Settled;
  }

  // ---------------------------------------------------------------- the results

  /** Any attempt whose turn has come may send: its manifest is there and is of its command's kind. */
  lemma NothingElseIsAwaited(
    application: Text, policy: Administration.Policy, store: RoleStore.Store, events: seq<Event>, id: nat, call: nat)
    requires RoleStoreSafety.StoreInv(store) && HostAfter(application, policy, store, events).Some?
    requires var h := HostAfter(application, policy, store, events).value;
             Enabled(h.commands, Execute(id, call)) && call !in h.roles.calls
    ensures Possible(application, HostAfter(application, policy, store, events).value, Sending(id, call))
  {
    HostSafe(application, policy, store, events);
    hide HostAfter, RoleWorld.Reached, Inv;
  }

  /** Attempts of one key have one store command. */
  lemma OneStart(application: Text, w: World, a: nat, b: nat)
    requires CommandsOk(application, w) && a in w.executions && b in w.executions && a in w.retries && b in w.retries
    requires w.retries[a].key == w.retries[b].key
    ensures StartOf(application, w, a) == StartOf(application, w, b)
    ensures w.executions[a] == w.executions[b] ==> a == b
  {
    assert HasBegun(w, a) && HasBegun(w, b);
    FingerprintsIdentifyCommands(application, w.retries[a].command, w.retries[b].command);
    hide Fingerprint, StartFor;
  }

  lemma SentGrant(application: Text, h: Host, id: nat)
    requires Sent(application, h, id) && RoleTheorems.GrantedBy(h.roles.calls[h.commands.executions[id]]).Some?
    ensures StartOf(application, h.commands, id) ==
            Some(RoleWorld.StartGrant(RoleTheorems.GrantedBy(h.roles.calls[h.commands.executions[id]]).value))
  {
    hide StartOf;
  }

  /**
   * However retries, store calls and failures interleave, and whatever else the store is doing, at most one retry of a
   * key is ever answered `granted`.
   */
  lemma GrantedAtMostOnce(
    application: Text, policy: Administration.Policy, store: RoleStore.Store, events: seq<Event>, a: nat, b: nat)
    requires RoleStoreSafety.StoreInv(store) && HostAfter(application, policy, store, events).Some?
    requires var h := HostAfter(application, policy, store, events).value; var w := h.commands;
             && a in w.executions && b in w.executions && a in w.retries && b in w.retries
             && w.retries[a].key == w.retries[b].key
             && w.executions[a] in h.roles.calls && RoleTheorems.GrantedBy(h.roles.calls[w.executions[a]]).Some?
             && w.executions[b] in h.roles.calls && RoleTheorems.GrantedBy(h.roles.calls[w.executions[b]]).Some?
    ensures a == b
  {
    HostSafe(application, policy, store, events);
    var h := HostAfter(application, policy, store, events).value;
    hide HostAfter, RoleTheorems.GrantedBy, CommandsOk, Sent;
    OneStart(application, h.commands, a, b);
    assert Sent(application, h, a) && Sent(application, h, b);
    SentGrant(application, h, a);
    SentGrant(application, h, b);
    ReachedGrantedOnce(store, h.roles, h.commands.executions[a], h.commands.executions[b]);
  }

  lemma ReachedGrantedOnce(store: RoleStore.Store, w: RoleWorld.World, p: nat, q: nat)
    requires RoleWorld.Reached(store, w) && p in w.calls && q in w.calls
    requires RoleTheorems.GrantedBy(w.calls[p]).Some? && RoleTheorems.GrantedBy(w.calls[p]) == RoleTheorems.GrantedBy(w.calls[q])
    ensures p == q
  {
    hide RoleWorld.Step, RoleTheorems.GrantedBy, RoleStoreSafety.StoreInv;
    var r: RoleWorld.Run :| RoleWorld.IsRun(r) && r.states[0].store == store && r.states[|r.states| - 1] == w;
    hide RoleWorld.IsRun;
    RoleTheorems.GrantedOnce(r, |r.states| - 1, p, q);
  }

  /** Two retries of a key are in the store at the same time only after one of them has lost its answer. */
  lemma StoreCallsDoNotOverlap(
    application: Text, policy: Administration.Policy, store: RoleStore.Store, events: seq<Event>, a: nat, b: nat)
    requires RoleStoreSafety.StoreInv(store) && HostAfter(application, policy, store, events).Some? && a != b
    requires var h := HostAfter(application, policy, store, events).value; var w := h.commands;
             && a in w.executions && b in w.executions && a in w.retries && b in w.retries
             && w.retries[a].key == w.retries[b].key && !Over(h, a) && !Over(h, b)
    ensures var h := HostAfter(application, policy, store, events).value; a in h.lost || b in h.lost
  {
    HostSafe(application, policy, store, events);
    CommandsRun(application, policy, store, events);
    var h := HostAfter(application, policy, store, events).value;
    hide HostAfter, Over, SentInv, RoleWorld.Reached;
    assert HasBegun(h.commands, a) && HasBegun(h.commands, b);
    if h.commands.retries[a].pc.Running? && h.commands.retries[b].pc.Running? {
      OneExecutionAtATime(application, CommandActions(events), a, b);
    }
  }
}
