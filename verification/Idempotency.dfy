/**
 * Administrative commands bound to idempotency keys: every retry of a command shares one prepared manifest and waits
 * its turn, and another command under the same key is turned away.
 */
module Idempotency {
  import opened Prelude
  import opened TextOrder
  import opened Json
  import opened CanonicalJson
  import RoleRecords

  // ---------------------------------------------------------------- fingerprints

  datatype Command =
    | GrantRole(actor: Text, principalId: Text, role: Text, scope: RoleRecords.Scope)
    | RevokeRole(actor: Text, assignmentId: Text, reason: Option<Text>)

  const APPLICATION_ID: Text := Ascii("applicationId")
  const OPERATION: Text := Ascii("operation")
  const ACTOR: Text := Ascii("actorPrincipalId")
  const PRINCIPAL: Text := Ascii("principalId")
  const ROLE: Text := Ascii("role")
  const SCOPE: Text := Ascii("scope")
  const KIND: Text := Ascii("kind")
  const ORGANIZATION_ID: Text := Ascii("organizationId")
  const ASSIGNMENT_ID: Text := Ascii("assignmentId")
  const REASON: Text := Ascii("reason")
  const GRANT: Text := Ascii("grant")
  const REVOKE: Text := Ascii("revoke")
  const APPLICATION: Text := Ascii("application")
  const ORGANIZATION: Text := Ascii("organization")

  function ScopeValue(s: RoleRecords.Scope): Value {
    match s
    case Application => Obj(map[KIND := Str(APPLICATION)])
    case Organization(id) => Obj(map[KIND := Str(ORGANIZATION), ORGANIZATION_ID := Str(id)])
  }

  /** The document whose canonical text is a command's fingerprint. */
  function Document(application: Text, c: Command): Value {
    match c
    case GrantRole(actor, principalId, role, scope) =>
      Obj(map[APPLICATION_ID := Str(application), OPERATION := Str(GRANT), ACTOR := Str(actor),
              PRINCIPAL := Str(principalId), ROLE := Str(role), SCOPE := ScopeValue(scope)])
    case RevokeRole(actor, assignmentId, reason) =>
      Obj(map[APPLICATION_ID := Str(application), OPERATION := Str(REVOKE), ACTOR := Str(actor),
              ASSIGNMENT_ID := Str(assignmentId), REASON := if reason.Some? then Str(reason.value) else Null])
  }

  lemma NamesApart()
    ensures |APPLICATION_ID| == 13 && |OPERATION| == 9 && |ACTOR| == 16 && |PRINCIPAL| == 11 && |ROLE| == 4 && |SCOPE| == 5
    ensures |ASSIGNMENT_ID| == 12 && |REASON| == 6 && |KIND| == 4 && |ORGANIZATION_ID| == 14
    ensures |GRANT| == 5 && |REVOKE| == 6 && |APPLICATION| == 11 && |ORGANIZATION| == 12
  {
  }

  lemma ScopeValuesDiffer(s: RoleRecords.Scope, t: RoleRecords.Scope)
    ensures ScopeValue(s) == ScopeValue(t) ==> s == t
    ensures Integral(ScopeValue(s))
  {
    NamesApart();
    assert ScopeValue(s).members[KIND] == Str(if s.Application? then APPLICATION else ORGANIZATION);
    assert ScopeValue(t).members[KIND] == Str(if t.Application? then APPLICATION else ORGANIZATION);
    if s.Organization? && t.Organization? {
      assert ScopeValue(s).members[ORGANIZATION_ID] == Str(s.organizationId);
      assert ScopeValue(t).members[ORGANIZATION_ID] == Str(t.organizationId);
    }
  }

  lemma GrantCells(application: Text, c: Command)
    requires c.GrantRole?
    ensures var m := Document(application, c).members;
            && m.Keys == {APPLICATION_ID, OPERATION, ACTOR, PRINCIPAL, ROLE, SCOPE}
            && m[OPERATION] == Str(GRANT) && m[ACTOR] == Str(c.actor) && m[PRINCIPAL] == Str(c.principalId)
            && m[ROLE] == Str(c.role) && m[SCOPE] == ScopeValue(c.scope) && m[APPLICATION_ID] == Str(application)
  {
    NamesApart();
  }

  lemma RevokeCells(application: Text, c: Command)
    requires c.RevokeRole?
    ensures var m := Document(application, c).members;
            && m.Keys == {APPLICATION_ID, OPERATION, ACTOR, ASSIGNMENT_ID, REASON}
            && m[OPERATION] == Str(REVOKE) && m[ACTOR] == Str(c.actor) && m[ASSIGNMENT_ID] == Str(c.assignmentId)
            && m[REASON] == (if c.reason.Some? then Str(c.reason.value) else Null) && m[APPLICATION_ID] == Str(application)
  {
    NamesApart();
  }

  lemma DocumentIntegral(application: Text, c: Command)
    ensures Integral(Document(application, c))
  {
    match c
    case GrantRole(_, _, _, scope) =>
      GrantCells(application, c);
      ScopeValuesDiffer(scope, scope);
      hide Document, ScopeValue;
    case RevokeRole(_, _, _) =>
      RevokeCells(application, c);
      hide Document;
  }

  lemma DocumentsDiffer(application: Text, c: Command, d: Command)
    requires Document(application, c) == Document(application, d)
    ensures c == d
  {
    NamesApart();
    if c.GrantRole? {
      GrantCells(application, c);
      if d.GrantRole? {
        GrantCells(application, d);
        ScopeValuesDiffer(c.scope, d.scope);
      } else {
        RevokeCells(application, d);
      }
    } else {
      RevokeCells(application, c);
      if d.GrantRole? {
        GrantCells(application, d);
      } else {
        RevokeCells(application, d);
      }
    }
    hide Document, ScopeValue;
  }

  ghost function Fingerprint(application: Text, c: Command): Text {
    DocumentIntegral(application, c);
    Canonical(Document(application, c))
  }

  /** Two commands have one fingerprint exactly when they are the same command. */
  lemma FingerprintsIdentifyCommands(application: Text, c: Command, d: Command)
    ensures Fingerprint(application, c) == Fingerprint(application, d) <==> c == d
  {
    DocumentIntegral(application, c);
    DocumentIntegral(application, d);
    CanonicalTextsIdentifyValues(Document(application, c), Document(application, d));
    if Document(application, c) == Document(application, d) {
      DocumentsDiffer(application, c, d);
    }
    hide Document, Canonical, Integral;
  }

  // ---------------------------------------------------------------- the registry

  /** What is prepared once for a command: generated ids and an instant, and for a revoke the token it read. */
  datatype Manifest =
    | GrantManifest(assignmentId: Text, auditEventId: Text, at: int)
    | RevokeManifest(expectedToken: nat, auditEventId: Text, at: int)
    | NothingToRevoke

  function GeneratedIds(m: Manifest): set<Text> {
    match m
    case GrantManifest(assignmentId, auditEventId, _) => {assignmentId, auditEventId}
    case RevokeManifest(_, auditEventId, _) => {auditEventId}
    case NothingToRevoke => {}
  }

  /**
   * A binding: its command's fingerprint, the command its preparation was given, its manifest once prepared, and the
   * attempts put on its execution chain.
   */
  datatype Entry = Entry(fingerprint: Text, command: Command, manifest: Option<Manifest>, queue: seq<nat>)

  type Registry = map<Text, Entry>

  predicate Conflicts(r: Registry, key: Text, fingerprint: Text) {
    key in r && r[key].fingerprint != fingerprint
  }

  function Bound(r: Registry, key: Text, fingerprint: Text, c: Command): Registry {
    if key in r then r else r[key := Entry(fingerprint, c, None, [])]
  }

  function Prepared(r: Registry, key: Text, m: Manifest): Registry {
    if key in r && r[key].manifest.None? then r[key := r[key].(manifest := Some(m))] else r
  }

  function Enqueued(r: Registry, key: Text, attempt: nat): Registry {
    if key in r then r[key := r[key].(queue := r[key].queue + [attempt])] else r
  }

  /** `administrativeCommandManifests` and the `executionTail` of each of its entries. */
  class AdministrativeCommands {
    var manifests: Registry

    constructor ()
      ensures manifests == map[]
    {
      manifests := map[];
    }

    /** `bindAdministrativeCommand`; `prepare` says that the caller's preparation is the one to run. */
    method Bind(key: Text, fingerprint: Text, c: Command) returns (ok: bool, prepare: bool)
      modifies this
      ensures ok == !Conflicts(old(manifests), key, fingerprint)
      ensures prepare == (key !in old(manifests))
      ensures manifests == if ok then Bound(old(manifests), key, fingerprint, c) else old(manifests)
    {
      if key in manifests {
        return manifests[key].fingerprint == fingerprint, false;
      }
      manifests := manifests[key := Entry(fingerprint, c, None, [])];
      return true, true;
    }

    /** The preparation promise settles with its manifest. */
    method Prepare(key: Text, m: Manifest)
      requires key in manifests && manifests[key].manifest.None?
      modifies this
      ensures manifests == Prepared(old(manifests), key, m)
    {
      manifests := manifests[key := manifests[key].(manifest := Some(m))];
    }

    /** `enqueue`: the attempt goes behind the tail it finds, and becomes the tail. */
    method Enqueue(key: Text, attempt: nat) returns (before: Option<nat>)
      requires key in manifests
      modifies this
      ensures manifests == Enqueued(old(manifests), key, attempt)
      ensures before == var q := old(manifests[key].queue); if q == [] then None else Some(q[|q| - 1])
    {
      var queue := manifests[key].queue;
      before := if queue == [] then None else Some(queue[|queue| - 1]);
      manifests := manifests[key := manifests[key].(queue := queue + [attempt])];
    }
  }

  // ---------------------------------------------------------------- retries, interleaved

  /** `Ended` is a retry answered without the store: its preparation failed, or found nothing to revoke. */
  datatype Pc = AwaitingManifest | Queued(position: nat) | Running(position: nat) | Settled(position: nat) | Conflicted | Ended

  datatype Retry = Retry(key: Text, command: Command, pc: Pc)

  /** `generated` is `generatedLifecycleIds`; `executions` gives the role-store call each attempt made. */
  datatype World = World(registry: Registry, retries: map<nat, Retry>, generated: set<Text>, executions: map<nat, nat>)

  datatype Action =
    | Submit(id: nat, key: Text, command: Command)
    | FinishPreparing(key: Text, manifest: Manifest)
    | Proceed(id: nat)
    | Execute(id: nat, call: nat)
    | Settle(id: nat)         // the store answered, refused or failed; the queue moves on in every case
    | GiveUp(id: nat)         // the preparation failed

  predicate SettledAt(w: World, attempt: nat) {
    attempt in w.retries && w.retries[attempt].pc.Settled?
  }

  /** The attempt before a queued one on its chain has settled, whether it succeeded or failed. */
  predicate Reached(w: World, key: Text, position: nat) {
    && key in w.registry && position < |w.registry[key].queue|
    && (position == 0 || SettledAt(w, w.registry[key].queue[position - 1]))
  }

  ghost predicate Enabled(w: World, a: Action) {
    match a
    case Submit(id, _, _) => id !in w.retries
    case FinishPreparing(key, m) =>
      && key in w.registry && w.registry[key].manifest.None?
      && GeneratedIds(m) !! w.generated && (m.GrantManifest? <==> w.registry[key].command.GrantRole?)
    case Proceed(id) =>
      id in w.retries && w.retries[id].pc.AwaitingManifest? && w.retries[id].key in w.registry
      && w.registry[w.retries[id].key].manifest.Some?
    case Execute(id, call) =>
      id in w.retries && w.retries[id].pc.Queued? && Reached(w, w.retries[id].key, w.retries[id].pc.position)
      && call !in w.executions.Values
    case Settle(id) => id in w.retries && w.retries[id].pc.Running?
    case GiveUp(id) => id in w.retries && w.retries[id].pc.AwaitingManifest?
  }

  function Move(w: World, id: nat, pc: Pc): World
    requires id in w.retries
  {
    w.(retries := w.retries[id := w.retries[id].(pc := pc)])
  }

  ghost function Apply(application: Text, w: World, a: Action): World
    requires Enabled(w, a)
  {
    match a
    case Submit(id, key, command) =>
      var fingerprint := Fingerprint(application, command);
      if Conflicts(w.registry, key, fingerprint) then w.(retries := w.retries[id := Retry(key, command, Conflicted)])
      else w.(registry := Bound(w.registry, key, fingerprint, command), retries := w.retries[id := Retry(key, command, AwaitingManifest)])
    case FinishPreparing(key, m) =>
      w.(registry := Prepared(w.registry, key, m), generated := w.generated + GeneratedIds(m))
    case Proceed(id) =>
      var key := w.retries[id].key;
      if w.registry[key].manifest.value.NothingToRevoke? then Move(w, id, Ended)
      else Move(w, id, Queued(|w.registry[key].queue|)).(registry := Enqueued(w.registry, key, id))
    case Execute(id, call) =>
      Move(w, id, Running(w.retries[id].pc.position)).(executions := w.executions[id := call])
    case Settle(id) => Move(w, id, Settled(w.retries[id].pc.position))
    case GiveUp(id) => Move(w, id, Ended)
  }

  /** The world after `actions`, if each of them was possible when it happened. */
  ghost function After(application: Text, actions: seq<Action>): Option<World> {
    if actions == [] then Some(World(map[], map[], {}, map[]))
    else
      match After(application, actions[..|actions| - 1])
      case None => None
      case Some(w) =>
        var a := actions[|actions| - 1];
        if Enabled(w, a) then Some(Apply(application, w, a)) else None
  }

  predicate Attempted(pc: Pc) {
    pc.Queued? || pc.Running? || pc.Settled?
  }

  predicate Live(pc: Pc) {
    Attempted(pc) || pc.AwaitingManifest?
  }

  /** A retry that was not turned away has the command its key is bound to. */
  ghost predicate BindingInv(application: Text, w: World) {
    && (forall key | key in w.registry :: w.registry[key].fingerprint == Fingerprint(application, w.registry[key].command))
    && (forall id | id in w.retries && Live(w.retries[id].pc) ::
          w.retries[id].key in w.registry && w.registry[w.retries[id].key].fingerprint == Fingerprint(application, w.retries[id].command))
  }

  /** An attempt stands in its key's queue where it says, behind a prepared manifest; the queue holds nothing else. */
  ghost predicate QueueInv(w: World) {
    && (forall id | id in w.retries && Attempted(w.retries[id].pc) :: InQueue(w, id))
    && (forall key, i | key in w.registry && 0 <= i < |w.registry[key].queue| :: Stands(w, key, i))
  }

  predicate Stands(w: World, key: Text, i: int)
    requires key in w.registry && 0 <= i < |w.registry[key].queue|
  {
    var id := w.registry[key].queue[i];
    id in w.retries && w.retries[id].key == key && Attempted(w.retries[id].pc) && w.retries[id].pc.position == i
  }

  predicate HasBegun(w: World, id: nat) {
    id in w.retries && (w.retries[id].pc.Running? || w.retries[id].pc.Settled?)
  }

  /** Where an attempt has begun, everything before it in its queue has settled. */
  ghost predicate TurnInv(w: World) {
    forall id, i | HasBegun(w, id) && 0 <= i < w.retries[id].pc.position
                   && w.retries[id].key in w.registry && i < |w.registry[w.retries[id].key].queue| ::
      SettledAt(w, w.registry[w.retries[id].key].queue[i])
  }

  /** Ids are generated once, and a manifest is of its command's kind. */
  ghost predicate IdsInv(w: World) {
    && (forall key | key in w.registry && w.registry[key].manifest.Some? ::
          && GeneratedIds(w.registry[key].manifest.value) <= w.generated
          && (w.registry[key].manifest.value.GrantManifest? <==> w.registry[key].command.GrantRole?))
    && (forall k, l | k in w.registry && l in w.registry && k != l
                      && w.registry[k].manifest.Some? && w.registry[l].manifest.Some? ::
          GeneratedIds(w.registry[k].manifest.value) !! GeneratedIds(w.registry[l].manifest.value))
  }

  /** Only attempts that have begun have made store calls, and no two made the same one. */
  ghost predicate ExecutionInv(w: World) {
    && (forall id | id in w.executions :: HasBegun(w, id))
    && (forall a, b | a in w.executions && b in w.executions && a != b :: w.executions[a] != w.executions[b])
  }

  ghost predicate Inv(application: Text, w: World) {
    BindingInv(application, w) && QueueInv(w) && TurnInv(w) && IdsInv(w) && ExecutionInv(w)
  }

  lemma StepKeepsBinding(application: Text, w: World, a: Action)
    requires Enabled(w, a) && BindingInv(application, w)
    ensures BindingInv(application, Apply(application, w, a))
  {
    hide Fingerprint, Reached;
  }

  lemma StepKeepsQueue(application: Text, w: World, a: Action)
    requires Enabled(w, a) && QueueInv(w)
    ensures QueueInv(Apply(application, w, a))
  {
    var v := Apply(application, w, a);
    hide Apply, Enabled, Stands, Attempted, Reached;
    forall id | id in v.retries && Attempted(v.retries[id].pc) ensures InQueue(v, id) {
      AttemptStands(application, w, a, id);
    }
    forall key, i | key in v.registry && 0 <= i < |v.registry[key].queue| ensures Stands(v, key, i) {
      QueueStands(application, w, a, key, i);
    }
  }

  predicate InQueue(w: World, id: nat)
    requires id in w.retries && Attempted(w.retries[id].pc)
  {
    var key := w.retries[id].key;
    && key in w.registry && w.registry[key].manifest.Some?
    && w.retries[id].pc.position < |w.registry[key].queue| && w.registry[key].queue[w.retries[id].pc.position] == id
  }

  lemma AttemptStands(application: Text, w: World, a: Action, id: nat)
    requires Enabled(w, a) && QueueInv(w)
    requires var v := Apply(application, w, a); id in v.retries && Attempted(v.retries[id].pc)
    ensures InQueue(Apply(application, w, a), id)
  {
    hide Fingerprint, Reached, Stands;
  }

  lemma QueueStands(application: Text, w: World, a: Action, key: Text, i: int)
    requires Enabled(w, a) && QueueInv(w)
    requires var v := Apply(application, w, a); key in v.registry && 0 <= i < |v.registry[key].queue|
    ensures Stands(Apply(application, w, a), key, i)
  {
    assert key in w.registry && i < |w.registry[key].queue| ==> Stands(w, key, i);
    hide Fingerprint, Reached, QueueInv;
  }

  lemma StepKeepsTurn(application: Text, w: World, a: Action)
    requires Enabled(w, a) && QueueInv(w) && TurnInv(w)
    ensures TurnInv(Apply(application, w, a))
  {
    hide Fingerprint;
    var v := Apply(application, w, a);
    forall id, i | HasBegun(v, id) && 0 <= i < v.retries[id].pc.position
                   && v.retries[id].key in v.registry && i < |v.registry[v.retries[id].key].queue|
      ensures SettledAt(v, v.registry[v.retries[id].key].queue[i])
    {
      TurnOne(application, w, a, id, i);
    }
  }

  /** An attempt that has begun had begun before, or its turn had come. */
  lemma Began(application: Text, w: World, a: Action, id: nat)
    requires Enabled(w, a) && HasBegun(Apply(application, w, a), id)
    ensures var v := Apply(application, w, a);
            && id in w.retries && w.retries[id].key == v.retries[id].key && Attempted(w.retries[id].pc)
            && w.retries[id].pc.position == v.retries[id].pc.position
            && (HasBegun(w, id) || Reached(w, w.retries[id].key, w.retries[id].pc.position))
  {
    hide Fingerprint, Reached;
  }

  lemma QueueGrows(application: Text, w: World, a: Action, key: Text, i: int)
    requires Enabled(w, a) && key in w.registry && 0 <= i < |w.registry[key].queue|
    ensures var v := Apply(application, w, a);
            && key in v.registry && i < |v.registry[key].queue| && v.registry[key].queue[i] == w.registry[key].queue[i]
            && (SettledAt(w, w.registry[key].queue[i]) ==> SettledAt(v, w.registry[key].queue[i]))
  {
    hide Fingerprint, Reached;
  }

  lemma TurnOne(application: Text, w: World, a: Action, id: nat, i: int)
    requires Enabled(w, a) && QueueInv(w) && TurnInv(w)
    requires var v := Apply(application, w, a);
             && HasBegun(v, id) && 0 <= i < v.retries[id].pc.position
             && v.retries[id].key in v.registry && i < |v.registry[v.retries[id].key].queue|
    ensures var v := Apply(application, w, a); SettledAt(v, v.registry[v.retries[id].key].queue[i])
  {
    Began(application, w, a, id);
    var key, position := w.retries[id].key, w.retries[id].pc.position;
    assert key in w.registry && position < |w.registry[key].queue|;
    QueueGrows(application, w, a, key, i);
    hide Apply, Enabled;
    if !HasBegun(w, id) {
      SettledBefore(w, key, position, i);
    }
  }

  /** When an attempt's turn has come, not only the attempt before it but every earlier one has settled. */
  lemma SettledBefore(w: World, key: Text, position: nat, i: nat)
    requires QueueInv(w) && TurnInv(w) && Reached(w, key, position) && i < position
    ensures SettledAt(w, w.registry[key].queue[i])
  {
    var before := w.registry[key].queue[position - 1];
    assert Stands(w, key, position - 1);
    assert HasBegun(w, before) && w.retries[before].pc.position == position - 1;
  }

  lemma StepKeepsIds(application: Text, w: World, a: Action)
    requires Enabled(w, a) && IdsInv(w)
    ensures IdsInv(Apply(application, w, a))
  {
    hide Fingerprint, Reached;
  }

  lemma StepKeepsExecution(application: Text, w: World, a: Action)
    requires Enabled(w, a) && ExecutionInv(w)
    ensures ExecutionInv(Apply(application, w, a))
  {
    hide Fingerprint, Reached;
    if a.Execute? {
      assert forall id | id in w.executions :: w.executions[id] in w.executions.Values;
    }
  }

  lemma {:induction false} RunKeepsInv(application: Text, actions: seq<Action>)
    requires After(application, actions).Some?
    ensures Inv(application, After(application, actions).value)
  {
    if actions != [] {
      var before := actions[..|actions| - 1];
      RunKeepsInv(application, before);
      var w := After(application, before).value;
      var a := actions[|actions| - 1];
      hide BindingInv, QueueInv, TurnInv, IdsInv, ExecutionInv, Apply, Enabled;
      StepKeepsBinding(application, w, a);
      StepKeepsQueue(application, w, a);
      StepKeepsTurn(application, w, a);
      StepKeepsIds(application, w, a);
      StepKeepsExecution(application, w, a);
    }
  }

  // ---------------------------------------------------------------- the results

  /**
   * Whatever is bound to a key, the retries let past it all carry one command; any other command is turned away and
   * never reaches the store.
   */
  lemma OneCommandPerKey(application: Text, actions: seq<Action>, a: nat, b: nat)
    requires After(application, actions).Some?
    requires var w := After(application, actions).value;
             && a in w.retries && b in w.retries && w.retries[a].key == w.retries[b].key
             && Live(w.retries[a].pc) && w.retries[a].command != w.retries[b].command
    ensures var w := After(application, actions).value; !Live(w.retries[b].pc) && b !in w.executions
  {
    RunKeepsInv(application, actions);
    var w := After(application, actions).value;
    hide After;
    FingerprintsIdentifyCommands(application, w.retries[a].command, w.retries[b].command);
    hide Fingerprint;
  }

  /** Retries of one key are executed one at a time, even when earlier attempts fail. */
  lemma OneExecutionAtATime(application: Text, actions: seq<Action>, a: nat, b: nat)
    requires After(application, actions).Some?
    requires var w := After(application, actions).value;
             && a in w.retries && b in w.retries && w.retries[a].key == w.retries[b].key
             && w.retries[a].pc.Running? && w.retries[b].pc.Running?
    ensures a == b
  {
    RunKeepsInv(application, actions);
    var w := After(application, actions).value;
    hide After, BindingInv, IdsInv, ExecutionInv;
    TurnsExclude(w, a, b);
    TurnsExclude(w, b, a);
    assert Attempted(w.retries[a].pc) && Attempted(w.retries[b].pc);
  }

  lemma TurnsExclude(w: World, a: nat, b: nat)
    requires QueueInv(w) && TurnInv(w) && a in w.retries && b in w.retries && w.retries[a].key == w.retries[b].key
    requires w.retries[a].pc.Running? && w.retries[b].pc.Running?
    ensures w.retries[a].pc.position >= w.retries[b].pc.position
  {
    var i := w.retries[a].pc.position;
    assert Attempted(w.retries[a].pc) && Attempted(w.retries[b].pc) && HasBegun(w, b);
    assert w.registry[w.retries[a].key].queue[i] == a;
    assert i < w.retries[b].pc.position ==> SettledAt(w, a);
  }

  /** Manifests of different keys share no generated id. */
  lemma ManifestsShareNoId(application: Text, actions: seq<Action>, k: Text, l: Text)
    requires After(application, actions).Some? && k != l
    requires var w := After(application, actions).value;
             k in w.registry && l in w.registry && w.registry[k].manifest.Some? && w.registry[l].manifest.Some?
    ensures var w := After(application, actions).value;
            GeneratedIds(w.registry[k].manifest.value) !! GeneratedIds(w.registry[l].manifest.value)
  {
    RunKeepsInv(application, actions);
  }

  // ---------------------------------------------------------------- what a retry is answered, and that it ends

  lemma NextStep(application: Text, actions: seq<Action>, a: Action)
    requires After(application, actions).Some? && Enabled(After(application, actions).value, a)
    ensures After(application, actions + [a]) == Some(Apply(application, After(application, actions).value, a))
  {
    assert (actions + [a])[..|actions|] == actions;
  }

  /** A retry is turned away exactly if its key is bound to another command; else its key is bound to its own. */
  lemma SubmitDecides(application: Text, actions: seq<Action>, id: nat, key: Text, command: Command)
    requires After(application, actions).Some? && id !in After(application, actions).value.retries
    ensures After(application, actions + [Submit(id, key, command)]).Some?
    ensures var w, v := After(application, actions).value, After(application, actions + [Submit(id, key, command)]).value;
            var conflicts := key in w.registry && w.registry[key].command != command;
            && v.retries == w.retries[id := Retry(key, command, if conflicts then Conflicted else AwaitingManifest)]
            && key in v.registry && (v.registry[key].command == command <==> !conflicts)
            && (key in w.registry ==> v.registry == w.registry)
  {
    RunKeepsInv(application, actions);
    NextStep(application, actions, Submit(id, key, command));
    var w := After(application, actions).value;
    hide After;
    if key in w.registry {
      FingerprintsIdentifyCommands(application, command, w.registry[key].command);
    }
    hide Fingerprint, QueueInv, TurnInv, IdsInv, ExecutionInv;
  }

  predicate HasEnded(w: World, id: nat) {
    id in w.retries && (w.retries[id].pc.Settled? || w.retries[id].pc == Conflicted || w.retries[id].pc == Ended)
  }

  /** A number no store call has. */
  lemma FreshCall(used: set<nat>) returns (call: nat)
    ensures call !in used
  {
    var top: nat := 0;
    var rest := used;
    while rest != {}
      invariant rest <= used && forall n | n in used && n !in rest :: n < top
      decreases rest
    {
      var n :| n in rest;
      rest := rest - {n};
      top := if n < top then top else n + 1;
    }
    call := top;
  }

  lemma ActsOn(application: Text, w: World, a: Action)
    requires Enabled(w, a) && (a.Execute? || a.Settle?)
    ensures var v := Apply(application, w, a);
            && a.id in v.retries && v.retries[a.id].key == w.retries[a.id].key && v.registry == w.registry
            && v.retries[a.id].pc == (if a.Execute? then Running(w.retries[a.id].pc.position) else Settled(w.retries[a.id].pc.position))
            && forall x | x in w.retries && x != a.id :: x in v.retries && v.retries[x] == w.retries[x]
  {
    hide Fingerprint, Reached;
  }

  /** The attempts of a key's queue, up to position `i`, can be settled one after the other. */
  lemma {:induction false} QueueCanSettle(application: Text, actions: seq<Action>, key: Text, i: nat) returns (more: seq<Action>)
    requires After(application, actions).Some?
    requires var w := After(application, actions).value; key in w.registry && i < |w.registry[key].queue|
    ensures After(application, actions + more).Some?
    ensures var w, v := After(application, actions).value, After(application, actions + more).value;
            v.registry == w.registry && SettledAt(v, w.registry[key].queue[i])
    decreases i
  {
    hide *;
    more := [];
    assert actions + [] == actions;
    if i > 0 {
      more := QueueCanSettle(application, actions, key, i - 1);
    }
    var registry := After(application, actions).value.registry;
    var id := registry[key].queue[i];
    var all := actions + more;
    AttemptAt(application, all, key, i);
    if After(application, all).value.retries[id].pc.Queued? {
      var call := FreshCall(After(application, all).value.executions.Values);
      TurnComes(application, all, key, i, call);
      NextStep(application, all, Execute(id, call));
      ActsOn(application, After(application, all).value, Execute(id, call));
      assert all + [Execute(id, call)] == actions + (more + [Execute(id, call)]);
      more := more + [Execute(id, call)];
      all := actions + more;
      StillRunning(application, all, id);
    }
    if After(application, all).value.retries[id].pc.Running? {
      SettleIsPossible(After(application, all).value, id);
      NextStep(application, all, Settle(id));
      ActsOn(application, After(application, all).value, Settle(id));
      assert all + [Settle(id)] == actions + (more + [Settle(id)]);
      more := more + [Settle(id)];
      all := actions + more;
    }
    SettledIs(After(application, all).value, id);
  }

  lemma SettledIs(w: World, id: nat)
    ensures SettledAt(w, id) <==> id in w.retries && w.retries[id].pc.Settled?
  {
  }

  lemma StillRunning(application: Text, actions: seq<Action>, id: nat)
    requires After(application, actions).Some? && id in After(application, actions).value.retries
    requires After(application, actions).value.retries[id].pc.Running?
    ensures !After(application, actions).value.retries[id].pc.Queued?
  {
  }

  lemma SettleIsPossible(w: World, id: nat)
    requires id in w.retries && w.retries[id].pc.Running?
    ensures Enabled(w, Settle(id))
  {
  }

  /** What stands in a queue is an attempt at its place. */
  lemma AttemptAt(application: Text, actions: seq<Action>, key: Text, i: nat)
    requires After(application, actions).Some?
    requires var w := After(application, actions).value; key in w.registry && i < |w.registry[key].queue|
    ensures var w := After(application, actions).value; var id := w.registry[key].queue[i];
            && id in w.retries && w.retries[id].key == key
            && (w.retries[id].pc.Queued? || w.retries[id].pc.Running? || w.retries[id].pc.Settled?)
            && w.retries[id].pc.position == i
  {
    RunKeepsInv(application, actions);
    hide After, BindingInv, TurnInv, IdsInv, ExecutionInv;
    assert Stands(After(application, actions).value, key, i);
  }

  /** The turn of a queued attempt has come when the one before it has settled. */
  lemma TurnComes(application: Text, actions: seq<Action>, key: Text, i: nat, call: nat)
    requires After(application, actions).Some?
    requires var w := After(application, actions).value;
             && key in w.registry && i < |w.registry[key].queue| && (i > 0 ==> SettledAt(w, w.registry[key].queue[i - 1]))
             && w.registry[key].queue[i] in w.retries && w.retries[w.registry[key].queue[i]].key == key
             && w.retries[w.registry[key].queue[i]].pc == Queued(i) && call !in w.executions.Values
    ensures Enabled(After(application, actions).value, Execute(After(application, actions).value.registry[key].queue[i], call))
  {
  }

  /** No retry is ever stuck: from every reachable state it can be brought to its end. */
  lemma EveryRetryCanEnd(application: Text, actions: seq<Action>, id: nat) returns (more: seq<Action>)
    requires After(application, actions).Some? && id in After(application, actions).value.retries
    ensures After(application, actions + more).Some? && HasEnded(After(application, actions + more).value, id)
  {
    hide *;
    var w := After(application, actions).value;
    assert actions + [] == actions;
    if HasEnded(w, id) {
      more := [];
    } else if w.retries[id].pc.AwaitingManifest? {
      more := [GiveUp(id)];
      GiveUpEnds(application, w, id);
      NextStep(application, actions, GiveUp(id));
    } else {
      InItsQueue(application, actions, id);
      more := QueueCanSettle(application, actions, w.retries[id].key, w.retries[id].pc.position);
      SettledHasEnded(After(application, actions + more).value, id);
    }
  }

  lemma GiveUpEnds(application: Text, w: World, id: nat)
    requires id in w.retries && w.retries[id].pc.AwaitingManifest?
    ensures Enabled(w, GiveUp(id)) && HasEnded(Apply(application, w, GiveUp(id)), id)
  {
    hide Fingerprint, Reached;
  }

  lemma SettledHasEnded(w: World, id: nat)
    requires SettledAt(w, id)
    ensures HasEnded(w, id)
  {
  }

  lemma InItsQueue(application: Text, actions: seq<Action>, id: nat)
    requires After(application, actions).Some? && id in After(application, actions).value.retries
    requires !HasEnded(After(application, actions).value, id) && !After(application, actions).value.retries[id].pc.AwaitingManifest?
    ensures var w := After(application, actions).value; var pc := w.retries[id].pc;
            && (pc.Queued? || pc.Running?) && w.retries[id].key in w.registry
            && pc.position < |w.registry[w.retries[id].key].queue| && w.registry[w.retries[id].key].queue[pc.position] == id
  {
    RunKeepsInv(application, actions);
    hide After, BindingInv, TurnInv, IdsInv, ExecutionInv;
    var w := After(application, actions).value;
    assert Attempted(w.retries[id].pc);
    assert InQueue(w, id);
  }

  // ---------------------------------------------------------------- a manifest never changes

  /** What a key is bound to stays, and so does its manifest once it is prepared. */
  predicate Binds(v: World, w: World, key: Text) {
    key in v.registry ==>
      && key in w.registry && w.registry[key].fingerprint == v.registry[key].fingerprint
      && w.registry[key].command == v.registry[key].command
      && (v.registry[key].manifest.Some? ==> w.registry[key].manifest == v.registry[key].manifest)
  }

  lemma StepBinds(application: Text, w: World, a: Action, key: Text)
    requires Enabled(w, a)
    ensures Binds(w, Apply(application, w, a), key)
  {
    hide Fingerprint, Reached;
  }

  /** All retries of a key share one manifest over time: from its preparation on it is the same at every instant. */
  lemma {:induction false} ManifestIsPermanent(application: Text, actions: seq<Action>, n: nat, key: Text)
    requires n <= |actions| && After(application, actions).Some?
    ensures After(application, actions[..n]).Some?
    ensures Binds(After(application, actions[..n]).value, After(application, actions).value, key)
  {
    if n < |actions| {
      var before := actions[..|actions| - 1];
      assert before[..n] == actions[..n];
      ManifestIsPermanent(application, before, n, key);
      hide Apply, Enabled;
      StepBinds(application, After(application, before).value, actions[|actions| - 1], key);
    } else {
      assert actions[..n] == actions;
    }
  }
}
