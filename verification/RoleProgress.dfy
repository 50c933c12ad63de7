/**
 * No call of the role store or of the administration service is ever stuck: from every state that a run can reach, a
 * call that has started can be run alone to its end.
 */
module RoleProgress {
  import opened Prelude
  import opened RoleRecords
  import opened RoleStore
  import opened RoleStoreSafety
  import opened RoleReads
  import opened RoleRebuild
  import opened RoleSeeding
  import opened Administration
  import opened RoleWorld
  import opened RoleTheorems
  import opened LastAdministrator
  import opened SingleService

  // ---------------------------------------------------------------- how far a call is from its end

  function GrantPhase(pc: GrantPc): nat {
    match pc
    case GrantWritePointer => 7
    case GrantWriteHolder => 6
    case GrantReadGuard => 5
    case GrantReadExisting(_) => 4
    case GrantCommit(_) => 3
    case GrantReadLanded => 2
    case GrantReadBack => 1
    case GrantDone(_) => 0
  }

  function RevokePhase(pc: RevokePc): nat {
    match pc
    case RevokeLocate => 5
    case RevokeReadRecord(_) => 4
    case RevokeReadGuard(_, _) => 3
    case RevokeCommit(_, _, _) => 2
    case RevokeReadBack(_) => 1
    case RevokeDone(_) => 0
  }

  function ListPhase(pc: ListPc): nat {
    match pc
    case ListStart => 3
    case ListReading(_, _) => 2
    case ListConfirming(_, _) => 1
    case _ => 0
  }

  /** How many of `all` are not among `done`. */
  function Remaining<T>(all: set<T>, done: set<T>): nat {
    |all - done|
  }

  /** The rows a phase has yet to deal with. */
  function ListLeft(pc: ListPc): nat {
    match pc
    case ListReading(must, rows) => Remaining(must, rows.Keys)
    case ListConfirming(rows, confirmed) => Remaining(rows.Keys, confirmed)
    case _ => 0
  }

  function ByRolePhase(pc: ByRolePc): nat {
    match pc
    case ByRoleStart => 4
    case ByRoleListing(_, _) => 3
    case ByRoleConfirming(_, _) => 2
    case ByRoleVerifying(_, _, _) => 1
    case _ => 0
  }

  function ByRoleLeft(pc: ByRolePc): nat {
    match pc
    case ByRoleListing(must, rows) => Remaining(must, rows.Keys)
    case ByRoleConfirming(rows, confirmed) => Remaining(rows.Keys, confirmed)
    case ByRoleVerifying(rows, located, verified) => Remaining(rows.Keys, located.Keys) + Remaining(rows.Keys, verified.Keys)
    case _ => 0
  }

  function ScanPhase(scan: HolderScan): nat {
    match scan
    case ScanQuery(pc) => 2 + ByRolePhase(pc)
    case ScanRecheck(_) => 1
    case ScanRead(_, _, _) => 1
    case _ => 0
  }

  function ScanLeft(scan: HolderScan): nat {
    match scan
    case ScanQuery(pc) => ByRoleLeft(pc)
    case ScanRecheck(todo) => 2 * |todo|
    case ScanRead(todo, _, _) => 2 * |todo| + 1
    case _ => 0
  }

  function RebuildPhase(pc: RebuildPc): nat {
    match pc
    case RebuildStart => 4
    case RebuildListing(_, _) => 3
    case RebuildConfirming(_, _) => 2
    case RebuildReading(_, _) => 1
    case RebuildWriting(_, _, _) => 1
    case _ => 0
  }

  function RebuildLeft(pc: RebuildPc): nat {
    match pc
    case RebuildListing(must, rows) => Remaining(must, rows.Keys)
    case RebuildConfirming(rows, confirmed) => Remaining(rows.Keys, confirmed)
    case RebuildReading(todo, _) => 2 * |todo| + 1
    case RebuildWriting(todo, _, _) => 2 * |todo| + 2
    case _ => 0
  }

  function SeedPhase(pc: SeedPc): nat {
    match pc
    case SeedHistory(history) => 20 + ListPhase(history)
    case SeedGranting(grant) => 1 + GrantPhase(grant)
    case SeedDone(_) => 0
  }

  function SeedLeft(pc: SeedPc): nat {
    if pc.SeedHistory? then ListLeft(pc.history) else 0
  }

  function AdminPhase(pc: AdminPc): nat {
    match pc
    case Queued => 61
    case GetLocate => 60
    case GetRead(_) => 59
    case PreScan(_, scan) => 50 + ScanPhase(scan)
    case RevokingRole(_, _, _, revoke) => 30 + RevokePhase(revoke)
    case PostScan(_, _, scan) => 20 + ScanPhase(scan)
    case Compensating(_, _, grant) => 10 + GrantPhase(grant)
    case FinalScan(_, scan) => 1 + ScanPhase(scan)
    case AdminDone(_) => 0
  }

  function AdminLeft(pc: AdminPc): nat {
    match pc
    case PreScan(_, scan) => ScanLeft(scan)
    case PostScan(_, _, scan) => ScanLeft(scan)
    case FinalScan(_, scan) => ScanLeft(scan)
    case _ => 0
  }

  function Phase(call: Call): nat {
    match call
    case Granting(_, pc) => GrantPhase(pc)
    case Revoking(_, pc) => RevokePhase(pc)
    case ListingByRole(_, pc) => ByRolePhase(pc)
    case ListingPrincipal(_, pc) => ListPhase(pc)
    case Rebuilding(_, pc) => RebuildPhase(pc)
    case Seeding(_, pc) => SeedPhase(pc)
    case Administering(_, _, _, pc) => AdminPhase(pc)
  }

  function Left(call: Call): nat {
    match call
    case ListingByRole(_, pc) => ByRoleLeft(pc)
    case ListingPrincipal(_, pc) => ListLeft(pc)
    case Rebuilding(_, pc) => RebuildLeft(pc)
    case Seeding(_, pc) => SeedLeft(pc)
    case Administering(_, _, _, pc) => AdminLeft(pc)
    case _ => 0
  }

  predicate Nearer(phase: nat, left: nat, wasPhase: nat, wasLeft: nat) {
    phase < wasPhase || (phase == wasPhase && left < wasLeft)
  }

  // ---------------------------------------------------------------- one step nearer

  lemma Smaller<T>(a: set<T>, b: set<T>)
    requires a < b
    ensures |a| < |b|
  {
    assert b == a + (b - a);
    assert b - a != {};
    assert |b| == |a| + |b - a|;
  }

  lemma OneFewer<T(!new)>(must: set<T>, done: set<T>, x: T)
    requires x in must && x !in done
    ensures Remaining(must, done + {x}) < Remaining(must, done)
  {
    Smaller(must - (done + {x}), must - done);
  }

  lemma OneMoreKey<T(!new), V>(must: set<T>, done: map<T, V>, x: T, v: V)
    requires x in must && x !in done
    ensures Remaining(must, done[x := v].Keys) < Remaining(must, done.Keys)
  {
    OneFewer(must, done.Keys, x);
    assert done[x := v].Keys == done.Keys + {x};
  }

  lemma GrantNearer(s: Store, c: GrantCommand, pc: GrantPc, rejection: Rejection)
    ensures !pc.GrantDone? ==> GrantPhase(GrantStep(s, c, pc, rejection).1) < GrantPhase(pc)
  {
    hide Store.TransactGrant, IsAssignmentOf, IsTupleOf;
  }

  lemma RevokeNearer(s: Store, c: RevokeCommand, pc: RevokePc, rejection: Rejection)
    ensures !pc.RevokeDone? ==> RevokePhase(RevokeStep(s, c, pc, rejection).1) < RevokePhase(pc)
  {
    hide Store.TransactRevoke, IsAssignmentOf, IsTupleOf;
  }

  lemma ListNearer(s: Store, location: Location, pc: ListPc) returns (pick: Option<RowId>)
    requires ListOk(s, location, pc) && ListPhase(pc) > 0
    ensures var pc' := ListStep(s, location, pc, pick); Nearer(ListPhase(pc'), ListLeft(pc'), ListPhase(pc), ListLeft(pc))
  {
    hide Seen, RowAt, RowIds, Remaining;
    pick := None;
    match pc
    case ListReading(must, rows) =>
      if !(must <= rows.Keys) {
        var id :| id in must && id !in rows.Keys;
        pick := Some(id);
        OneMoreKey(must, rows, id, RowAt(s, location, id).value);
      }
    case ListConfirming(rows, confirmed) =>
      if confirmed != rows.Keys {
        var id :| id in rows.Keys && id !in confirmed;
        pick := Some(id);
        OneFewer(rows.Keys, confirmed, id);
      }
    case _ =>
  }

  lemma ByRoleNearer(s: Store, q: ByRoleQuery, pc: ByRolePc) returns (pick: Option<Text>)
    requires StoreInv(s) && ByRoleOk(s, q, pc) && ByRolePhase(pc) > 0
    ensures var pc' := ByRoleStep(s, q, pc, pick); Nearer(ByRolePhase(pc'), ByRoleLeft(pc'), ByRolePhase(pc), ByRoleLeft(pc))
  {
    hide StoreInv, IsCandidate, HolderIds, LocateCandidate, VerifyCandidate, Remaining;
    pick := None;
    match pc
    case ByRoleListing(must, rows) =>
      if !(must <= rows.Keys) {
        var id :| id in must && id !in rows.Keys;
        pick := Some(id);
        OneMoreKey(must, rows, id, s.holders[q.Key(id)]);
      }
    case ByRoleConfirming(rows, confirmed) =>
      if confirmed != rows.Keys {
        var id :| id in rows.Keys && id !in confirmed;
        pick := Some(id);
        OneFewer(rows.Keys, confirmed, id);
      }
    case ByRoleVerifying(rows, located, verified) =>
      if verified.Keys != rows.Keys {
        var id :| id in rows.Keys && id !in verified.Keys;
        pick := Some(id);
        if id !in located {
          LocateNearer(s, q, pc, id);
        } else {
          VerifyNearer(s, q, pc, id);
        }
      }
    case _ =>
  }

  lemma LocateNearer(s: Store, q: ByRoleQuery, pc: ByRolePc, id: Text)
    requires pc.ByRoleVerifying? && id in pc.rows && id !in pc.located
    ensures var pc' := LocateCandidate(s, q, pc, id); Nearer(ByRolePhase(pc'), ByRoleLeft(pc'), ByRolePhase(pc), ByRoleLeft(pc))
  {
    hide Remaining;
    var pc' := LocateCandidate(s, q, pc, id);
    if pc'.ByRoleVerifying? {
      OneMoreKey(pc.rows.Keys, pc.located, id, pc'.located[id]);
    }
  }

  lemma VerifyNearer(s: Store, q: ByRoleQuery, pc: ByRolePc, id: Text)
    requires pc.ByRoleVerifying? && id in pc.rows && id in pc.located && id !in pc.verified
    ensures var pc' := VerifyCandidate(s, q, pc, id); Nearer(ByRolePhase(pc'), ByRoleLeft(pc'), ByRolePhase(pc), ByRoleLeft(pc))
  {
    hide Remaining, IsAssignmentOf;
    var pc' := VerifyCandidate(s, q, pc, id);
    if pc'.ByRoleVerifying? {
      OneMoreKey(pc.rows.Keys, pc.verified, id, pc'.verified[id]);
    }
  }

  lemma RebuildNearer(s: Store, applicationId: Text, pc: RebuildPc) returns (pick: Option<Text>)
    requires RebuildOk(s, applicationId, pc) && RebuildPhase(pc) > 0
    ensures var pc' := RebuildStep(s, applicationId, pc, pick).1;
            Nearer(RebuildPhase(pc'), RebuildLeft(pc'), RebuildPhase(pc), RebuildLeft(pc))
  {
    hide PointersRead, MissingWithin, PointerIds, IsAssignmentOf, Remaining;
    pick := None;
    match pc
    case RebuildListing(must, rows) =>
      if !(must <= rows.Keys) {
        var id :| id in must && id !in rows.Keys;
        pick := Some(id);
        OneMoreKey(must, rows, id, s.pointers[PointerKey(applicationId, id)]);
      }
    case RebuildConfirming(rows, confirmed) =>
      if confirmed != rows.Keys {
        var id :| id in rows.Keys && id !in confirmed;
        pick := Some(id);
        OneFewer(rows.Keys, confirmed, id);
      }
    case RebuildReading(todo, recorded) =>
      if todo != map[] {
        var id :| id in todo;
        pick := Some(id);
        OneFewerLeft(todo, id);
      }
    case _ =>
  }

  lemma OneFewerLeft<V>(todo: map<Text, V>, id: Text)
    requires id in todo
    ensures |todo - {id}| < |todo|
  {
    assert (todo - {id}).Keys == todo.Keys - {id};
    assert |todo| == |todo.Keys| && |todo - {id}| == |(todo - {id}).Keys|;
    Smaller(todo.Keys - {id}, todo.Keys);
  }

  lemma ScanNearer(s: Store, q: ByRoleQuery, excluding: Text, scan: HolderScan) returns (pick: Option<Text>)
    requires StoreInv(s) && ScanOk(s, q, scan) && ScanPhase(scan) > 0
    ensures var scan' := ScanStep(s, q, excluding, scan, pick); Nearer(ScanPhase(scan'), ScanLeft(scan'), ScanPhase(scan), ScanLeft(scan))
  {
    hide StoreInv, ByRoleOk, ByRoleStep, IsCandidate, IsAssignmentOf;
    pick := None;
    match scan
    case ScanQuery(pc) =>
      if ByRolePhase(pc) > 0 {
        pick := ByRoleNearer(s, q, pc);
      }
    case ScanRecheck(todo) =>
      if todo.Keys != {} {
        var id :| id in todo;
        pick := Some(id);
        OneFewerLeft(todo, id);
      }
    case _ =>
  }

  lemma SeedNearer(s: Store, c: GrantCommand, pc: SeedPc, rejection: Rejection) returns (row: Option<RowId>)
    requires SeedOk(s, c, pc) && SeedPhase(pc) > 0
    ensures var pc' := SeedStep(s, c, pc, row, rejection).1; Nearer(SeedPhase(pc'), SeedLeft(pc'), SeedPhase(pc), SeedLeft(pc))
  {
    hide ListOk, ListStep, GrantOk, GrantStep, ShowsRole, ListLeft, EverAssigned;
    row := None;
    match pc
    case SeedHistory(history) =>
      if ListPhase(history) > 0 {
        row := ListNearer(s, c.Place(), history);
      }
    case SeedGranting(grant) => GrantNearer(s, c, grant, rejection);
    case _ =>
  }

  lemma AdminScanNearer(s: Store, policy: Policy, c: RevokeRoleCommand, pc: AdminPc, choice: Choice) returns (pick: Option<Text>)
    requires StoreInv(s) && AdminOk(s, policy, c, pc) && (pc.PreScan? || pc.PostScan? || pc.FinalScan?)
    ensures var pc' := AdminStep(s, policy, c, pc, choice.(pick := pick)).1;
            Nearer(AdminPhase(pc'), AdminLeft(pc'), AdminPhase(pc), AdminLeft(pc))
  {
    hide StoreInv, ScanOk, ScanStep, CurrentOk, ScanLeft, RevokeOk, GrantOk;
    pick := None;
    if ScanPhase(pc.scan) > 0 {
      var excluding := if pc.PreScan? then pc.current.value.assignment.principalId else [];
      pick := ScanNearer(s, QueryOf(c, pc.current), excluding, pc.scan);
    }
    ScanPhases(pc.scan);
  }

  lemma ScanPhases(scan: HolderScan)
    ensures ScanPhase(scan) <= 6
  {
  }

  lemma AdminNearer(s: Store, policy: Policy, c: RevokeRoleCommand, pc: AdminPc, choice: Choice) returns (pick: Option<Text>)
    requires StoreInv(s) && AdminOk(s, policy, c, pc) && 0 < AdminPhase(pc) < 61
    ensures var pc' := AdminStep(s, policy, c, pc, choice.(pick := pick)).1;
            Nearer(AdminPhase(pc'), AdminLeft(pc'), AdminPhase(pc), AdminLeft(pc))
  {
    if pc.PreScan? || pc.PostScan? || pc.FinalScan? {
      pick := AdminScanNearer(s, policy, c, pc, choice);
    } else {
      pick := None;
      AdminMovesOn(s, policy, c, pc, choice.(pick := None));
    }
    hide *;
  }

  lemma AdminMovesOn(s: Store, policy: Policy, c: RevokeRoleCommand, pc: AdminPc, choice: Choice)
    requires pc.GetLocate? || pc.GetRead? || pc.RevokingRole? || pc.Compensating?
    ensures AdminPhase(AdminStep(s, policy, c, pc, choice).1) < AdminPhase(pc)
  {
    hide GrantStep, RevokeStep, ScanStep, IsAssignmentOf, AssignmentManagedBy;
    match pc
    case RevokingRole(_, _, command, revoke) => RevokeNearer(s, command, revoke, choice.rejection);
    case Compensating(_, grant, grantPc) => GrantNearer(s, grant, grantPc, choice.rejection);
    case _ =>
  }

  const SOME_CHOICE := Choice(Exists, None, None, 0, [], [])

  /** Some step brings a call nearer its end. */
  lemma CallNearer(policy: Policy, s: Store, call: Call) returns (choice: Choice)
    requires StoreInv(s) && CallOk(policy, s, call) && !Settled(call) && !(call.Administering? && call.adminPc.Queued?)
    ensures var next := CallStep(policy, s, call, choice).1; Nearer(Phase(next), Left(next), Phase(call), Left(call))
  {
    hide StoreInv, GrantOk, RevokeOk, ByRoleOk, ListOk, RebuildOk, SeedOk, AdminOk;
    hide GrantStep, RevokeStep, ByRoleStep, ListStep, RebuildStep, SeedStep, AdminStep;
    hide ByRoleLeft, ListLeft, RebuildLeft, SeedLeft, AdminLeft;
    choice := SOME_CHOICE;
    match call
    case Granting(c, pc) => GrantNearer(s, c, pc, choice.rejection);
    case Revoking(c, pc) => RevokeNearer(s, c, pc, choice.rejection);
    case ListingByRole(q, pc) =>
      var pick := ByRoleNearer(s, q, pc);
      choice := choice.(pick := pick);
    case ListingPrincipal(location, pc) =>
      var row := ListNearer(s, location, pc);
      choice := choice.(row := row);
    case Rebuilding(applicationId, pc) =>
      var pick := RebuildNearer(s, applicationId, pc);
      choice := choice.(pick := pick);
    case Seeding(c, pc) =>
      var row := SeedNearer(s, c, pc, choice.rejection);
      choice := choice.(row := row);
    case Administering(_, _, c, pc) =>
      var pick := AdminNearer(s, policy, c, pc, choice);
      choice := choice.(pick := pick);
  }

  // ---------------------------------------------------------------- a call run alone

  /** The world after call `p` has taken steps with these choices and nothing else has happened. */
  function Alone(w: World, p: nat, choices: seq<Choice>): World
    decreases |choices|
  {
    if choices == [] then w else Alone(Step(w, Advance(p, choices[0])), p, choices[1..])
  }

  lemma {:induction false} AloneIsReached(store: Store, w: World, p: nat, choices: seq<Choice>)
    requires Reached(store, w)
    ensures Reached(store, Alone(w, p, choices))
    decreases |choices|
  {
    if choices != [] {
      ReachedNext(store, w, Advance(p, choices[0]));
      AloneIsReached(store, Step(w, Advance(p, choices[0])), p, choices[1..]);
    }
    hide Step, Reached;
  }

  lemma StepNearer(w: World, p: nat) returns (choice: Choice)
    requires WorldInv(w) && Runnable(w, p) && p in w.calls && !Settled(w.calls[p])
    ensures var v := Step(w, Advance(p, choice));
            && WorldInv(v) && Runnable(v, p) && p in v.calls
            && Nearer(Phase(v.calls[p]), Left(v.calls[p]), Phase(w.calls[p]), Left(w.calls[p]))
  {
    RunnableParts(w, p);
    hide *;
    CallIsOk(w, p);
    choice := CallNearer(w.policy, w.store, w.calls[p]);
    OwnStep(w, p, choice);
    StepSafe(w, Advance(p, choice));
    StaysRunnable(w, p, choice);
  }

  lemma RunnableParts(w: World, p: nat)
    requires Runnable(w, p)
    ensures p in w.calls && !(w.calls[p].Administering? && w.calls[p].adminPc.Queued?)
  {
  }

  lemma StaysRunnable(w: World, p: nat, choice: Choice)
    requires Runnable(w, p)
    ensures Runnable(Step(w, Advance(p, choice)), p)
  {
    OwnStep(w, p, choice);
    NeverQueuedAgain(w.policy, w.store, w.calls[p], choice);
    hide Step, CallStep;
  }

  lemma NeverQueuedAgain(policy: Policy, s: Store, call: Call, choice: Choice)
    requires !(call.Administering? && call.adminPc.Queued?)
    ensures var next := CallStep(policy, s, call, choice).1; !(next.Administering? && next.adminPc.Queued?)
  {
    hide GrantStep, RevokeStep, ByRoleStep, ListStep, RebuildStep, SeedStep, ScanStep, AssignmentManagedBy;
  }

  /** A call that has started can be run alone to its end. */
  lemma {:induction false} StartedCallCanEnd(w: World, p: nat) returns (choices: seq<Choice>)
    requires WorldInv(w) && Runnable(w, p) && p in w.calls
    ensures var v := Alone(w, p, choices); WorldInv(v) && p in v.calls && Settled(v.calls[p])
    decreases Phase(w.calls[p]), Left(w.calls[p])
  {
    hide *;
    if Settled(w.calls[p]) {
      choices := [];
      AloneNothing(w, p);
    } else {
      var choice := StepNearer(w, p);
      NearerDecreases(Step(w, Advance(p, choice)).calls[p], w.calls[p]);
      var rest := StartedCallCanEnd(Step(w, Advance(p, choice)), p);
      choices := [choice] + rest;
      AloneStep(w, p, choice, rest);
    }
  }

  lemma NearerDecreases(next: Call, was: Call)
    requires Nearer(Phase(next), Left(next), Phase(was), Left(was))
    ensures Phase(next) < Phase(was) || (Phase(next) == Phase(was) && Left(next) < Left(was))
  {
    hide Phase, Left;
  }

  lemma AloneNothing(w: World, p: nat)
    ensures Alone(w, p, []) == w
  {
  }

  lemma AloneStep(w: World, p: nat, choice: Choice, rest: seq<Choice>)
    ensures Alone(w, p, [choice] + rest) == Alone(Step(w, Advance(p, choice)), p, rest)
  {
    hide Step;
    assert ([choice] + rest)[1..] == rest;
  }

  // ---------------------------------------------------------------- a call that still waits in its chain

  /** The world after the calls have taken these steps, none beginning. */
  function Follow(w: World, actions: seq<Action>): World
    decreases |actions|
  {
    if actions == [] then w else Follow(Step(w, actions[0]), actions[1..])
  }

  predicate OnlyAdvances(actions: seq<Action>) {
    forall i | 0 <= i < |actions| :: actions[i].Advance?
  }

  function AdvanceAll(p: nat, choices: seq<Choice>): (actions: seq<Action>)
    ensures OnlyAdvances(actions)
    decreases |choices|
  {
    if choices == [] then [] else [Advance(p, choices[0])] + AdvanceAll(p, choices[1..])
  }

  lemma {:induction false} FollowsAlone(w: World, p: nat, choices: seq<Choice>)
    ensures Follow(w, AdvanceAll(p, choices)) == Alone(w, p, choices)
    decreases |choices|
  {
    hide Step;
    if choices != [] {
      assert ([Advance(p, choices[0])] + AdvanceAll(p, choices[1..]))[1..] == AdvanceAll(p, choices[1..]);
      FollowsAlone(Step(w, Advance(p, choices[0])), p, choices[1..]);
    }
  }

  lemma {:induction false} FollowsOn(w: World, a: seq<Action>, b: seq<Action>)
    ensures Follow(w, a + b) == Follow(Follow(w, a), b)
    decreases |a|
  {
    hide Step;
    if a == [] {
      assert a + b == b;
    } else {
      assert (a + b)[1..] == a[1..] + b;
      FollowsOn(Step(w, a[0]), a[1..], b);
    }
  }

  lemma AdvanceKeeps(store: Store, w: World, a: Action, service: nat)
    requires Reached(store, w) && a.Advance?
    ensures Reached(store, Step(w, a)) && ChainOf(Step(w, a), service) == ChainOf(w, service) && w.calls.Keys <= Step(w, a).calls.Keys
  {
    ReachedNext(store, w, a);
    hide Reached, CallStep;
  }

  lemma {:induction false} FollowKeeps(store: Store, w: World, actions: seq<Action>, service: nat)
    requires Reached(store, w) && OnlyAdvances(actions)
    ensures var v := Follow(w, actions);
            Reached(store, v) && ChainOf(v, service) == ChainOf(w, service) && w.calls.Keys <= v.calls.Keys
    decreases |actions|
  {
    hide Step, Reached, ChainOf;
    if actions != [] {
      AdvanceKeeps(store, w, actions[0], service);
      FollowKeeps(store, Step(w, actions[0]), actions[1..], service);
    }
  }

  lemma ReachedSafe(store: Store, w: World, service: nat)
    requires Reached(store, w)
    ensures WorldInv(w) && ChainOk(w, service)
  {
    hide Step, WorldInv, ChainOk, StoreInv;
    var r: Run :| IsRun(r) && r.states[0].store == store && r.states[|r.states| - 1] == w;
    hide IsRun;
    RunSafe(r, |r.states| - 1);
    ChainHolds(r, |r.states| - 1, service);
  }

  /** Every started call can end. */
  lemma StartedCanEnd(store: Store, w: World, p: nat) returns (actions: seq<Action>)
    requires Reached(store, w) && Runnable(w, p)
    ensures OnlyAdvances(actions) && p in Follow(w, actions).calls && Settled(Follow(w, actions).calls[p])
  {
    RunnableParts(w, p);
    hide *;
    ReachedSafe(store, w, 0);
    var choices := StartedCallCanEnd(w, p);
    actions := AdvanceAll(p, choices);
    FollowsAlone(w, p, choices);
  }

  lemma QueuedStarts(w: World, p: nat)
    requires p in w.calls && w.calls[p].Administering? && w.calls[p].adminPc.Queued? && MayStart(w, w.calls[p])
    ensures Runnable(Step(w, Advance(p, SOME_CHOICE)), p)
  {
    hide CallStep;
  }

  /** So can the `k`th call of an instance's chain, once those before it have ended. */
  lemma {:induction false} ChainedCanEnd(store: Store, w: World, service: nat, k: nat) returns (actions: seq<Action>)
    requires Reached(store, w) && k < |ChainOf(w, service)|
    ensures var p := ChainOf(w, service)[k];
            OnlyAdvances(actions) && p in Follow(w, actions).calls && Settled(Follow(w, actions).calls[p])
    decreases k
  {
    hide *;
    var before: seq<Action> := [];
    NothingFollows(w);
    if k > 0 {
      before := ChainedCanEnd(store, w, service, k - 1);
    }
    FollowKeeps(store, w, before, service);
    var v := Follow(w, before);
    ReachedSafe(store, v, service);
    ChainedMayStart(v, service, k);
    var p := ChainOf(w, service)[k];
    if Runnable(v, p) {
      var rest := StartedCanEnd(store, v, p);
      actions := before + rest;
      FollowsOn(w, before, rest);
      AdvancesJoin(before, rest);
    } else {
      QueuedStarts(v, p);
      var start := Advance(p, SOME_CHOICE);
      AdvanceKeeps(store, v, start, service);
      var rest := StartedCanEnd(store, Step(v, start), p);
      actions := before + ([start] + rest);
      FollowsFirst(v, start, rest);
      FollowsOn(w, before, [start] + rest);
      AdvancesJoin([start], rest);
      AdvancesJoin(before, [start] + rest);
    }
  }

  lemma NothingFollows(w: World)
    ensures Follow(w, []) == w && OnlyAdvances([])
  {
  }

  lemma FollowsFirst(w: World, a: Action, rest: seq<Action>)
    ensures Follow(w, [a] + rest) == Follow(Step(w, a), rest)
    ensures a.Advance? ==> OnlyAdvances([a])
  {
    hide Step;
    assert ([a] + rest)[1..] == rest;
  }

  lemma AdvancesJoin(a: seq<Action>, b: seq<Action>)
    ensures OnlyAdvances(a) && OnlyAdvances(b) ==> OnlyAdvances(a + b)
  {
  }

  /** A call of a chain has started, or may start once the one before it has settled. */
  lemma ChainedMayStart(w: World, service: nat, k: nat)
    requires ChainOk(w, service) && k < |ChainOf(w, service)|
    requires k > 0 ==> var q := ChainOf(w, service)[k - 1]; q in w.calls && Settled(w.calls[q])
    ensures var p := ChainOf(w, service)[k];
            && p in w.calls && w.calls[p].Administering?
            && (!Runnable(w, p) ==> w.calls[p].adminPc.Queued? && MayStart(w, w.calls[p]))
  {
    hide ChainOf, Settled;
    assert Linked(w, service, ChainOf(w, service), k);
  }

  /**
   * No call is ever stuck: from every state of every run the calls under way can go on, none beginning, so that a given
   * call ends. A call that has started needs no other call for it; one that waits in its chain needs those before it.
   */
  lemma EveryCallCanEnd(store: Store, w: World, p: nat) returns (actions: seq<Action>)
    requires Reached(store, w) && p in w.calls
    ensures OnlyAdvances(actions) && p in Follow(w, actions).calls && Settled(Follow(w, actions).calls[p])
  {
    hide *;
    if Runnable(w, p) {
      actions := StartedCanEnd(store, w, p);
    } else {
      var service := ServiceOf(w, p);
      ReachedSafe(store, w, service);
      var k := PlaceInChain(w, service, p);
      actions := ChainedCanEnd(store, w, service, k);
    }
  }

  function ServiceOf(w: World, p: nat): nat
    requires p in w.calls
  {
    if w.calls[p].Administering? then w.calls[p].service else 0
  }

  lemma PlaceInChain(w: World, service: nat, p: nat) returns (k: nat)
    requires ChainOk(w, service) && p in w.calls && !Runnable(w, p) && service == ServiceOf(w, p)
    ensures k < |ChainOf(w, service)| && ChainOf(w, service)[k] == p
  {
    hide ChainOf;
    assert IsAdmin(w, p) && p in ChainOf(w, service);
    k :| 0 <= k < |ChainOf(w, service)| && ChainOf(w, service)[k] == p;
  }
}
