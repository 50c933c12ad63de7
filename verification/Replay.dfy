/**
 * One-use acceptance: verifiers sharing a replay store, each checking its own clock before and after it consumes
 * the grant's replay key, while the store forgets records whose retention has passed.
 */
module Replay {
  import opened Prelude

  /** `MAX_NEGATIVE_VERIFIER_OFFSET_SECONDS`. */
  const MAX_NEGATIVE_OFFSET: int := 5

  datatype ReplayKey = ReplayKey(issuer: Text, applicationId: Text, audience: Text, jti: Text)

  /** The part of a signed grant the replay protocol reads. */
  datatype Claims = Claims(key: ReplayKey, iat: int, exp: int)

  function Seconds(ms: real): int {
    (ms / 1000.0).Floor
  }

  predicate IsNumericDate(n: int) {
    0 < n <= MAX_SAFE_INTEGER
  }

  /** `requireGrantTimeWindow` at a reading of the verifier's wall clock. */
  predicate WindowOpen(claims: Claims, wall: real) {
    && wall >= 0.0
    && Seconds(wall) <= MAX_SAFE_INTEGER
    && claims.iat <= Seconds(wall) + MAX_NEGATIVE_OFFSET
    && Seconds(wall) < claims.exp
  }

  function RetainThrough(claims: Claims): int {
    claims.exp + MAX_NEGATIVE_OFFSET
  }

  /** The test `consume` makes before inserting, at a reading of the replay clock. */
  predicate RetentionOpen(retainThrough: int, now: real) {
    now >= 0.0 && IsNumericDate(retainThrough) && Seconds(now) <= MAX_SAFE_INTEGER && Seconds(now) <= retainThrough
  }

  // ---------------------------------------------------------------- consume, run alone

  datatype ConsumeError = RetentionPassed | AlreadyConsumed

  /** `createReplayConsumer` over the records of one store, by key. */
  class ReplayConsumer {
    var records: map<ReplayKey, int>

    constructor ()
      ensures records == map[]
    {
      records := map[];
    }

    /** `consume`: exactly one of any number of consumptions of a key that the store remembers succeeds. */
    method Consume(claims: Claims, now: real) returns (r: Result<(), ConsumeError>)
      modifies this
      ensures r == if !RetentionOpen(RetainThrough(claims), now) then Err(RetentionPassed)
                   else if claims.key in old(records) then Err(AlreadyConsumed) else Ok(())
      ensures records == if r.Ok? then old(records)[claims.key := RetainThrough(claims)] else old(records)
    {
      var retainThrough := RetainThrough(claims);
      if now < 0.0 || !IsNumericDate(retainThrough) {
        return Err(RetentionPassed);
      }
      var replayNow := Seconds(now);
      if replayNow > MAX_SAFE_INTEGER || replayNow > retainThrough {
        return Err(RetentionPassed);
      }
      if claims.key in records {
        return Err(AlreadyConsumed);
      }
      records := records[claims.key := retainThrough];
      return Ok(());
    }

    /**
     * `verifyAndConsume` after its key, signature and policy checks, undisturbed: the readings are those of the
     * verifier's wall clock, of the replay clock, and of the wall clock again.
     */
    method VerifyAndConsume(claims: Claims, wall: real, now: real, wallAfter: real) returns (accepted: bool)
      modifies this
      ensures accepted <==> && WindowOpen(claims, wall) && RetentionOpen(RetainThrough(claims), now)
                            && claims.key !in old(records) && WindowOpen(claims, wallAfter)
      ensures records == if WindowOpen(claims, wall) && RetentionOpen(RetainThrough(claims), now) && claims.key !in old(records)
                         then old(records)[claims.key := RetainThrough(claims)] else old(records)
    {
      if !WindowOpen(claims, wall) {
        return false;
      }
      var consumed := Consume(claims, now);
      if consumed.Err? {
        return false;
      }
      return WindowOpen(claims, wallAfter);
    }
  }

  // ---------------------------------------------------------------- verifyAndConsume, interleaved

  /** Where a call of `verifyAndConsume` stands, its signature and policy checks done. */
  datatype Pc = Admitted | InWindow | ClockRead | Inserted | Accepted | Rejected

  datatype Call = Call(claims: Claims, pc: Pc)

  datatype World = World(storeNow: real, records: map<ReplayKey, int>, calls: map<nat, Call>)

  datatype Action =
    | Present(id: nat, claims: Claims)
    | CheckWindow(id: nat, wall: real)
    | ReadReplayClock(id: nat, now: real)
    | Insert(id: nat)
    | LoseInsert(id: nat, committed: bool)  // the backend reports an outage, having committed or not
    | Recheck(id: nat, wall: real)
    | Abandon(id: nat)                      // a key-cache check fails, or the process dies
    | Tick(now: real)
    | Drop(key: ReplayKey)                  // the store forgets a record whose retention has passed

  const INITIAL: World := World(0.0, map[], map[])

  predicate At(w: World, id: nat, pc: Pc) {
    id in w.calls && w.calls[id].pc == pc
  }

  /**
   * What may happen next. `minted` is the grants that exist, one for each key; a wall clock shows at least the
   * store's time less `lag` milliseconds; the store's time never goes back. A call may read any replay clock.
   */
  predicate Enabled(lag: real, minted: map<ReplayKey, Claims>, w: World, a: Action) {
    match a
    case Present(id, claims) => id !in w.calls && claims.key in minted && minted[claims.key] == claims
    case CheckWindow(id, wall) => At(w, id, Admitted) && wall >= w.storeNow - lag
    case ReadReplayClock(id, _) => At(w, id, InWindow)
    case Insert(id) => At(w, id, ClockRead)
    case LoseInsert(id, _) => At(w, id, ClockRead)
    case Recheck(id, wall) => At(w, id, Inserted) && wall >= w.storeNow - lag
    case Abandon(id) => id in w.calls && w.calls[id].pc != Accepted
    case Tick(now) => now >= w.storeNow
    case Drop(key) => key in w.records && Seconds(w.storeNow) > w.records[key]
  }

  function Move(w: World, id: nat, pc: Pc): World
    requires id in w.calls
  {
    w.(calls := w.calls[id := w.calls[id].(pc := pc)])
  }

  /** The store after `insertIfAbsent`. */
  function Remember(records: map<ReplayKey, int>, claims: Claims): map<ReplayKey, int> {
    if claims.key in records then records else records[claims.key := RetainThrough(claims)]
  }

  function Apply(lag: real, minted: map<ReplayKey, Claims>, w: World, a: Action): World
    requires Enabled(lag, minted, w, a)
  {
    match a
    case Present(id, claims) => w.(calls := w.calls[id := Call(claims, Admitted)])
    case CheckWindow(id, wall) => Move(w, id, if WindowOpen(w.calls[id].claims, wall) then InWindow else Rejected)
    case ReadReplayClock(id, now) =>
      Move(w, id, if RetentionOpen(RetainThrough(w.calls[id].claims), now) then ClockRead else Rejected)
    case Insert(id) =>
      var claims := w.calls[id].claims;
      Move(w, id, if claims.key in w.records then Rejected else Inserted).(records := Remember(w.records, claims))
    case LoseInsert(id, committed) =>
      Move(w, id, Rejected).(records := if committed then Remember(w.records, w.calls[id].claims) else w.records)
    case Recheck(id, wall) => Move(w, id, if WindowOpen(w.calls[id].claims, wall) then Accepted else Rejected)
    case Abandon(id) => Move(w, id, Rejected)
    case Tick(now) => w.(storeNow := now)
    case Drop(key) => w.(records := w.records - {key})
  }

  /** The world after `actions`, if each of them was possible when it happened. */
  function After(lag: real, minted: map<ReplayKey, Claims>, actions: seq<Action>): Option<World> {
    if actions == [] then Some(INITIAL)
    else
      match After(lag, minted, actions[..|actions| - 1])
      case None => None
      case Some(w) =>
        var a := actions[|actions| - 1];
        if Enabled(lag, minted, w, a) then Some(Apply(lag, minted, w, a)) else None
  }

  /** No two calls are given the same grant. */
  predicate OneAcceptance(w: World) {
    forall a, b | a in w.calls && b in w.calls && a != b && w.calls[a].claims.key == w.calls[b].claims.key ::
      !(w.calls[a].pc == Accepted && w.calls[b].pc == Accepted)
  }

  // ---------------------------------------------------------------- safety

  predicate Passed(w: World, retainThrough: int) {
    Seconds(w.storeNow) > retainThrough
  }

  predicate HasInserted(w: World, id: nat) {
    At(w, id, Inserted) || At(w, id, Accepted)
  }

  predicate Genuine(minted: map<ReplayKey, Claims>, w: World) {
    forall id | id in w.calls :: w.calls[id].claims.key in minted && minted[w.calls[id].claims.key] == w.calls[id].claims
  }

  predicate RecordsGenuine(minted: map<ReplayKey, Claims>, w: World) {
    forall key | key in w.records :: key in minted && w.records[key] == RetainThrough(minted[key])
  }

  /** A call that has inserted is remembered, unless the retention of its record has passed. */
  ghost predicate Remembered(w: World) {
    forall id | HasInserted(w, id) :: w.calls[id].claims.key in w.records || Passed(w, RetainThrough(w.calls[id].claims))
  }

  /** Two calls have inserted the same key only if its retention passed in between, and then one is still unanswered. */
  ghost predicate Apart(w: World) {
    forall a, b | a != b && HasInserted(w, a) && HasInserted(w, b) && w.calls[a].claims.key == w.calls[b].claims.key ::
      Passed(w, RetainThrough(w.calls[a].claims)) && !(At(w, a, Accepted) && At(w, b, Accepted))
  }

  ghost predicate Inv(minted: map<ReplayKey, Claims>, w: World) {
    Genuine(minted, w) && RecordsGenuine(minted, w) && Remembered(w) && Apart(w)
  }

  lemma SecondsMonotone(x: real, y: real)
    requires x <= y
    ensures Seconds(x) <= Seconds(y)
  {
    assert x / 1000.0 <= y / 1000.0;
  }

  /** A second check made after the retention has passed fails, when the clock is no more than six seconds late. */
  lemma LateCheckFails(lag: real, w: World, claims: Claims, wall: real)
    requires lag <= 6000.0 && wall >= w.storeNow - lag && Passed(w, RetainThrough(claims))
    ensures !WindowOpen(claims, wall)
  {
    assert w.storeNow / 1000.0 - 6.0 <= wall / 1000.0;
  }

  lemma StepKeepsRecords(lag: real, minted: map<ReplayKey, Claims>, w: World, a: Action)
    requires Enabled(lag, minted, w, a) && Genuine(minted, w) && RecordsGenuine(minted, w)
    ensures var v := Apply(lag, minted, w, a); Genuine(minted, v) && RecordsGenuine(minted, v)
  {
    hide WindowOpen, RetentionOpen, Seconds;
  }

  lemma StepKeepsRemembered(lag: real, minted: map<ReplayKey, Claims>, w: World, a: Action)
    requires Enabled(lag, minted, w, a) && Inv(minted, w)
    ensures Remembered(Apply(lag, minted, w, a))
  {
    var v := Apply(lag, minted, w, a);
    if a.Tick? {
      SecondsMonotone(w.storeNow, v.storeNow);
    }
    hide WindowOpen, RetentionOpen, Seconds;
    forall id | HasInserted(v, id)
      ensures v.calls[id].claims.key in v.records || Passed(v, RetainThrough(v.calls[id].claims))
    {
      if HasInserted(w, id) {
        assert v.calls[id].claims == w.calls[id].claims;
      }
    }
  }

  lemma StepKeepsApart(lag: real, minted: map<ReplayKey, Claims>, w: World, act: Action)
    requires lag <= 6000.0 && Enabled(lag, minted, w, act) && Inv(minted, w)
    ensures Apart(Apply(lag, minted, w, act))
  {
    hide *;
    forall a, b ensures PairApart(Apply(lag, minted, w, act), a, b) {
      PairStaysApart(lag, minted, w, act, a, b);
    }
    PairsApart(Apply(lag, minted, w, act));
  }

  predicate PairApart(w: World, a: nat, b: nat) {
    a != b && HasInserted(w, a) && HasInserted(w, b) && w.calls[a].claims.key == w.calls[b].claims.key ==>
      Passed(w, RetainThrough(w.calls[a].claims)) && !(At(w, a, Accepted) && At(w, b, Accepted))
  }

  lemma PairsApart(w: World)
    ensures Apart(w) <==> forall a, b :: PairApart(w, a, b)
  {
    hide Passed;
    if Apart(w) {
      forall a, b ensures PairApart(w, a, b) {
      }
    }
    if forall a, b :: PairApart(w, a, b) {
      forall a, b | a != b && HasInserted(w, a) && HasInserted(w, b) && w.calls[a].claims.key == w.calls[b].claims.key
        ensures Passed(w, RetainThrough(w.calls[a].claims)) && !(At(w, a, Accepted) && At(w, b, Accepted))
      {
        assert PairApart(w, a, b);
      }
    }
  }

  /** A call that has inserted had done so before, or inserts now a key that is not remembered. */
  lemma InsertedBefore(lag: real, minted: map<ReplayKey, Claims>, w: World, act: Action, id: nat)
    requires Enabled(lag, minted, w, act)
    ensures var v := Apply(lag, minted, w, act);
            HasInserted(v, id) ==>
              && id in w.calls && v.calls[id].claims == w.calls[id].claims
              && (HasInserted(w, id) || (act == Insert(id) && w.calls[id].claims.key !in w.records))
              && (At(v, id, Accepted) ==> At(w, id, Accepted) || (act.Recheck? && act.id == id && At(w, id, Inserted)))
  {
    hide WindowOpen, RetentionOpen, Seconds;
  }

  /** A retention that has passed has passed for good, and a check made after that fails. */
  lemma PassedStays(lag: real, minted: map<ReplayKey, Claims>, w: World, act: Action, id: nat)
    requires lag <= 6000.0 && Enabled(lag, minted, w, act) && id in w.calls
    ensures var v := Apply(lag, minted, w, act);
            Passed(w, RetainThrough(w.calls[id].claims)) ==>
              && Passed(v, RetainThrough(w.calls[id].claims))
              && (act.Recheck? && act.id == id ==> !At(v, id, Accepted))
  {
    SecondsMonotone(w.storeNow, Apply(lag, minted, w, act).storeNow);
    if act.Recheck? && act.id == id && Passed(w, RetainThrough(w.calls[id].claims)) {
      LateCheckFails(lag, w, w.calls[id].claims, act.wall);
    }
    hide WindowOpen, RetentionOpen, Seconds;
  }

  lemma PairStaysApart(lag: real, minted: map<ReplayKey, Claims>, w: World, act: Action, a: nat, b: nat)
    requires lag <= 6000.0 && Enabled(lag, minted, w, act) && Inv(minted, w)
    ensures PairApart(Apply(lag, minted, w, act), a, b)
  {
    var v := Apply(lag, minted, w, act);
    hide Apply, Enabled, Passed, RecordsGenuine;
    InsertedBefore(lag, minted, w, act, a);
    InsertedBefore(lag, minted, w, act, b);
    if a != b && HasInserted(v, a) && HasInserted(v, b) && v.calls[a].claims.key == v.calls[b].claims.key {
      assert w.calls[a].claims == w.calls[b].claims;
      PassedStays(lag, minted, w, act, a);
      PassedStays(lag, minted, w, act, b);
      assert HasInserted(w, a) || HasInserted(w, b);
      assert Passed(w, RetainThrough(w.calls[a].claims));
    }
  }

  lemma {:induction false} RunKeepsInv(lag: real, minted: map<ReplayKey, Claims>, actions: seq<Action>)
    requires lag <= 6000.0 && After(lag, minted, actions).Some?
    ensures Inv(minted, After(lag, minted, actions).value)
  {
    if actions != [] {
      var before := actions[..|actions| - 1];
      RunKeepsInv(lag, minted, before);
      var w := After(lag, minted, before).value;
      var a := actions[|actions| - 1];
      StepKeepsRecords(lag, minted, w, a);
      StepKeepsRemembered(lag, minted, w, a);
      StepKeepsApart(lag, minted, w, a);
    }
  }

  lemma NextStep(lag: real, minted: map<ReplayKey, Claims>, actions: seq<Action>, a: Action)
    requires After(lag, minted, actions).Some? && Enabled(lag, minted, After(lag, minted, actions).value, a)
    ensures After(lag, minted, actions + [a]) == Some(Apply(lag, minted, After(lag, minted, actions).value, a))
  {
    assert (actions + [a])[..|actions|] == actions;
  }

  /** The whole seconds of a clock reading. */
  predicate ReadsSecond(wall: real, n: int) {
    n as real * 1000.0 <= wall < (n + 1) as real * 1000.0
  }

  lemma SecondsRead(wall: real)
    ensures ReadsSecond(wall, Seconds(wall)) && forall n :: ReadsSecond(wall, n) ==> n == Seconds(wall)
  {
    var q := wall / 1000.0;
    assert q * 1000.0 == wall;
    assert q.Floor as real <= q < q.Floor as real + 1.0;
  }

  /** The window check passes, before and after the consumption, from five seconds before the issue date until the expiry. */
  lemma CheckDecides(lag: real, minted: map<ReplayKey, Claims>, actions: seq<Action>, id: nat, wall: real, n: int)
    requires After(lag, minted, actions).Some? && ReadsSecond(wall, n)
    requires var w := After(lag, minted, actions).value; (At(w, id, Admitted) || At(w, id, Inserted)) && wall >= w.storeNow - lag
    ensures var w := After(lag, minted, actions).value; var c := w.calls[id].claims;
            var a := if At(w, id, Admitted) then CheckWindow(id, wall) else Recheck(id, wall);
            var passes := 0.0 <= wall && n <= 0x1F_FFFF_FFFF_FFFF && c.iat - 5 <= n < c.exp;
            var v := After(lag, minted, actions + [a]);
            && v.Some? && v.value.records == w.records && id in v.value.calls && v.value.calls[id].claims == c
            && v.value.calls[id].pc == if !passes then Rejected else if At(w, id, Admitted) then InWindow else Accepted
  {
    var w := After(lag, minted, actions).value;
    NextStep(lag, minted, actions, if At(w, id, Admitted) then CheckWindow(id, wall) else Recheck(id, wall));
    SecondsRead(wall);
    hide After, Seconds;
  }

  /** The replay clock is accepted through the fifth second after the expiry. */
  lemma ClockDecides(lag: real, minted: map<ReplayKey, Claims>, actions: seq<Action>, id: nat, now: real, n: int)
    requires After(lag, minted, actions).Some? && ReadsSecond(now, n) && At(After(lag, minted, actions).value, id, InWindow)
    ensures var w := After(lag, minted, actions).value; var c := w.calls[id].claims;
            var v := After(lag, minted, actions + [ReadReplayClock(id, now)]);
            var passes := 0.0 <= now && n <= 0x1F_FFFF_FFFF_FFFF && 0 < c.exp + 5 <= 0x1F_FFFF_FFFF_FFFF && n <= c.exp + 5;
            && v.Some? && v.value.records == w.records && id in v.value.calls && v.value.calls[id].claims == c
            && v.value.calls[id].pc == if passes then ClockRead else Rejected
  {
    NextStep(lag, minted, actions, ReadReplayClock(id, now));
    SecondsRead(now);
    hide After, Seconds;
  }

  /** The key is consumed exactly if the store does not remember it, and then it does, through the fifth second after the expiry. */
  lemma InsertDecides(lag: real, minted: map<ReplayKey, Claims>, actions: seq<Action>, id: nat)
    requires After(lag, minted, actions).Some? && At(After(lag, minted, actions).value, id, ClockRead)
    ensures var w := After(lag, minted, actions).value; var c := w.calls[id].claims;
            var v := After(lag, minted, actions + [Insert(id)]);
            && v.Some? && id in v.value.calls && v.value.calls[id].claims == c
            && v.value.calls[id].pc == (if c.key in w.records then Rejected else Inserted)
            && v.value.records == if c.key in w.records then w.records else w.records[c.key := c.exp + 5]
  {
    NextStep(lag, minted, actions, Insert(id));
    hide After;
  }

  /**
   * Whatever the interleaving, the outages and the store's forgetting, a grant is accepted by at most one call
   * over all verifiers sharing the store, when their clocks are at most six seconds behind the store's (the
   * profile allows five).
   */
  lemma AtMostOneAcceptance(lag: real, minted: map<ReplayKey, Claims>, actions: seq<Action>)
    requires lag <= 6000.0 && After(lag, minted, actions).Some?
    ensures OneAcceptance(After(lag, minted, actions).value)
  {
    RunKeepsInv(lag, minted, actions);
    var w := After(lag, minted, actions).value;
    hide After, Genuine, RecordsGenuine, Remembered, Passed;
    forall a, b | a in w.calls && b in w.calls && a != b && w.calls[a].claims.key == w.calls[b].claims.key
      ensures !(w.calls[a].pc == Accepted && w.calls[b].pc == Accepted)
    {
      assert At(w, a, Accepted) ==> HasInserted(w, a);
      assert At(w, b, Accepted) ==> HasInserted(w, b);
    }
  }

  /** A replay clock at most `lag` ahead of a verifier that finds the grant in its window is within the retention. */
  predicate RetentionFollows(lag: real, claims: Claims, wall: real, now: real) {
    && WindowOpen(claims, wall) && IsNumericDate(RetainThrough(claims))
    && 0.0 <= now <= wall + lag && Seconds(now) <= MAX_SAFE_INTEGER
    ==>
    RetentionOpen(RetainThrough(claims), now)
  }

  /** The same six seconds are what the retention allows: within them no grant in its window is refused as too old. */
  lemma RetentionAdmitsOpenWindows(lag: real)
    ensures (forall claims, wall, now :: RetentionFollows(lag, claims, wall, now)) <==> lag <= 6000.0
  {
    if lag <= 6000.0 {
      forall claims, wall, now ensures RetentionFollows(lag, claims, wall, now) {
        assert now / 1000.0 <= wall / 1000.0 + 6.0 || now > wall + lag;
      }
    } else {
      var wall := if lag < 6001.0 then 116_000.0 - lag else 109_999.0;
      assert 109.0 <= wall / 1000.0 < 110.0 && 116_000.0 / 1000.0 == 116.0;
      assert !RetentionFollows(lag, GRANT, wall, 116_000.0);
    }
  }

  // ---------------------------------------------------------------- why the second check is there

  const GRANT: Claims := Claims(ReplayKey([1], [1], [1], [1]), 100, 110)
  const MINTED: map<ReplayKey, Claims> := map[GRANT.key := GRANT]

  /** Two calls read a replay clock that agrees with the store; the record of the first is dropped before the second inserts. */
  function GapActions(late: real): seq<Action> {
    [Present(0, GRANT), Present(1, GRANT), Tick(109_000.0), CheckWindow(0, 109_000.0), CheckWindow(1, 109_000.0),
     ReadReplayClock(0, 109_000.0), ReadReplayClock(1, 109_000.0), Insert(0), Recheck(0, 109_000.0),
     Tick(116_000.0), Drop(GRANT.key), Insert(1), Recheck(1, late)]
  }

  lemma AfterStep(lag: real, minted: map<ReplayKey, Claims>, actions: seq<Action>, n: nat)
    requires n < |actions| && After(lag, minted, actions[..n]).Some?
    requires Enabled(lag, minted, After(lag, minted, actions[..n]).value, actions[n])
    ensures After(lag, minted, actions[..n + 1]) == Some(Apply(lag, minted, After(lag, minted, actions[..n]).value, actions[n]))
  {
    assert actions[..n + 1][..n] == actions[..n];
  }

  function GapCalls(first: Pc, second: Pc): map<nat, Call> {
    map[0 := Call(GRANT, first), 1 := Call(GRANT, second)]
  }

  function GapWorld(second: Pc): World {
    World(116_000.0, map[GRANT.key := 115], GapCalls(Accepted, second))
  }

  lemma GapClocks()
    ensures WindowOpen(GRANT, 109_000.0) && RetentionOpen(115, 109_000.0) && Seconds(116_000.0) == 116
  {
    assert 109_000.0 / 1000.0 == 109.0 && 116_000.0 / 1000.0 == 116.0;
  }

  lemma GapMoves(storeNow: real, records: map<ReplayKey, int>, first: Pc, second: Pc, pc: Pc)
    ensures Move(World(storeNow, records, GapCalls(first, second)), 0, pc) == World(storeNow, records, GapCalls(pc, second))
    ensures Move(World(storeNow, records, GapCalls(first, second)), 1, pc) == World(storeNow, records, GapCalls(first, pc))
  {
    GapCallsMove(first, second, pc);
    hide GapCalls;
  }

  lemma GapCallsMove(first: Pc, second: Pc, pc: Pc)
    ensures GapCalls(first, second)[0 := Call(GRANT, pc)] == GapCalls(pc, second)
    ensures GapCalls(first, second)[1 := Call(GRANT, pc)] == GapCalls(first, pc)
    ensures forall id | 0 <= id <= 1 :: id in GapCalls(first, second) && GapCalls(first, second)[id].claims == GRANT
  {
    hide GRANT;
    var calls := GapCalls(first, second);
    assert calls[0 := Call(GRANT, pc)] == GapCalls(pc, second);
    assert calls[1 := Call(GRANT, pc)] == GapCalls(first, pc);
  }

  lemma GapScript(late: real)
    ensures var s := GapActions(late);
            && |s| == 13
            && s[3] == CheckWindow(0, 109_000.0) && s[4] == CheckWindow(1, 109_000.0)
            && s[5] == ReadReplayClock(0, 109_000.0) && s[6] == ReadReplayClock(1, 109_000.0)
            && s[7] == Insert(0) && s[8] == Recheck(0, 109_000.0)
            && s[9] == Tick(116_000.0) && s[10] == Drop(GRANT.key) && s[11] == Insert(1) && s[12] == Recheck(1, late)
  {
  }

  lemma GapPresented(lag: real, late: real)
    requires lag >= 0.0
    ensures After(lag, MINTED, GapActions(late)[..3]) == Some(World(109_000.0, map[], GapCalls(Admitted, Admitted)))
  {
    var s := GapActions(late);
    assert After(lag, MINTED, s[..0]) == Some(INITIAL);
    hide After;
    AfterStep(lag, MINTED, s, 0);
    AfterStep(lag, MINTED, s, 1);
    assert map[0 := Call(GRANT, Admitted)][1 := Call(GRANT, Admitted)] == GapCalls(Admitted, Admitted);
    AfterStep(lag, MINTED, s, 2);
  }

  lemma BothInWindow(lag: real, late: real)
    requires lag >= 0.0
    ensures After(lag, MINTED, GapActions(late)[..5]) == Some(World(109_000.0, map[], GapCalls(InWindow, InWindow)))
  {
    hide After, GapActions, WindowOpen, RetentionOpen, Seconds, Move;
    var s := GapActions(late);
    GapScript(late);
    GapClocks();
    GapPresented(lag, late);
    AfterStep(lag, MINTED, s, 3);
    GapMoves(109_000.0, map[], Admitted, Admitted, InWindow);
    AfterStep(lag, MINTED, s, 4);
    GapMoves(109_000.0, map[], InWindow, Admitted, InWindow);
  }

  lemma BothReadTheClock(lag: real, late: real)
    requires lag >= 0.0
    ensures After(lag, MINTED, GapActions(late)[..7]) == Some(World(109_000.0, map[], GapCalls(ClockRead, ClockRead)))
  {
    hide After, GapActions, WindowOpen, RetentionOpen, Seconds, Move;
    var s := GapActions(late);
    GapScript(late);
    GapClocks();
    BothInWindow(lag, late);
    AfterStep(lag, MINTED, s, 5);
    GapMoves(109_000.0, map[], InWindow, InWindow, ClockRead);
    AfterStep(lag, MINTED, s, 6);
    GapMoves(109_000.0, map[], ClockRead, InWindow, ClockRead);
  }

  lemma FirstAccepted(lag: real, late: real)
    requires lag >= 0.0
    ensures After(lag, MINTED, GapActions(late)[..9]) == Some(World(109_000.0, map[GRANT.key := 115], GapCalls(Accepted, ClockRead)))
  {
    hide After, GapActions, WindowOpen, RetentionOpen, Seconds, Move;
    var s := GapActions(late);
    GapScript(late);
    GapClocks();
    BothReadTheClock(lag, late);
    AfterStep(lag, MINTED, s, 7);
    GapMoves(109_000.0, map[], ClockRead, ClockRead, Inserted);
    AfterStep(lag, MINTED, s, 8);
    GapMoves(109_000.0, map[GRANT.key := 115], Inserted, ClockRead, Accepted);
  }

  lemma GapOpens(lag: real, late: real)
    requires lag >= 0.0
    ensures After(lag, MINTED, GapActions(late)[..12]) == Some(GapWorld(Inserted))
  {
    hide After, GapActions, WindowOpen, RetentionOpen, Seconds, Move;
    var s := GapActions(late);
    GapScript(late);
    GapClocks();
    FirstAccepted(lag, late);
    AfterStep(lag, MINTED, s, 9);
    AfterStep(lag, MINTED, s, 10);
    assert map[GRANT.key := 115] - {GRANT.key} == map[];
    AfterStep(lag, MINTED, s, 11);
    GapMoves(116_000.0, map[], Accepted, ClockRead, Inserted);
  }

  /**
   * The gap between reading the replay clock and inserting is real: with every clock in agreement, two calls can
   * both insert one grant's key, so a verifier that did not check its clock again would accept twice.
   */
  lemma BothCanInsert()
    ensures exists actions :: After(0.0, MINTED, actions).Some? && HasInserted(After(0.0, MINTED, actions).value, 0)
                              && HasInserted(After(0.0, MINTED, actions).value, 1)
  {
    var s := GapActions(0.0)[..12];
    GapOpens(0.0, 0.0);
    assert After(0.0, MINTED, s).Some?;
  }

  /** With a clock further behind, the second check is passed and the grant is accepted twice. */
  lemma LaggingClockAcceptsTwice(lag: real)
    requires lag > 6000.0
    ensures exists actions :: After(lag, MINTED, actions).Some? && !OneAcceptance(After(lag, MINTED, actions).value)
  {
    var late := if lag < 6001.0 then 116_000.0 - lag else 109_999.0;
    var s := GapActions(late);
    GapOpens(lag, late);
    assert WindowOpen(GRANT, late) by {
      assert 109.0 <= late / 1000.0 < 110.0;
    }
    AfterStep(lag, MINTED, s, 12);
    assert s[..13] == s;
    assert GapWorld(Accepted).calls == GapWorld(Inserted).calls[1 := Call(GRANT, Accepted)];
    assert After(lag, MINTED, s) == Some(GapWorld(Accepted));
    assert !OneAcceptance(GapWorld(Accepted)) by {
      assert At(GapWorld(Accepted), 0, Accepted) && At(GapWorld(Accepted), 1, Accepted);
    }
  }

  /** Acceptance is single exactly for clocks at most six seconds behind the store's. */
  lemma SingleAcceptanceExactly(lag: real)
    ensures (forall minted, actions | After(lag, minted, actions).Some? :: OneAcceptance(After(lag, minted, actions).value))
            <==> lag <= 6000.0
  {
    if lag <= 6000.0 {
      forall minted, actions | After(lag, minted, actions).Some?
        ensures OneAcceptance(After(lag, minted, actions).value)
      {
        AtMostOneAcceptance(lag, minted, actions);
      }
    } else {
      LaggingClockAcceptsTwice(lag);
    }
  }
}
