/** Two runs in which a duplicate seeding ends in a conflict, each from an empty store. */
module TwinRuns {
  import opened Prelude
  import opened RoleRecords
  import opened RoleStore
  import opened RoleStoreSafety
  import opened RoleReads
  import opened RoleSeeding
  import opened Administration
  import opened RoleWorld
  import opened RoleTheorems
  import opened TwinGrants

  const POLICY := Policy([1], {})
  const PLACE := Location([1], [1], Application)

  function GrantOf(id: Text): GrantCommand {
    GrantCommand([1], Assignment(id, [1], [1], Application, System(SEED_SYSTEM_ID), 0, Active), id)
  }

  const FIRST := GrantOf([1])
  const OTHER := GrantOf([2])

  function ChoiceOf(row: Option<RowId>, rejection: Rejection): Choice {
    Choice(rejection, None, row, 0, [], [])
  }

  /** Calls 1 and 2 are seedings of one manifest; calls 3 and 4, if there are any, a revoke and another grant. */
  function At(s: Store, one: SeedPc, two: SeedPc, others: map<nat, Call>): World {
    World(POLICY, s, others[1 := Seeding(FIRST, one)][2 := Seeding(FIRST, two)], map[], map[], {})
  }

  lemma Starts()
    ensures Reached(EMPTY_STORE, At(EMPTY_STORE, SEED_START, SEED_START, map[]))
  {
    var w := Initial(POLICY, EMPTY_STORE);
    EmptyStoreAgrees();
    ReachedFirst(POLICY, EMPTY_STORE);
    hide Reached, StoreInv;
    ReachedNext(EMPTY_STORE, w, Begin(1, StartSeeding(FIRST)));
    var v := Step(w, Begin(1, StartSeeding(FIRST)));
    ReachedNext(EMPTY_STORE, v, Begin(2, StartSeeding(FIRST)));
    assert Step(v, Begin(2, StartSeeding(FIRST))) == At(EMPTY_STORE, SEED_START, SEED_START, map[]);
  }

  /** A step of seeding 1 as a step of the world. */
  lemma OneMoves(s: Store, one: SeedPc, two: SeedPc, others: map<nat, Call>, rejection: Rejection)
    requires Reached(EMPTY_STORE, At(s, one, two, others))
    ensures var (t, pc) := SeedStep(s, FIRST, one, None, rejection); Reached(EMPTY_STORE, At(t, pc, two, others))
  {
    OneSteps(s, one, two, others, rejection);
    hide *;
    ReachedNext(EMPTY_STORE, At(s, one, two, others), Advance(1, ChoiceOf(None, rejection)));
  }

  lemma OneSteps(s: Store, one: SeedPc, two: SeedPc, others: map<nat, Call>, rejection: Rejection)
    ensures var (t, pc) := SeedStep(s, FIRST, one, None, rejection);
            Step(At(s, one, two, others), Advance(1, ChoiceOf(None, rejection))) == At(t, pc, two, others)
  {
    OwnStep(At(s, one, two, others), 1, ChoiceOf(None, rejection));
    hide SeedStep;
  }

  /** A step of seeding 2. */
  lemma TwoMoves(s: Store, one: SeedPc, two: SeedPc, others: map<nat, Call>, rejection: Rejection)
    requires Reached(EMPTY_STORE, At(s, one, two, others))
    ensures var (t, pc) := SeedStep(s, FIRST, two, None, rejection); Reached(EMPTY_STORE, At(t, one, pc, others))
  {
    TwoSteps(s, one, two, others, rejection);
    hide *;
    ReachedNext(EMPTY_STORE, At(s, one, two, others), Advance(2, ChoiceOf(None, rejection)));
  }

  lemma TwoSteps(s: Store, one: SeedPc, two: SeedPc, others: map<nat, Call>, rejection: Rejection)
    ensures var (t, pc) := SeedStep(s, FIRST, two, None, rejection);
            Step(At(s, one, two, others), Advance(2, ChoiceOf(None, rejection))) == At(t, one, pc, others)
  {
    OwnStep(At(s, one, two, others), 2, ChoiceOf(None, rejection));
    hide SeedStep;
  }

  // ---------------------------------------------------------------- what the steps come to

  const POINTED := EMPTY_STORE.(pointers := map[KeyOfPointer(FIRST.Row()) := FIRST.Row()])
  const INDEXED := POINTED.(holders := map[KeyOfHolder(FIRST.Row()) := FIRST.Row()])
  const RECORD := Versioned(FIRST.Record(), 0)
  const GRANTED := INDEXED.(
    assignments := map[FIRST.Key() := RECORD],
    guards := map[FIRST.Guard() := Versioned(StoredTuple(PLACE, [1], Some([1])), 1)],
    audits := map[AuditKey(PLACE, [1], 1) := StoredAudit(PLACE, [1], 1, [1])],
    nextVersion := 2)

  const READING := SeedHistory(ListReading({}, map[]))
  const CONFIRMING := SeedHistory(ListConfirming(map[], {}))
  const LISTED := SeedHistory(ListDone(map[]))
  const CLAIMING := SeedGranting(GrantWritePointer)

  lemma HistoryIsEmpty(rejection: Rejection)
    ensures SeedStep(EMPTY_STORE, FIRST, SEED_START, None, rejection) == (EMPTY_STORE, READING)
    ensures SeedStep(EMPTY_STORE, FIRST, READING, None, rejection) == (EMPTY_STORE, CONFIRMING)
    ensures SeedStep(EMPTY_STORE, FIRST, CONFIRMING, None, rejection) == (EMPTY_STORE, LISTED)
    ensures SeedStep(EMPTY_STORE, FIRST, LISTED, None, rejection) == (EMPTY_STORE, CLAIMING)
  {
    assert RowIds(EMPTY_STORE, FIRST.Place()) == {};
  }

  lemma FirstClaims(rejection: Rejection)
    ensures SeedStep(EMPTY_STORE, FIRST, CLAIMING, None, rejection) == (POINTED, SeedGranting(GrantWriteHolder))
    ensures SeedStep(POINTED, FIRST, CLAIMING, None, rejection) == (POINTED, SeedGranting(GrantWriteHolder))
    ensures SeedStep(POINTED, FIRST, SeedGranting(GrantWriteHolder), None, rejection) == (INDEXED, SeedGranting(GrantReadGuard))
    ensures SeedStep(INDEXED, FIRST, SeedGranting(GrantWriteHolder), None, rejection) == (INDEXED, SeedGranting(GrantReadGuard))
  {
  }

  lemma FirstGrants(rejection: Rejection)
    ensures SeedStep(INDEXED, FIRST, SeedGranting(GrantReadGuard), None, rejection) == (INDEXED, SeedGranting(GrantReadExisting(None)))
    ensures SeedStep(INDEXED, FIRST, SeedGranting(GrantReadExisting(None)), None, rejection) == (INDEXED, SeedGranting(GrantCommit(None)))
    ensures SeedStep(INDEXED, FIRST, SeedGranting(GrantCommit(None)), None, rejection) == (GRANTED, SeedGranting(GrantReadBack))
  {
  }

  lemma FirstEnds(rejection: Rejection)
    ensures SeedStep(GRANTED, FIRST, SeedGranting(GrantReadBack), None, rejection) == (GRANTED, SeedGranting(GrantDone(Granted(RECORD))))
    ensures SeedStep(GRANTED, FIRST, SeedGranting(GrantDone(Granted(RECORD))), None, rejection) == (GRANTED, DONE)
  {
  }

  const DONE := SeedDone(Seeded)
  const TURNED_AWAY := SeedGranting(GrantDone(GrantRefused(ActiveTuple)))

  /** The twin of a stored assignment is refused its transaction, and the backend does not say `exists`. */
  lemma TwinTurnedAway()
    ensures SeedStep(GRANTED, FIRST, SeedGranting(GrantCommit(None)), None, Changed) == (GRANTED, TURNED_AWAY)
  {
  }

  lemma TurnedAwayEnds(s: Store, rejection: Rejection)
    ensures SeedStep(s, FIRST, TURNED_AWAY, None, rejection) == (s, SeedDone(SeedConflict))
  {
  }

  // ---------------------------------------------------------------- the runs

  /** Both seedings have read the empty history. */
  lemma BothRead()
    ensures Reached(EMPTY_STORE, At(EMPTY_STORE, CLAIMING, CLAIMING, map[]))
  {
    hide *;
    Starts();
    HistoryIsEmpty(Changed);
    OneMoves(EMPTY_STORE, SEED_START, SEED_START, map[], Changed);
    TwoMoves(EMPTY_STORE, READING, SEED_START, map[], Changed);
    OneMoves(EMPTY_STORE, READING, READING, map[], Changed);
    TwoMoves(EMPTY_STORE, CONFIRMING, READING, map[], Changed);
    OneMoves(EMPTY_STORE, CONFIRMING, CONFIRMING, map[], Changed);
    TwoMoves(EMPTY_STORE, LISTED, CONFIRMING, map[], Changed);
    OneMoves(EMPTY_STORE, LISTED, LISTED, map[], Changed);
    TwoMoves(EMPTY_STORE, CLAIMING, LISTED, map[], Changed);
  }

  /** Both have read the tuple as free. */
  lemma BothCommit()
    ensures Reached(EMPTY_STORE, At(INDEXED, SeedGranting(GrantCommit(None)), SeedGranting(GrantCommit(None)), map[]))
  {
    hide *;
    BothRead();
    FirstClaims(Changed);
    FirstGrants(Changed);
    OneMoves(EMPTY_STORE, CLAIMING, CLAIMING, map[], Changed);
    TwoMoves(POINTED, SeedGranting(GrantWriteHolder), CLAIMING, map[], Changed);
    OneMoves(POINTED, SeedGranting(GrantWriteHolder), SeedGranting(GrantWriteHolder), map[], Changed);
    TwoMoves(INDEXED, SeedGranting(GrantReadGuard), SeedGranting(GrantWriteHolder), map[], Changed);
    OneMoves(INDEXED, SeedGranting(GrantReadGuard), SeedGranting(GrantReadGuard), map[], Changed);
    TwoMoves(INDEXED, SeedGranting(GrantReadExisting(None)), SeedGranting(GrantReadGuard), map[], Changed);
    OneMoves(INDEXED, SeedGranting(GrantReadExisting(None)), SeedGranting(GrantReadExisting(None)), map[], Changed);
    TwoMoves(INDEXED, SeedGranting(GrantCommit(None)), SeedGranting(GrantReadExisting(None)), map[], Changed);
  }

  lemma FirstConflict()
    ensures Reached(EMPTY_STORE, At(GRANTED, SeedGranting(GrantReadBack), TURNED_AWAY, map[]))
    ensures Reached(EMPTY_STORE, At(GRANTED, DONE, SeedDone(SeedConflict), map[]))
  {
    hide *;
    BothCommit();
    FirstGrants(Changed);
    TwinTurnedAway();
    FirstEnds(Changed);
    TurnedAwayEnds(GRANTED, Changed);
    OneMoves(INDEXED, SeedGranting(GrantCommit(None)), SeedGranting(GrantCommit(None)), map[], Changed);
    TwoMoves(GRANTED, SeedGranting(GrantReadBack), SeedGranting(GrantCommit(None)), map[], Changed);
    OneMoves(GRANTED, SeedGranting(GrantReadBack), TURNED_AWAY, map[], Changed);
    OneMoves(GRANTED, SeedGranting(GrantDone(Granted(RECORD))), TURNED_AWAY, map[], Changed);
    TwoMoves(GRANTED, DONE, TURNED_AWAY, map[], Changed);
  }

  /**
   * Both seedings read an empty history and a free tuple; the first one's transaction stores the assignment, the
   * second one's is refused, and the backend reports another reason than `exists`. The second answers `active_tuple`,
   * and its seeding a conflict, though the assignment that both asked for is stored and active.
   */
  lemma ConflictByWording()
    ensures exists w :: Reached(EMPTY_STORE, w) && TwinStored(w.store, FIRST) && SeedingAnswered(w, 2, FIRST, GrantRefused(ActiveTuple))
    ensures exists w :: Reached(EMPTY_STORE, w) && SeedingDone(w, 1, FIRST, Seeded) && SeedingDone(w, 2, FIRST, SeedConflict)
                        && Holds(w.store, FIRST.Place(), FIRST.assignment.role, FIRST.assignment.id)
  {
    hide Reached;
    FirstConflict();
    var answered := At(GRANTED, SeedGranting(GrantReadBack), TURNED_AWAY, map[]);
    var done := At(GRANTED, DONE, SeedDone(SeedConflict), map[]);
    assert TwinStored(answered.store, FIRST) && SeedingAnswered(answered, 2, FIRST, GrantRefused(ActiveTuple));
    assert SeedingDone(done, 1, FIRST, Seeded) && SeedingDone(done, 2, FIRST, SeedConflict);
  }

  // ---------------------------------------------------------------- the second run

  const REVOKE := RevokeCommand([1], [1], 0, System([2]), 0, None, [3])
  const HELD := Versioned(StoredTuple(PLACE, [1], Some([1])), 1)
  const FREED := Versioned(StoredTuple(PLACE, [1], None), 3)
  const RETIRED := GRANTED.(
    assignments := GRANTED.assignments[FIRST.Key() := Versioned(RevokedForm(RECORD.value, REVOKE), 2)],
    guards := GRANTED.guards[FIRST.Guard() := FREED],
    audits := GRANTED.audits[AuditKey(PLACE, [1], 2) := StoredAudit(PLACE, [1], 2, [3])],
    nextVersion := 4)
  const OTHER_POINTED := RETIRED.(pointers := RETIRED.pointers[KeyOfPointer(OTHER.Row()) := OTHER.Row()])
  const OTHER_INDEXED := OTHER_POINTED.(holders := RETIRED.holders[KeyOfHolder(OTHER.Row()) := OTHER.Row()])
  const RETAKEN := OTHER_INDEXED.(
    assignments := RETIRED.assignments[OTHER.Key() := Versioned(OTHER.Record(), 4)],
    guards := RETIRED.guards[OTHER.Guard() := Versioned(StoredTuple(PLACE, [1], Some([2])), 5)],
    audits := RETIRED.audits[AuditKey(PLACE, [2], 1) := StoredAudit(PLACE, [2], 1, [2])],
    nextVersion := 6)

  function Revoked3(pc: RevokePc): map<nat, Call> {
    map[3 := Revoking(REVOKE, pc)]
  }

  function Granting4(pc: GrantPc): map<nat, Call> {
    map[3 := Revoking(REVOKE, RevokeReadBack(FIRST.Row())), 4 := Granting(OTHER, pc)]
  }

  lemma OtherBegins(s: Store, one: SeedPc, two: SeedPc, others: map<nat, Call>, p: nat, start: Start, call: Call)
    requires Reached(EMPTY_STORE, At(s, one, two, others)) && p > 2 && p !in others && !start.StartRevokeRole?
    requires Opening(At(s, one, two, others), start) == call
    ensures Reached(EMPTY_STORE, At(s, one, two, others[p := call]))
  {
    hide *;
    ReachedNext(EMPTY_STORE, At(s, one, two, others), Begin(p, start));
    OtherBegun(s, one, two, others, p, start, call);
  }

  lemma OtherBegun(s: Store, one: SeedPc, two: SeedPc, others: map<nat, Call>, p: nat, start: Start, call: Call)
    requires p > 2 && p !in others && !start.StartRevokeRole? && Opening(At(s, one, two, others), start) == call
    ensures Step(At(s, one, two, others), Begin(p, start)) == At(s, one, two, others[p := call])
  {
    hide Opening, CallStep, FIRST;
    assert Step(At(s, one, two, others), Begin(p, start)).calls == At(s, one, two, others[p := call]).calls;
  }

  lemma OtherMoves(s: Store, one: SeedPc, two: SeedPc, others: map<nat, Call>, p: nat, t: Store, call: Call)
    requires Reached(EMPTY_STORE, At(s, one, two, others)) && p > 2 && p in others && !others[p].Administering?
    requires CallStep(POLICY, s, others[p], ChoiceOf(None, Exists)) == (t, call)
    ensures Reached(EMPTY_STORE, At(t, one, two, others[p := call]))
  {
    OtherSteps(s, one, two, others, p, t, call);
    hide *;
    ReachedNext(EMPTY_STORE, At(s, one, two, others), Advance(p, ChoiceOf(None, Exists)));
  }

  lemma OtherSteps(s: Store, one: SeedPc, two: SeedPc, others: map<nat, Call>, p: nat, t: Store, call: Call)
    requires p > 2 && p in others && !others[p].Administering?
    requires CallStep(POLICY, s, others[p], ChoiceOf(None, Exists)) == (t, call)
    ensures Step(At(s, one, two, others), Advance(p, ChoiceOf(None, Exists))) == At(t, one, two, others[p := call])
  {
    hide CallStep, FIRST;
    var w := At(s, one, two, others);
    assert w.calls[p] == others[p];
    assert Step(w, Advance(p, ChoiceOf(None, Exists))).calls == At(t, one, two, others[p := call]).calls;
  }

  lemma RevokeMoves(s: Store, t: Store, pc: RevokePc, next: RevokePc)
    requires Reached(EMPTY_STORE, At(s, DONE, CLAIMING, Revoked3(pc))) && RevokeStep(s, REVOKE, pc, Exists) == (t, next)
    ensures Reached(EMPTY_STORE, At(t, DONE, CLAIMING, Revoked3(next)))
  {
    hide Reached, RevokeStep, At;
    OtherMoves(s, DONE, CLAIMING, Revoked3(pc), 3, t, Revoking(REVOKE, next));
    assert Revoked3(pc)[3 := Revoking(REVOKE, next)] == Revoked3(next);
  }

  lemma OtherGrantMoves(s: Store, t: Store, pc: GrantPc, next: GrantPc)
    requires Reached(EMPTY_STORE, At(s, DONE, CLAIMING, Granting4(pc))) && GrantStep(s, OTHER, pc, Exists) == (t, next)
    ensures Reached(EMPTY_STORE, At(t, DONE, CLAIMING, Granting4(next)))
  {
    hide Reached, GrantStep, At;
    OtherMoves(s, DONE, CLAIMING, Granting4(pc), 4, t, Granting(OTHER, next));
    assert Granting4(pc)[4 := Granting(OTHER, next)] == Granting4(next);
  }

  lemma RevokeSteps()
    ensures RevokeStep(GRANTED, REVOKE, RevokeLocate, Exists) == (GRANTED, RevokeReadRecord(FIRST.Row()))
    ensures RevokeStep(GRANTED, REVOKE, RevokeReadRecord(FIRST.Row()), Exists) == (GRANTED, RevokeReadGuard(FIRST.Row(), RECORD))
    ensures RevokeStep(GRANTED, REVOKE, RevokeReadGuard(FIRST.Row(), RECORD), Exists) ==
            (GRANTED, RevokeCommit(FIRST.Row(), RECORD, HELD))
    ensures RevokeStep(GRANTED, REVOKE, RevokeCommit(FIRST.Row(), RECORD, HELD), Exists) == (RETIRED, RevokeReadBack(FIRST.Row()))
  {
  }

  lemma OtherClaims()
    ensures GrantStep(RETIRED, OTHER, GrantWritePointer, Exists) == (OTHER_POINTED, GrantWriteHolder)
    ensures GrantStep(OTHER_POINTED, OTHER, GrantWriteHolder, Exists) == (OTHER_INDEXED, GrantReadGuard)
  {
  }

  lemma OtherReads()
    ensures GrantStep(OTHER_INDEXED, OTHER, GrantReadGuard, Exists) == (OTHER_INDEXED, GrantReadExisting(Some(FREED)))
    ensures GrantStep(OTHER_INDEXED, OTHER, GrantReadExisting(Some(FREED)), Exists) == (OTHER_INDEXED, GrantCommit(Some(FREED)))
  {
  }

  lemma OtherCommits()
    ensures GrantStep(OTHER_INDEXED, OTHER, GrantCommit(Some(FREED)), Exists) == (RETAKEN, GrantReadBack)
  {
  }

  lemma TwinFindsAnother()
    ensures SeedStep(RETAKEN, FIRST, CLAIMING, None, Exists) == (RETAKEN, SeedGranting(GrantWriteHolder))
    ensures SeedStep(RETAKEN, FIRST, SeedGranting(GrantWriteHolder), None, Exists) == (RETAKEN, SeedGranting(GrantReadGuard))
    ensures SeedStep(RETAKEN, FIRST, SeedGranting(GrantReadGuard), None, Exists) == (RETAKEN, TURNED_AWAY)
  {
  }

  /** The first seeding has run to its end; the second has only read the history. */
  lemma FirstDone()
    ensures Reached(EMPTY_STORE, At(GRANTED, DONE, CLAIMING, map[]))
  {
    hide *;
    BothRead();
    FirstClaims(Exists);
    FirstGrants(Exists);
    FirstEnds(Exists);
    OneMoves(EMPTY_STORE, CLAIMING, CLAIMING, map[], Exists);
    OneMoves(POINTED, SeedGranting(GrantWriteHolder), CLAIMING, map[], Exists);
    OneMoves(INDEXED, SeedGranting(GrantReadGuard), CLAIMING, map[], Exists);
    OneMoves(INDEXED, SeedGranting(GrantReadExisting(None)), CLAIMING, map[], Exists);
    OneMoves(INDEXED, SeedGranting(GrantCommit(None)), CLAIMING, map[], Exists);
    OneMoves(GRANTED, SeedGranting(GrantReadBack), CLAIMING, map[], Exists);
    OneMoves(GRANTED, SeedGranting(GrantDone(Granted(RECORD))), CLAIMING, map[], Exists);
  }

  lemma RevokeBegins3()
    requires Reached(EMPTY_STORE, At(GRANTED, DONE, CLAIMING, map[]))
    ensures Reached(EMPTY_STORE, At(GRANTED, DONE, CLAIMING, Revoked3(RevokeLocate)))
  {
    hide Reached;
    OtherBegins(GRANTED, DONE, CLAIMING, map[], 3, StartRevoke(REVOKE), Revoking(REVOKE, RevokeLocate));
    assert map[][3 := Revoking(REVOKE, RevokeLocate)] == Revoked3(RevokeLocate);
  }

  lemma GrantBegins4()
    requires Reached(EMPTY_STORE, At(RETIRED, DONE, CLAIMING, Revoked3(RevokeReadBack(FIRST.Row()))))
    ensures Reached(EMPTY_STORE, At(RETIRED, DONE, CLAIMING, Granting4(GrantWritePointer)))
  {
    hide Reached;
    var others := Revoked3(RevokeReadBack(FIRST.Row()));
    OtherBegins(RETIRED, DONE, CLAIMING, others, 4, StartGrant(OTHER), Granting(OTHER, GrantWritePointer));
    assert others[4 := Granting(OTHER, GrantWritePointer)] == Granting4(GrantWritePointer);
  }

  /** The seeded assignment is revoked. */
  lemma FirstRetired()
    ensures Reached(EMPTY_STORE, At(RETIRED, DONE, CLAIMING, Revoked3(RevokeReadBack(FIRST.Row()))))
  {
    hide *;
    FirstDone();
    RevokeBegins3();
    RevokeSteps();
    RevokeMoves(GRANTED, GRANTED, RevokeLocate, RevokeReadRecord(FIRST.Row()));
    RevokeMoves(GRANTED, GRANTED, RevokeReadRecord(FIRST.Row()), RevokeReadGuard(FIRST.Row(), RECORD));
    RevokeMoves(GRANTED, GRANTED, RevokeReadGuard(FIRST.Row(), RECORD), RevokeCommit(FIRST.Row(), RECORD, HELD));
    RevokeMoves(GRANTED, RETIRED, RevokeCommit(FIRST.Row(), RECORD, HELD), RevokeReadBack(FIRST.Row()));
  }

  /** Another grant takes the tuple. */
  lemma TupleRetaken()
    ensures Reached(EMPTY_STORE, At(RETAKEN, DONE, CLAIMING, Granting4(GrantReadBack)))
  {
    hide *;
    FirstRetired();
    GrantBegins4();
    OtherClaims();
    OtherReads();
    OtherCommits();
    OtherGrantMoves(RETIRED, OTHER_POINTED, GrantWritePointer, GrantWriteHolder);
    OtherGrantMoves(OTHER_POINTED, OTHER_INDEXED, GrantWriteHolder, GrantReadGuard);
    OtherGrantMoves(OTHER_INDEXED, OTHER_INDEXED, GrantReadGuard, GrantReadExisting(Some(FREED)));
    OtherGrantMoves(OTHER_INDEXED, OTHER_INDEXED, GrantReadExisting(Some(FREED)), GrantCommit(Some(FREED)));
    OtherGrantMoves(OTHER_INDEXED, RETAKEN, GrantCommit(Some(FREED)), GrantReadBack);
  }

  lemma SecondConflict()
    ensures Reached(EMPTY_STORE, At(RETAKEN, DONE, TURNED_AWAY, Granting4(GrantReadBack)))
    ensures Reached(EMPTY_STORE, At(RETAKEN, DONE, SeedDone(SeedConflict), Granting4(GrantReadBack)))
  {
    hide *;
    TupleRetaken();
    TwinFindsAnother();
    TurnedAwayEnds(RETAKEN, Exists);
    TwoMoves(RETAKEN, DONE, CLAIMING, Granting4(GrantReadBack), Exists);
    TwoMoves(RETAKEN, DONE, SeedGranting(GrantWriteHolder), Granting4(GrantReadBack), Exists);
    TwoMoves(RETAKEN, DONE, SeedGranting(GrantReadGuard), Granting4(GrantReadBack), Exists);
    TwoMoves(RETAKEN, DONE, TURNED_AWAY, Granting4(GrantReadBack), Exists);
  }

  /**
   * Every refusal is worded `exists`, and still the second seeding ends in a conflict: after both read the empty
   * history the first one's assignment is stored and revoked, and another grant holds the tuple when the second
   * reads the guard.
   */
  lemma ConflictByAnotherHolder()
    ensures exists w :: Reached(EMPTY_STORE, w) && TwinStored(w.store, FIRST) && SeedingAnswered(w, 2, FIRST, GrantRefused(ActiveTuple))
                        && HeldByAnother(w.store, FIRST)
    ensures exists w :: Reached(EMPTY_STORE, w) && SeedingDone(w, 1, FIRST, Seeded) && SeedingDone(w, 2, FIRST, SeedConflict)
  {
    hide *;
    SecondConflict();
    RetakenHolds();
    TurnedAwayIsAnswered(RETAKEN, DONE, Granting4(GrantReadBack));
    BothDone(RETAKEN, Granting4(GrantReadBack));
  }

  lemma RetakenHolds()
    ensures TwinStored(RETAKEN, FIRST) && HeldByAnother(RETAKEN, FIRST)
  {
    assert Holds(RETAKEN, FIRST.Place(), FIRST.assignment.role, [2]);
  }

  lemma TurnedAwayIsAnswered(s: Store, one: SeedPc, others: map<nat, Call>)
    ensures var w := At(s, one, TURNED_AWAY, others);
            w.store == s && SeedingAnswered(w, 2, FIRST, GrantRefused(ActiveTuple))
  {
    hide FIRST;
  }

  lemma BothDone(s: Store, others: map<nat, Call>)
    ensures var w := At(s, DONE, SeedDone(SeedConflict), others);
            w.store == s && SeedingDone(w, 1, FIRST, Seeded) && SeedingDone(w, 2, FIRST, SeedConflict)
  {
    hide FIRST;
  }
}
