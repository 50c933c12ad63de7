/** What a principal listing is answered: when it asks for a retry, and what it returns while nobody writes. */
module RoleListings {
  import opened Prelude
  import opened RoleRecords
  import opened RoleStore
  import opened RoleStoreSafety
  import opened RoleReads
  import opened RoleSeeding
  import opened Administration
  import opened RoleWorld
  import opened RoleTheorems

  /** Call `p` is listing `location`, for its own sake or as the history of a seeding, and stands at `pc`. */
  predicate Lists(w: World, p: nat, location: Location, pc: ListPc) {
    p in w.calls &&
    match w.calls[p]
    case ListingPrincipal(l, at) => l == location && at == pc
    case Seeding(c, SeedHistory(at)) => c.Place() == location && at == pc
    case _ => false
  }

  /** The action begins a listing of `location`, or a seeding there. */
  predicate BeginsListing(a: Action, p: nat, location: Location) {
    a == Begin(p, StartListing(location)) || (a.Begin? && a.p == p && a.start.StartSeeding? && a.start.seed.Place() == location)
  }

  lemma ListingOpens(w: World, a: Action, p: nat, location: Location)
    requires p !in w.calls && BeginsListing(a, p, location)
    ensures Lists(Step(w, a), p, location, ListStart) && Step(w, a).store == w.store
  {
    hide CallStep;
  }

  /** A call that is listing was listing before: it has taken a step of the listing, or none. */
  lemma ListedBefore(w: World, a: Action, p: nat, location: Location, pc: ListPc)
    requires p in w.calls && Lists(Step(w, a), p, location, pc)
    ensures exists was :: Lists(w, p, location, was)
                          && pc == if a.Advance? && a.p == p then ListStep(w.store, location, was, a.choice.row) else was
  {
    if a.Advance? && a.p == p && Runnable(w, p) {
      OwnStep(w, p, a.choice);
      StepOfListing(w.policy, w.store, w.calls[p], a.choice, location, pc);
      hide CallStep, ListStep;
    } else {
      hide CallStep, ListStep;
      assert Lists(w, p, location, pc);
    }
  }

  lemma StepOfListing(policy: Policy, s: Store, call: Call, choice: Choice, location: Location, pc: ListPc)
    requires var next := CallStep(policy, s, call, choice).1;
             || next == ListingPrincipal(location, pc)
             || (next.Seeding? && next.seed.Place() == location && next.seedPc == SeedHistory(pc))
    ensures match call
            case ListingPrincipal(l, was) => l == location && pc == ListStep(s, location, was, choice.row)
            case Seeding(c, SeedHistory(was)) => c.Place() == location && pc == ListStep(s, location, was, choice.row)
            case _ => false
  {
    hide GrantStep, RevokeStep, ListStep, ByRoleStep, AdminStep, ShowsRole;
  }

  // ---------------------------------------------------------------- a retry is asked for only when a row has moved

  /** The row stood at some instant of the call. */
  ghost predicate Stood(r: Run, i: nat, j: nat, location: Location, id: RowId, row: Row) {
    exists m :: i < m < j && m < |r.states| && RowAt(r.states[m].store, location, id) == Some(row)
  }

  /** A row that stood at one instant of the call did not stand at a later one. */
  ghost predicate RowMoved(r: Run, i: nat, j: nat, location: Location) {
    exists m, n, id, row :: MovedBetween(r, i, j, location, m, n, id, row)
  }

  predicate MovedBetween(r: Run, i: nat, j: nat, location: Location, m: nat, n: nat, id: RowId, row: Row) {
    && i < m < n < j && n < |r.states|
    && RowAt(r.states[m].store, location, id) == Some(row) && RowAt(r.states[n].store, location, id) != Some(row)
  }

  ghost predicate RowsStood(r: Run, i: nat, j: nat, location: Location, rows: map<RowId, Row>) {
    forall id | id in rows :: Stood(r, i, j, location, id, rows[id])
  }

  /** What a listing has read stood when it was read; and it asks for a retry only on account of a row that moved. */
  ghost predicate ReadTruly(r: Run, i: nat, j: nat, location: Location, pc: ListPc) {
    match pc
    case ListReading(_, rows) => RowsStood(r, i, j, location, rows)
    case ListConfirming(rows, _) => RowsStood(r, i, j, location, rows)
    case ListRetry => RowMoved(r, i, j, location)
    case _ => true
  }

  lemma StoodLater(r: Run, i: nat, j: nat, location: Location, rows: map<RowId, Row>)
    requires 0 < j && RowsStood(r, i, j - 1, location, rows)
    ensures RowsStood(r, i, j, location, rows)
  {
    hide RowAt;
    forall id | id in rows ensures Stood(r, i, j, location, id, rows[id]) {
      var m :| i < m < j - 1 && m < |r.states| && RowAt(r.states[m].store, location, id) == Some(rows[id]);
    }
  }

  lemma MovedLater(r: Run, i: nat, j: nat, location: Location)
    requires 0 < j && RowMoved(r, i, j - 1, location)
    ensures RowMoved(r, i, j, location)
  {
    hide RowAt;
    var m, n, id, row :| MovedBetween(r, i, j - 1, location, m, n, id, row);
    assert MovedBetween(r, i, j, location, m, n, id, row);
  }

  lemma TrulyLater(r: Run, i: nat, j: nat, location: Location, pc: ListPc)
    requires 0 < j && ReadTruly(r, i, j - 1, location, pc)
    ensures ReadTruly(r, i, j, location, pc)
  {
    hide RowsStood, RowMoved;
    match pc
    case ListReading(_, rows) => StoodLater(r, i, j, location, rows);
    case ListConfirming(rows, _) => StoodLater(r, i, j, location, rows);
    case ListRetry => MovedLater(r, i, j, location);
    case _ =>
  }

  /** A step taken in state `j - 1`, an instant of the call. */
  lemma StepReadsTruly(r: Run, i: nat, j: nat, location: Location, pc: ListPc, pick: Option<RowId>)
    requires i < j - 1 < |r.states| && ReadTruly(r, i, j - 1, location, pc)
    ensures ReadTruly(r, i, j, location, ListStep(r.states[j - 1].store, location, pc, pick))
  {
    TrulyLater(r, i, j, location, pc);
    hide RowsStood, RowMoved, RowAt, Stood, RowIds;
    var s := r.states[j - 1].store;
    NothingStood(r, i, j, location);
    if pick.Some? && pc.ListReading? && RowAt(s, location, pick.value).Some? {
      OneMoreStood(r, i, j, location, pc.rows, pick.value, RowAt(s, location, pick.value).value);
    } else if pick.Some? && pc.ListConfirming? && pick.value in pc.rows && RowAt(s, location, pick.value) != Some(pc.rows[pick.value]) {
      NowMoved(r, i, j, location, pc.rows, pick.value);
    }
  }

  lemma NothingStood(r: Run, i: nat, j: nat, location: Location)
    ensures RowsStood(r, i, j, location, map[])
  {
  }

  lemma OneMoreStood(r: Run, i: nat, j: nat, location: Location, rows: map<RowId, Row>, id: RowId, row: Row)
    requires i < j - 1 < |r.states| && RowsStood(r, i, j, location, rows) && RowAt(r.states[j - 1].store, location, id) == Some(row)
    ensures RowsStood(r, i, j, location, rows[id := row])
  {
    hide RowAt;
    assert Stood(r, i, j, location, id, row);
    hide Stood;
  }

  lemma NowMoved(r: Run, i: nat, j: nat, location: Location, rows: map<RowId, Row>, id: RowId)
    requires i < j - 1 < |r.states| && RowsStood(r, i, j - 1, location, rows) && id in rows
    requires RowAt(r.states[j - 1].store, location, id) != Some(rows[id])
    ensures RowMoved(r, i, j, location)
  {
    hide RowAt;
    assert Stood(r, i, j - 1, location, id, rows[id]);
    var m :| i < m < j - 1 && m < |r.states| && RowAt(r.states[m].store, location, id) == Some(rows[id]);
    assert MovedBetween(r, i, j, location, m, j - 1, id, rows[id]);
  }

  lemma {:induction false} ListingReadsTruly(r: Run, i: nat, j: nat, p: nat, location: Location, pc: ListPc)
    requires IsRun(r) && i < j < |r.states| && i < |r.actions| && p !in r.states[i].calls
    requires BeginsListing(r.actions[i], p, location) && Lists(r.states[j], p, location, pc)
    ensures ReadTruly(r, i, j, location, pc)
    decreases j
  {
    hide *;
    RunSteps(r, j);
    if i + 1 == j {
      ListingOpens(r.states[i], r.actions[i], p, location);
      OneListing(r.states[j], p, location, pc, ListStart);
      StartsTruly(r, i, j, location);
    } else {
      CallStays(r, i + 1, j - 1, p, location, i);
      ListedBefore(r.states[j - 1], r.actions[j - 1], p, location, pc);
      var was := ListingBefore(r.states[j - 1], r.actions[j - 1], p, location, pc);
      ListingReadsTruly(r, i, j - 1, p, location, was);
      StepReadsTruly(r, i, j, location, was, RowPicked(r.actions[j - 1]));
      TrulyLater(r, i, j, location, was);
    }
  }

  function RowPicked(a: Action): Option<RowId> {
    if a.Advance? then a.choice.row else None
  }

  lemma ListingBefore(w: World, a: Action, p: nat, location: Location, pc: ListPc) returns (was: ListPc)
    requires p in w.calls && Lists(Step(w, a), p, location, pc)
    ensures Lists(w, p, location, was)
    ensures pc == if a.Advance? && a.p == p then ListStep(w.store, location, was, RowPicked(a)) else was
  {
    ListedBefore(w, a, p, location, pc);
    hide Lists, ListStep, Step;
    was :| Lists(w, p, location, was)
           && pc == if a.Advance? && a.p == p then ListStep(w.store, location, was, a.choice.row) else was;
  }

  lemma OneListing(w: World, p: nat, location: Location, a: ListPc, b: ListPc)
    requires Lists(w, p, location, a) && Lists(w, p, location, b)
    ensures a == b
  {
  }

  lemma StartsTruly(r: Run, i: nat, j: nat, location: Location)
    ensures ReadTruly(r, i, j, location, ListStart)
  {
  }

  /** A call once begun is never forgotten. */
  lemma {:induction false} CallStays(r: Run, k: nat, j: nat, p: nat, location: Location, i: nat)
    requires IsRun(r) && k == i + 1 <= j < |r.states| && i < |r.actions| && p !in r.states[i].calls
    requires BeginsListing(r.actions[i], p, location)
    ensures p in r.states[j].calls
    decreases j
  {
    hide *;
    RunSteps(r, j);
    if j == k {
      ListingOpens(r.states[i], r.actions[i], p, location);
      ListsIsCall(r.states[j], p, location, ListStart);
    } else {
      CallStays(r, k, j - 1, p, location, i);
      CallsStay(r.states[j - 1], r.actions[j - 1], p);
    }
  }

  lemma ListsIsCall(w: World, p: nat, location: Location, pc: ListPc)
    requires Lists(w, p, location, pc)
    ensures p in w.calls
  {
  }

  lemma CallsStay(w: World, a: Action, p: nat)
    requires p in w.calls
    ensures p in Step(w, a).calls
  {
    hide CallStep;
  }

  /**
   * A principal listing, a seeding's history included, asks for a retry only if one of the rows it read at an instant of
   * the call stood no more at a later one.
   */
  lemma RetryMeansMoved(r: Run, i: nat, j: nat, p: nat, location: Location)
    requires IsRun(r) && i < j < |r.states| && i < |r.actions| && p !in r.states[i].calls
    requires BeginsListing(r.actions[i], p, location) && Lists(r.states[j], p, location, ListRetry)
    ensures exists m, n, id, row ::
              && i < m < n < j
              && RowAt(r.states[m].store, location, id) == Some(row) && RowAt(r.states[n].store, location, id) != Some(row)
  {
    ListingReadsTruly(r, i, j, p, location, ListRetry);
    hide IsRun, RowAt, Lists, BeginsListing;
    var m: nat, n: nat, id: RowId, row: Row :| MovedBetween(r, i, j, location, m, n, id, row);
    assert i < m < n < j && RowAt(r.states[m].store, location, id) == Some(row)
           && RowAt(r.states[n].store, location, id) != Some(row);
  }

  // ---------------------------------------------------------------- while nobody writes

  /** The rows are those of the partition, all of them. */
  ghost predicate AreTheRows(s: Store, location: Location, rows: map<RowId, Row>) {
    forall id, row :: (id in rows && rows[id] == row) <==> RowAt(s, location, id) == Some(row)
  }

  /** Where a listing of a store that does not change can stand: nowhere but on its way to the partition's rows. */
  ghost predicate OnTheWay(s: Store, location: Location, pc: ListPc) {
    match pc
    case ListStart => true
    case ListReading(must, rows) =>
      && (forall id :: id in must <==> RowAt(s, location, id).Some?)
      && (forall id | id in rows :: RowAt(s, location, id) == Some(rows[id]))
    case ListConfirming(rows, _) => AreTheRows(s, location, rows)
    case ListDone(rows) => AreTheRows(s, location, rows)
    case ListRetry => false
    case ListCorrupt => false
  }

  lemma StaysOnTheWay(s: Store, location: Location, pc: ListPc, pick: Option<RowId>)
    requires StoreInv(s) && ListOk(s, location, pc) && OnTheWay(s, location, pc)
    ensures OnTheWay(s, location, ListStep(s, location, pc, pick))
  {
    RowsAreThere(s, location);
    ListStepSafe(s, location, pc, pick);
    hide StoreInv, RowAt, RowIds, Seen;
  }

  lemma ListsOk(r: Run, j: nat, p: nat, location: Location, pc: ListPc)
    requires IsRun(r) && j < |r.states| && Lists(r.states[j], p, location, pc)
    ensures StoreInv(r.states[j].store) && ListOk(r.states[j].store, location, pc)
  {
    RunSafe(r, j);
    hide IsRun, Step;
    CallIsOk(r.states[j], p);
    hide WorldInv, StoreInv, ListOk;
  }

  lemma {:induction false} QuietListingOnTheWay(r: Run, i: nat, j: nat, p: nat, location: Location, pc: ListPc, s: Store)
    requires IsRun(r) && i < j < |r.states| && i < |r.actions| && p !in r.states[i].calls
    requires BeginsListing(r.actions[i], p, location) && Lists(r.states[j], p, location, pc)
    requires forall m | i < m <= j :: r.states[m].store == s
    ensures OnTheWay(s, location, pc)
    decreases j
  {
    hide *;
    RunSteps(r, j);
    if i + 1 == j {
      ListingOpens(r.states[i], r.actions[i], p, location);
      OneListing(r.states[j], p, location, pc, ListStart);
      StartIsOnTheWay(s, location);
    } else {
      CallStays(r, i + 1, j - 1, p, location, i);
      var was := ListingBefore(r.states[j - 1], r.actions[j - 1], p, location, pc);
      QuietListingOnTheWay(r, i, j - 1, p, location, was, s);
      ListsOk(r, j - 1, p, location, was);
      StaysOnTheWay(s, location, was, RowPicked(r.actions[j - 1]));
    }
  }

  lemma StartIsOnTheWay(s: Store, location: Location)
    ensures OnTheWay(s, location, ListStart)
  {
  }

  /** While nobody writes, a listing never asks for a retry, and what it returns is the partition's rows, all of them. */
  lemma QuietListingIsExact(r: Run, i: nat, j: nat, p: nat, location: Location, s: Store)
    requires IsRun(r) && i < j < |r.states| && p !in r.states[i].calls && r.actions[i] == Begin(p, StartListing(location))
    requires forall m | i < m <= j :: r.states[m].store == s
    requires p in r.states[j].calls && r.states[j].calls[p].ListingPrincipal? && r.states[j].calls[p].location == location
    ensures var pc := r.states[j].calls[p].listPc;
            && pc != ListRetry && pc != ListCorrupt
            && (pc.ListDone? ==> forall id, row :: (id in pc.rows && pc.rows[id] == row) <==> RowAt(s, location, id) == Some(row))
  {
    RunSteps(r, i + 1);
    QuietListingOnTheWay(r, i, j, p, location, r.states[j].calls[p].listPc, s);
    hide IsRun, Step, RowAt;
  }
}
