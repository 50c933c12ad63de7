/** One-time seeding of a role as a protocol: read the principal's history, and grant only where the role never was. */
module RoleSeeding {
  import opened Prelude
  import opened RoleRecords
  import opened RoleStore
  import opened RoleStoreSafety
  import opened RoleReads

  datatype SeedResult = Seeded | AlreadySeeded | SeedConflict | SeedInvalid | SeedRetry | SeedCorrupt

  datatype SeedPc =
    | SeedHistory(history: ListPc)
    | SeedGranting(grant: GrantPc)
    | SeedDone(result: SeedResult)

  const SEED_START := SeedHistory(ListStart)

  /** The history shows an assignment of the role, active or revoked. */
  predicate ShowsRole(rows: map<RowId, Row>, role: Text) {
    exists id | id in rows :: rows[id].AssignmentRow? && rows[id].assignment.assignment.role == role
  }

  function SeedAnswer(result: GrantResult): SeedResult {
    match result
    case Granted(_) => Seeded
    case GrantUnchanged(_) => AlreadySeeded
    case GrantRefused(_) => SeedConflict
    case GrantInvalid => SeedInvalid
    case GrantCorrupt => SeedCorrupt
  }

  /** One step of `ensureSeededAssignment`. */
  function SeedStep(s: Store, c: GrantCommand, pc: SeedPc, row: Option<RowId>, rejection: Rejection): (Store, SeedPc) {
    match pc
    case SeedHistory(ListDone(rows)) =>
      (s, if ShowsRole(rows, c.assignment.role) then SeedDone(AlreadySeeded) else SeedGranting(BeginGrant(c)))
    case SeedHistory(ListRetry) => (s, SeedDone(SeedRetry))
    case SeedHistory(ListCorrupt) => (s, SeedDone(SeedCorrupt))
    case SeedHistory(history) => (s, SeedHistory(ListStep(s, c.Place(), history, row)))
    case SeedGranting(GrantDone(result)) => (s, SeedDone(SeedAnswer(result)))
    case SeedGranting(grant) => var (s', grant') := GrantStep(s, c, grant, rejection); (s', SeedGranting(grant'))
    case SeedDone(_) => (s, pc)
  }

  ghost predicate SeedOk(s: Store, c: GrantCommand, pc: SeedPc) {
    match pc
    case SeedHistory(history) => ListOk(s, c.Place(), history)
    case SeedGranting(grant) => GrantOk(s, c, grant)
    case SeedDone(result) =>
      && result != SeedCorrupt && (result == SeedInvalid ==> !c.WellFormed())
      && (result == Seeded || result == AlreadySeeded ==> EverAssigned(s, c.Place(), c.assignment.role))
  }

  lemma SeedStable(s: Store, t: Store, c: GrantCommand, pc: SeedPc)
    requires Evolves(s, t) && SeedOk(s, c, pc)
    ensures SeedOk(t, c, pc)
  {
    hide Evolves, ListOk, GrantOk, EverAssigned;
    match pc
    case SeedHistory(history) => ListStable(s, t, c.Place(), history);
    case SeedGranting(grant) => GrantStable(s, t, c, grant);
    case SeedDone(_) =>
      if EverAssigned(s, c.Place(), c.assignment.role) {
        SeededForEver(s, t, c.Place(), c.assignment.role);
      }
  }

  lemma SeedStepSafe(s: Store, c: GrantCommand, pc: SeedPc, row: Option<RowId>, rejection: Rejection)
    requires StoreInv(s) && SeedOk(s, c, pc)
    ensures var (t, pc') := SeedStep(s, c, pc, row, rejection); StoreInv(t) && Evolves(s, t) && SeedOk(t, c, pc')
  {
    hide StoreInv, Evolves, ListStep, GrantStep, Seen, ShowsRole, EverAssigned;
    EvolvesReflexive(s);
    match pc
    case SeedHistory(history) =>
      ListStepSafe(s, c.Place(), history, row);
      GrantOpens(s, c);
      if history.ListDone? && ShowsRole(history.rows, c.assignment.role) {
        ShownWasAssigned(s, c, history.rows);
      }
    case SeedGranting(grant) =>
      hide ListOk;
      GrantStepSafe(s, c, grant, rejection);
      if grant.GrantDone? {
        GrantedWasAssigned(s, c, grant.result);
      }
    case SeedDone(_) =>
  }

  /** A role the history shows was assigned. */
  lemma ShownWasAssigned(s: Store, c: GrantCommand, rows: map<RowId, Row>)
    requires ListOk(s, c.Place(), ListDone(rows)) && ShowsRole(rows, c.assignment.role)
    ensures EverAssigned(s, c.Place(), c.assignment.role)
  {
    var id :| id in rows && rows[id].AssignmentRow? && rows[id].assignment.assignment.role == c.assignment.role;
    assert Seen(s, c.Place(), id, rows[id]);
    var k := AssignmentKey(c.Place(), rows[id].assignment.assignment.id);
    assert Evidence(s.assignments[k].value) == Evidence(rows[id].assignment);
    assert Evidence(rows[id].assignment).assignment.role == c.assignment.role;
    assert Evidence(s.assignments[k].value).assignment.role == s.assignments[k].value.assignment.role;
  }

  lemma GrantedWasAssigned(s: Store, c: GrantCommand, result: GrantResult)
    requires GrantOk(s, c, GrantDone(result))
    ensures result.Granted? || result.GrantUnchanged? ==> EverAssigned(s, c.Place(), c.assignment.role)
    ensures result.GrantInvalid? ==> !c.WellFormed()
  {
    if result.Granted? || result.GrantUnchanged? {
      assert Evidence(s.assignments[c.Key()].value) == Evidence(result.record.value);
      assert Evidence(s.assignments[c.Key()].value).assignment.role == s.assignments[c.Key()].value.assignment.role;
      assert Evidence(result.record.value).assignment.role == result.record.value.assignment.role;
      if result.Granted? {
        assert c.Record().assignment.role == c.assignment.role;
      }
      assert c.Key().location == c.Place();
    }
  }

  lemma GrantOpens(s: Store, c: GrantCommand)
    ensures GrantOk(s, c, BeginGrant(c))
  {
  }

  // ---------------------------------------------------------------- a role once assigned is never seeded again

  /** There is an assignment record of the role at the location, active or revoked. */
  predicate EverAssigned(s: Store, location: Location, role: Text) {
    exists k | k in s.assignments :: k.location == location && s.assignments[k].value.assignment.role == role
  }

  /** Once a role was assigned it was assigned for good: a revocation does not take the evidence away. */
  lemma SeededForEver(s: Store, t: Store, location: Location, role: Text)
    requires Evolves(s, t) && EverAssigned(s, location, role)
    ensures EverAssigned(t, location, role)
  {
    var k :| k in s.assignments && k.location == location && s.assignments[k].value.assignment.role == role;
    assert k in t.assignments && Evidence(t.assignments[k].value) == Evidence(s.assignments[k].value);
    assert Evidence(s.assignments[k].value).assignment.role == role;
  }

  /** Where a seeding stands on an assignment record that was there when it began. */
  predicate WillSee(pc: SeedPc, id: RowId) {
    match pc
    case SeedHistory(ListStart) => true
    case SeedHistory(ListReading(must, _)) => id in must
    case SeedHistory(ListConfirming(rows, _)) => id in rows
    case SeedHistory(ListDone(rows)) => id in rows
    case SeedHistory(_) => true
    case SeedGranting(_) => false
    case SeedDone(result) => result == AlreadySeeded || result == SeedRetry
  }

  /** Such a record keeps a seeding from granting. */
  lemma SeedSees(s: Store, c: GrantCommand, pc: SeedPc, row: Option<RowId>, rejection: Rejection, k: AssignmentKey)
    requires StoreInv(s) && SeedOk(s, c, pc) && WillSee(pc, AssignmentId(k.id))
    requires k in s.assignments && k.location == c.Place() && s.assignments[k].value.assignment.role == c.assignment.role
    ensures var (t, pc') := SeedStep(s, c, pc, row, rejection); t == s && WillSee(pc', AssignmentId(k.id))
  {
    hide StoreInv, ShowsRole, Seen;
    if pc.SeedHistory? && pc.history.ListDone? {
      SeenShowsRole(s, c, pc.history.rows, k);
    } else if pc.SeedHistory? {
      ListStepSafe(s, c.Place(), pc.history, row);
      HistoryListsRecord(s, c, k);
    }
  }

  lemma HistoryListsRecord(s: Store, c: GrantCommand, k: AssignmentKey)
    requires k in s.assignments && k.location == c.Place()
    ensures AssignmentId(k.id) in RowIds(s, c.Place())
  {
  }

  lemma SeenShowsRole(s: Store, c: GrantCommand, rows: map<RowId, Row>, k: AssignmentKey)
    requires ListOk(s, c.Place(), ListDone(rows)) && AssignmentId(k.id) in rows
    requires k in s.assignments && k.location == c.Place() && s.assignments[k].value.assignment.role == c.assignment.role
    ensures ShowsRole(rows, c.assignment.role)
  {
    var row := rows[AssignmentId(k.id)];
    assert Seen(s, c.Place(), AssignmentId(k.id), row);
    assert k == AssignmentKey(c.Place(), k.id);
    assert Evidence(s.assignments[k].value) == Evidence(row.assignment);
    assert Evidence(row.assignment).assignment.role == row.assignment.assignment.role;
    assert Evidence(s.assignments[k].value).assignment.role == s.assignments[k].value.assignment.role;
  }
}
