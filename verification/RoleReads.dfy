/**
 * The two listings as protocols: each reads rows one at a time while other calls write,
 * so a listing returns every row present when it began and possibly later ones.
 */
module RoleReads {
  import opened Prelude
  import opened RoleRecords
  import opened RoleStore
  import opened RoleStoreSafety

  // ---------------------------------------------------------------- listActiveRoleAssignmentsByRole

  datatype ByRoleQuery = ByRoleQuery(applicationId: Text, role: Text, scope: Scope) {
    function Key(id: Text): HolderKey {
      HolderKey(applicationId, role, scope, id)
    }

    /** Whether an assignment of `id` at `location` is a holder this query asks for. */
    predicate Covers(location: Location) {
      location.applicationId == applicationId && location.scope == scope
    }
  }

  datatype ByRolePc =
    | ByRoleStart
    | ByRoleListing(must: set<Text>, rows: map<Text, IndexRow>)
    | ByRoleConfirming(rows: map<Text, IndexRow>, confirmed: set<Text>)
    | ByRoleVerifying(rows: map<Text, IndexRow>, located: map<Text, IndexRow>, verified: map<Text, Option<Assignment>>)
    | ByRoleDone(found: map<Text, Assignment>)
    | ByRoleFailed

  function HolderIds(s: Store, q: ByRoleQuery): set<Text> {
    set k | k in s.holders && k == q.Key(k.id) :: k.id
  }

  function Reported(verified: map<Text, Option<Assignment>>): map<Text, Assignment> {
    map id | id in verified && verified[id].Some? :: verified[id].value
  }

  /**
   * One step of the by-role read. `pick` is the row the step works on, in any order (the source
   * confirms and verifies in concurrent batches); `None` ends the current phase.
   */
  function ByRoleStep(s: Store, q: ByRoleQuery, pc: ByRolePc, pick: Option<Text>): ByRolePc {
    match pc
    case ByRoleStart => ByRoleListing(HolderIds(s, q), map[])
    case ByRoleListing(must, rows) =>
      (match pick
       case None => if must <= rows.Keys then ByRoleConfirming(rows, {}) else pc
       case Some(id) => if q.Key(id) in s.holders then ByRoleListing(must, rows[id := s.holders[q.Key(id)]]) else pc)
    case ByRoleConfirming(rows, confirmed) =>
      (match pick
       case None => if confirmed == rows.Keys then ByRoleVerifying(rows, map[], map[]) else pc
       case Some(id) =>
         if id !in rows then pc
         else if KeyOfHolder(rows[id]) != q.Key(id) then ByRoleFailed
         else if q.Key(id) !in s.holders || s.holders[q.Key(id)] != rows[id] then ByRoleFailed
         else ByRoleConfirming(rows, confirmed + {id}))
    case ByRoleVerifying(rows, located, verified) =>
      (match pick
       case None => if verified.Keys == rows.Keys then ByRoleDone(Reported(verified)) else pc
       case Some(id) =>
         if id !in rows || id in verified then pc
         else if id !in located then LocateCandidate(s, q, pc, id)
         else VerifyCandidate(s, q, pc, id))
    case ByRoleDone(_) => pc
    case ByRoleFailed => pc
  }

  /** A candidate row is checked against its partition, then located through its pointer. */
  function LocateCandidate(s: Store, q: ByRoleQuery, pc: ByRolePc, id: Text): ByRolePc
    requires pc.ByRoleVerifying? && id in pc.rows
  {
    var row := pc.rows[id];
    if row.location.applicationId != q.applicationId || row.role != q.role || row.location.scope != q.scope then ByRoleFailed
    else
      match s.PointerAt(PointerKey(q.applicationId, row.assignmentId))
      case None => ByRoleFailed
      case Some(pointer) =>
        if
          || KeyOfPointer(pointer) != PointerKey(q.applicationId, row.assignmentId)
          || pointer.location != row.location || pointer.role != row.role
        then ByRoleFailed
        else ByRoleVerifying(pc.rows, pc.located[id := pointer], pc.verified)
  }

  /** The authoritative record decides: an absent or revoked one reads as nothing. */
  function VerifyCandidate(s: Store, q: ByRoleQuery, pc: ByRolePc, id: Text): ByRolePc
    requires pc.ByRoleVerifying? && id in pc.rows && id in pc.located
  {
    var row, pointer := pc.rows[id], pc.located[id];
    match s.AssignmentAt(AssignmentKey(pointer.location, row.assignmentId))
    case None => ByRoleVerifying(pc.rows, pc.located, pc.verified[id := None])
    case Some(current) =>
      var assignment := current.value.assignment;
      if !IsAssignmentOf(current.value, pointer.location, row.assignmentId, pointer.role) then ByRoleFailed
      else if assignment.principalId != row.location.principalId || assignment.role != q.role || assignment.scope != q.scope
      then ByRoleFailed
      else ByRoleVerifying(pc.rows, pc.located,
                           pc.verified[id := if assignment.lifecycle.Active? then Some(assignment) else None])
  }

  ghost predicate RowsOk(s: Store, q: ByRoleQuery, rows: map<Text, IndexRow>) {
    forall id | id in rows :: q.Key(id) in s.holders && s.holders[q.Key(id)] == rows[id] && KeyOfHolder(rows[id]) == q.Key(id)
  }

  /** `a` is the stored assignment of `id` in the scope asked for, up to its lifecycle, and has a holder row. */
  ghost predicate IsCandidate(s: Store, q: ByRoleQuery, id: Text, a: Assignment) {
    var k := AssignmentKey(Location(q.applicationId, a.principalId, q.scope), id);
    && a.id == id && a.role == q.role && a.scope == q.scope && a.lifecycle.Active?
    && k in s.assignments && s.assignments[k].value.assignment.(lifecycle := Active) == a
    && q.Key(id) in s.holders
  }

  /** `a` is the stored assignment of `id`, active. */
  predicate ActiveAt(s: Store, q: ByRoleQuery, id: Text, a: Assignment) {
    var k := AssignmentKey(Location(q.applicationId, a.principalId, q.scope), id);
    && a.id == id && a.role == q.role && a.scope == q.scope && a.lifecycle.Active?
    && k in s.assignments && s.assignments[k].value.assignment == a
  }

  ghost predicate ByRoleOk(s: Store, q: ByRoleQuery, pc: ByRolePc) {
    match pc
    case ByRoleStart => true
    case ByRoleListing(must, rows) => RowsOk(s, q, rows) && forall id | id in must :: q.Key(id) in s.holders
    case ByRoleConfirming(rows, confirmed) => RowsOk(s, q, rows) && confirmed <= rows.Keys
    case ByRoleVerifying(rows, located, verified) =>
      && RowsOk(s, q, rows) && verified.Keys <= rows.Keys
      && (forall id | id in located :: id in rows && located[id] == rows[id])
      && (forall id | id in verified && verified[id].Some? :: IsCandidate(s, q, id, verified[id].value))
    case ByRoleDone(found) => forall id | id in found :: IsCandidate(s, q, id, found[id])
    case ByRoleFailed => false
  }

  lemma ByRoleStable(s: Store, t: Store, q: ByRoleQuery, pc: ByRolePc)
    requires Evolves(s, t) && ByRoleOk(s, q, pc)
    ensures ByRoleOk(t, q, pc)
  {
  }

  /** A stored holder row leads through its pointer to its own record, when there is one. */
  lemma RowResolves(s: Store, row: IndexRow)
    requires StoreInv(s) && KeyOfHolder(row) in s.holders && s.holders[KeyOfHolder(row)] == row
    ensures s.PointerAt(KeyOfPointer(row)) == Some(row)
    ensures var k := AssignmentKey(row.location, row.assignmentId);
            k in s.assignments ==> IsAssignmentOf(s.assignments[k].value, row.location, row.assignmentId, row.role)
  {
    hide AuditsOf, Names, Holds, GuardOk;
    var k := AssignmentKey(row.location, row.assignmentId);
    assert k in s.assignments ==> AssignmentOk(s, k);
  }

  /** The by-role read never finds a moved row or a corrupt record: holder rows and pointers are immutable and agree. */
  lemma ByRoleStepSafe(s: Store, q: ByRoleQuery, pc: ByRolePc, pick: Option<Text>)
    requires StoreInv(s) && ByRoleOk(s, q, pc)
    ensures ByRoleOk(s, q, ByRoleStep(s, q, pc, pick))
  {
    if pick.Some? && pc.ByRoleVerifying? && pick.value in pc.rows && pick.value !in pc.verified {
      RowResolves(s, pc.rows[pick.value]);
      hide StoreInv, IsCandidate;
      if pick.value !in pc.located {
        LocateSafe(s, q, pc, pick.value);
      } else {
        VerifySafe(s, q, pc, pick.value);
      }
      hide ByRoleOk, LocateCandidate, VerifyCandidate;
    } else {
      hide StoreInv, IsCandidate;
    }
  }

  lemma LocateSafe(s: Store, q: ByRoleQuery, pc: ByRolePc, id: Text)
    requires ByRoleOk(s, q, pc) && pc.ByRoleVerifying? && id in pc.rows
    requires s.PointerAt(KeyOfPointer(pc.rows[id])) == Some(pc.rows[id])
    ensures ByRoleOk(s, q, LocateCandidate(s, q, pc, id))
  {
    hide IsCandidate;
  }

  lemma VerifySafe(s: Store, q: ByRoleQuery, pc: ByRolePc, id: Text)
    requires ByRoleOk(s, q, pc) && pc.ByRoleVerifying? && id in pc.rows && id in pc.located
    requires var row := pc.rows[id]; var k := AssignmentKey(row.location, row.assignmentId);
             k in s.assignments ==> IsAssignmentOf(s.assignments[k].value, row.location, row.assignmentId, row.role)
    ensures ByRoleOk(s, q, VerifyCandidate(s, q, pc, id))
  {
  }

  /** Where a by-role read stands on an assignment it must still report. */
  ghost predicate WillReport(q: ByRoleQuery, pc: ByRolePc, id: Text) {
    match pc
    case ByRoleStart => true
    case ByRoleListing(must, rows) => id in must
    case ByRoleConfirming(rows, _) => id in rows
    case ByRoleVerifying(rows, _, verified) => id in rows && (id in verified ==> verified[id].Some?)
    case ByRoleDone(found) => id in found
    case ByRoleFailed => false
  }

  /** The rows and record a by-role read meets for an active holder. */
  lemma HolderIndexed(s: Store, q: ByRoleQuery, location: Location, id: Text)
    requires StoreInv(s) && q.Covers(location) && Holds(s, location, q.role, id) && q.Key(id) in s.holders
    ensures var row := IndexRow(location, id, q.role);
            && s.holders[q.Key(id)] == row
            && s.PointerAt(PointerKey(q.applicationId, id)) == Some(row)
            && IsAssignmentOf(s.assignments[AssignmentKey(location, id)].value, location, id, q.role)
  {
    hide AuditsOf, Names, GuardOk;
    assert AssignmentOk(s, AssignmentKey(location, id));
  }

  lemma HolderListed(s: Store, q: ByRoleQuery, id: Text)
    requires q.Key(id) in s.holders
    ensures id in HolderIds(s, q)
  {
    assert q.Key(id).id == id;
  }

  /** An indexed assignment that is active at this step is not lost by this step. */
  lemma ByRoleKeepsHolder(s: Store, q: ByRoleQuery, pc: ByRolePc, pick: Option<Text>, location: Location, id: Text)
    requires StoreInv(s) && ByRoleOk(s, q, pc) && WillReport(q, pc, id)
    requires q.Covers(location) && Holds(s, location, q.role, id) && q.Key(id) in s.holders
    ensures WillReport(q, ByRoleStep(s, q, pc, pick), id)
  {
    hide StoreInv, IsCandidate, HolderIds;
    HolderIndexed(s, q, location, id);
    if pc.ByRoleStart? {
      HolderListed(s, q, id);
    } else {
      ByRoleStepSafe(s, q, pc, pick);
    }
  }

  /** What a by-role read puts in its answer is active at the instant its record is read. */
  lemma ByRoleReportsActive(s: Store, q: ByRoleQuery, pc: ByRolePc, pick: Option<Text>, id: Text)
    requires StoreInv(s) && ByRoleOk(s, q, pc) && pc.ByRoleVerifying? && ByRoleStep(s, q, pc, pick).ByRoleVerifying?
    requires var verified := ByRoleStep(s, q, pc, pick).verified;
             id in verified && verified[id].Some? && (id in pc.verified ==> pc.verified[id] != verified[id])
    ensures var a := ByRoleStep(s, q, pc, pick).verified[id].value;
            && a.id == id && a.role == q.role && a.scope == q.scope && a.lifecycle.Active?
            && var k := AssignmentKey(Location(q.applicationId, a.principalId, q.scope), id);
            k in s.assignments && s.assignments[k].value.assignment == a
  {
    hide AuditsOf, Names, Holds, GuardOk, AssignmentOk;
  }

  /** A holder row leads through its pointer to its record, which decides what is active. */
  lemma RowDecides(s: Store, q: ByRoleQuery, id: Text)
    requires StoreInv(s) && q.Key(id) in s.holders
    ensures var row := s.holders[q.Key(id)];
            && q.Covers(row.location) && row.role == q.role && row.assignmentId == id
            && s.PointerAt(PointerKey(q.applicationId, id)) == Some(row)
            && forall a :: ActiveAt(s, q, id, a) <==>
                             var current := s.AssignmentAt(AssignmentKey(row.location, id));
                             current.Some? && current.value.value.assignment == a && a.lifecycle.Active?
  {
    hide AuditsOf, Names, Holds, GuardOk;
    var row := s.holders[q.Key(id)];
    RowResolves(s, row);
    forall a | ActiveAt(s, q, id, a) ensures Location(q.applicationId, a.principalId, q.scope) == row.location {
      assert AssignmentOk(s, AssignmentKey(Location(q.applicationId, a.principalId, q.scope), id));
    }
  }

  // ---------------------------------------------------------------- listRoleAssignments

  /** Any row of one principal-and-scope partition. */
  datatype Row = AssignmentRow(assignment: StoredAssignment) | TupleRow(tuple: StoredTuple) | AuditRow(audit: StoredAudit)

  datatype RowId = AssignmentId(id: Text) | TupleId(role: Text) | AuditId(assignmentId: Text, sequence: nat)

  function RowIdOf(row: Row): RowId {
    match row
    case AssignmentRow(a) => AssignmentId(a.assignment.id)
    case TupleRow(t) => TupleId(t.role)
    case AuditRow(e) => AuditId(e.assignmentId, e.sequence)
  }

  function RowLocation(row: Row): Location {
    match row
    case AssignmentRow(a) => a.location
    case TupleRow(t) => t.location
    case AuditRow(e) => e.location
  }

  function RowAt(s: Store, location: Location, id: RowId): Option<Row> {
    match id
    case AssignmentId(a) =>
      var k := AssignmentKey(location, a);
      if k in s.assignments then Some(AssignmentRow(s.assignments[k].value)) else None
    case TupleId(role) =>
      var k := GuardKey(location, role);
      if k in s.guards then Some(TupleRow(s.guards[k].value)) else None
    case AuditId(a, sequence) =>
      var k := AuditKey(location, a, sequence);
      if k in s.audits then Some(AuditRow(s.audits[k])) else None
  }

  function RowIds(s: Store, location: Location): set<RowId> {
    (set k | k in s.assignments && k.location == location :: AssignmentId(k.id))
    + (set k | k in s.guards && k.location == location :: TupleId(k.role))
    + (set k | k in s.audits && k.location == location :: AuditId(k.id, k.sequence))
  }

  datatype ListPc =
    | ListStart
    | ListReading(must: set<RowId>, rows: map<RowId, Row>)
    | ListConfirming(rows: map<RowId, Row>, confirmed: set<RowId>)
    | ListDone(rows: map<RowId, Row>)
    | ListRetry
    | ListCorrupt

  function ListStep(s: Store, location: Location, pc: ListPc, pick: Option<RowId>): ListPc {
    match pc
    case ListStart => ListReading(RowIds(s, location), map[])
    case ListReading(must, rows) =>
      (match pick
       case None => if must <= rows.Keys then ListConfirming(rows, {}) else pc
       case Some(id) =>
         (match RowAt(s, location, id)
          case None => pc
          case Some(row) => if id in rows then pc else ListReading(must, rows[id := row])))
    case ListConfirming(rows, confirmed) =>
      (match pick
       case None =>
         if confirmed != rows.Keys then pc
         else if forall id | id in rows :: RowLocation(rows[id]) == location then ListDone(rows)
         else ListCorrupt
       case Some(id) =>
         if id !in rows then pc
         else if RowIdOf(rows[id]) != id || RowLocation(rows[id]) != location then ListCorrupt
         else if RowAt(s, location, id) != Some(rows[id]) then ListRetry
         else ListConfirming(rows, confirmed + {id}))
    case ListDone(_) => pc
    case ListRetry => pc
    case ListCorrupt => pc
  }

  /** A listed row still sits under its key; of an assignment row, all but an active lifecycle still holds. */
  ghost predicate Seen(s: Store, location: Location, id: RowId, row: Row) {
    && RowIdOf(row) == id && RowLocation(row) == location
    && RowAt(s, location, id).Some?
    && (row.AssignmentRow? ==>
          && var now := RowAt(s, location, id).value;
          && now.AssignmentRow? && Evidence(now.assignment) == Evidence(row.assignment)
          && (row.assignment.assignment.lifecycle.Revoked? ==> now == row))
  }

  ghost predicate ListOk(s: Store, location: Location, pc: ListPc) {
    match pc
    case ListStart => true
    case ListReading(must, rows) =>
      (forall id | id in rows :: Seen(s, location, id, rows[id])) && forall id | id in must :: RowAt(s, location, id).Some?
    case ListConfirming(rows, confirmed) =>
      (forall id | id in rows :: Seen(s, location, id, rows[id])) && confirmed <= rows.Keys
    case ListDone(rows) => forall id | id in rows :: Seen(s, location, id, rows[id])
    case ListRetry => true
    case ListCorrupt => false
  }

  lemma SeenStable(s: Store, t: Store, location: Location, id: RowId, row: Row)
    requires Evolves(s, t) && Seen(s, location, id, row)
    ensures Seen(t, location, id, row)
  {
  }

  lemma ListStable(s: Store, t: Store, location: Location, pc: ListPc)
    requires Evolves(s, t) && ListOk(s, location, pc)
    ensures ListOk(t, location, pc)
  {
    if pc.ListReading? || pc.ListConfirming? || pc.ListDone? {
      hide Evolves, Seen;
      forall id | id in pc.rows ensures Seen(t, location, id, pc.rows[id]) {
        SeenStable(s, t, location, id, pc.rows[id]);
      }
    }
  }

  lemma RowKeyed(s: Store, location: Location, id: RowId)
    requires StoreInv(s) && RowAt(s, location, id).Some?
    ensures Seen(s, location, id, RowAt(s, location, id).value)
  {
    hide Names, Holds, IndexesOk;
    match id
    case AssignmentId(a) => assert AssignmentOk(s, AssignmentKey(location, a));
    case TupleId(role) => assert GuardOk(s, GuardKey(location, role));
    case AuditId(a, sequence) => assert AuditsOf(s, AssignmentKey(location, a));
  }

  lemma ListStepSafe(s: Store, location: Location, pc: ListPc, pick: Option<RowId>)
    requires StoreInv(s) && ListOk(s, location, pc)
    ensures ListOk(s, location, ListStep(s, location, pc, pick))
  {
    hide StoreInv, RowIds, RowAt, Seen;
    if pc.ListStart? {
      RowsAreThere(s, location);
    } else {
      if pick.Some? && RowAt(s, location, pick.value).Some? {
        RowKeyed(s, location, pick.value);
      }
      if pc.ListConfirming? {
        SeenRows(s, location, pc.rows);
      }
    }
  }

  /** A listed id is that of a row. */
  lemma RowsAreThere(s: Store, location: Location)
    ensures forall id :: id in RowIds(s, location) <==> RowAt(s, location, id).Some?
  {
    forall id ensures id in RowIds(s, location) <==> RowAt(s, location, id).Some? {
      match id
      case AssignmentId(a) => assert AssignmentKey(location, a) in s.assignments ==> AssignmentKey(location, a).id == a;
      case TupleId(role) => assert GuardKey(location, role) in s.guards ==> GuardKey(location, role).role == role;
      case AuditId(a, n) => assert AuditKey(location, a, n) in s.audits ==> AuditKey(location, a, n).id == a;
    }
  }

  lemma SeenRows(s: Store, location: Location, rows: map<RowId, Row>)
    ensures forall id | id in rows && Seen(s, location, id, rows[id]) :: RowIdOf(rows[id]) == id && RowLocation(rows[id]) == location
  {
    hide RowAt;
  }

  /**
   * Why confirmation works: a row read before the list ended and found equal by a later point read
   * was equal at every instant between, because a lifecycle never returns to a value it has left.
   */
  lemma ConfirmedAtEnd(end: Store, later: Store, location: Location, id: RowId, row: Row)
    requires Evolves(end, later) && Seen(end, location, id, row) && row.AssignmentRow?
    requires RowAt(later, location, id) == Some(row)
    ensures RowAt(end, location, id) == Some(row)
  {
  }
}
