/**
 * The steps of a call that nobody disturbs come to the answer the records call for: the protocols against the same
 * answers that the store's and the service's methods give.
 */
module RoleUndisturbed {
  import opened Prelude
  import opened RoleRecords
  import opened RoleStore
  import opened RoleStoreSafety
  import opened RoleReads
  import opened RoleRebuild
  import opened RoleSeeding
  import opened Administration
  import opened RoleStoreAdapter
  import opened AdministrationService
  import opened RoleListings
  import opened RoleWorld
  import opened RoleProgress
  import SingleService

  // ---------------------------------------------------------------- the by-role read of a store that does not change

  ghost predicate ByRoleOnTheWay(s: Store, q: ByRoleQuery, pc: ByRolePc) {
    match pc
    case ByRoleStart => true
    case ByRoleListing(must, rows) => forall id | q.Key(id) in s.holders :: id in must
    case ByRoleConfirming(rows, _) => forall id | q.Key(id) in s.holders :: id in rows
    case ByRoleVerifying(rows, _, verified) =>
      && (forall id | q.Key(id) in s.holders :: id in rows)
      && (forall id, a | id in verified :: verified[id] == Some(a) <==> ActiveAt(s, q, id, a))
    case ByRoleDone(found) => AreTheHolders(s, q, found)
    case ByRoleFailed => false
  }

  ghost predicate AreTheHolders(s: Store, q: ByRoleQuery, found: map<Text, Assignment>) {
    forall id, a :: (id in found && found[id] == a) <==> ActiveAt(s, q, id, a) && q.Key(id) in s.holders
  }

  lemma ByRoleStaysOnTheWay(s: Store, q: ByRoleQuery, pc: ByRolePc, pick: Option<Text>)
    requires StoreInv(s) && ByRoleOk(s, q, pc) && ByRoleOnTheWay(s, q, pc)
    ensures ByRoleOnTheWay(s, q, ByRoleStep(s, q, pc, pick))
  {
    hide *;
    match pc
    case ByRoleVerifying(_, _, _) => VerifyingOnTheWay(s, q, pc, pick);
    case _ =>
      ByRoleStepSafe(s, q, pc, pick);
      ListingOnTheWay(s, q, pc, pick);
  }

  lemma ListingOnTheWay(s: Store, q: ByRoleQuery, pc: ByRolePc, pick: Option<Text>)
    requires ByRoleOnTheWay(s, q, pc) && !pc.ByRoleVerifying? && ByRoleOk(s, q, ByRoleStep(s, q, pc, pick))
    ensures ByRoleOnTheWay(s, q, ByRoleStep(s, q, pc, pick))
  {
    hide HolderIds, ActiveAt, IsCandidate, RowsOk;
    forall id | pc.ByRoleStart? && q.Key(id) in s.holders ensures id in HolderIds(s, q) {
      HolderListed(s, q, id);
    }
  }

  lemma VerifyingOnTheWay(s: Store, q: ByRoleQuery, pc: ByRolePc, pick: Option<Text>)
    requires StoreInv(s) && ByRoleOk(s, q, pc) && ByRoleOnTheWay(s, q, pc) && pc.ByRoleVerifying?
    ensures ByRoleOnTheWay(s, q, ByRoleStep(s, q, pc, pick))
  {
    hide *;
    ByRoleStepSafe(s, q, pc, pick);
    if pick.None? {
      VerifyingEnds(s, q, pc);
    } else if pick.value in pc.rows && pick.value !in pc.verified && pick.value in pc.located {
      VerifyingRow(s, q, pc, pick.value);
      RowDecides(s, q, pick.value);
      VerifiedIsActive(s, q, pc, pick.value);
      VerifyingOne(s, q, pc, pick.value);
    } else {
      LocatingOnTheWay(s, q, pc, pick.value);
    }
  }

  lemma VerifyingEnds(s: Store, q: ByRoleQuery, pc: ByRolePc)
    requires ByRoleOk(s, q, pc) && ByRoleOnTheWay(s, q, pc) && pc.ByRoleVerifying?
    ensures ByRoleOnTheWay(s, q, ByRoleStep(s, q, pc, None))
  {
    if pc.verified.Keys == pc.rows.Keys {
      ReportedAreHolders(s, q, pc);
    }
    hide ActiveAt, IsCandidate, AreTheHolders, RowsOk;
  }

  lemma VerifyingRow(s: Store, q: ByRoleQuery, pc: ByRolePc, id: Text)
    requires ByRoleOk(s, q, pc) && pc.ByRoleVerifying? && id in pc.rows
    ensures q.Key(id) in s.holders
  {
    hide IsCandidate;
  }

  lemma LocatingOnTheWay(s: Store, q: ByRoleQuery, pc: ByRolePc, id: Text)
    requires ByRoleOnTheWay(s, q, pc) && pc.ByRoleVerifying? && !(id in pc.rows && id !in pc.verified && id in pc.located)
    requires ByRoleOk(s, q, ByRoleStep(s, q, pc, Some(id)))
    ensures ByRoleOnTheWay(s, q, ByRoleStep(s, q, pc, Some(id)))
  {
    hide ActiveAt, IsCandidate, RowsOk;
  }

  lemma VerifyingOne(s: Store, q: ByRoleQuery, pc: ByRolePc, id: Text)
    requires ByRoleOnTheWay(s, q, pc) && pc.ByRoleVerifying? && id in pc.rows && id !in pc.verified && id in pc.located
    requires ByRoleOk(s, q, ByRoleStep(s, q, pc, Some(id)))
    requires var pc' := VerifyCandidate(s, q, pc, id);
             pc'.ByRoleVerifying? ==>
               && pc'.rows == pc.rows && id in pc'.verified && pc'.verified == pc.verified[id := pc'.verified[id]]
               && forall a :: pc'.verified[id] == Some(a) <==> ActiveAt(s, q, id, a)
    ensures ByRoleOnTheWay(s, q, ByRoleStep(s, q, pc, Some(id)))
  {
    VerifiesOnly(s, q, pc, id);
    hide ActiveAt, IsCandidate, RowsOk, VerifyCandidate;
  }

  lemma VerifiesOnly(s: Store, q: ByRoleQuery, pc: ByRolePc, id: Text)
    requires pc.ByRoleVerifying? && id in pc.rows && id in pc.located
    ensures VerifyCandidate(s, q, pc, id).ByRoleVerifying? || VerifyCandidate(s, q, pc, id).ByRoleFailed?
  {
    hide IsAssignmentOf;
  }

  lemma ReportedAreHolders(s: Store, q: ByRoleQuery, pc: ByRolePc)
    requires ByRoleOk(s, q, pc) && ByRoleOnTheWay(s, q, pc) && pc.ByRoleVerifying? && pc.verified.Keys == pc.rows.Keys
    ensures AreTheHolders(s, q, RoleReads.Reported(pc.verified))
  {
    hide ActiveAt, IsCandidate;
  }

  lemma VerifiedIsActive(s: Store, q: ByRoleQuery, pc: ByRolePc, id: Text)
    requires ByRoleOk(s, q, pc) && pc.ByRoleVerifying? && id in pc.rows && id in pc.located && id !in pc.verified
    requires var row := s.holders[q.Key(id)];
             && row.assignmentId == id
             && forall a :: ActiveAt(s, q, id, a) <==>
                              var current := s.AssignmentAt(AssignmentKey(row.location, id));
                              current.Some? && current.value.value.assignment == a && a.lifecycle.Active?
    ensures var pc' := VerifyCandidate(s, q, pc, id);
            pc'.ByRoleVerifying? ==>
              && pc'.rows == pc.rows && id in pc'.verified && pc'.verified == pc.verified[id := pc'.verified[id]]
              && forall a :: pc'.verified[id] == Some(a) <==> ActiveAt(s, q, id, a)
  {
    hide ActiveAt, IsCandidate, IsAssignmentOf;
  }

  // ---------------------------------------------------------------- the guard's search of a store that does not change

  /** Somebody who counts is still to be looked at, or there is nobody. */
  ghost predicate StillTodo(s: Store, q: ByRoleQuery, excluding: Text, todo: set<Text>) {
    forall id | HeldOutside(s, q, excluding, id) :: id in todo
  }

  ghost predicate Candidates(s: Store, q: ByRoleQuery, todo: map<Text, Assignment>) {
    forall id | id in todo :: ActiveAt(s, q, id, todo[id]) && q.Key(id) in s.holders
  }

  ghost predicate ScanOnTheWay(s: Store, q: ByRoleQuery, excluding: Text, scan: HolderScan) {
    match scan
    case ScanQuery(pc) => ByRoleOnTheWay(s, q, pc)
    case ScanRecheck(todo) => Candidates(s, q, todo) && StillTodo(s, q, excluding, todo.Keys)
    case ScanRead(todo, candidate, row) =>
      && Candidates(s, q, todo) && StillTodo(s, q, excluding, todo.Keys + {candidate.id})
      && ActiveAt(s, q, candidate.id, candidate) && q.Key(candidate.id) in s.holders && candidate.principalId != excluding
    case ScanDone(found) => found.Some? <==> AnotherHolder(s, q, excluding)
    case ScanFailed => false
  }

  lemma ScanStaysOnTheWay(s: Store, q: ByRoleQuery, excluding: Text, scan: HolderScan, pick: Option<Text>)
    requires StoreInv(s) && ScanOk(s, q, scan) && ScanOnTheWay(s, q, excluding, scan)
    ensures ScanOnTheWay(s, q, excluding, ScanStep(s, q, excluding, scan, pick))
  {
    hide *;
    ScanStepSafe(s, q, excluding, scan, pick);
    match scan
    case ScanQuery(pc) => ScanQueryOnTheWay(s, q, excluding, pc, pick);
    case ScanRecheck(_) => RecheckOnTheWay(s, q, excluding, scan, pick);
    case ScanRead(_, _, _) => ReadOnTheWay(s, q, excluding, scan, pick);
    case _ => EndedOnTheWay(s, q, excluding, scan, pick);
  }

  lemma EndedOnTheWay(s: Store, q: ByRoleQuery, excluding: Text, scan: HolderScan, pick: Option<Text>)
    requires ScanOnTheWay(s, q, excluding, scan) && (scan.ScanDone? || scan.ScanFailed?)
    ensures ScanOnTheWay(s, q, excluding, ScanStep(s, q, excluding, scan, pick))
  {
    hide AnotherHolder;
  }

  lemma ScanQueryOnTheWay(s: Store, q: ByRoleQuery, excluding: Text, pc: ByRolePc, pick: Option<Text>)
    requires StoreInv(s) && ScanOk(s, q, ScanQuery(pc)) && ScanOnTheWay(s, q, excluding, ScanQuery(pc))
    ensures ScanOnTheWay(s, q, excluding, ScanStep(s, q, excluding, ScanQuery(pc), pick))
  {
    ByRoleStaysOnTheWay(s, q, pc, pick);
    if pc.ByRoleDone? {
      ReportedHolders(s, q, excluding, pc.found);
    }
    hide StoreInv, ByRoleStep, ByRoleOk, ActiveAt, HeldOutside;
  }

  lemma RecheckOnTheWay(s: Store, q: ByRoleQuery, excluding: Text, scan: HolderScan, pick: Option<Text>)
    requires StoreInv(s) && ScanOnTheWay(s, q, excluding, scan) && scan.ScanRecheck?
    requires ScanOk(s, q, ScanStep(s, q, excluding, scan, pick))
    ensures ScanOnTheWay(s, q, excluding, ScanStep(s, q, excluding, scan, pick))
  {
    hide *;
    if pick.Some? && pick.value in scan.todo {
      RecheckParts(s, q, excluding, scan, pick.value);
      CandidateDecides(s, q, pick.value, scan.todo[pick.value]);
      CandidateCounts(s, q, excluding, pick.value, scan.todo[pick.value]);
      RecheckOne(s, q, excluding, scan, pick.value);
    } else {
      RecheckEnds(s, q, excluding, scan, pick);
    }
  }

  lemma RecheckParts(s: Store, q: ByRoleQuery, excluding: Text, scan: HolderScan, id: Text)
    requires ScanOnTheWay(s, q, excluding, scan) && scan.ScanRecheck? && id in scan.todo
    ensures ActiveAt(s, q, id, scan.todo[id]) && q.Key(id) in s.holders
  {
    hide ActiveAt;
  }

  lemma RecheckEnds(s: Store, q: ByRoleQuery, excluding: Text, scan: HolderScan, pick: Option<Text>)
    requires ScanOnTheWay(s, q, excluding, scan) && scan.ScanRecheck? && (pick.None? || pick.value !in scan.todo)
    ensures ScanOnTheWay(s, q, excluding, ScanStep(s, q, excluding, scan, pick))
  {
    hide ActiveAt, HeldOutside;
    if scan.todo.Keys == {} {
      NobodyElse(s, q, excluding);
    }
    hide AnotherHolder;
  }

  lemma RecheckOne(s: Store, q: ByRoleQuery, excluding: Text, scan: HolderScan, id: Text)
    requires ScanOnTheWay(s, q, excluding, scan) && scan.ScanRecheck? && id in scan.todo
    requires ScanOk(s, q, ScanStep(s, q, excluding, scan, Some(id)))
    requires var a := scan.todo[id];
             && a.id == id && s.PointerAt(PointerKey(q.applicationId, a.id)).Some?
             && (HeldOutside(s, q, excluding, id) <==> a.principalId != excluding)
    ensures ScanOnTheWay(s, q, excluding, ScanStep(s, q, excluding, scan, Some(id)))
  {
    hide ActiveAt, HeldOutside, IsCandidate, AnotherHolder;
    assert scan.todo.Keys == (scan.todo - {id}).Keys + {id};
  }

  lemma ReadOnTheWay(s: Store, q: ByRoleQuery, excluding: Text, scan: HolderScan, pick: Option<Text>)
    requires StoreInv(s) && ScanOk(s, q, scan) && ScanOnTheWay(s, q, excluding, scan) && scan.ScanRead?
    requires ScanOk(s, q, ScanStep(s, q, excluding, scan, pick))
    ensures ScanOnTheWay(s, q, excluding, ScanStep(s, q, excluding, scan, pick))
  {
    CandidateDecides(s, q, scan.candidate.id, scan.candidate);
    CandidateCounts(s, q, excluding, scan.candidate.id, scan.candidate);
    hide StoreInv, ActiveAt, HeldOutside, IndexedHolder, IsHolder, PrincipalOf, AnotherHolder, IsCandidate, IsAssignmentOf;
  }

  // ---------------------------------------------------------------- a seeding

  /** The answer of a seeding in terms of the records alone. */
  ghost function SeedingAnswer(s: Store, c: GrantCommand): SeedResult {
    if EverAssigned(s, c.Place(), c.assignment.role) then AlreadySeeded
    else if !(c.assignment.lifecycle.Active? && 0 <= c.assignment.grantedAt <= 0x1F_FFFF_FFFF_FFFF) then SeedInvalid
    else if UsedElsewhere(s, c) then SeedConflict
    else Seeded
  }

  ghost predicate SeedOnTrack(s: Store, t: Store, c: GrantCommand, pc: SeedPc) {
    match pc
    case SeedHistory(history) => t == s && OnTheWay(s, c.Place(), history)
    case SeedGranting(grant) => !EverAssigned(s, c.Place(), c.assignment.role) && GrantOnTrack(s, t, c, grant)
    case SeedDone(result) => result == SeedingAnswer(s, c) && (result != Seeded ==> t.assignments == s.assignments)
  }

  lemma SeedTrack(s: Store, t: Store, c: GrantCommand, pc: SeedPc, row: Option<RowId>, rejection: Rejection)
    requires StoreInv(s) && StoreInv(t) && SeedOk(t, c, pc) && SeedOnTrack(s, t, c, pc)
    ensures var (t', pc') := SeedStep(t, c, pc, row, rejection); SeedOnTrack(s, t', c, pc')
  {
    hide *;
    match pc
    case SeedHistory(history) => HistoryTrack(s, t, c, history, row, rejection);
    case SeedGranting(grant) => SeedGrantTrack(s, t, c, grant, row, rejection);
    case SeedDone(_) => SeedDoneTrack(s, t, c, pc, row, rejection);
  }

  lemma SeedDoneTrack(s: Store, t: Store, c: GrantCommand, pc: SeedPc, row: Option<RowId>, rejection: Rejection)
    requires SeedOnTrack(s, t, c, pc) && pc.SeedDone?
    ensures var (t', pc') := SeedStep(t, c, pc, row, rejection); SeedOnTrack(s, t', c, pc')
  {
    hide SeedingAnswer;
  }

  lemma HistoryTrack(s: Store, t: Store, c: GrantCommand, history: ListPc, row: Option<RowId>, rejection: Rejection)
    requires StoreInv(s) && SeedOk(t, c, SeedHistory(history)) && SeedOnTrack(s, t, c, SeedHistory(history))
    ensures var (t', pc') := SeedStep(t, c, SeedHistory(history), row, rejection); SeedOnTrack(s, t', c, pc')
  {
    hide *;
    if history.ListDone? {
      HistoryEnds(s, t, c, history, row, rejection);
    } else {
      HistoryGoesOn(s, t, c, history, row, rejection);
    }
  }

  lemma HistoryEnds(s: Store, t: Store, c: GrantCommand, history: ListPc, row: Option<RowId>, rejection: Rejection)
    requires StoreInv(s) && SeedOk(t, c, SeedHistory(history)) && SeedOnTrack(s, t, c, SeedHistory(history)) && history.ListDone?
    ensures var (t', pc') := SeedStep(t, c, SeedHistory(history), row, rejection); SeedOnTrack(s, t', c, pc')
  {
    HistoryShows(s, c, history.rows);
    GrantOpensOnTrack(s, c);
    hide StoreInv, ShowsRole, EverAssigned, GrantOnTrack, AreTheRows, ListOk;
  }

  lemma HistoryGoesOn(s: Store, t: Store, c: GrantCommand, history: ListPc, row: Option<RowId>, rejection: Rejection)
    requires StoreInv(s) && SeedOk(t, c, SeedHistory(history)) && SeedOnTrack(s, t, c, SeedHistory(history)) && !history.ListDone?
    ensures var (t', pc') := SeedStep(t, c, SeedHistory(history), row, rejection); SeedOnTrack(s, t', c, pc')
  {
    StaysOnTheWay(s, c.Place(), history, row);
    hide StoreInv, ListStep, ListOk, EverAssigned, GrantOnTrack, AreTheRows;
  }

  lemma GrantOpensOnTrack(s: Store, c: GrantCommand)
    requires StoreInv(s)
    ensures GrantOnTrack(s, s, c, BeginGrant(c))
  {
    GrantBegins(s, c);
    hide StoreInv, Evolves, GrantOk, GrantOnTrack;
  }

  /** The whole history shows a role exactly when it was ever assigned. */
  lemma HistoryShows(s: Store, c: GrantCommand, rows: map<RowId, Row>)
    requires StoreInv(s) && AreTheRows(s, c.Place(), rows) && ListOk(s, c.Place(), ListDone(rows))
    ensures ShowsRole(rows, c.assignment.role) <==> EverAssigned(s, c.Place(), c.assignment.role)
  {
    hide StoreInv;
    if ShowsRole(rows, c.assignment.role) {
      ShownWasAssigned(s, c, rows);
    }
    if EverAssigned(s, c.Place(), c.assignment.role) {
      var k :| k in s.assignments && k.location == c.Place() && s.assignments[k].value.assignment.role == c.assignment.role;
      assert k == AssignmentKey(c.Place(), k.id);
      var row := AssignmentRow(s.assignments[k].value);
      assert RowAt(s, c.Place(), AssignmentId(k.id)) == Some(row);
      assert AssignmentId(k.id) in rows && rows[AssignmentId(k.id)] == row;
    }
  }

  lemma SeedGrantTrack(s: Store, t: Store, c: GrantCommand, grant: GrantPc, row: Option<RowId>, rejection: Rejection)
    requires StoreInv(s) && StoreInv(t) && SeedOk(t, c, SeedGranting(grant)) && SeedOnTrack(s, t, c, SeedGranting(grant))
    ensures var (t', pc') := SeedStep(t, c, SeedGranting(grant), row, rejection); SeedOnTrack(s, t', c, pc')
  {
    hide *;
    if grant.GrantDone? {
      SeedGrantEnds(s, t, c, grant.result, row, rejection);
    } else {
      SeedGrantGoesOn(s, t, c, grant, row, rejection);
    }
  }

  lemma SeedGrantEnds(s: Store, t: Store, c: GrantCommand, result: GrantResult, row: Option<RowId>, rejection: Rejection)
    requires StoreInv(s) && SeedOnTrack(s, t, c, SeedGranting(GrantDone(result)))
    ensures var (t', pc') := SeedStep(t, c, SeedGranting(GrantDone(result)), row, rejection); SeedOnTrack(s, t', c, pc')
  {
    UnseededAnswer(s, c);
    GrantOutcome(s, t, c, result);
    hide StoreInv, GrantOnTrack, UsedElsewhere, EverAssigned;
  }

  lemma SeedGrantGoesOn(s: Store, t: Store, c: GrantCommand, grant: GrantPc, row: Option<RowId>, rejection: Rejection)
    requires StoreInv(s) && StoreInv(t) && SeedOk(t, c, SeedGranting(grant)) && SeedOnTrack(s, t, c, SeedGranting(grant))
    requires !grant.GrantDone?
    ensures var (t', pc') := SeedStep(t, c, SeedGranting(grant), row, rejection); SeedOnTrack(s, t', c, pc')
  {
    hide StoreInv, GrantOk, GrantOnTrack, GrantStep, EverAssigned;
    GrantTrack(s, t, c, grant, rejection);
  }

  lemma GrantOutcome(s: Store, t: Store, c: GrantCommand, result: GrantResult)
    requires GrantOnTrack(s, t, c, GrantDone(result))
    ensures result == GrantAnswer(s, c) && (!result.Granted? ==> t.assignments == s.assignments)
  {
    hide GrantAnswer;
  }

  // ---------------------------------------------------------------- a rebuild

  ghost predicate RebuildOnTrack(s: Store, t: Store, applicationId: Text, pc: RebuildPc) {
    && t == s.(holders := t.holders)
    && Recorded(pc) + |MissingRows(t, applicationId)| == |MissingRows(s, applicationId)|
  }

  lemma RebuildTrack(s: Store, t: Store, applicationId: Text, pc: RebuildPc, pick: Option<Text>)
    requires StoreInv(t) && RebuildOk(t, applicationId, pc) && RebuildOnTrack(s, t, applicationId, pc)
    ensures var (t', pc') := RebuildStep(t, applicationId, pc, pick); RebuildOnTrack(s, t', applicationId, pc')
  {
    hide *;
    if pc.RebuildWriting? {
      WritingKnows(t, applicationId, pc);
      WritingRecord(t, applicationId, pc);
      var k := AssignmentKey(pc.row.location, pc.row.assignmentId);
      PointedRow(t, k, pc.row);
      RowWrite(t, pc.row);
      RowFills(t, k);
      WritingTrack(s, t, applicationId, pc, pick);
    } else {
      RebuildStepSafe(t, applicationId, pc, pick);
      ReadingTrack(s, t, applicationId, pc, pick);
    }
  }

  lemma WritingRecord(s: Store, applicationId: Text, pc: RebuildPc)
    requires RebuildOk(s, applicationId, pc) && pc.RebuildWriting?
    ensures AssignmentKey(pc.row.location, pc.row.assignmentId) in s.assignments && pc.row.location.applicationId == applicationId
    ensures var k := AssignmentKey(pc.row.location, pc.row.assignmentId);
            k.location.applicationId == applicationId && k.id == pc.row.assignmentId && k.location == pc.row.location
  {
    hide PointersRead, MissingWithin;
  }

  lemma WritingTrack(s: Store, t: Store, applicationId: Text, pc: RebuildPc, pick: Option<Text>)
    requires RebuildOnTrack(s, t, applicationId, pc) && pc.RebuildWriting? && t.InsertHolder(pc.row).1 == pc.row
    requires var (u, found, inserted) := t.InsertHolder(pc.row);
             && u == t.(holders := u.holders)
             && MissingRows(u, applicationId) == MissingRows(t, applicationId) - {pc.row}
             && (inserted <==> pc.row in MissingRows(t, applicationId))
    ensures var (t', pc') := RebuildStep(t, applicationId, pc, pick); RebuildOnTrack(s, t', applicationId, pc')
  {
    hide MissingRows, Store.InsertHolder;
    var missing := MissingRows(t, applicationId);
    if pc.row in missing {
      assert missing == (missing - {pc.row}) + {pc.row};
    } else {
      assert missing - {pc.row} == missing;
    }
  }

  lemma ReadingTrack(s: Store, t: Store, applicationId: Text, pc: RebuildPc, pick: Option<Text>)
    requires RebuildOnTrack(s, t, applicationId, pc) && !pc.RebuildWriting?
    requires RebuildOk(t, applicationId, RebuildStep(t, applicationId, pc, pick).1) || RebuildStep(t, applicationId, pc, pick).0 != t
    ensures var (t', pc') := RebuildStep(t, applicationId, pc, pick); RebuildOnTrack(s, t', applicationId, pc')
  {
    hide MissingRows, PointersRead, MissingWithin;
  }

  // ---------------------------------------------------------------- revokeRole

  /** The record is active and not locked, so that it may be revoked if the guard does not object. */
  predicate Revocable(policy: Policy, s: Store, c: RevokeRoleCommand, current: Versioned<StoredAssignment>) {
    CurrentOf(s, c) == Some(current) && current.value.assignment.lifecycle.Active? && !IsLocked(current.value.assignment, policy)
  }

  ghost predicate MayLose(policy: Policy, s: Store, c: RevokeRoleCommand, current: Versioned<StoredAssignment>) {
    current.value.assignment.role == policy.administratorRole ==>
      AnotherHolder(s, QueryOf(c, current), current.value.assignment.principalId)
  }

  ghost predicate IsAnswer(policy: Policy, s: Store, c: RevokeRoleCommand, result: AdminResult, nows: set<Timestamp>) {
    exists now :: now in nows && result == RevokeRoleAnswer(policy, s, c, now)
  }

  /** What an uninterrupted `revokeRole` begun in `s` has established; `nows` are the clock readings it may take. */
  ghost predicate AdminOnTrack(policy: Policy, s: Store, t: Store, c: RevokeRoleCommand, pc: AdminPc, nows: set<Timestamp>) {
    match pc
    case Queued => t == s
    case GetLocate => t == s
    case GetRead(row) => t == s && s.PointerAt(PointerKey(c.applicationId, c.assignmentId)) == Some(row)
    case PreScan(current, scan) =>
      && t == s && Revocable(policy, s, c, current) && current.value.assignment.role == policy.administratorRole
      && ScanOnTheWay(s, QueryOf(c, current), current.value.assignment.principalId, scan)
    case RevokingRole(current, _, command, revoke) =>
      && Revocable(policy, s, c, current) && MayLose(policy, s, c, current) && command.revokedAt in nows
      && command == CommandFor(c, current, command.revokedAt, command.auditEventId) && RevokeOnTrack(s, t, command, revoke)
    case PostScan(current, _, scan) =>
      && IsAnswer(policy, s, c, RoleRevoked(false), nows)
      && AnotherHolder(t, QueryOf(c, current), []) && ScanOnTheWay(t, QueryOf(c, current), [], scan)
    case Compensating(_, _, _) => false
    case FinalScan(_, _) => false
    case AdminDone(result) => IsAnswer(policy, s, c, result, nows)
  }

  lemma AnswerNow(policy: Policy, s: Store, c: RevokeRoleCommand, nows: set<Timestamp>, now: Timestamp)
    requires now in nows
    ensures IsAnswer(policy, s, c, RevokeRoleAnswer(policy, s, c, now), nows)
  {
    hide RevokeRoleAnswer;
  }

  lemma AdminTrack(policy: Policy, s: Store, t: Store, c: RevokeRoleCommand, pc: AdminPc, choice: Choice, nows: set<Timestamp>)
    requires StoreInv(s) && StoreInv(t) && Evolves(s, t) && SingleService.NamedHolders(s)
    requires AdminOk(t, policy, c, pc) && AdminOnTrack(policy, s, t, c, pc, nows) && choice.now in nows
    ensures var (t', pc') := AdminStep(t, policy, c, pc, choice); AdminOnTrack(policy, s, t', c, pc', nows)
  {
    hide *;
    match pc
    case GetLocate =>
      AdminReadsSafe(t, policy, c, pc, choice);
      LocateTrack(policy, s, t, c, choice, nows);
    case GetRead(_) =>
      AdminReadsSafe(t, policy, c, pc, choice);
      ReadTrack(policy, s, t, c, pc, choice, nows);
    case PreScan(_, _) => PreScanTrack(policy, s, t, c, pc, choice, nows);
    case RevokingRole(_, _, _, _) => RevokingTrack(policy, s, t, c, pc, choice, nows);
    case PostScan(_, _, _) => PostScanTrack(policy, s, t, c, pc, choice, nows);
    case _ => OtherTrack(policy, s, t, c, pc, choice, nows);
  }

  lemma OtherTrack(policy: Policy, s: Store, t: Store, c: RevokeRoleCommand, pc: AdminPc, choice: Choice, nows: set<Timestamp>)
    requires AdminOnTrack(policy, s, t, c, pc, nows) && (pc.Queued? || pc.Compensating? || pc.FinalScan? || pc.AdminDone?)
    ensures var (t', pc') := AdminStep(t, policy, c, pc, choice); AdminOnTrack(policy, s, t', c, pc', nows)
  {
    hide IsAnswer, GrantStep, ScanStep;
  }

  lemma LocateTrack(policy: Policy, s: Store, t: Store, c: RevokeRoleCommand, choice: Choice, nows: set<Timestamp>)
    requires AdminOnTrack(policy, s, t, c, GetLocate, nows) && choice.now in nows
    requires AdminOk(t, policy, c, AdminStep(t, policy, c, GetLocate, choice).1)
    ensures var (t', pc') := AdminStep(t, policy, c, GetLocate, choice); AdminOnTrack(policy, s, t', c, pc', nows)
  {
    AnswerNow(policy, s, c, nows, choice.now);
    NoRecord(policy, s, c, choice.now);
    hide IsAnswer, RevokeRoleAnswer;
  }

  lemma NoRecord(policy: Policy, s: Store, c: RevokeRoleCommand, now: Timestamp)
    ensures CurrentOf(s, c).None? ==> RevokeRoleAnswer(policy, s, c, now) == RoleNotFound
  {
  }

  lemma ReadTrack(policy: Policy, s: Store, t: Store, c: RevokeRoleCommand, pc: AdminPc, choice: Choice, nows: set<Timestamp>)
    requires AdminOnTrack(policy, s, t, c, pc, nows) && pc.GetRead? && choice.now in nows
    requires AdminOk(t, policy, c, AdminStep(t, policy, c, pc, choice).1)
    ensures var (t', pc') := AdminStep(t, policy, c, pc, choice); AdminOnTrack(policy, s, t', c, pc', nows)
  {
    AnswerNow(policy, s, c, nows, choice.now);
    if CurrentOf(s, c).Some? {
      DecisionOnTrack(policy, s, c, CurrentOf(s, c).value, choice, nows);
    }
    NoRecord(policy, s, c, choice.now);
    hide IsAnswer, RevokeRoleAnswer, DecideRevoke, AdminOnTrack, IsAssignmentOf;
    AnsweredOnTrack(policy, s, t, c, RoleNotFound, nows);
  }

  lemma AnsweredOnTrack(policy: Policy, s: Store, t: Store, c: RevokeRoleCommand, result: AdminResult, nows: set<Timestamp>)
    ensures AdminOnTrack(policy, s, t, c, AdminDone(result), nows) <==> IsAnswer(policy, s, c, result, nows)
  {
    hide IsAnswer;
  }

  lemma DecisionOnTrack(
    policy: Policy, s: Store, c: RevokeRoleCommand, current: Versioned<StoredAssignment>, choice: Choice, nows: set<Timestamp>)
    requires CurrentOf(s, c) == Some(current) && choice.now in nows
    ensures AdminOnTrack(policy, s, s, c, DecideRevoke(policy, c, current, choice), nows)
  {
    LockedIsSystemManaged(current.value.assignment, policy);
    AnswerNow(policy, s, c, nows, choice.now);
    hide IsAnswer, AssignmentManagedBy, IsLocked, AnotherHolder, CurrentOf;
  }

  lemma PreScanTrack(policy: Policy, s: Store, t: Store, c: RevokeRoleCommand, pc: AdminPc, choice: Choice, nows: set<Timestamp>)
    requires StoreInv(s) && AdminOk(t, policy, c, pc) && AdminOnTrack(policy, s, t, c, pc, nows) && pc.PreScan? && choice.now in nows
    ensures var (t', pc') := AdminStep(t, policy, c, pc, choice); AdminOnTrack(policy, s, t', c, pc', nows)
  {
    hide *;
    AnswerNow(policy, s, c, nows, choice.now);
    if pc.scan.ScanDone? {
      PreScanEnds(policy, s, t, c, pc, choice, nows);
    } else {
      PreScanParts(policy, s, t, c, pc, nows);
      ScanStaysOnTheWay(s, QueryOf(c, pc.current), pc.current.value.assignment.principalId, pc.scan, choice.pick);
      PreScanGoesOn(policy, s, t, c, pc, choice, nows);
    }
  }

  lemma PreScanEnds(policy: Policy, s: Store, t: Store, c: RevokeRoleCommand, pc: AdminPc, choice: Choice, nows: set<Timestamp>)
    requires AdminOnTrack(policy, s, t, c, pc, nows) && pc.PreScan? && pc.scan.ScanDone? && choice.now in nows
    requires AdminOk(t, policy, c, pc) && IsAnswer(policy, s, c, RevokeRoleAnswer(policy, s, c, choice.now), nows)
    ensures var (t', pc') := AdminStep(t, policy, c, pc, choice); AdminOnTrack(policy, s, t', c, pc', nows)
  {
    hide IsAnswer, AnotherHolder, CurrentOf, IsLocked, ScanOk, CurrentOk, RecordRead, RevokeAnswer;
    CurrentId(t, c, pc.current);
  }

  lemma CurrentId(t: Store, c: RevokeRoleCommand, current: Versioned<StoredAssignment>)
    requires CurrentOk(t, c, current)
    ensures current.value.assignment.id == c.assignmentId
  {
    hide RecordRead;
  }

  lemma PreScanParts(policy: Policy, s: Store, t: Store, c: RevokeRoleCommand, pc: AdminPc, nows: set<Timestamp>)
    requires AdminOk(t, policy, c, pc) && AdminOnTrack(policy, s, t, c, pc, nows) && pc.PreScan?
    ensures t == s && ScanOk(s, QueryOf(c, pc.current), pc.scan)
    ensures ScanOnTheWay(s, QueryOf(c, pc.current), pc.current.value.assignment.principalId, pc.scan)
  {
    hide ScanOk, ScanOnTheWay, CurrentOk, Revocable;
  }

  lemma PreScanGoesOn(policy: Policy, s: Store, t: Store, c: RevokeRoleCommand, pc: AdminPc, choice: Choice, nows: set<Timestamp>)
    requires AdminOnTrack(policy, s, t, c, pc, nows) && pc.PreScan? && !pc.scan.ScanDone?
    requires var q := QueryOf(c, pc.current); var excluding := pc.current.value.assignment.principalId;
             ScanOnTheWay(s, q, excluding, ScanStep(s, q, excluding, pc.scan, choice.pick))
    ensures var (t', pc') := AdminStep(t, policy, c, pc, choice); AdminOnTrack(policy, s, t', c, pc', nows)
  {
    hide ScanStep, Revocable, AnotherHolder, ByRoleOnTheWay, Candidates, StillTodo;
  }

  lemma RevokingTrack(policy: Policy, s: Store, t: Store, c: RevokeRoleCommand, pc: AdminPc, choice: Choice, nows: set<Timestamp>)
    requires StoreInv(s) && StoreInv(t) && Evolves(s, t) && SingleService.NamedHolders(s)
    requires AdminOk(t, policy, c, pc) && AdminOnTrack(policy, s, t, c, pc, nows) && pc.RevokingRole?
    ensures var (t', pc') := AdminStep(t, policy, c, pc, choice); AdminOnTrack(policy, s, t', c, pc', nows)
  {
    hide *;
    if pc.revoke.RevokeDone? {
      RevokingParts(policy, s, t, c, pc, nows);
      CommandAnswer(s, c, pc.current, pc.command.revokedAt, pc.command.auditEventId);
      AnswerNow(policy, s, c, nows, pc.command.revokedAt);
      if pc.current.value.assignment.role == policy.administratorRole && pc.command.revokedAt >= pc.current.value.assignment.grantedAt {
        AnotherRemains(s, t, c, pc.current, pc.command.revokedAt, pc.command.auditEventId);
      }
      RevokedTrack(policy, s, t, c, pc, choice, nows);
    } else {
      RevokingOnTrack(policy, s, t, c, pc, nows);
      RevokeTrack(s, t, pc.command, pc.revoke, choice.rejection);
      RevokingGoesOn(policy, s, t, c, pc, choice, nows);
    }
  }

  lemma RevokingOnTrack(policy: Policy, s: Store, t: Store, c: RevokeRoleCommand, pc: AdminPc, nows: set<Timestamp>)
    requires AdminOk(t, policy, c, pc) && AdminOnTrack(policy, s, t, c, pc, nows) && pc.RevokingRole?
    ensures RevokeOk(t, pc.command, pc.revoke) && RevokeOnTrack(s, t, pc.command, pc.revoke)
  {
    hide RevokeOk, RevokeOnTrack, CurrentOk, Revocable, MayLose;
  }

  lemma RevokingGoesOn(policy: Policy, s: Store, t: Store, c: RevokeRoleCommand, pc: AdminPc, choice: Choice, nows: set<Timestamp>)
    requires AdminOnTrack(policy, s, t, c, pc, nows) && pc.RevokingRole? && !pc.revoke.RevokeDone?
    requires var (t', revoke') := RevokeStep(t, pc.command, pc.revoke, choice.rejection); RevokeOnTrack(s, t', pc.command, revoke')
    ensures var (t', pc') := AdminStep(t, policy, c, pc, choice); AdminOnTrack(policy, s, t', c, pc', nows)
  {
    hide RevokeStep, RevokeOnTrack, Revocable, MayLose;
  }

  lemma RevokingParts(policy: Policy, s: Store, t: Store, c: RevokeRoleCommand, pc: AdminPc, nows: set<Timestamp>)
    requires AdminOnTrack(policy, s, t, c, pc, nows) && pc.RevokingRole? && pc.revoke.RevokeDone?
    ensures CurrentOf(s, c) == Some(pc.current) && pc.current.value.assignment.lifecycle.Active? && pc.command.revokedAt in nows
    ensures 0 <= pc.command.revokedAt <= MAX_SAFE_INTEGER
    ensures var command := CommandFor(c, pc.current, pc.command.revokedAt, pc.command.auditEventId);
            && RevokeEffect(s, t, command) && pc.revoke.result == RevokeAnswer(s, command)
    ensures pc.current.value.assignment.role == policy.administratorRole ==>
              AnotherHolder(s, QueryOf(c, pc.current), pc.current.value.assignment.principalId)
    ensures !IsLocked(pc.current.value.assignment, policy)
  {
    hide RevokeEffect, RevokeAnswer, AnotherHolder, CurrentOf, IsLocked;
  }

  lemma RevokedTrack(policy: Policy, s: Store, t: Store, c: RevokeRoleCommand, pc: AdminPc, choice: Choice, nows: set<Timestamp>)
    requires pc.RevokingRole? && pc.revoke.RevokeDone? && CurrentOf(s, c) == Some(pc.current)
    requires pc.current.value.assignment.lifecycle.Active? && !IsLocked(pc.current.value.assignment, policy)
    requires 0 <= pc.command.revokedAt <= MAX_SAFE_INTEGER
    requires var a := pc.current.value.assignment; var now := pc.command.revokedAt;
             && IsAnswer(policy, s, c, RevokeRoleAnswer(policy, s, c, now), nows)
             && (a.role == policy.administratorRole ==> AnotherHolder(s, QueryOf(c, pc.current), a.principalId))
             && (if now < a.grantedAt then pc.revoke.result == RevokeRefused(LifecycleConflict) else pc.revoke.result.RevokeCommitted?)
             && (a.role == policy.administratorRole && now >= a.grantedAt ==> AnotherHolder(t, QueryOf(c, pc.current), []))
    ensures var (t', pc') := AdminStep(t, policy, c, pc, choice); AdminOnTrack(policy, s, t', c, pc', nows)
  {
    hide IsAnswer, AnotherHolder, CurrentOf, IsLocked, RevokeStep;
  }

  lemma PostScanTrack(policy: Policy, s: Store, t: Store, c: RevokeRoleCommand, pc: AdminPc, choice: Choice, nows: set<Timestamp>)
    requires StoreInv(t) && AdminOk(t, policy, c, pc) && AdminOnTrack(policy, s, t, c, pc, nows) && pc.PostScan?
    ensures var (t', pc') := AdminStep(t, policy, c, pc, choice); AdminOnTrack(policy, s, t', c, pc', nows)
  {
    hide *;
    PostScanParts(policy, s, t, c, pc, nows);
    ScanStaysOnTheWay(t, QueryOf(c, pc.current), [], pc.scan, choice.pick);
    PostScanGoesOn(policy, s, t, c, pc, choice, nows);
  }

  lemma PostScanParts(policy: Policy, s: Store, t: Store, c: RevokeRoleCommand, pc: AdminPc, nows: set<Timestamp>)
    requires AdminOk(t, policy, c, pc) && AdminOnTrack(policy, s, t, c, pc, nows) && pc.PostScan?
    ensures ScanOk(t, QueryOf(c, pc.current), pc.scan) && ScanOnTheWay(t, QueryOf(c, pc.current), [], pc.scan)
  {
    hide ScanOk, ScanOnTheWay, CurrentOk, IsAnswer, AnotherHolder;
  }

  lemma PostScanGoesOn(policy: Policy, s: Store, t: Store, c: RevokeRoleCommand, pc: AdminPc, choice: Choice, nows: set<Timestamp>)
    requires AdminOnTrack(policy, s, t, c, pc, nows) && pc.PostScan?
    requires ScanOnTheWay(t, QueryOf(c, pc.current), [], ScanStep(t, QueryOf(c, pc.current), [], pc.scan, choice.pick))
    ensures var (t', pc') := AdminStep(t, policy, c, pc, choice); AdminOnTrack(policy, s, t', c, pc', nows)
  {
    hide ScanStep, IsAnswer, AnotherHolder, ByRoleOnTheWay, Candidates, StillTodo;
  }

  // ---------------------------------------------------------------- any call, run alone

  /** The call has just started. */
  predicate Opens(call: Call) {
    match call
    case Granting(c, pc) => pc == BeginGrant(c)
    case Revoking(c, pc) => pc == BeginRevoke(c)
    case ListingByRole(_, pc) => pc == ByRoleStart
    case ListingPrincipal(_, pc) => pc == ListStart
    case Rebuilding(_, pc) => pc == RebuildStart
    case Seeding(_, pc) => pc == SEED_START
    case Administering(_, _, _, pc) => pc == GetLocate
  }

  /** What an uninterrupted call begun in `s` has established. */
  ghost predicate OnTrack(policy: Policy, s: Store, t: Store, call: Call, nows: set<Timestamp>) {
    match call
    case Granting(c, pc) => GrantOnTrack(s, t, c, pc)
    case Revoking(c, pc) => RevokeOnTrack(s, t, c, pc)
    case ListingByRole(q, pc) => t == s && ByRoleOnTheWay(s, q, pc)
    case ListingPrincipal(location, pc) => t == s && OnTheWay(s, location, pc)
    case Rebuilding(applicationId, pc) => RebuildOnTrack(s, t, applicationId, pc)
    case Seeding(c, pc) => SeedOnTrack(s, t, c, pc)
    case Administering(_, _, c, pc) => SingleService.NamedHolders(s) ==> AdminOnTrack(policy, s, t, c, pc, nows)
  }

  /** The answers that the records of `s` call for, and what the call leaves in `t`. */
  ghost predicate Answers(policy: Policy, s: Store, t: Store, call: Call, nows: set<Timestamp>) {
    match call
    case Granting(c, GrantDone(result)) => result == GrantAnswer(s, c) && GrantEffect(s, t, c)
    case Revoking(c, RevokeDone(result)) => result == RevokeAnswer(s, c) && RevokeEffect(s, t, c)
    case ListingByRole(q, ByRoleDone(found)) => t == s && AreTheHolders(s, q, found)
    case ListingPrincipal(location, ListDone(rows)) => t == s && AreTheRows(s, location, rows)
    case Rebuilding(applicationId, RebuildDone(recorded)) =>
      t == s.(holders := t.holders) && HoldersComplete(t, applicationId) && recorded == |MissingRows(s, applicationId)|
    case Seeding(c, SeedDone(result)) => result == SeedingAnswer(s, c) && (result != Seeded ==> t.assignments == s.assignments)
    case Administering(_, _, c, AdminDone(result)) => SingleService.NamedHolders(s) ==> IsAnswer(policy, s, c, result, nows)
    case _ => false
  }

  lemma OpensOnTrack(policy: Policy, s: Store, call: Call, nows: set<Timestamp>)
    requires StoreInv(s) && Opens(call)
    ensures OnTrack(policy, s, s, call, nows)
  {
    hide GrantOnTrack, RevokeOnTrack, ByRoleOnTheWay, OnTheWay, MissingRows, AdminOnTrack, StoreInv;
    match call
    case Granting(c, _) => GrantOpensOnTrack(s, c);
    case Revoking(c, _) => RevokeOpensOnTrack(s, c);
    case ListingByRole(q, _) => QueryOpens(s, q);
    case ListingPrincipal(location, _) => StartIsOnTheWay(s, location);
    case Seeding(c, _) => StartIsOnTheWay(s, c.Place());
    case Administering(_, _, c, _) => LocateOpens(policy, s, c, nows);
    case _ =>
  }

  lemma RevokeOpensOnTrack(s: Store, c: RevokeCommand)
    requires StoreInv(s)
    ensures RevokeOnTrack(s, s, c, BeginRevoke(c))
  {
    RevokeBegins(s, c);
    hide StoreInv, Evolves, RevokeOk, RevokeOnTrack;
  }

  lemma QueryOpens(s: Store, q: ByRoleQuery)
    ensures ByRoleOnTheWay(s, q, ByRoleStart)
  {
  }

  lemma LocateOpens(policy: Policy, s: Store, c: RevokeRoleCommand, nows: set<Timestamp>)
    ensures AdminOnTrack(policy, s, s, c, GetLocate, nows)
  {
  }

  /** Each step of a call run alone keeps it on its track. */
  lemma TrackStep(policy: Policy, s: Store, t: Store, call: Call, choice: Choice, nows: set<Timestamp>)
    requires StoreInv(s) && StoreInv(t) && Evolves(s, t) && CallOk(policy, t, call) && OnTrack(policy, s, t, call, nows)
    requires choice.now in nows
    ensures var (t', next) := CallStep(policy, t, call, choice); OnTrack(policy, s, t', next, nows)
  {
    hide StoreInv, Evolves, GrantOk, RevokeOk, ByRoleOk, ListOk, RebuildOk, SeedOk, AdminOk;
    hide GrantStep, RevokeStep, ByRoleStep, ListStep, RebuildStep, SeedStep, AdminStep;
    hide GrantOnTrack, RevokeOnTrack, ByRoleOnTheWay, OnTheWay, RebuildOnTrack, SeedOnTrack, AdminOnTrack, SingleService.NamedHolders;
    match call
    case Granting(c, pc) =>
      if pc.GrantDone? {
        GrantDoneStays(t, c, pc, choice.rejection);
      } else {
        GrantTrack(s, t, c, pc, choice.rejection);
      }
    case Revoking(c, pc) =>
      if pc.RevokeDone? {
        RevokeDoneStays(t, c, pc, choice.rejection);
      } else {
        RevokeTrack(s, t, c, pc, choice.rejection);
      }
    case ListingByRole(q, pc) => ByRoleStaysOnTheWay(s, q, pc, choice.pick);
    case ListingPrincipal(location, pc) => StaysOnTheWay(s, location, pc, choice.row);
    case Rebuilding(applicationId, pc) => RebuildTrack(s, t, applicationId, pc, choice.pick);
    case Seeding(c, pc) => SeedTrack(s, t, c, pc, choice.row, choice.rejection);
    case Administering(_, _, c, pc) =>
      if SingleService.NamedHolders(s) {
        AdminTrack(policy, s, t, c, pc, choice, nows);
      }
  }

  lemma GrantDoneStays(t: Store, c: GrantCommand, pc: GrantPc, rejection: Rejection)
    requires pc.GrantDone?
    ensures GrantStep(t, c, pc, rejection) == (t, pc)
  {
  }

  lemma RevokeDoneStays(t: Store, c: RevokeCommand, pc: RevokePc, rejection: Rejection)
    requires pc.RevokeDone?
    ensures RevokeStep(t, c, pc, rejection) == (t, pc)
  {
  }

  /** A call on its track that has ended is answered as the records call for. */
  lemma TrackEnds(policy: Policy, s: Store, t: Store, call: Call, nows: set<Timestamp>)
    requires StoreInv(s) && CallOk(policy, t, call) && OnTrack(policy, s, t, call, nows) && Settled(call)
    ensures Answers(policy, s, t, call, nows)
  {
    hide StoreInv, GrantAnswer, GrantEffect, RevokeAnswer, RevokeEffect, AreTheHolders, AreTheRows, MissingRows, IsAnswer, SeedingAnswer;
    hide SingleService.NamedHolders, GrantOk, RevokeOk, AdminOk, ListOk, ByRoleOk, SeedOk, HoldersComplete;
    if call.Rebuilding? {
      RebuiltOnTrack(s, t, call.applicationId, call.rebuildPc);
    }
  }

  lemma RebuiltOnTrack(s: Store, t: Store, applicationId: Text, pc: RebuildPc)
    requires RebuildOk(t, applicationId, pc) && RebuildOnTrack(s, t, applicationId, pc) && (pc.RebuildDone? || pc.RebuildFailed?)
    ensures pc.RebuildDone? && HoldersComplete(t, applicationId) && pc.recorded == |MissingRows(s, applicationId)|
  {
    RebuiltIsComplete(t, applicationId, pc.recorded);
    CompleteWhenNoneMissing(t, applicationId);
    hide HoldersComplete, MissingRows, MissingWithin;
  }

  lemma {:induction false} AloneOnTrack(w: World, p: nat, choices: seq<Choice>, s: Store, nows: set<Timestamp>)
    requires WorldInv(w) && StoreInv(s) && Evolves(s, w.store) && Runnable(w, p) && p in w.calls
    requires OnTrack(w.policy, s, w.store, w.calls[p], nows)
    requires forall i | 0 <= i < |choices| :: choices[i].now in nows
    ensures var v := Alone(w, p, choices);
            WorldInv(v) && p in v.calls && v.policy == w.policy && OnTrack(w.policy, s, v.store, v.calls[p], nows)
    decreases |choices|
  {
    hide *;
    if choices == [] {
      AloneNothing(w, p);
    } else {
      var choice, rest := choices[0], choices[1..];
      var v := Step(w, Advance(p, choice));
      CallIsOk(w, p);
      OwnStep(w, p, choice);
      StepSafe(w, Advance(p, choice));
      EvolvesTransitive(s, w.store, v.store);
      StaysRunnable(w, p, choice);
      TrackStep(w.policy, s, w.store, w.calls[p], choice, nows);
      AloneOnTrack(v, p, rest, s, nows);
      AloneStep(w, p, choice, rest);
      assert choices == [choice] + rest;
    }
  }

  /**
   * Any call that is run alone from its start is answered as the records it found call for: a grant, a revoke, a
   * listing, a by-role read, a rebuild, a seeding and, among principals with nonempty ids, a `revokeRole`, whose clock
   * reading is one of `nows`. (And it does end: `RoleProgress.StartedCallCanEnd`.)
   */
  lemma UndisturbedAnswers(w: World, p: nat, choices: seq<Choice>, nows: set<Timestamp>)
    requires WorldInv(w) && p in w.calls && Opens(w.calls[p]) && forall i | 0 <= i < |choices| :: choices[i].now in nows
    requires p in Alone(w, p, choices).calls && Settled(Alone(w, p, choices).calls[p])
    ensures var v := Alone(w, p, choices); Answers(w.policy, w.store, v.store, v.calls[p], nows)
  {
    hide *;
    CallIsOk(w, p);
    OpensRunnable(w, p);
    EvolvesReflexive(w.store);
    OpensOnTrack(w.policy, w.store, w.calls[p], nows);
    AloneOnTrack(w, p, choices, w.store, nows);
    var v := Alone(w, p, choices);
    CallIsOk(v, p);
    TrackEnds(w.policy, w.store, v.store, v.calls[p], nows);
  }

  lemma OpensRunnable(w: World, p: nat)
    requires p in w.calls && Opens(w.calls[p])
    ensures Runnable(w, p)
  {
  }
}
