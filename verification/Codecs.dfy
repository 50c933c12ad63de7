/** The stored form of authorization records and index rows. Decoding accepts exactly what encoding produces. */
module Codecs {
  import opened Prelude
  import opened RoleRecords
  import opened StorageKeys

  /** The names of record fields; `Unknown` is any name the codecs do not use. */
  datatype Field =
    | Kind | ApplicationId | PrincipalId | ScopeKind | OrganizationId
    | AssignmentId | Role | Status
    | GrantedAt | GrantedByKind | GrantedByPrincipal | GrantedBySystem
    | RevokedAt | RevokedByKind | RevokedByPrincipal | RevokedBySystem
    | Reason | GrantEventId | RevokeEventId
    | ActiveAssignmentId | Sequence | EventId
    | Unknown(name: Text)

  /** A stored value; `Other` is anything that is not text, an integer or null. */
  datatype Cell = Str(text: Text) | Int(n: int) | Null | Other

  type StoredRecord = map<Field, Cell>

  datatype AuthorizationRecord = AssignmentRecord(a: StoredAssignment) | TupleRecord(t: StoredTuple) | AuditRecord(e: StoredAudit)

  const SYSTEM: Text := Ascii("system")
  const PRINCIPAL: Text := Ascii("principal")
  const ACTIVE: Text := Ascii("active")
  const REVOKED: Text := Ascii("revoked")

  lemma TagsApart()
    ensures APPLICATION != ORGANIZATION && SYSTEM != PRINCIPAL && ACTIVE != REVOKED
    ensures ASSIGNMENT != TUPLE && TUPLE != AUDIT && AUDIT != ASSIGNMENT
  {
    assert TUPLE[0] != AUDIT[0];
    assert |APPLICATION| != |ORGANIZATION| && |SYSTEM| != |PRINCIPAL| && |ACTIVE| != |REVOKED| && |ASSIGNMENT| != |TUPLE|;
  }

  // ---------------------------------------------------------------- reading cells

  function ReadString(m: StoredRecord, f: Field): Option<Text> {
    if f in m && m[f].Str? then Some(m[f].text) else None
  }

  function ReadNullableString(m: StoredRecord, f: Field): Option<Option<Text>> {
    if f in m && m[f].Str? then Some(Some(m[f].text)) else if f in m && m[f].Null? then Some(None) else None
  }

  function ReadNonNegativeSafeInteger(m: StoredRecord, f: Field): Option<int> {
    if f in m && m[f].Int? && 0 <= m[f].n <= MAX_SAFE_INTEGER then Some(m[f].n) else None
  }

  function RequireNull(m: StoredRecord, f: Field): Option<()> {
    if f in m && m[f].Null? then Some(()) else None
  }

  function RequireFields(m: StoredRecord, fields: set<Field>): Option<()> {
    if m.Keys == fields then Some(()) else None
  }

  function NullableCell(t: Option<Text>): Cell {
    if t.Some? then Str(t.value) else Null
  }

  // ---------------------------------------------------------------- locations and actors

  function EncodeLocation(l: Location): StoredRecord {
    map[
      ApplicationId := Str(l.applicationId), PrincipalId := Str(l.principalId),
      ScopeKind := Str(if l.scope.Application? then APPLICATION else ORGANIZATION),
      OrganizationId := if l.scope.Organization? then Str(l.scope.organizationId) else Null
    ]
  }

  function DecodeScope(m: StoredRecord): Option<Scope> {
    var kind :- ReadString(m, ScopeKind);
    if kind == ORGANIZATION then
      var id :- ReadString(m, OrganizationId);
      Some(Organization(id))
    else if kind == APPLICATION then
      var _ :- RequireNull(m, OrganizationId);
      Some(Application)
    else None
  }

  function DecodeLocation(m: StoredRecord): Option<Location> {
    var applicationId :- ReadString(m, ApplicationId);
    var principalId :- ReadString(m, PrincipalId);
    var scope :- DecodeScope(m);
    Some(Location(applicationId, principalId, scope))
  }

  /** The three fields that name an actor. */
  datatype ActorFields = ActorFields(kind: Field, principal: Field, system: Field)

  const GRANTED_BY: ActorFields := ActorFields(GrantedByKind, GrantedByPrincipal, GrantedBySystem)
  const REVOKED_BY: ActorFields := ActorFields(RevokedByKind, RevokedByPrincipal, RevokedBySystem)

  function EncodeActor(a: Actor, f: ActorFields): (m: StoredRecord)
    ensures m.Keys == {f.kind, f.principal, f.system}
  {
    map[
      f.kind := Str(if a.Principal? then PRINCIPAL else SYSTEM),
      f.principal := if a.Principal? then Str(a.principalId) else Null,
      f.system := if a.System? then Str(a.systemId) else Null
    ]
  }

  function DecodeActor(m: StoredRecord, f: ActorFields): Option<Actor> {
    var kind :- ReadString(m, f.kind);
    if kind == SYSTEM then
      var _ :- RequireNull(m, f.principal);
      var id :- ReadString(m, f.system);
      Some(System(id))
    else if kind == PRINCIPAL then
      var _ :- RequireNull(m, f.system);
      var id :- ReadString(m, f.principal);
      Some(Principal(id))
    else None
  }

  function NoActor(f: ActorFields): StoredRecord {
    map[f.kind := Null, f.principal := Null, f.system := Null]
  }

  // ---------------------------------------------------------------- records

  const LOCATION_FIELDS: set<Field> := {ApplicationId, PrincipalId, ScopeKind, OrganizationId}
  const ACTOR_FIELDS: set<Field> :=
    {GrantedByKind, GrantedByPrincipal, GrantedBySystem, RevokedByKind, RevokedByPrincipal, RevokedBySystem}
  const ASSIGNMENT_FIELDS: set<Field> :=
    LOCATION_FIELDS + ACTOR_FIELDS +
    {Kind, AssignmentId, Role, Status, GrantedAt, RevokedAt, Reason, GrantEventId, RevokeEventId}
  const TUPLE_FIELDS: set<Field> := LOCATION_FIELDS + {Kind, Role, ActiveAssignmentId}
  const AUDIT_FIELDS: set<Field> := LOCATION_FIELDS + {Kind, AssignmentId, Sequence, EventId}
  const POINTER_FIELDS: set<Field> := LOCATION_FIELDS + {AssignmentId, Role}

  function EncodeEnd(l: Lifecycle): StoredRecord {
    match l
    case Active => map[Status := Str(ACTIVE), RevokedAt := Null, Reason := Null] + NoActor(REVOKED_BY)
    case Revoked(actor, at, reason) =>
      map[Status := Str(REVOKED), RevokedAt := Int(at), Reason := NullableCell(reason)] + EncodeActor(actor, REVOKED_BY)
  }

  function EncodeAssignment(s: StoredAssignment): StoredRecord {
    EncodeLocation(s.location) + EncodeActor(s.assignment.grantedBy, GRANTED_BY) + EncodeEnd(s.assignment.lifecycle) +
    map[
      Kind := Str(ASSIGNMENT), AssignmentId := Str(s.assignment.id), Role := Str(s.assignment.role),
      GrantedAt := Int(s.assignment.grantedAt),
      GrantEventId := Str(s.grantEventId), RevokeEventId := NullableCell(s.revokeEventId)
    ]
  }

  /** A lifecycle and the revoke event that goes with it. */
  datatype End = End(lifecycle: Lifecycle, revokeEventId: Option<Text>)

  function DecodeEnd(m: StoredRecord, grantedAt: int): Option<End> {
    var status :- ReadString(m, Status);
    if status == ACTIVE then
      var _ :- RequireNull(m, RevokedAt);
      var _ :- RequireNull(m, RevokedByKind);
      var _ :- RequireNull(m, RevokedByPrincipal);
      var _ :- RequireNull(m, RevokedBySystem);
      var _ :- RequireNull(m, Reason);
      var _ :- RequireNull(m, RevokeEventId);
      Some(End(Active, None))
    else if status == REVOKED then
      var at :- ReadNonNegativeSafeInteger(m, RevokedAt);
      if at < grantedAt then None
      else
        var reason :- ReadNullableString(m, Reason);
        var event :- ReadString(m, RevokeEventId);
        var actor :- DecodeActor(m, REVOKED_BY);
        Some(End(Revoked(actor, at, reason), Some(event)))
    else None
  }

  function DecodeAssignment(m: StoredRecord): Option<StoredAssignment> {
    var _ :- RequireFields(m, ASSIGNMENT_FIELDS);
    var location :- DecodeLocation(m);
    var grantedAt :- ReadNonNegativeSafeInteger(m, GrantedAt);
    var id :- ReadString(m, AssignmentId);
    var role :- ReadString(m, Role);
    var actor :- DecodeActor(m, GRANTED_BY);
    var end :- DecodeEnd(m, grantedAt);
    var event :- ReadString(m, GrantEventId);
    Some(StoredAssignment(location, Assignment(id, location.principalId, role, location.scope, actor, grantedAt, end.lifecycle),
                          event, end.revokeEventId))
  }

  /** What a stored assignment must satisfy to be read back. */
  predicate AssignmentFits(s: StoredAssignment) {
    && s.assignment.principalId == s.location.principalId && s.assignment.scope == s.location.scope
    && 0 <= s.assignment.grantedAt <= MAX_SAFE_INTEGER
    && EndFits(End(s.assignment.lifecycle, s.revokeEventId), s.assignment.grantedAt)
  }

  predicate EndFits(end: End, grantedAt: int) {
    match end.lifecycle
    case Active => end.revokeEventId.None?
    case Revoked(_, at, _) => end.revokeEventId.Some? && grantedAt <= at && 0 <= at <= MAX_SAFE_INTEGER
  }

  function Encode(r: AuthorizationRecord): StoredRecord {
    match r
    case AssignmentRecord(a) => EncodeAssignment(a)
    case TupleRecord(t) =>
      EncodeLocation(t.location) + map[Kind := Str(TUPLE), Role := Str(t.role), ActiveAssignmentId := NullableCell(t.activeId)]
    case AuditRecord(e) =>
      EncodeLocation(e.location) +
      map[Kind := Str(AUDIT), AssignmentId := Str(e.assignmentId), Sequence := Int(e.sequence), EventId := Str(e.eventId)]
  }

  function DecodeTuple(m: StoredRecord): Option<StoredTuple> {
    var _ :- RequireFields(m, TUPLE_FIELDS);
    var location :- DecodeLocation(m);
    var role :- ReadString(m, Role);
    var activeId :- ReadNullableString(m, ActiveAssignmentId);
    Some(StoredTuple(location, role, activeId))
  }

  function DecodeAudit(m: StoredRecord): Option<StoredAudit> {
    var _ :- RequireFields(m, AUDIT_FIELDS);
    var sequence :- ReadNonNegativeSafeInteger(m, Sequence);
    if sequence != GRANT_SEQUENCE && sequence != REVOKE_SEQUENCE then None
    else
      var location :- DecodeLocation(m);
      var id :- ReadString(m, AssignmentId);
      var event :- ReadString(m, EventId);
      Some(StoredAudit(location, id, sequence, event))
  }

  function Decode(m: StoredRecord): Option<AuthorizationRecord> {
    var kind :- ReadString(m, Kind);
    if kind == ASSIGNMENT then
      var a :- DecodeAssignment(m);
      Some(AssignmentRecord(a))
    else if kind == TUPLE then
      var t :- DecodeTuple(m);
      Some(TupleRecord(t))
    else if kind == AUDIT then
      var e :- DecodeAudit(m);
      Some(AuditRecord(e))
    else None
  }

  predicate Fits(r: AuthorizationRecord) {
    match r
    case AssignmentRecord(a) => AssignmentFits(a)
    case TupleRecord(_) => true
    case AuditRecord(e) => e.sequence == GRANT_SEQUENCE || e.sequence == REVOKE_SEQUENCE
  }

  function EncodeRow(r: IndexRow): StoredRecord {
    EncodeLocation(r.location) + map[AssignmentId := Str(r.assignmentId), Role := Str(r.role)]
  }

  function DecodeRow(m: StoredRecord): Option<IndexRow> {
    var _ :- RequireFields(m, POINTER_FIELDS);
    var location :- DecodeLocation(m);
    var id :- ReadString(m, AssignmentId);
    var role :- ReadString(m, Role);
    Some(IndexRow(location, id, role))
  }

  // ---------------------------------------------------------------- decoding is the inverse of encoding

  /** `m` holds the cells of `part`. */
  predicate Holds(m: StoredRecord, part: StoredRecord) {
    forall f | f in part :: f in m && m[f] == part[f]
  }

  lemma LocationCodec(m: StoredRecord, l: Location)
    ensures DecodeLocation(m) == Some(l) <==> LOCATION_FIELDS <= m.Keys && Holds(m, EncodeLocation(l))
  {
    TagsApart();
  }

  lemma ActorCodec(m: StoredRecord, a: Actor, f: ActorFields)
    requires f.kind != f.principal && f.principal != f.system && f.system != f.kind
    ensures DecodeActor(m, f) == Some(a) <==> Holds(m, EncodeActor(a, f))
  {
    TagsApart();
  }

  lemma HoldsBoth(m: StoredRecord, a: StoredRecord, b: StoredRecord)
    requires a.Keys !! b.Keys
    ensures Holds(m, a + b) <==> Holds(m, a) && Holds(m, b)
  {
    if Holds(m, a + b) {
      forall f | f in a ensures f in m && m[f] == a[f] {
        assert f in a + b && f !in b;
      }
      forall f | f in b ensures f in m && m[f] == b[f] {
        assert f in a + b;
      }
    }
  }

  lemma ActiveEndCodec(m: StoredRecord, grantedAt: int)
    ensures DecodeEnd(m, grantedAt) == Some(End(Active, None)) <==>
            Holds(m, EncodeEnd(Active)) && Holds(m, map[RevokeEventId := Null])
  {
    TagsApart();
    hide DecodeActor, ReadNonNegativeSafeInteger, ReadNullableString;
    HoldsBoth(m, map[Status := Str(ACTIVE), RevokedAt := Null, Reason := Null], NoActor(REVOKED_BY));
  }

  lemma RevokedCellsCodec(m: StoredRecord, at: int, reason: Option<Text>)
    ensures Holds(m, map[Status := Str(REVOKED), RevokedAt := Int(at), Reason := NullableCell(reason)]) <==>
            && ReadString(m, Status) == Some(REVOKED) && RevokedAt in m && m[RevokedAt] == Int(at)
            && ReadNullableString(m, Reason) == Some(reason)
  {
    var part := map[Status := Str(REVOKED), RevokedAt := Int(at), Reason := NullableCell(reason)];
    assert Status in part && RevokedAt in part && Reason in part;
  }

  lemma RevokedEndCodec(m: StoredRecord, actor: Actor, at: int, reason: Option<Text>, event: Text, grantedAt: int)
    requires grantedAt >= 0
    ensures DecodeEnd(m, grantedAt) == Some(End(Revoked(actor, at, reason), Some(event))) <==>
            && grantedAt <= at <= MAX_SAFE_INTEGER
            && Holds(m, EncodeEnd(Revoked(actor, at, reason))) && Holds(m, map[RevokeEventId := Str(event)])
  {
    hide DecodeActor, EncodeActor, Holds, ReadNullableString, NullableCell, Ascii;
    TagsApart();
    ActorCodec(m, actor, REVOKED_BY);
    RevokedCellsCodec(m, at, reason);
    HoldsBoth(m, map[Status := Str(REVOKED), RevokedAt := Int(at), Reason := NullableCell(reason)], EncodeActor(actor, REVOKED_BY));
    OneCell(m, RevokeEventId, Str(event));
  }

  lemma OneCell(m: StoredRecord, f: Field, c: Cell)
    ensures Holds(m, map[f := c]) <==> f in m && m[f] == c
  {
    assert f in map[f := c];
  }

  lemma EndCodec(m: StoredRecord, end: End, grantedAt: int)
    requires grantedAt >= 0
    ensures DecodeEnd(m, grantedAt) == Some(end) <==>
            && EndFits(end, grantedAt)
            && Holds(m, EncodeEnd(end.lifecycle)) && Holds(m, map[RevokeEventId := NullableCell(end.revokeEventId)])
  {
    if end.lifecycle.Active? {
      if end.revokeEventId.None? {
        ActiveEndCodec(m, grantedAt);
      }
    } else if end.revokeEventId.Some? {
      RevokedEndCodec(m, end.lifecycle.revokedBy, end.lifecycle.revokedAt, end.lifecycle.reason, end.revokeEventId.value, grantedAt);
    }
    hide Holds, EncodeEnd, DecodeActor, ReadString, ReadNullableString, RequireNull, ReadNonNegativeSafeInteger;
  }

  // ---- whole records

  lemma ExactRecord(m: StoredRecord, part: StoredRecord)
    ensures m == part <==> m.Keys == part.Keys && Holds(m, part)
  {
  }

  /** The cells of an assignment that are neither its location, its granter nor its end. */
  function OwnCells(s: StoredAssignment): (m: StoredRecord)
    ensures m.Keys == {Kind, AssignmentId, Role, GrantedAt, GrantEventId, RevokeEventId}
  {
    map[
      Kind := Str(ASSIGNMENT), AssignmentId := Str(s.assignment.id), Role := Str(s.assignment.role),
      GrantedAt := Int(s.assignment.grantedAt),
      GrantEventId := Str(s.grantEventId), RevokeEventId := NullableCell(s.revokeEventId)
    ]
  }

  lemma OwnCellsCodec(m: StoredRecord, s: StoredAssignment)
    ensures Holds(m, OwnCells(s)) <==>
            && ReadString(m, Kind) == Some(ASSIGNMENT)
            && ReadString(m, AssignmentId) == Some(s.assignment.id) && ReadString(m, Role) == Some(s.assignment.role)
            && GrantedAt in m && m[GrantedAt] == Int(s.assignment.grantedAt)
            && ReadString(m, GrantEventId) == Some(s.grantEventId)
            && Holds(m, map[RevokeEventId := NullableCell(s.revokeEventId)])
  {
    OneCell(m, RevokeEventId, NullableCell(s.revokeEventId));
    hide NullableCell;
    var part := OwnCells(s);
    assert Kind in part && AssignmentId in part && Role in part && GrantedAt in part && GrantEventId in part;
    assert RevokeEventId in part;
  }

  lemma EncodedAssignment(m: StoredRecord, s: StoredAssignment)
    ensures m == EncodeAssignment(s) <==>
            && m.Keys == ASSIGNMENT_FIELDS && Holds(m, EncodeLocation(s.location))
            && Holds(m, EncodeActor(s.assignment.grantedBy, GRANTED_BY)) && Holds(m, EncodeEnd(s.assignment.lifecycle))
            && Holds(m, OwnCells(s))
  {
    hide *;
    var location, actor := EncodeLocation(s.location), EncodeActor(s.assignment.grantedBy, GRANTED_BY);
    var end, own := EncodeEnd(s.assignment.lifecycle), OwnCells(s);
    EncodedParts(s);
    HoldsBoth(m, location, actor);
    HoldsBoth(m, location + actor, end);
    HoldsBoth(m, location + actor + end, own);
    ExactRecord(m, EncodeAssignment(s));
  }

  lemma EncodedParts(s: StoredAssignment)
    ensures var location, actor := EncodeLocation(s.location), EncodeActor(s.assignment.grantedBy, GRANTED_BY);
            var end, own := EncodeEnd(s.assignment.lifecycle), OwnCells(s);
            && EncodeAssignment(s) == location + actor + end + own && EncodeAssignment(s).Keys == ASSIGNMENT_FIELDS
            && location.Keys !! actor.Keys && (location + actor).Keys !! end.Keys && (location + actor + end).Keys !! own.Keys
  {
    var location, actor := EncodeLocation(s.location), EncodeActor(s.assignment.grantedBy, GRANTED_BY);
    var end, own := EncodeEnd(s.assignment.lifecycle), OwnCells(s);
    assert EncodeAssignment(s) == location + actor + end + own;
    hide EncodeAssignment;
    EncodedKeys(s);
    hide EncodeActor, EncodeLocation, EncodeEnd, OwnCells;
    KeysOfUnion(location, actor);
    KeysOfUnion(location + actor, end);
    KeysOfUnion(location + actor + end, own);
    AllFields();
  }

  lemma KeysOfUnion(a: StoredRecord, b: StoredRecord)
    ensures (a + b).Keys == a.Keys + b.Keys
  {
  }

  lemma AllFields()
    ensures var actor := {GrantedByKind, GrantedByPrincipal, GrantedBySystem};
            var end := {Status, RevokedAt, Reason, RevokedByKind, RevokedByPrincipal, RevokedBySystem};
            var own := {Kind, AssignmentId, Role, GrantedAt, GrantEventId, RevokeEventId};
            && LOCATION_FIELDS + actor + end + own == ASSIGNMENT_FIELDS
            && LOCATION_FIELDS !! actor && (LOCATION_FIELDS + actor) !! end && (LOCATION_FIELDS + actor + end) !! own
  {
    FieldsApart();
  }

  lemma FieldsApart()
    ensures var actor := {GrantedByKind, GrantedByPrincipal, GrantedBySystem};
            var end := {Status, RevokedAt, Reason, RevokedByKind, RevokedByPrincipal, RevokedBySystem};
            var own := {Kind, AssignmentId, Role, GrantedAt, GrantEventId, RevokeEventId};
            LOCATION_FIELDS !! actor && (LOCATION_FIELDS + actor) !! end && (LOCATION_FIELDS + actor + end) !! own
  {
  }

  lemma EncodedKeys(s: StoredAssignment)
    ensures EncodeLocation(s.location).Keys == LOCATION_FIELDS
    ensures EncodeEnd(s.assignment.lifecycle).Keys ==
            {Status, RevokedAt, Reason, RevokedByKind, RevokedByPrincipal, RevokedBySystem}
  {
  }

  lemma ParsedAssignment(m: StoredRecord, s: StoredAssignment)
    ensures DecodeAssignment(m) == Some(s) <==>
            && m.Keys == ASSIGNMENT_FIELDS
            && DecodeLocation(m) == Some(s.location)
            && s.assignment.principalId == s.location.principalId && s.assignment.scope == s.location.scope
            && ReadNonNegativeSafeInteger(m, GrantedAt) == Some(s.assignment.grantedAt)
            && ReadString(m, AssignmentId) == Some(s.assignment.id) && ReadString(m, Role) == Some(s.assignment.role)
            && DecodeActor(m, GRANTED_BY) == Some(s.assignment.grantedBy)
            && DecodeEnd(m, s.assignment.grantedAt) == Some(End(s.assignment.lifecycle, s.revokeEventId))
            && ReadString(m, GrantEventId) == Some(s.grantEventId)
  {
    hide DecodeLocation, ReadNonNegativeSafeInteger, ReadString, DecodeActor, DecodeEnd;
  }

  /** An assignment record is read back exactly when it was written from a well-formed assignment. */
  lemma AssignmentCodec(m: StoredRecord, s: StoredAssignment)
    ensures ReadString(m, Kind) == Some(ASSIGNMENT) && DecodeAssignment(m) == Some(s) <==>
            AssignmentFits(s) && m == EncodeAssignment(s)
  {
    hide *;
    ParsedAssignment(m, s);
    EncodedAssignment(m, s);
    GrantedAtCodec(m, s);
    LocationCodec(m, s.location);
    ActorCodec(m, s.assignment.grantedBy, GRANTED_BY);
    OwnCellsCodec(m, s);
    if s.assignment.grantedAt >= 0 {
      EndCodec(m, End(s.assignment.lifecycle, s.revokeEventId), s.assignment.grantedAt);
    }
  }

  lemma GrantedAtCodec(m: StoredRecord, s: StoredAssignment)
    ensures ReadNonNegativeSafeInteger(m, GrantedAt) == Some(s.assignment.grantedAt) <==>
            0 <= s.assignment.grantedAt <= MAX_SAFE_INTEGER && GrantedAt in m && m[GrantedAt] == Int(s.assignment.grantedAt)
    ensures AssignmentFits(s) <==>
            && s.assignment.principalId == s.location.principalId && s.assignment.scope == s.location.scope
            && 0 <= s.assignment.grantedAt <= MAX_SAFE_INTEGER
            && EndFits(End(s.assignment.lifecycle, s.revokeEventId), s.assignment.grantedAt)
    ensures LOCATION_FIELDS <= ASSIGNMENT_FIELDS && GRANTED_BY.kind != GRANTED_BY.principal
    ensures GRANTED_BY.principal != GRANTED_BY.system && GRANTED_BY.system != GRANTED_BY.kind
  {
  }

  /** A record made of a location and of other cells is the text of that location and those cells. */
  lemma LocatedRecord(m: StoredRecord, l: Location, own: StoredRecord)
    requires own.Keys !! LOCATION_FIELDS
    ensures m == EncodeLocation(l) + own <==>
            m.Keys == LOCATION_FIELDS + own.Keys && DecodeLocation(m) == Some(l) && Holds(m, own)
  {
    LocationCodec(m, l);
    assert EncodeLocation(l).Keys == LOCATION_FIELDS;
    hide DecodeLocation, EncodeLocation;
    HoldsBoth(m, EncodeLocation(l), own);
    ExactRecord(m, EncodeLocation(l) + own);
  }

  lemma TupleCells(m: StoredRecord, t: StoredTuple)
    ensures Holds(m, map[Kind := Str(TUPLE), Role := Str(t.role), ActiveAssignmentId := NullableCell(t.activeId)]) <==>
            && ReadString(m, Kind) == Some(TUPLE) && ReadString(m, Role) == Some(t.role)
            && ReadNullableString(m, ActiveAssignmentId) == Some(t.activeId)
  {
    var own := map[Kind := Str(TUPLE), Role := Str(t.role), ActiveAssignmentId := NullableCell(t.activeId)];
    assert Kind in own && Role in own && ActiveAssignmentId in own;
  }

  lemma TupleCodec(m: StoredRecord, t: StoredTuple)
    ensures ReadString(m, Kind) == Some(TUPLE) && DecodeTuple(m) == Some(t) <==> m == Encode(TupleRecord(t))
  {
    hide DecodeLocation, EncodeLocation, ReadString, ReadNullableString, NullableCell, Holds;
    TupleCells(m, t);
    LocatedRecord(m, t.location, map[Kind := Str(TUPLE), Role := Str(t.role), ActiveAssignmentId := NullableCell(t.activeId)]);
  }

  lemma AuditCells(m: StoredRecord, e: StoredAudit)
    ensures Holds(m, map[Kind := Str(AUDIT), AssignmentId := Str(e.assignmentId), Sequence := Int(e.sequence), EventId := Str(e.eventId)]) <==>
            && ReadString(m, Kind) == Some(AUDIT) && ReadString(m, AssignmentId) == Some(e.assignmentId)
            && Sequence in m && m[Sequence] == Int(e.sequence) && ReadString(m, EventId) == Some(e.eventId)
  {
    var own := map[Kind := Str(AUDIT), AssignmentId := Str(e.assignmentId), Sequence := Int(e.sequence), EventId := Str(e.eventId)];
    assert Kind in own && AssignmentId in own && Sequence in own && EventId in own;
  }

  lemma AuditCodec(m: StoredRecord, e: StoredAudit)
    ensures ReadString(m, Kind) == Some(AUDIT) && DecodeAudit(m) == Some(e) <==>
            Fits(AuditRecord(e)) && m == Encode(AuditRecord(e))
  {
    hide DecodeLocation, EncodeLocation, ReadString, Holds;
    AuditCells(m, e);
    LocatedRecord(m, e.location,
                  map[Kind := Str(AUDIT), AssignmentId := Str(e.assignmentId), Sequence := Int(e.sequence), EventId := Str(e.eventId)]);
  }

  /**
   * On authorization records, encoding and decoding are inverse in both directions: a stored record is read as `r`
   * exactly when `r` is well formed and the record is what `r` is written as.
   */
  lemma DecodingInvertsEncoding(m: StoredRecord, r: AuthorizationRecord)
    ensures Decode(m) == Some(r) <==> Fits(r) && m == Encode(r)
  {
    TagsApart();
    match r
    case AssignmentRecord(a) =>
      AssignmentCodec(m, a);
      hide DecodeAssignment, EncodeAssignment, AssignmentFits, DecodeTuple, DecodeAudit, ReadString;
    case TupleRecord(t) =>
      TupleCodec(m, t);
      hide DecodeAssignment, EncodeAssignment, DecodeTuple, DecodeAudit, ReadString;
    case AuditRecord(e) =>
      AuditCodec(m, e);
      hide DecodeAssignment, EncodeAssignment, DecodeTuple, DecodeAudit, ReadString;
  }

  /** The same for pointer and role-holder rows, all of which are well formed. */
  lemma RowDecodingInvertsEncoding(m: StoredRecord, r: IndexRow)
    ensures DecodeRow(m) == Some(r) <==> m == EncodeRow(r)
  {
    hide DecodeLocation, EncodeLocation;
    var own := map[AssignmentId := Str(r.assignmentId), Role := Str(r.role)];
    assert AssignmentId in own && Role in own;
    LocatedRecord(m, r.location, own);
  }

  /** What a well-formed record is written as is read back unchanged. */
  lemma RoundTrip(r: AuthorizationRecord)
    ensures Decode(Encode(r)) == Some(r) <==> Fits(r)
  {
    DecodingInvertsEncoding(Encode(r), r);
    hide Decode, Encode, Fits;
  }
}
