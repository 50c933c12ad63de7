/** The records the role store keeps, their keys, and the commands callers send. */
module RoleRecords {
  import opened Prelude

  datatype Scope = Application | Organization(organizationId: Text)

  datatype Actor = Principal(principalId: Text) | System(systemId: Text)

  /** The exact application, principal and scope one record belongs to: its partition. */
  datatype Location = Location(applicationId: Text, principalId: Text, scope: Scope)

  datatype Lifecycle = Active | Revoked(revokedBy: Actor, revokedAt: int, reason: Option<Text>)

  datatype Assignment = Assignment(
    id: Text, principalId: Text, role: Text, scope: Scope,
    grantedBy: Actor, grantedAt: int, lifecycle: Lifecycle)

  datatype StoredAssignment = StoredAssignment(
    location: Location, assignment: Assignment, grantEventId: Text, revokeEventId: Option<Text>)

  /** The uniqueness guard of one (principal, scope, role) tuple. */
  datatype StoredTuple = StoredTuple(location: Location, role: Text, activeId: Option<Text>)

  datatype StoredAudit = StoredAudit(location: Location, assignmentId: Text, sequence: nat, eventId: Text)

  /** The shared shape of a pointer row and of a role-holder row. */
  datatype IndexRow = IndexRow(location: Location, assignmentId: Text, role: Text)

  const GRANT_SEQUENCE: nat := 1
  const REVOKE_SEQUENCE: nat := 2

  datatype AssignmentKey = AssignmentKey(location: Location, id: Text)
  datatype GuardKey = GuardKey(location: Location, role: Text)
  datatype AuditKey = AuditKey(location: Location, id: Text, sequence: nat)
  datatype PointerKey = PointerKey(applicationId: Text, id: Text)
  datatype HolderKey = HolderKey(applicationId: Text, role: Text, scope: Scope, id: Text)

  function KeyOfPointer(row: IndexRow): PointerKey {
    PointerKey(row.location.applicationId, row.assignmentId)
  }

  function KeyOfHolder(row: IndexRow): HolderKey {
    HolderKey(row.location.applicationId, row.role, row.location.scope, row.assignmentId)
  }

  /** A stored value with the concurrency token of the write that produced it. */
  datatype Versioned<+T> = Versioned(value: T, version: nat)

  datatype GrantCommand = GrantCommand(applicationId: Text, assignment: Assignment, auditEventId: Text) {
    function Place(): Location {
      Location(applicationId, assignment.principalId, assignment.scope)
    }

    function Row(): IndexRow {
      IndexRow(Place(), assignment.id, assignment.role)
    }

    function Key(): AssignmentKey {
      AssignmentKey(Place(), assignment.id)
    }

    function Guard(): GuardKey {
      GuardKey(Place(), assignment.role)
    }

    function Record(): StoredAssignment {
      StoredAssignment(Place(), assignment, auditEventId, None)
    }

    /** The input checks made before any store access. */
    predicate WellFormed() {
      assignment.lifecycle.Active? && 0 <= assignment.grantedAt <= MAX_SAFE_INTEGER
    }
  }

  datatype RevokeCommand = RevokeCommand(
    applicationId: Text, assignmentId: Text, expectedToken: nat,
    revokedBy: Actor, revokedAt: int, reason: Option<Text>, auditEventId: Text)
  {
    function Pointer(): PointerKey {
      PointerKey(applicationId, assignmentId)
    }

    predicate WellFormed() {
      0 <= revokedAt <= MAX_SAFE_INTEGER
    }
  }

  /** The record a revoke writes: the grant evidence is kept, the lifecycle ends. */
  function RevokedForm(stored: StoredAssignment, c: RevokeCommand): StoredAssignment {
    stored.(
      assignment := stored.assignment.(lifecycle := Revoked(c.revokedBy, c.revokedAt, c.reason)),
      revokeEventId := Some(c.auditEventId))
  }

  /** The active grant evidence a record carries whatever its lifecycle. */
  function Evidence(stored: StoredAssignment): StoredAssignment {
    stored.(assignment := stored.assignment.(lifecycle := Active), revokeEventId := None)
  }
}
