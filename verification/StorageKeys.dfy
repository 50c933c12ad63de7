/**
 * The two encodings storage keys are built with, and the keys themselves: distinct records never share one.
 */
module StorageKeys {
  import opened Prelude
  import opened Json
  import opened CanonicalJson
  import opened RoleRecords
  import opened Replay

  const BAR: Unit := 0x7C
  const PERCENT: Unit := 0x25

  datatype EntityKey = EntityKey(partition: Text, id: Text)

  // ---------------------------------------------------------------- segments separated by bars

  /** The characters `KEY_ESCAPES` matches. */
  predicate IsEscaped(u: Unit) {
    u == PERCENT || u == BAR || u == SLASH || u == BACKSLASH || u == 0x23 || u == 0x3F || u < 0x20 || 0x7F <= u <= 0x9F
  }

  /** An upper-case hexadecimal digit. */
  function UpperHex(d: nat): (u: Unit)
    requires d < 16
    ensures IsHexDigit(u) && HexValue(u) == d && u != BAR
  {
    if d < 10 then 0x30 + d else 0x41 + d - 10
  }

  function EncodeUnit(u: Unit): (t: Text)
    ensures t != [] && BAR !in t
  {
    if IsEscaped(u) then [PERCENT, UpperHex(u / 16), UpperHex(u % 16)] else [u]
  }

  /** `encodeSegment`. */
  function EncodeSegment(s: Text): (t: Text)
    ensures BAR !in t
  {
    if s == [] then [] else EncodeUnit(s[0]) + EncodeSegment(s[1..])
  }

  /** What nothing in the source needs: the segment an encoded text came from. */
  function DecodeSegment(t: Text): Text {
    if t == [] then []
    else if t[0] == PERCENT && |t| >= 3 && IsHexDigit(t[1]) && IsHexDigit(t[2]) then
      [HexValue(t[1]) * 16 + HexValue(t[2])] + DecodeSegment(t[3..])
    else [t[0]] + DecodeSegment(t[1..])
  }

  lemma {:induction false} SegmentsAreReversible(s: Text)
    ensures DecodeSegment(EncodeSegment(s)) == s
  {
    if s != [] {
      SegmentsAreReversible(s[1..]);
      DecodeUnit(s[0], EncodeSegment(s[1..]));
      assert s == [s[0]] + s[1..];
    }
  }

  lemma DecodeUnit(u: Unit, rest: Text)
    ensures DecodeSegment(EncodeUnit(u) + rest) == [u] + DecodeSegment(rest)
  {
    var t := EncodeUnit(u) + rest;
    assert t[|EncodeUnit(u)|..] == rest;
  }

  lemma SegmentsInjective(s: Text, t: Text)
    ensures EncodeSegment(s) == EncodeSegment(t) <==> s == t
  {
    SegmentsAreReversible(s);
    SegmentsAreReversible(t);
  }

  /** A character that a backend's key may hold, other than the percent sign. */
  predicate IsSafe(u: Unit) {
    && 0x20 <= u && !(0x7F <= u <= 0x9F)
    && u != 0x7C && u != 0x2F && u != 0x5C && u != 0x23 && u != 0x3F
  }

  lemma UnitIsSafe(u: Unit)
    ensures forall i | 0 <= i < |EncodeUnit(u)| :: IsSafe(EncodeUnit(u)[i])
    ensures IsSafe(u) && u != 0x25 ==> EncodeUnit(u) == [u]
  {
  }

  /** An encoded segment holds no separator, slash, backslash, hash, question mark or control; without those it is as it was. */
  lemma {:induction false} SegmentsAreSafe(s: Text)
    ensures forall i | 0 <= i < |EncodeSegment(s)| :: IsSafe(EncodeSegment(s)[i])
    ensures (forall i | 0 <= i < |s| :: IsSafe(s[i]) && s[i] != 0x25) ==> EncodeSegment(s) == s
  {
    hide IsSafe, EncodeUnit;
    if s != [] {
      var rest := s[1..];
      UnitIsSafe(s[0]);
      SegmentsAreSafe(rest);
      assert forall i | 0 <= i < |rest| :: rest[i] == s[i + 1];
      assert s == [s[0]] + rest;
    }
  }

  /** A text ends at its first separator. */
  lemma SplitAt(separator: Unit, a: Text, x: Text, b: Text, y: Text)
    requires separator !in a && separator !in b && a + ([separator] + x) == b + ([separator] + y)
    ensures a == b && x == y
  {
    var s, t := a + ([separator] + x), b + ([separator] + y);
    FirstSeparator(separator, a, x);
    FirstSeparator(separator, b, y);
    assert |a| == |b|;
    assert s[..|a|] == a && t[..|b|] == b;
    assert s[|a| + 1..] == x && t[|b| + 1..] == y;
  }

  lemma FirstSeparator(separator: Unit, a: Text, x: Text)
    requires separator !in a
    ensures var s := a + ([separator] + x); |a| < |s| && s[|a|] == separator && forall i | 0 <= i < |a| :: s[i] != separator
  {
  }

  /** Two fields and a rest, joined by separators. */
  function Joined(separator: Unit, a: Text, b: Text, rest: Text): Text {
    a + ([separator] + (b + ([separator] + rest)))
  }

  lemma JoinedInjective(separator: Unit, a: Text, b: Text, x: Text, c: Text, d: Text, y: Text)
    requires separator !in a && separator !in b && separator !in c && separator !in d
    requires Joined(separator, a, b, x) == Joined(separator, c, d, y)
    ensures a == c && b == d && x == y
  {
    SplitAt(separator, a, b + ([separator] + x), c, d + ([separator] + y));
    SplitAt(separator, b, x, d, y);
  }

  const APPLICATION: Text := Ascii("application")
  const ORGANIZATION: Text := Ascii("organization")

  function ScopeTag(scope: Scope): Text {
    match scope
    case Application => APPLICATION
    case Organization(id) => ORGANIZATION + ([BAR] + EncodeSegment(id))
  }

  lemma ScopeTagsInjective(s: Scope, t: Scope)
    ensures ScopeTag(s) == ScopeTag(t) <==> s == t
  {
    if ScopeTag(s) == ScopeTag(t) {
      assert APPLICATION[0] != ORGANIZATION[0];
      if s.Organization? && t.Organization? {
        assert ScopeTag(s)[|ORGANIZATION| + 1..] == EncodeSegment(s.organizationId);
        assert ScopeTag(t)[|ORGANIZATION| + 1..] == EncodeSegment(t.organizationId);
        SegmentsInjective(s.organizationId, t.organizationId);
      }
    }
  }

  function RecordPartition(location: Location): Text {
    Joined(BAR, EncodeSegment(location.applicationId), EncodeSegment(location.principalId), ScopeTag(location.scope))
  }

  function RoleHolderPartition(applicationId: Text, role: Text, scope: Scope): Text {
    Joined(BAR, EncodeSegment(applicationId), EncodeSegment(role), ScopeTag(scope))
  }

  /** A partition holds the records of one application, one principal and one exact scope. */
  lemma PartitionsInjective(l: Location, m: Location)
    ensures RecordPartition(l) == RecordPartition(m) <==> l == m
  {
    if RecordPartition(l) == RecordPartition(m) {
      JoinedInjective(BAR, EncodeSegment(l.applicationId), EncodeSegment(l.principalId), ScopeTag(l.scope),
                      EncodeSegment(m.applicationId), EncodeSegment(m.principalId), ScopeTag(m.scope));
      SegmentsInjective(l.applicationId, m.applicationId);
      SegmentsInjective(l.principalId, m.principalId);
      ScopeTagsInjective(l.scope, m.scope);
    }
  }

  // ---------------------------------------------------------------- record ids

  const ASSIGNMENT: Text := Ascii("assignment")
  const TUPLE: Text := Ascii("tuple")
  const AUDIT: Text := Ascii("audit")

  function AssignmentRecordId(id: Text): Text {
    ASSIGNMENT + ([BAR] + EncodeSegment(id))
  }

  function TupleRecordId(role: Text): Text {
    TUPLE + ([BAR] + EncodeSegment(role))
  }

  function Zeros(n: nat): (t: Text)
    ensures |t| == n && AllDigits(t)
  {
    seq(n, i => ZERO)
  }

  /** `String(sequence).padStart(4, "0")`. */
  function Padded(sequence: nat): Text {
    var digits := Digits(sequence);
    Zeros(if |digits| < 4 then 4 - |digits| else 0) + digits
  }

  function AuditRecordId(id: Text, sequence: nat): Text {
    AUDIT + ([BAR] + (EncodeSegment(id) + ([BAR] + Padded(sequence))))
  }

  lemma {:induction false} LeadingZeros(n: nat, digits: Text)
    requires AllDigits(digits)
    ensures AllDigits(Zeros(n) + digits) && Decimal(Zeros(n) + digits) == Decimal(digits)
    decreases n, |digits|
  {
    var t := Zeros(n) + digits;
    if digits != [] {
      var shorter := digits[..|digits| - 1];
      LeadingZeros(n, shorter);
      assert t[..|t| - 1] == Zeros(n) + shorter;
    } else if n > 0 {
      LeadingZeros(n - 1, []);
      assert t[..|t| - 1] == Zeros(n - 1) + [];
    } else {
      assert t == [];
    }
  }

  lemma PaddedInjective(m: nat, n: nat)
    requires Padded(m) == Padded(n)
    ensures m == n
  {
    DigitsValue(m);
    DigitsValue(n);
    LeadingZeros(if |Digits(m)| < 4 then 4 - |Digits(m)| else 0, Digits(m));
    LeadingZeros(if |Digits(n)| < 4 then 4 - |Digits(n)| else 0, Digits(n));
  }

  /** A record of the authorization collection by its kind and by the key the lifecycle protocol knows it by. */
  datatype RecordKey = OfAssignment(a: AssignmentKey) | OfTuple(g: GuardKey) | OfAudit(e: AuditKey)

  /** Where the authorization collection keeps a record. */
  function KeyOf(k: RecordKey): EntityKey {
    match k
    case OfAssignment(a) => EntityKey(RecordPartition(a.location), AssignmentRecordId(a.id))
    case OfTuple(g) => EntityKey(RecordPartition(g.location), TupleRecordId(g.role))
    case OfAudit(e) => EntityKey(RecordPartition(e.location), AuditRecordId(e.id, e.sequence))
  }

  lemma KindsApart()
    ensures BAR !in ASSIGNMENT && BAR !in TUPLE && BAR !in AUDIT
    ensures ASSIGNMENT != TUPLE && TUPLE != AUDIT && AUDIT != ASSIGNMENT
  {
    assert TUPLE[0] != AUDIT[0];
    assert ASSIGNMENT[1] != AUDIT[1];
  }

  /** The part of a record id before its first bar, and the part after it. */
  function KindText(k: RecordKey): Text {
    match k case OfAssignment(_) => ASSIGNMENT case OfTuple(_) => TUPLE case OfAudit(_) => AUDIT
  }

  function IdTail(k: RecordKey): Text {
    match k
    case OfAssignment(a) => EncodeSegment(a.id)
    case OfTuple(g) => EncodeSegment(g.role)
    case OfAudit(e) => EncodeSegment(e.id) + ([BAR] + Padded(e.sequence))
  }

  function PlaceOf(k: RecordKey): Location {
    match k case OfAssignment(a) => a.location case OfTuple(g) => g.location case OfAudit(e) => e.location
  }

  lemma TailsInjective(k: RecordKey, m: RecordKey)
    requires KindText(k) == KindText(m) && IdTail(k) == IdTail(m) && PlaceOf(k) == PlaceOf(m)
    ensures k == m
  {
    KindsApart();
    if k.OfAssignment? {
      SegmentsInjective(k.a.id, m.a.id);
    } else if k.OfTuple? {
      SegmentsInjective(k.g.role, m.g.role);
    } else {
      SplitAt(BAR, EncodeSegment(k.e.id), Padded(k.e.sequence), EncodeSegment(m.e.id), Padded(m.e.sequence));
      SegmentsInjective(k.e.id, m.e.id);
      PaddedInjective(k.e.sequence, m.e.sequence);
    }
  }

  /**
   * Records share a storage key exactly when they are the same record: kinds never collide, and application,
   * principal, scope, id, role and sequence are all told apart.
   */
  lemma RecordKeysInjective(k: RecordKey, m: RecordKey)
    ensures KeyOf(k) == KeyOf(m) <==> k == m
  {
    if KeyOf(k) == KeyOf(m) {
      PartitionsInjective(PlaceOf(k), PlaceOf(m));
      KindsApart();
      SplitAt(BAR, KindText(k), IdTail(k), KindText(m), IdTail(m));
      TailsInjective(k, m);
    }
  }

  function PointerStorageKey(k: PointerKey): EntityKey {
    EntityKey(EncodeSegment(k.applicationId), EncodeSegment(k.id))
  }

  function HolderStorageKey(k: HolderKey): EntityKey {
    EntityKey(RoleHolderPartition(k.applicationId, k.role, k.scope), EncodeSegment(k.id))
  }

  lemma PointerKeysInjective(k: PointerKey, m: PointerKey)
    ensures PointerStorageKey(k) == PointerStorageKey(m) <==> k == m
  {
    SegmentsInjective(k.applicationId, m.applicationId);
    SegmentsInjective(k.id, m.id);
  }

  lemma HolderKeysInjective(k: HolderKey, m: HolderKey)
    ensures HolderStorageKey(k) == HolderStorageKey(m) <==> k == m
  {
    if HolderStorageKey(k) == HolderStorageKey(m) {
      PartitionsInjective(Location(k.applicationId, k.role, k.scope), Location(m.applicationId, m.role, m.scope));
      SegmentsInjective(k.id, m.id);
    }
  }

  function IdentityLinkKey(applicationId: Text, issuer: Text, subject: Text): EntityKey {
    EntityKey(EncodeSegment(applicationId), EncodeSegment(issuer) + ([BAR] + EncodeSegment(subject)))
  }

  lemma IdentityLinkKeysInjective(a: Text, i: Text, s: Text, b: Text, j: Text, t: Text)
    ensures IdentityLinkKey(a, i, s) == IdentityLinkKey(b, j, t) <==> a == b && i == j && s == t
  {
    if IdentityLinkKey(a, i, s) == IdentityLinkKey(b, j, t) {
      SegmentsInjective(a, b);
      SplitAt(BAR, EncodeSegment(i), EncodeSegment(s), EncodeSegment(j), EncodeSegment(t));
      SegmentsInjective(i, j);
      SegmentsInjective(s, t);
    }
  }

  // ---------------------------------------------------------------- fixed-width hexadecimal

  /** `encodeStorageKeyPart` as a function. */
  function KeyPart(s: Text): (t: Text)
    ensures |t| == 4 * |s| && MINUS !in t
  {
    if s == [] then [] else KeyPart(s[..|s| - 1]) + FourHex(s[|s| - 1])
  }

  method EncodeStorageKeyPart(value: Text) returns (encoded: Text)
    ensures encoded == KeyPart(value)
  {
    encoded := [];
    var index := 0;
    while index < |value|
      invariant 0 <= index <= |value| && encoded == KeyPart(value[..index])
    {
      encoded := encoded + FourHex(value[index]);
      assert value[..index + 1][..index] == value[..index];
      index := index + 1;
    }
    assert value[..index] == value;
  }

  lemma {:induction false} KeyPartsInjective(s: Text, t: Text)
    ensures KeyPart(s) == KeyPart(t) <==> s == t
  {
    if KeyPart(s) == KeyPart(t) && s != [] {
      var k := KeyPart(s);
      assert k[..|k| - 4] == KeyPart(s[..|s| - 1]) == KeyPart(t[..|t| - 1]);
      assert k[|k| - 4..] == FourHex(s[|s| - 1]) == FourHex(t[|t| - 1]);
      KeyPartsInjective(s[..|s| - 1], t[..|t| - 1]);
      assert s == s[..|s| - 1] + [s[|s| - 1]] && t == t[..|t| - 1] + [t[|t| - 1]];
    }
  }

  const V1: Text := [0x76, 0x31]

  /** `accessGrantReplayKey`. */
  function ReplayStorageKey(k: ReplayKey): EntityKey {
    EntityKey(Joined(MINUS, V1, KeyPart(k.issuer), KeyPart(k.applicationId) + ([MINUS] + KeyPart(k.audience))), k.jti)
  }

  /** The replay protocol may identify a stored record with its four components. */
  lemma ReplayKeysInjective(k: ReplayKey, m: ReplayKey)
    ensures ReplayStorageKey(k) == ReplayStorageKey(m) <==> k == m
  {
    if ReplayStorageKey(k) == ReplayStorageKey(m) {
      JoinedInjective(MINUS, V1, KeyPart(k.issuer), KeyPart(k.applicationId) + ([MINUS] + KeyPart(k.audience)),
                      V1, KeyPart(m.issuer), KeyPart(m.applicationId) + ([MINUS] + KeyPart(m.audience)));
      SplitAt(MINUS, KeyPart(k.applicationId), KeyPart(k.audience), KeyPart(m.applicationId), KeyPart(m.audience));
      KeyPartsInjective(k.issuer, m.issuer);
      KeyPartsInjective(k.applicationId, m.applicationId);
      KeyPartsInjective(k.audience, m.audience);
    }
  }

  datatype ReservationKey = ReservationKey(issuer: Text, applicationId: Text, jti: Text)

  /** `accessGrantJtiReservationKey`. */
  function ReservationStorageKey(k: ReservationKey): EntityKey {
    EntityKey(Joined(MINUS, V1, KeyPart(k.issuer), KeyPart(k.applicationId)), k.jti)
  }

  lemma ReservationKeysInjective(k: ReservationKey, m: ReservationKey)
    ensures ReservationStorageKey(k) == ReservationStorageKey(m) <==> k == m
  {
    if ReservationStorageKey(k) == ReservationStorageKey(m) {
      JoinedInjective(MINUS, V1, KeyPart(k.issuer), KeyPart(k.applicationId), V1, KeyPart(m.issuer), KeyPart(m.applicationId));
      KeyPartsInjective(k.issuer, m.issuer);
      KeyPartsInjective(k.applicationId, m.applicationId);
    }
  }
}
