/** The access-grant profile: the shape of its names and claims, and the claims a verifier accepts. */
module Profile {
  import opened Prelude
  import opened Json
  import opened TextOrder
  import opened JsonParser
  import opened CanonicalJson
  import opened Replay
  import opened GrantWindow

  // ---------------------------------------------------------------- names

  predicate IsLower(u: Unit) {
    0x61 <= u <= 0x7A
  }

  predicate IsLetterOrDigit(u: Unit) {
    IsLower(u) || 0x41 <= u <= 0x5A || IsDigit(u)
  }

  /** Where `PERMISSION_PATTERN` stands: at the start of a dotted part, inside a word, or behind a hyphen or underscore. */
  datatype PatternState = PartStart | InWord | BehindDash

  predicate PermissionFrom(s: Text, state: PatternState) {
    if s == [] then state.InWord?
    else
      match state
      case PartStart => IsLower(s[0]) && PermissionFrom(s[1..], InWord)
      case BehindDash => (IsLower(s[0]) || IsDigit(s[0])) && PermissionFrom(s[1..], InWord)
      case InWord =>
        if IsLower(s[0]) || IsDigit(s[0]) then PermissionFrom(s[1..], InWord)
        else if s[0] == MINUS || s[0] == 0x5F then PermissionFrom(s[1..], BehindDash)
        else s[0] == DOT && PermissionFrom(s[1..], PartStart)
  }

  predicate IsPermission(s: Text) {
    |s| <= 255 && PermissionFrom(s, PartStart)
  }

  predicate IsSeparator(u: Unit) {
    u == MINUS || u == 0x5F || u == DOT
  }

  /** A lower-case letter or a digit, or a separator with one behind it (behind a dot, a letter). */
  predicate Placed(s: Text, i: nat)
    requires i < |s|
  {
    || IsLower(s[i]) || IsDigit(s[i])
    || (IsSeparator(s[i]) && i + 1 < |s| && (IsLower(s[i + 1]) || (IsDigit(s[i + 1]) && s[i] != DOT)))
  }

  lemma {:induction false} WordsPlaced(s: Text)
    ensures PermissionFrom(s, InWord) <==> forall i: nat | i < |s| :: Placed(s, i)
    decreases |s|
  {
    if s != [] {
      var t := s[1..];
      assert forall i: nat | i < |t| :: Placed(t, i) <==> Placed(s, i + 1);
      assert (forall i: nat | i < |s| :: Placed(s, i)) <==> Placed(s, 0) && forall i: nat | i < |t| :: Placed(t, i) by {
        assert forall i: nat | 0 < i < |s| :: Placed(s, i) <==> Placed(t, i - 1);
      }
      WordsPlaced(t);
      if t != [] {
        var u := t[1..];
        assert forall i: nat | i < |u| :: Placed(u, i) <==> Placed(t, i + 1);
        assert (forall i: nat | i < |t| :: Placed(t, i)) <==> Placed(t, 0) && forall i: nat | i < |u| :: Placed(u, i) by {
          assert forall i: nat | 0 < i < |t| :: Placed(t, i) <==> Placed(u, i - 1);
        }
        WordsPlaced(u);
      }
    }
  }

  /** What the permission pattern matches, position by position. */
  lemma PermissionShape(s: Text)
    ensures IsPermission(s) <==> 0 < |s| <= 255 && IsLower(s[0]) && forall i: nat | i < |s| :: Placed(s, i)
  {
    WordsPlaced(s);
  }

  predicate IsPolicyVersion(s: Text) {
    && 1 <= |s| <= 128 && IsLetterOrDigit(s[0])
    && forall i | 0 <= i < |s| :: IsLetterOrDigit(s[i]) || s[i] == DOT || s[i] == 0x5F || s[i] == MINUS
  }

  const SHA256: Text := Ascii("sha256:")

  predicate IsPolicyDigest(s: Text) {
    |s| == 71 && s[..7] == SHA256 && forall i | 7 <= i < 71 :: IsDigit(s[i]) || 0x61 <= s[i] <= 0x66
  }

  predicate IsKid(s: Text) {
    && 16 <= |s| <= 128 && IsLetterOrDigit(s[0])
    && forall i | 0 <= i < |s| :: IsLetterOrDigit(s[i]) || s[i] == DOT || s[i] == 0x5F || s[i] == COLON || s[i] == MINUS
  }

  function CodePoints(s: Text): nat {
    if s == [] then 0 else if PairFirst(s) then 1 + CodePoints(s[2..]) else 1 + CodePoints(s[1..])
  }

  /** A high surrogate stands at `i` with a low one behind it. */
  predicate PairAt(s: Text, i: nat) {
    i + 1 < |s| && 0xD800 <= s[i] <= 0xDBFF && 0xDC00 <= s[i + 1] <= 0xDFFF
  }

  ghost function PairStarts(s: Text): set<nat> {
    set i: nat | i < |s| && PairAt(s, i)
  }

  ghost function Shifted(a: set<nat>, k: nat): set<nat> {
    set i | i in a :: i + k
  }

  lemma {:induction false} ShiftKeepsSize(a: set<nat>, k: nat)
    ensures |Shifted(a, k)| == |a|
  {
    if a != {} {
      var x :| x in a;
      var rest := Shifted(a - {x}, k);
      ShiftKeepsSize(a - {x}, k);
      assert Shifted(a, k) == rest + {x + k} by {
        assert x + k in Shifted(a, k);
        forall y | y in Shifted(a, k) && y != x + k ensures y in rest {
          assert y - k in a - {x};
        }
      }
      assert x + k !in rest;
    }
  }

  lemma PairsBehind(s: Text, k: nat)
    requires k <= |s| && forall i: nat | 0 < i < k :: !PairAt(s, i)
    ensures PairStarts(s) == (if k > 0 && PairAt(s, 0) then {0} else {}) + Shifted(PairStarts(s[k..]), k)
  {
    var rest := s[k..];
    assert forall i: nat | i < |rest| :: PairAt(rest, i) <==> PairAt(s, i + k);
    hide PairAt;
    forall i | i in PairStarts(s) && i >= k ensures i in Shifted(PairStarts(rest), k) {
      assert i - k in PairStarts(rest);
    }
  }

  /** A text has one unit for each code point, and one more for each surrogate pair. */
  lemma {:induction false} CodePointsCounted(s: Text)
    ensures |s| == CodePoints(s) + |PairStarts(s)|
    decreases |s|
  {
    if s != [] {
      var k := if PairFirst(s) then 2 else 1;
      CodePointsCounted(s[k..]);
      ShiftKeepsSize(PairStarts(s[k..]), k);
      PairsBehind(s, k);
      hide PairStarts, Shifted;
      assert 0 !in Shifted(PairStarts(s[k..]), k) by {
        ShiftedAbove(PairStarts(s[k..]), k);
      }
    }
  }

  lemma ShiftedAbove(a: set<nat>, k: nat)
    ensures forall i | i in Shifted(a, k) :: i >= k
  {
  }

  predicate IsBoundedIdentity(s: Text) {
    && s != [] && CodePoints(s) <= 255 && !IsWhiteSpace(s[0]) && !IsWhiteSpace(s[|s| - 1])
    && forall i | 0 <= i < |s| :: 0x20 <= s[i] && s[i] != 0x7F
  }

  // ---------------------------------------------------------------- base64url of 32 bytes

  predicate IsBase64UrlUnit(u: Unit) {
    IsLetterOrDigit(u) || u == MINUS || u == 0x5F
  }

  /** The six bits a unit stands for. */
  function Sextet(u: Unit): (n: nat)
    requires IsBase64UrlUnit(u)
    ensures n < 64
  {
    if 0x41 <= u <= 0x5A then u - 0x41
    else if 0x61 <= u <= 0x7A then u - 0x61 + 26
    else if IsDigit(u) then u - 0x30 + 52
    else if u == MINUS then 62
    else 63
  }

  function SextetUnit(n: nat): (u: Unit)
    requires n < 64
    ensures IsBase64UrlUnit(u) && Sextet(u) == n
  {
    if n < 26 then 0x41 + n
    else if n < 52 then 0x61 + n - 26
    else if n < 62 then 0x30 + n - 52
    else if n == 62 then MINUS
    else 0x5F
  }

  /** 43 units of which the last carries no bits beyond the 32nd byte. */
  predicate IsCanonicalBase64Url32(s: Text) {
    |s| == 43 && (forall i | 0 <= i < 43 :: IsBase64UrlUnit(s[i])) && Sextet(s[42]) % 4 == 0
  }

  type Byte = n: int | 0 <= n < 256

  function Base64Url(b: seq<Byte>): Text {
    if b == [] then []
    else if |b| == 1 then [SextetUnit(b[0] / 4), SextetUnit(b[0] % 4 * 16)]
    else if |b| == 2 then [SextetUnit(b[0] / 4), SextetUnit(b[0] % 4 * 16 + b[1] / 16), SextetUnit(b[1] % 16 * 4)]
    else
      [SextetUnit(b[0] / 4), SextetUnit(b[0] % 4 * 16 + b[1] / 16), SextetUnit(b[1] % 16 * 4 + b[2] / 64), SextetUnit(b[2] % 64)]
      + Base64Url(b[3..])
  }

  lemma {:induction false} Base64UrlShape(b: seq<Byte>)
    requires |b| % 3 == 2
    ensures var s := Base64Url(b);
            |s| == |b| / 3 * 4 + 3 && (forall i | 0 <= i < |s| :: IsBase64UrlUnit(s[i])) && Sextet(s[|s| - 1]) % 4 == 0
  {
    if |b| > 2 {
      Base64UrlShape(b[3..]);
      var tail := Base64Url(b[3..]);
      var s := Base64Url(b);
      assert s[4..] == tail;
      assert s[|s| - 1] == tail[|tail| - 1];
      forall i | 0 <= i < |s| ensures IsBase64UrlUnit(s[i]) {
        if i >= 4 {
          assert s[i] == tail[i - 4];
        }
      }
    }
  }

  /** Any 32 random bytes make an identifier the profile accepts. */
  lemma RandomIdentifierIsCanonical(random: seq<Byte>)
    requires |random| == 32
    ensures IsCanonicalBase64Url32(Base64Url(random))
  {
    Base64UrlShape(random);
  }

  /** Distinct random bytes make distinct identifiers. */
  lemma {:induction false} Base64UrlInjective(a: seq<Byte>, b: seq<Byte>)
    requires |a| == |b| && Base64Url(a) == Base64Url(b)
    ensures a == b
  {
    hide SextetUnit, Sextet;
    if |a| >= 3 {
      var s, t := Base64Url(a), Base64Url(b);
      assert s[4..] == Base64Url(a[3..]) && t[4..] == Base64Url(b[3..]);
      Base64UrlInjective(a[3..], b[3..]);
      assert s[0] == t[0] && s[1] == t[1] && s[2] == t[2] && s[3] == t[3];
      SameThree(a[0], a[1], a[2], b[0], b[1], b[2]);
      assert a == [a[0], a[1], a[2]] + a[3..] && b == [b[0], b[1], b[2]] + b[3..];
    } else if |a| == 2 {
      var s, t := Base64Url(a), Base64Url(b);
      assert s[0] == t[0] && s[1] == t[1] && s[2] == t[2];
      SameTwo(a[0], a[1], b[0], b[1]);
    } else if |a| == 1 {
      var s, t := Base64Url(a), Base64Url(b);
      assert s[0] == t[0] && s[1] == t[1];
      SameOne(a[0], b[0]);
    }
  }

  lemma SameOne(a: Byte, x: Byte)
    requires SextetUnit(a / 4) == SextetUnit(x / 4) && SextetUnit(a % 4 * 16) == SextetUnit(x % 4 * 16)
    ensures a == x
  {
    assert Sextet(SextetUnit(a / 4)) == Sextet(SextetUnit(x / 4));
    assert Sextet(SextetUnit(a % 4 * 16)) == Sextet(SextetUnit(x % 4 * 16));
  }

  lemma SameTwo(a: Byte, b: Byte, x: Byte, y: Byte)
    requires SextetUnit(a / 4) == SextetUnit(x / 4)
    requires SextetUnit(a % 4 * 16 + b / 16) == SextetUnit(x % 4 * 16 + y / 16)
    requires SextetUnit(b % 16 * 4) == SextetUnit(y % 16 * 4)
    ensures a == x && b == y
  {
    assert Sextet(SextetUnit(a / 4)) == Sextet(SextetUnit(x / 4));
    assert Sextet(SextetUnit(a % 4 * 16 + b / 16)) == Sextet(SextetUnit(x % 4 * 16 + y / 16));
    assert Sextet(SextetUnit(b % 16 * 4)) == Sextet(SextetUnit(y % 16 * 4));
  }

  lemma SameThree(a: Byte, b: Byte, c: Byte, x: Byte, y: Byte, z: Byte)
    requires SextetUnit(a / 4) == SextetUnit(x / 4)
    requires SextetUnit(a % 4 * 16 + b / 16) == SextetUnit(x % 4 * 16 + y / 16)
    requires SextetUnit(b % 16 * 4 + c / 64) == SextetUnit(y % 16 * 4 + z / 64)
    requires SextetUnit(c % 64) == SextetUnit(z % 64)
    ensures a == x && b == y && c == z
  {
    assert Sextet(SextetUnit(a / 4)) == Sextet(SextetUnit(x / 4));
    assert Sextet(SextetUnit(a % 4 * 16 + b / 16)) == Sextet(SextetUnit(x % 4 * 16 + y / 16));
    assert Sextet(SextetUnit(b % 16 * 4 + c / 64)) == Sextet(SextetUnit(y % 16 * 4 + z / 64));
    assert Sextet(SextetUnit(c % 64)) == Sextet(SextetUnit(z % 64));
  }

  // ---------------------------------------------------------------- permissions

  /** `isCanonicalPermissions`. */
  predicate IsCanonicalPermissions(ps: seq<Text>) {
    && ps != []
    && forall i | 0 <= i < |ps| :: IsPermission(ps[i]) && (i == 0 || Less(ps[i - 1], ps[i]))
  }

  lemma {:induction false} AdjacentOrder(ps: seq<Text>, i: nat, j: nat)
    requires IsCanonicalPermissions(ps) && i < j < |ps|
    ensures Less(ps[i], ps[j])
    decreases j
  {
    if i + 1 < j {
      AdjacentOrder(ps, i, j - 1);
      LessTransitive(ps[i], ps[j - 1], ps[j]);
    }
  }

  /** Checking neighbours is enough: the canonical lists are the sorted duplicate-free lists of permissions, but for the empty one. */
  lemma CanonicalPermissionsAreSorted(ps: seq<Text>)
    ensures IsCanonicalPermissions(ps) <==> ps != [] && StrictlySorted(ps) && forall i | 0 <= i < |ps| :: IsPermission(ps[i])
    ensures StrictlySorted(ps) <==> forall i, j | 0 <= i < j < |ps| :: Precedes(ps[i], ps[j])
  {
    forall i, j | 0 <= i < j < |ps| ensures Less(ps[i], ps[j]) <==> Precedes(ps[i], ps[j]) {
      LessByPosition(ps[i], ps[j]);
    }
    if IsCanonicalPermissions(ps) {
      forall i, j | 0 <= i < j < |ps| ensures Less(ps[i], ps[j]) {
        AdjacentOrder(ps, i, j);
      }
    }
  }

  /** `canonicalPermissions`: the distinct values in order, or nothing when one of them is malformed. */
  ghost function CanonicalPermissions(values: seq<Text>): Option<seq<Text>> {
    if forall i | 0 <= i < |values| :: IsPermission(values[i]) then Some(Sorted(Elements(values))) else None
  }

  lemma CanonicalPermissionsResult(values: seq<Text>)
    ensures CanonicalPermissions(values).Some? ==>
              var ps := CanonicalPermissions(values).value;
              && Elements(ps) == Elements(values) && StrictlySorted(ps)
              && (ps == [] <==> values == []) && (ps != [] ==> IsCanonicalPermissions(ps))
  {
    if CanonicalPermissions(values).Some? {
      var ps := CanonicalPermissions(values).value;
      forall i | 0 <= i < |ps| ensures IsPermission(ps[i]) {
        assert ps[i] in Elements(values);
      }
      assert values != [] ==> values[0] in Elements(values);
      assert ps != [] ==> ps[0] in Elements(ps);
      CanonicalPermissionsAreSorted(ps);
    }
  }

  // ---------------------------------------------------------------- claims

  datatype GrantClaims = GrantClaims(
    iss: Text, applicationId: Text, aud: Text, sub: Text, exp: int, iat: int, jti: Text,
    policyVersion: Text, policyDigest: Text, permissions: seq<Text>)

  /** The checks `parseCompactGrant` makes of the claims. */
  predicate ClaimsValid(c: GrantClaims) {
    && c.iss != [] && IsBoundedIdentity(c.applicationId) && c.aud != [] && IsBoundedIdentity(c.sub)
    && IsNumericDate(c.exp) && IsNumericDate(c.iat) && 0 < c.exp - c.iat <= MAX_LIFETIME
    && IsCanonicalBase64Url32(c.jti)
    && IsPolicyVersion(c.policyVersion) && IsPolicyDigest(c.policyDigest) && IsCanonicalPermissions(c.permissions)
  }

  const ISS: Text := Ascii("iss")
  const APPLICATION_ID: Text := Ascii("application_id")
  const AUD: Text := Ascii("aud")
  const SUB: Text := Ascii("sub")
  const EXP: Text := Ascii("exp")
  const IAT: Text := Ascii("iat")
  const JTI: Text := Ascii("jti")
  const PROFILE_VERSION: Text := Ascii("profile_version")
  const POLICY_VERSION: Text := Ascii("policy_version")
  const POLICY_DIGEST: Text := Ascii("policy_digest")
  const PERMISSIONS: Text := Ascii("permissions")

  /** `CLAIM_FIELDS`, also the order in which the issuer writes them. */
  const CLAIM_FIELDS: seq<Text> :=
    [ISS, APPLICATION_ID, AUD, SUB, EXP, IAT, JTI, PROFILE_VERSION, POLICY_VERSION, POLICY_DIGEST, PERMISSIONS]

  lemma FieldCodes()
    ensures |ISS| == 3 && |APPLICATION_ID| == 14 && |AUD| == 3 && |SUB| == 3 && |EXP| == 3 && |IAT| == 3 && |JTI| == 3
    ensures |PROFILE_VERSION| == 15 && |POLICY_VERSION| == 14 && |POLICY_DIGEST| == 13 && |PERMISSIONS| == 11
    ensures ISS[0] == 0x69 && ISS[1] == 0x73 && AUD[0] == 0x61 && AUD[1] == 0x75 && SUB[0] == 0x73 && SUB[1] == 0x75
    ensures EXP[0] == 0x65 && EXP[1] == 0x78 && IAT[0] == 0x69 && IAT[1] == 0x61 && JTI[0] == 0x6A && JTI[1] == 0x74
    ensures APPLICATION_ID[0] == 0x61 && POLICY_VERSION[0] == 0x70
  {
  }

  lemma FieldsDistinct()
    ensures NoRepeats(CLAIM_FIELDS)
  {
    FieldCodes();
  }

  /** The payload record the issuer signs. */
  function Payload(c: GrantClaims): map<Text, Value> {
    map[
      ISS := Str(c.iss), APPLICATION_ID := Str(c.applicationId), AUD := Str(c.aud), SUB := Str(c.sub),
      EXP := Num(Integer(c.exp)), IAT := Num(Integer(c.iat)), JTI := Str(c.jti), PROFILE_VERSION := Num(Integer(1)),
      POLICY_VERSION := Str(c.policyVersion), POLICY_DIGEST := Str(c.policyDigest), PERMISSIONS := Arr(Strings(c.permissions))
    ]
  }

  function TextOf(m: map<Text, Value>, name: Text): Option<Text> {
    if name in m && m[name].Str? then Some(m[name].text) else None
  }

  function IntegerOf(m: map<Text, Value>, name: Text): Option<int> {
    if name in m && m[name].Num? && m[name].number.Integer? then Some(m[name].number.n) else None
  }

  function TextsOf(m: map<Text, Value>, name: Text): Option<seq<Text>> {
    if name in m && m[name].Arr? && forall i | 0 <= i < |m[name].items| :: m[name].items[i].Str? then
      Some(seq(|m[name].items|, i requires 0 <= i < |m[name].items| => m[name].items[i].text))
    else None
  }

  /** `parseCompactGrant` on a parsed payload: exactly the profile's fields, each well formed. */
  function ParseClaims(v: Value): Option<GrantClaims> {
    if !v.Obj? || v.members.Keys != (set name | name in CLAIM_FIELDS) then None
    else
      var m := v.members;
      var iss :- TextOf(m, ISS);
      var applicationId :- TextOf(m, APPLICATION_ID);
      var aud :- TextOf(m, AUD);
      var sub :- TextOf(m, SUB);
      var exp :- IntegerOf(m, EXP);
      var iat :- IntegerOf(m, IAT);
      var jti :- TextOf(m, JTI);
      var profileVersion :- IntegerOf(m, PROFILE_VERSION);
      var policyVersion :- TextOf(m, POLICY_VERSION);
      var policyDigest :- TextOf(m, POLICY_DIGEST);
      var permissions :- TextsOf(m, PERMISSIONS);
      var c := GrantClaims(iss, applicationId, aud, sub, exp, iat, jti, policyVersion, policyDigest, permissions);
      if profileVersion == 1 && ClaimsValid(c) then Some(c) else None
  }

  lemma PayloadFields(c: GrantClaims)
    ensures Payload(c).Keys == set name | name in CLAIM_FIELDS
  {
    assert forall name :: name in CLAIM_FIELDS <==> name in Payload(c);
  }

  lemma PayloadCells(c: GrantClaims)
    ensures var m := Payload(c);
            && m.Keys == (set name | name in CLAIM_FIELDS)
            && m[ISS] == Str(c.iss) && m[APPLICATION_ID] == Str(c.applicationId) && m[AUD] == Str(c.aud) && m[SUB] == Str(c.sub)
            && m[EXP] == Num(Integer(c.exp)) && m[IAT] == Num(Integer(c.iat)) && m[JTI] == Str(c.jti)
            && m[PROFILE_VERSION] == Num(Integer(1))
            && m[POLICY_VERSION] == Str(c.policyVersion) && m[POLICY_DIGEST] == Str(c.policyDigest)
            && m[PERMISSIONS] == Arr(Strings(c.permissions))
  {
    hide *;
    PayloadFields(c);
    PayloadIdentities(c);
    PayloadDates(c);
    PayloadPolicy(c);
  }

  lemma PayloadIdentities(c: GrantClaims)
    ensures var m := Payload(c);
            && m.Keys == m.Keys + {ISS, APPLICATION_ID, AUD, SUB}
            && m[ISS] == Str(c.iss) && m[APPLICATION_ID] == Str(c.applicationId) && m[AUD] == Str(c.aud) && m[SUB] == Str(c.sub)
  {
    hide Strings, Ascii;
    FieldCodes();
  }

  lemma PayloadDates(c: GrantClaims)
    ensures var m := Payload(c);
            && m.Keys == m.Keys + {EXP, IAT, JTI, PROFILE_VERSION}
            && m[EXP] == Num(Integer(c.exp)) && m[IAT] == Num(Integer(c.iat)) && m[JTI] == Str(c.jti)
            && m[PROFILE_VERSION] == Num(Integer(1))
  {
    hide Strings, Ascii;
    FieldCodes();
  }

  lemma PayloadPolicy(c: GrantClaims)
    ensures var m := Payload(c);
            && m.Keys == m.Keys + {POLICY_VERSION, POLICY_DIGEST, PERMISSIONS}
            && m[POLICY_VERSION] == Str(c.policyVersion) && m[POLICY_DIGEST] == Str(c.policyDigest)
            && m[PERMISSIONS] == Arr(Strings(c.permissions))
  {
    hide Strings, Ascii;
    FieldCodes();
  }

  /** A stored map is the payload of `c` exactly when it has the profile's fields with the values of `c`. */
  lemma PayloadExactly(m: map<Text, Value>, c: GrantClaims)
    ensures m == Payload(c) <==>
            && m.Keys == (set name | name in CLAIM_FIELDS)
            && m[ISS] == Str(c.iss) && m[APPLICATION_ID] == Str(c.applicationId) && m[AUD] == Str(c.aud) && m[SUB] == Str(c.sub)
            && m[EXP] == Num(Integer(c.exp)) && m[IAT] == Num(Integer(c.iat)) && m[JTI] == Str(c.jti)
            && m[PROFILE_VERSION] == Num(Integer(1))
            && m[POLICY_VERSION] == Str(c.policyVersion) && m[POLICY_DIGEST] == Str(c.policyDigest)
            && m[PERMISSIONS] == Arr(Strings(c.permissions))
  {
    PayloadCells(c);
    var p := Payload(c);
    hide Payload, Strings;
    if m.Keys == p.Keys && (forall name | name in CLAIM_FIELDS :: m[name] == p[name]) {
      assert m == p;
    }
  }

  lemma TextsExactly(m: map<Text, Value>, name: Text, ts: seq<Text>)
    ensures TextsOf(m, name) == Some(ts) <==> name in m && m[name] == Arr(Strings(ts))
  {
    if TextsOf(m, name) == Some(ts) {
      assert m[name].items == Strings(ts);
    }
    if name in m && m[name] == Arr(Strings(ts)) {
      assert TextsOf(m, name).value == ts;
    }
  }

  lemma ParsedExactly(v: Value, c: GrantClaims)
    ensures ParseClaims(v) == Some(c) <==>
            && v.Obj? && v.members.Keys == (set name | name in CLAIM_FIELDS)
            && TextOf(v.members, ISS) == Some(c.iss) && TextOf(v.members, APPLICATION_ID) == Some(c.applicationId)
            && TextOf(v.members, AUD) == Some(c.aud) && TextOf(v.members, SUB) == Some(c.sub)
            && IntegerOf(v.members, EXP) == Some(c.exp) && IntegerOf(v.members, IAT) == Some(c.iat)
            && TextOf(v.members, JTI) == Some(c.jti) && IntegerOf(v.members, PROFILE_VERSION) == Some(1)
            && TextOf(v.members, POLICY_VERSION) == Some(c.policyVersion)
            && TextOf(v.members, POLICY_DIGEST) == Some(c.policyDigest)
            && TextsOf(v.members, PERMISSIONS) == Some(c.permissions) && ClaimsValid(c)
  {
    hide TextOf, IntegerOf, TextsOf, ClaimsValid;
  }

  /** The verifier reads claims `c` from a payload exactly when they are valid and the payload is theirs, field for field. */
  lemma ClaimsAreReadExactly(v: Value, c: GrantClaims)
    ensures ParseClaims(v) == Some(c) <==> ClaimsValid(c) && v == Obj(Payload(c))
  {
    ParsedExactly(v, c);
    hide ParseClaims, ClaimsValid;
    if v.Obj? {
      PayloadExactly(v.members, c);
      TextsExactly(v.members, PERMISSIONS, c.permissions);
      hide Payload, TextsOf, Strings;
      assert ISS in CLAIM_FIELDS && APPLICATION_ID in CLAIM_FIELDS && AUD in CLAIM_FIELDS && SUB in CLAIM_FIELDS;
      assert EXP in CLAIM_FIELDS && IAT in CLAIM_FIELDS && JTI in CLAIM_FIELDS && PROFILE_VERSION in CLAIM_FIELDS;
      assert POLICY_VERSION in CLAIM_FIELDS && POLICY_DIGEST in CLAIM_FIELDS && PERMISSIONS in CLAIM_FIELDS;
    }
  }

  // ---------------------------------------------------------------- the text that is signed

  lemma PayloadLists(c: GrantClaims)
    ensures Lists(Obj(Payload(c)), CLAIM_FIELDS)
  {
    PayloadFields(c);
    FieldsDistinct();
    hide Payload, NoRepeats;
    assert Elements(CLAIM_FIELDS) == set name | name in CLAIM_FIELDS;
  }

  lemma PayloadIntegral(c: GrantClaims)
    requires IsNumericDate(c.exp) && IsNumericDate(c.iat)
    ensures Integral(Obj(Payload(c)))
  {
    hide Payload, Integral, Strings, Ascii;
    PayloadCells(c);
    StringsIntegral(c.permissions);
    var m := Payload(c);
    forall name | name in m ensures Integral(m[name]) {
      assert name in CLAIM_FIELDS;
      CellsIntegral(m[name]);
    }
    MembersIntegral(m);
  }

  lemma CellsIntegral(v: Value)
    ensures v.Str? || (v.Num? && v.number.Integer? && 0 <= v.number.n <= MAX_SAFE_INTEGER) ==> Integral(v)
  {
  }

  lemma MembersIntegral(m: map<Text, Value>)
    requires forall name | name in m :: Integral(m[name])
    ensures Integral(Obj(m))
  {
  }

  lemma PayloadPrintable(c: GrantClaims)
    requires ClaimsValid(c)
    ensures Integral(Obj(Payload(c))) && Lists(Obj(Payload(c)), CLAIM_FIELDS)
  {
    PayloadLists(c);
    PayloadIntegral(c);
  }

  /** `JSON.stringify(payload)`. */
  ghost function PayloadText(c: GrantClaims): Text
    requires ClaimsValid(c)
  {
    PayloadPrintable(c);
    Stringified(Obj(Payload(c)), CLAIM_FIELDS)
  }

  /**
   * The claims a verifier reads from a payload are of a grant of one to thirty seconds with dates that are positive safe
   * integers, name their issuer and audience, and list permissions, each of one once and in order; and such claims, in
   * the profile's names, are read.
   */
  lemma ReadClaimsAreBounded(c: GrantClaims)
    ensures ParseClaims(Obj(Payload(c))) == Some(c) <==>
            && c.iss != [] && c.aud != [] && IsBoundedIdentity(c.applicationId) && IsBoundedIdentity(c.sub)
            && 0 < c.iat && c.iat + 1 <= c.exp <= c.iat + 30 && c.exp <= 0x1F_FFFF_FFFF_FFFF
            && IsCanonicalBase64Url32(c.jti) && IsPolicyVersion(c.policyVersion) && IsPolicyDigest(c.policyDigest)
            && c.permissions != [] && (forall i | 0 <= i < |c.permissions| :: IsPermission(c.permissions[i]))
            && (forall i, j | 0 <= i < j < |c.permissions| :: Precedes(c.permissions[i], c.permissions[j]))
  {
    ClaimsAreReadExactly(Obj(Payload(c)), c);
    CanonicalPermissionsAreSorted(c.permissions);
    hide Payload, ParseClaims, IsBoundedIdentity, IsCanonicalBase64Url32, IsPolicyVersion, IsPolicyDigest, IsPermission;
    hide StrictlySorted, Precedes, IsCanonicalPermissions;
  }

  /** What is signed parses strictly, and to the same claims. */
  lemma PayloadIsReadBack(c: GrantClaims)
    requires ClaimsValid(c)
    ensures ParseValue(PayloadText(c)).Ok? && ParseClaims(ParseValue(PayloadText(c)).value) == Some(c)
  {
    PayloadPrintable(c);
    ParsingUndoesStringifying(Obj(Payload(c)), CLAIM_FIELDS);
    ClaimsAreReadExactly(Obj(Payload(c)), c);
    hide Payload, ClaimsValid, ParseClaims, ParseValue, Integral, Lists, Stringified;
  }

  /** Distinct claims are never signed as the same text. */
  lemma PayloadsIdentifyClaims(c: GrantClaims, d: GrantClaims)
    requires ClaimsValid(c) && ClaimsValid(d)
    ensures PayloadText(c) == PayloadText(d) <==> c == d
  {
    PayloadIsReadBack(c);
    PayloadIsReadBack(d);
    hide *;
  }
}
