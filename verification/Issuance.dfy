/** Any number of issuers sharing one reservation store, their calls of `issue` interleaved at every wait. */
module Issuance {
  import opened Prelude
  import opened TextOrder
  import opened JsonParser
  import Replay
  import opened GrantWindow
  import opened StorageKeys
  import opened Profile
  import opened Issuer

  /** Where a call stands: an identifier drawn, reserved, the payload signed, the grant handed out. */
  datatype Pc = Drawn(jti: Text) | Reserved(jti: Text) | Signed(claims: GrantClaims) | Issued(claims: GrantClaims) | Refused

  datatype IssueCall = IssueCall(config: Configuration, source: BoundSource, input: Input, pc: Pc)

  datatype World = World(reserved: set<ReservationKey>, calls: map<nat, IssueCall>)

  datatype Action =
    | Draw(id: nat, config: Configuration, source: BoundSource, input: Input, wall: real, monotonic: real, random: seq<Byte>)
    | Reserve(id: nat)
    | LoseReservation(id: nat, committed: bool)  // the backend reports an outage, having committed or not
    | Sign(id: nat, wall: real, monotonic: real)
    | HandOut(id: nat, wall: real, monotonic: real, compactLength: nat)
    | GiveUp(id: nat)                            // a clock fails, or the process dies

  ghost predicate Enabled(w: World, a: Action) {
    match a
    case Draw(id, config, source, input, wall, monotonic, random) =>
      && id !in w.calls && Configured(config) && SourceAccepted(config, source) && Authorized(config, source, input)
      && ReadGrantWindow(wall, monotonic, source.deadline).Some? && |random| == 32
    case Reserve(id) => id in w.calls && w.calls[id].pc.Drawn?
    case LoseReservation(id, _) => id in w.calls && w.calls[id].pc.Drawn?
    case Sign(id, _, _) => id in w.calls && w.calls[id].pc.Reserved?
    case HandOut(id, _, _, _) => id in w.calls && w.calls[id].pc.Signed?
    case GiveUp(id) => id in w.calls && !w.calls[id].pc.Issued?
  }

  function Move(w: World, id: nat, pc: Pc): World
    requires id in w.calls
  {
    w.(calls := w.calls[id := w.calls[id].(pc := pc)])
  }

  function KeyFor(c: IssueCall, jti: Text): ReservationKey {
    ReservationKey(c.config.issuer, c.config.applicationId, jti)
  }

  ghost function Apply(w: World, a: Action): World
    requires Enabled(w, a)
  {
    match a
    case Draw(id, config, source, input, _, _, random) =>
      w.(calls := w.calls[id := IssueCall(config, source, input, Drawn(Base64Url(random)))])
    case Reserve(id) =>
      var c := w.calls[id];
      var key := KeyFor(c, c.pc.jti);
      Move(w, id, if key in w.reserved then Refused else Reserved(c.pc.jti)).(reserved := w.reserved + {key})
    case LoseReservation(id, committed) =>
      var c := w.calls[id];
      Move(w, id, Refused).(reserved := if committed then w.reserved + {KeyFor(c, c.pc.jti)} else w.reserved)
    case Sign(id, wall, monotonic) =>
      var c := w.calls[id];
      var window := ReadGrantWindow(wall, monotonic, c.source.deadline);
      Move(w, id, if window.None? then Refused else Signed(ClaimsOf(c.config, c.source, c.input, c.pc.jti, window.value)))
    case HandOut(id, wall, monotonic, compactLength) =>
      var c := w.calls[id];
      var window := ReadGrantWindow(wall, monotonic, c.source.deadline);
      Move(w, id, if compactLength > MAX_COMPACT_LENGTH || window.None? || window.value.iat >= c.pc.claims.exp
                  then Refused else Issued(c.pc.claims))
    case GiveUp(id) => Move(w, id, Refused)
  }

  /** The world after `actions`, if each of them was possible when it happened. */
  ghost function After(actions: seq<Action>): Option<World> {
    if actions == [] then Some(World({}, map[]))
    else
      match After(actions[..|actions| - 1])
      case None => None
      case Some(w) => if Enabled(w, actions[|actions| - 1]) then Some(Apply(w, actions[|actions| - 1])) else None
  }

  /** The identifier a call has reserved. */
  function Holding(c: IssueCall): Option<ReservationKey> {
    match c.pc
    case Reserved(jti) => Some(KeyFor(c, jti))
    case Signed(claims) => Some(ReservationKey(claims.iss, claims.applicationId, claims.jti))
    case Issued(claims) => Some(ReservationKey(claims.iss, claims.applicationId, claims.jti))
    case _ => None
  }

  ghost predicate HoldingsApart(w: World) {
    && (forall id | id in w.calls && Holding(w.calls[id]).Some? :: Holding(w.calls[id]).value in w.reserved)
    && (forall a, b | a in w.calls && b in w.calls && a != b && Holding(w.calls[a]).Some? :: Holding(w.calls[a]) != Holding(w.calls[b]))
  }

  /** The claims a call has signed are valid, and confined to what its source and its audience allow. */
  ghost predicate Proper(c: IssueCall, claims: GrantClaims) {
    && ClaimsValid(claims) && claims.iss == c.config.issuer && claims.applicationId == c.config.applicationId
    && claims.aud in c.config.audiences
    && StrictlySorted(claims.permissions) && claims.permissions != []
    && forall p | p in claims.permissions :: p in c.source.permissions && p in c.config.audiences[claims.aud]
  }

  ghost predicate CallProper(c: IssueCall) {
    match c.pc
    case Drawn(jti) => Configured(c.config) && SourceAccepted(c.config, c.source) && Authorized(c.config, c.source, c.input)
                       && IsCanonicalBase64Url32(jti)
    case Reserved(jti) => Configured(c.config) && SourceAccepted(c.config, c.source) && Authorized(c.config, c.source, c.input)
                          && IsCanonicalBase64Url32(jti)
    case Signed(claims) => Proper(c, claims)
    case Issued(claims) => Proper(c, claims)
    case Refused => true
  }

  lemma SignedIsProper(c: IssueCall, window: Window)
    requires c.pc.Reserved? && CallProper(c)
    requires Replay.IsNumericDate(window.iat) && Replay.IsNumericDate(window.exp) && 1 <= window.exp - window.iat <= MAX_LIFETIME
    ensures Proper(c, ClaimsOf(c.config, c.source, c.input, c.pc.jti, window))
  {
    RequestedPermissions(c.input.requested);
    var ps := Sorted(Elements(c.input.requested));
    forall p | p in ps ensures p in c.source.permissions && p in c.config.audiences[c.input.audience] {
      assert p in Elements(ps);
      assert p in c.input.requested;
    }
    hide IsBoundedIdentity, IsPermission, IsCanonicalPermissions, IsCanonicalBase64Url32, IsPolicyVersion, IsPolicyDigest;
    assert ps != [] by {
      assert c.input.requested[0] in Elements(c.input.requested);
      NoElements(ps);
    }
  }

  lemma StepKeepsCallsProper(w: World, a: Action)
    requires Enabled(w, a) && forall id | id in w.calls :: CallProper(w.calls[id])
    ensures forall id | id in Apply(w, a).calls :: CallProper(Apply(w, a).calls[id])
  {
    if a.Draw? {
      RandomIdentifierIsCanonical(a.random);
    }
    if a.Sign? {
      var c := w.calls[a.id];
      var window := ReadGrantWindow(a.wall, a.monotonic, c.source.deadline);
      if window.Some? {
        SignedIsProper(c, window.value);
        hide ClaimsOf;
        assert Apply(w, a).calls[a.id].pc.Signed?;
      }
    }
    hide ClaimsValid, IsCanonicalBase64Url32, SourceAccepted, Authorized, Configured, ReadGrantWindow, StrictlySorted;
  }

  lemma StepKeepsHoldingsApart(w: World, a: Action)
    requires Enabled(w, a) && HoldingsApart(w)
    ensures HoldingsApart(Apply(w, a))
  {
    var v := Apply(w, a);
    hide Enabled, Apply, Holding;
    forall id | id in v.calls && Holding(v.calls[id]).Some? ensures Holding(v.calls[id]).value in v.reserved {
      HeldBefore(w, a, id);
    }
    forall x, y | x in v.calls && y in v.calls && x != y && Holding(v.calls[x]).Some?
      ensures Holding(v.calls[x]) != Holding(v.calls[y])
    {
      HeldBefore(w, a, x);
      HeldBefore(w, a, y);
    }
  }

  /** What a call holds it held before, or it reserves it now, free. */
  lemma HeldBefore(w: World, a: Action, id: nat)
    requires Enabled(w, a)
    ensures var v := Apply(w, a);
            && w.reserved <= v.reserved
            && (id in v.calls && Holding(v.calls[id]).Some? ==>
                  && id in w.calls
                  && (Holding(w.calls[id]) == Holding(v.calls[id])
                      || (a == Reserve(id) && Holding(v.calls[id]).value !in w.reserved && Holding(v.calls[id]).value in v.reserved)))
  {
    hide SourceAccepted, Authorized, Configured, ReadGrantWindow, Base64Url, Sorted, Elements;
  }

  lemma {:induction false} RunKeepsInv(actions: seq<Action>)
    requires After(actions).Some?
    ensures var w := After(actions).value; HoldingsApart(w) && forall id | id in w.calls :: CallProper(w.calls[id])
  {
    if actions != [] {
      var before := actions[..|actions| - 1];
      RunKeepsInv(before);
      var w := After(before).value;
      var a := actions[|actions| - 1];
      hide HoldingsApart, CallProper, Apply, Enabled;
      StepKeepsCallsProper(w, a);
      StepKeepsHoldingsApart(w, a);
    }
  }

  lemma NextStep(actions: seq<Action>, a: Action)
    requires After(actions).Some? && Enabled(After(actions).value, a)
    ensures After(actions + [a]) == Some(Apply(After(actions).value, a))
  {
    assert (actions + [a])[..|actions|] == actions;
  }

  /** A reservation is refused exactly for an identifier that is reserved already under the issuer and application. */
  lemma ReserveDecides(actions: seq<Action>, id: nat)
    requires After(actions).Some?
    requires var w := After(actions).value; id in w.calls && w.calls[id].pc.Drawn?
    ensures After(actions + [Reserve(id)]).Some?
    ensures var w, v := After(actions).value, After(actions + [Reserve(id)]).value;
            var c := w.calls[id]; var key := ReservationKey(c.config.issuer, c.config.applicationId, c.pc.jti);
            && v.reserved == w.reserved + {key} && id in v.calls
            && v.calls[id] == c.(pc := if key in w.reserved then Refused else Reserved(c.pc.jti))
  {
    NextStep(actions, Reserve(id));
    hide After, Configured, SourceAccepted, Authorized, ReadGrantWindow;
  }

  /** Action `k` reserved the key: by an answered reservation, or by one whose answer was lost after it had committed. */
  ghost predicate ReservedAt(actions: seq<Action>, k: nat, key: ReservationKey) {
    k < |actions| && After(actions[..k]).Some? && Reserves(After(actions[..k]).value, actions[k], key)
  }

  predicate Reserves(w: World, a: Action, key: ReservationKey) {
    && (a.Reserve? || (a.LoseReservation? && a.committed)) && a.id in w.calls && w.calls[a.id].pc.Drawn?
    && ReservationKey(w.calls[a.id].config.issuer, w.calls[a.id].config.applicationId, w.calls[a.id].pc.jti) == key
  }

  /** An identifier is reserved exactly when some call has reserved it. */
  lemma {:induction false} ReservedHasCause(actions: seq<Action>, key: ReservationKey)
    requires After(actions).Some?
    ensures key in After(actions).value.reserved <==> exists k: nat :: ReservedAt(actions, k, key)
  {
    if actions != [] {
      var before := actions[..|actions| - 1];
      var a := actions[|actions| - 1];
      ReservedHasCause(before, key);
      hide Apply, Enabled, Reserves;
      ReservesOne(After(before).value, a, key);
      hide After;
      if exists k: nat :: ReservedAt(before, k, key) {
        var k: nat :| ReservedAt(before, k, key);
        assert before[..k] == actions[..k];
        assert ReservedAt(actions, k, key);
      }
      if Reserves(After(before).value, a, key) {
        assert ReservedAt(actions, |before|, key);
      }
      forall k: nat | ReservedAt(actions, k, key) ensures ReservedAt(before, k, key) || Reserves(After(before).value, a, key) {
        if k < |before| {
          assert before[..k] == actions[..k];
        }
      }
    }
  }

  lemma ReservesOne(w: World, a: Action, key: ReservationKey)
    requires Enabled(w, a)
    ensures key in Apply(w, a).reserved <==> key in w.reserved || Reserves(w, a, key)
  {
    hide Configured, SourceAccepted, Authorized, ReadGrantWindow, Base64Url, ClaimsOf;
  }

  /** A grant is signed with the exact window of the readings taken, and only if there is one. */
  lemma SignDecides(actions: seq<Action>, id: nat, wall: real, monotonic: real, w: Window)
    requires After(actions).Some?
    requires var s := After(actions).value; id in s.calls && s.calls[id].pc.Reserved?
    ensures After(actions + [Sign(id, wall, monotonic)]).Some?
    ensures var c := After(actions).value.calls[id]; var v := After(actions + [Sign(id, wall, monotonic)]).value;
            && id in v.calls && (v.calls[id].pc.Signed? || v.calls[id].pc == Refused)
            && (IsWindow(wall, c.source.deadline - monotonic, w) <==>
                  v.calls[id].pc.Signed? && v.calls[id].pc.claims.iat == w.iat && v.calls[id].pc.claims.exp == w.exp)
  {
    NextStep(actions, Sign(id, wall, monotonic));
    WindowIsExact(wall, monotonic, After(actions).value.calls[id].source.deadline, w);
    hide After, Configured, SourceAccepted, Authorized, ReadGrantWindow, IsWindow, Sorted, Elements;
  }

  /** A signed grant is handed out exactly if it is not too long and has not expired in a window of its own. */
  lemma HandOutDecides(actions: seq<Action>, id: nat, wall: real, monotonic: real, length: nat, w: Window)
    requires After(actions).Some?
    requires var s := After(actions).value; id in s.calls && s.calls[id].pc.Signed?
    requires IsWindow(wall, After(actions).value.calls[id].source.deadline - monotonic, w)
    ensures After(actions + [HandOut(id, wall, monotonic, length)]).Some?
    ensures var c := After(actions).value.calls[id]; var v := After(actions + [HandOut(id, wall, monotonic, length)]).value;
            && id in v.calls
            && v.calls[id].pc == if length <= 8192 && w.iat < c.pc.claims.exp then Issued(c.pc.claims) else Refused
  {
    NextStep(actions, HandOut(id, wall, monotonic, length));
    WindowIsExact(wall, monotonic, After(actions).value.calls[id].source.deadline, w);
    hide After, Configured, SourceAccepted, Authorized, ReadGrantWindow, IsWindow;
  }

  /**
   * No two grants ever issued share their issuer, application and identifier, whatever the random sources repeat
   * and whatever the store loses the answer to.
   */
  lemma IssuedGrantsDiffer(actions: seq<Action>, a: nat, b: nat)
    requires After(actions).Some?
    requires var w := After(actions).value;
             a in w.calls && b in w.calls && a != b && w.calls[a].pc.Issued? && w.calls[b].pc.Issued?
    ensures var c, d := After(actions).value.calls[a].pc.claims, After(actions).value.calls[b].pc.claims;
            (c.iss, c.applicationId, c.jti) != (d.iss, d.applicationId, d.jti)
  {
    RunKeepsInv(actions);
    var w := After(actions).value;
    hide After;
    assert Holding(w.calls[a]) != Holding(w.calls[b]);
  }

  /**
   * What every issued grant's payload satisfies: a verifier's strict parser reads it back as the same claims, all the
   * profile's checks pass, and its permissions are a nonempty sorted choice from the source's and the audience's.
   */
  lemma IssuedGrantsAreAcceptable(actions: seq<Action>, id: nat)
    requires After(actions).Some?
    requires var w := After(actions).value; id in w.calls && w.calls[id].pc.Issued?
    ensures var c := After(actions).value.calls[id]; var claims := c.pc.claims;
            && ClaimsValid(claims)
            && ParseValue(PayloadText(claims)).Ok? && ParseClaims(ParseValue(PayloadText(claims)).value) == Some(claims)
            && claims.permissions != [] && StrictlySorted(claims.permissions) && claims.aud in c.config.audiences
            && forall p | p in claims.permissions :: p in c.source.permissions && p in c.config.audiences[claims.aud]
  {
    RunKeepsInv(actions);
    var c := After(actions).value.calls[id];
    assert CallProper(c);
    hide After, ClaimsValid, PayloadText, ParseClaims, ParseValue, StrictlySorted;
    PayloadIsReadBack(c.pc.claims);
  }

  function ReplayKeyOf(c: GrantClaims): Replay.ReplayKey {
    Replay.ReplayKey(c.iss, c.applicationId, c.aud, c.jti)
  }

  /** So the grants in existence have one set of claims for each replay key, as the replay protocol relies on. */
  lemma OneGrantPerReplayKey(actions: seq<Action>, a: nat, b: nat)
    requires After(actions).Some?
    requires var w := After(actions).value;
             a in w.calls && b in w.calls && w.calls[a].pc.Issued? && w.calls[b].pc.Issued?
    requires var w := After(actions).value; ReplayKeyOf(w.calls[a].pc.claims) == ReplayKeyOf(w.calls[b].pc.claims)
    ensures a == b
  {
    if a != b {
      IssuedGrantsDiffer(actions, a, b);
    }
  }
}
