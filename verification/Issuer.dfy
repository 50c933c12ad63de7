/** The issuer of one-use grants: its clock, its source reads, and the reserve-then-sign sequence of `issue`. */
module Issuer {
  import opened Prelude
  import opened TextOrder
  import opened Json
  import opened JsonParser
  import opened CanonicalJson
  import opened Replay
  import opened GrantWindow
  import opened StorageKeys
  import opened Profile

  /** `MAX_SOURCE_AUTHORIZATION_LIFETIME_MS` and `MAX_COMPACT_ACCESS_GRANT_LENGTH`. */
  const MAX_SOURCE_LIFETIME: int := 60_000
  const MAX_COMPACT_LENGTH: nat := 8_192

  // ---------------------------------------------------------------- the guarded clock

  datatype ClockState = ClockState(lastObserved: Option<real>, failed: bool)

  /** The clock after a reading; none stands for a reading that is not a finite number. */
  function Observed(c: ClockState, reading: Option<real>): ClockState {
    if c.failed then c
    else if reading.None? || reading.value < 0.0 || (c.lastObserved.Some? && reading.value < c.lastObserved.value) then
      ClockState(None, true)
    else ClockState(reading, false)
  }

  function ObservedAll(c: ClockState, readings: seq<Option<real>>): ClockState
    decreases |readings|
  {
    if readings == [] then c else ObservedAll(Observed(c, readings[0]), readings[1..])
  }

  class GuardedMonotonicClock {
    var lastObserved: Option<real>
    var failed: bool

    ghost function State(): ClockState
      reads this
    {
      ClockState(lastObserved, failed)
    }

    constructor ()
      ensures State() == ClockState(None, false)
    {
      lastObserved, failed := None, false;
    }

    method Sample(reading: Option<real>) returns (now: Option<real>)
      modifies this
      ensures State() == Observed(old(State()), reading)
      ensures now == if failed then None else reading
      ensures !failed ==> reading.Some? && reading.value >= 0.0
    {
      if failed {
        return None;
      }
      if reading.None? || reading.value < 0.0 || (lastObserved.Some? && reading.value < lastObserved.value) {
        failed := true;
        lastObserved := None;
        return None;
      }
      lastObserved := reading;
      return reading;
    }
  }

  /** A clock still alive after some readings has answered every one of them, in ascending order. */
  lemma {:induction false} SamplesAscend(c: ClockState, readings: seq<Option<real>>)
    requires !ObservedAll(c, readings).failed
    ensures !c.failed && forall i | 0 <= i < |readings| ::
              && readings[i].Some? && readings[i].value >= 0.0
              && (c.lastObserved.Some? ==> c.lastObserved.value <= readings[i].value)
              && forall j | 0 <= j < i :: readings[j].Some? && readings[j].value <= readings[i].value
    decreases |readings|
  {
    if readings != [] {
      var d := Observed(c, readings[0]);
      SamplesAscend(d, readings[1..]);
      assert forall i | 1 <= i < |readings| :: readings[i] == readings[1..][i - 1];
    }
  }

  /** A failed clock stays failed. */
  lemma {:induction false} FailureIsFinal(c: ClockState, readings: seq<Option<real>>)
    requires c.failed
    ensures ObservedAll(c, readings) == c
    decreases |readings|
  {
    if readings != [] {
      FailureIsFinal(c, readings[1..]);
    }
  }

  // ---------------------------------------------------------------- configuration and sources

  datatype SourceScope = ApplicationScope | OrganizationScope(organizationId: Text)

  /** A source authorization bound to this issuer, with its deadline on the monotonic clock. */
  datatype BoundSource = BoundSource(
    applicationId: Text, principalId: Text, policyVersion: Text, permissions: seq<Text>, policyDigest: Text,
    scope: SourceScope, deadline: real)

  /** `policyPair`. */
  ghost function PolicyPair(version: Text, digest: Text): Text {
    Canonical(Arr([Str(version), Str(digest)]))
  }

  /** Pairs of policy version and digest may be compared by their text. */
  lemma PolicyPairsInjective(v: Text, d: Text, w: Text, e: Text)
    ensures PolicyPair(v, d) == PolicyPair(w, e) <==> v == w && d == e
  {
    CanonicalTextsIdentifyValues(Arr([Str(v), Str(d)]), Arr([Str(w), Str(e)]));
    assert [Str(v), Str(d)] == [Str(w), Str(e)] ==> Str(v) == Str(w) && Str(d) == Str(e) by {
      if [Str(v), Str(d)] == [Str(w), Str(e)] {
        assert [Str(v), Str(d)][0] == [Str(w), Str(e)][0] && [Str(v), Str(d)][1] == [Str(w), Str(e)][1];
      }
    }
  }

  datatype Configuration = Configuration(
    issuer: Text, applicationId: Text, kid: Text, audiences: map<Text, set<Text>>, policies: set<(Text, Text)>)

  /** What the constructor has checked. */
  predicate Configured(c: Configuration) {
    && c.issuer != [] && IsBoundedIdentity(c.applicationId) && IsKid(c.kid)
    && forall audience | audience in c.audiences :: audience != []
  }

  datatype Input = Input(audience: Text, requested: seq<Text>)

  /** The binding and snapshot checks `issue` makes of its source. */
  predicate SourceAccepted(c: Configuration, s: BoundSource) {
    && s.applicationId == c.applicationId && s.scope.ApplicationScope? && (s.policyVersion, s.policyDigest) in c.policies
    && IsBoundedIdentity(s.principalId) && IsPolicyVersion(s.policyVersion) && IsPolicyDigest(s.policyDigest)
    && IsCanonicalPermissions(s.permissions)
  }

  /** Every permission asked for is the source's to give and the audience's to take, and there is one. */
  predicate Authorized(c: Configuration, s: BoundSource, input: Input) {
    && input.audience in c.audiences && input.requested != []
    && forall i | 0 <= i < |input.requested| ::
         && IsPermission(input.requested[i])
         && input.requested[i] in s.permissions && input.requested[i] in c.audiences[input.audience]
  }

  /** For an accepted source, exactly the nonempty choices from its permissions and the audience's are authorized. */
  lemma AuthorizedChoices(c: Configuration, s: BoundSource, input: Input)
    requires SourceAccepted(c, s)
    ensures Authorized(c, s, input) <==>
            && input.audience in c.audiences && input.requested != []
            && forall permission | permission in input.requested ::
                 permission in s.permissions && permission in c.audiences[input.audience]
  {
    hide IsPermission, IsBoundedIdentity, IsPolicyVersion, IsPolicyDigest;
  }

  /** The claims `issue` signs. */
  ghost function ClaimsOf(c: Configuration, s: BoundSource, input: Input, jti: Text, window: Window): GrantClaims {
    GrantClaims(c.issuer, c.applicationId, input.audience, s.principalId, window.exp, window.iat, jti,
                s.policyVersion, s.policyDigest, Sorted(Elements(input.requested)))
  }

  lemma RequestedPermissions(values: seq<Text>)
    requires values != [] && forall i | 0 <= i < |values| :: IsPermission(values[i])
    ensures IsCanonicalPermissions(Sorted(Elements(values)))
  {
    CanonicalPermissionsResult(values);
  }

  /** Whatever passes the issuer's checks makes claims every verifier's parser accepts. */
  lemma IssuedClaimsAreValid(
      c: Configuration, s: BoundSource, input: Input, random: seq<Byte>, wall: real, monotonic: real)
    requires Configured(c) && SourceAccepted(c, s) && Authorized(c, s, input) && |random| == 32
    requires ReadGrantWindow(wall, monotonic, s.deadline).Some?
    ensures ClaimsValid(ClaimsOf(c, s, input, Base64Url(random), ReadGrantWindow(wall, monotonic, s.deadline).value))
  {
    RandomIdentifierIsCanonical(random);
    RequestedPermissions(input.requested);
    hide IsBoundedIdentity, IsPermission, IsCanonicalPermissions, IsCanonicalBase64Url32, IsPolicyVersion, IsPolicyDigest, Sorted;
  }

  // ---------------------------------------------------------------- the issuer, run alone

  /** The reservations of a store shared by issuers. */
  class ReservationStore {
    var reserved: set<ReservationKey>

    constructor ()
      ensures reserved == {}
    {
      reserved := {};
    }

    /** `reserve`; an outage may or may not have committed. */
    method Reserve(key: ReservationKey, outage: bool, committed: bool) returns (ok: bool)
      modifies this
      ensures ok == (!outage && key !in old(reserved))
      ensures reserved == if outage && !committed then old(reserved) else old(reserved) + {key}
    {
      if outage {
        if committed {
          reserved := reserved + {key};
        }
        return false;
      }
      if key in reserved {
        assert reserved + {key} == reserved;
        return false;
      }
      reserved := reserved + {key};
      return true;
    }
  }

  /** What the outside world contributes to one call of `issue`: clock readings, random bytes, the store, the signature. */
  datatype Surroundings = Surroundings(
    wall: seq<real>, monotonic: seq<Option<real>>, random: seq<Byte>, outage: bool, committed: bool, compactLength: nat)

  datatype Snapshot = Snapshot(
    applicationId: Text, principalId: Text, policyVersion: Text, permissions: seq<Text>, policyDigest: Text,
    scope: SourceScope, maximumLifetimeMs: int)

  /** The window `readGrantWindow` gives at a reading, for a clock in state `c`. */
  function WindowAt(c: ClockState, s: BoundSource, wall: real, reading: Option<real>): Option<Window> {
    if Observed(c, reading).failed || reading.None? then None else ReadGrantWindow(wall, reading.value, s.deadline)
  }

  /** All that `issue` needs: an accepted source and request, three open windows, and a free identifier. */
  predicate CanIssue(c: Configuration, clock: ClockState, s: BoundSource, input: Input, e: Surroundings, reserved: set<ReservationKey>)
    requires |e.wall| == 3 && |e.monotonic| == 3
  {
    var second := Observed(clock, e.monotonic[0]);
    var third := Observed(second, e.monotonic[1]);
    && !clock.failed && SourceAccepted(c, s) && Authorized(c, s, input)
    && WindowAt(clock, s, e.wall[0], e.monotonic[0]).Some?
    && |e.random| == 32 && !e.outage && ReservationKey(c.issuer, c.applicationId, Base64Url(e.random)) !in reserved
    && WindowAt(second, s, e.wall[1], e.monotonic[1]).Some?
    && e.compactLength <= MAX_COMPACT_LENGTH
    && WindowAt(third, s, e.wall[2], e.monotonic[2]).Some?
    && WindowAt(third, s, e.wall[2], e.monotonic[2]).value.iat < WindowAt(second, s, e.wall[1], e.monotonic[1]).value.exp
  }

  /** A window is given at a clock that lives, by a reading that is a number and not before the last, and is the exact one. */
  lemma WindowAtIsExact(c: ClockState, s: BoundSource, wall: real, reading: Option<real>, w: Window)
    ensures WindowAt(c, s, wall, reading) == Some(w) <==>
            && !c.failed && reading.Some? && reading.value >= 0.0
            && (c.lastObserved.Some? ==> c.lastObserved.value <= reading.value)
            && IsWindow(wall, s.deadline - reading.value, w)
  {
    if reading.Some? {
      WindowIsExact(wall, reading.value, s.deadline, w);
    }
    hide ReadGrantWindow, IsWindow;
  }

  /** An open window was read at a live clock, and begins with the second its wall reading shows. */
  lemma OpenWindow(c: ClockState, s: BoundSource, wall: real, reading: Option<real>)
    ensures WindowAt(c, s, wall, reading).Some? ==>
              && reading.Some? && !Observed(c, reading).failed
              && WindowAt(c, s, wall, reading) == ReadGrantWindow(wall, reading.value, s.deadline)
              && WindowAt(c, s, wall, reading).value.iat == Seconds(wall)
  {
    hide Seconds, NominalLifetime, Observed;
  }

  /** A source of this application, whole, under a policy accepted here, its names sound and its permissions in order. */
  ghost predicate IsSourceOf(c: Configuration, s: BoundSource) {
    && s.applicationId == c.applicationId && s.scope == ApplicationScope && (s.policyVersion, s.policyDigest) in c.policies
    && IsBoundedIdentity(s.principalId) && IsPolicyVersion(s.policyVersion) && IsPolicyDigest(s.policyDigest)
    && s.permissions != [] && (forall i | 0 <= i < |s.permissions| :: IsPermission(s.permissions[i]))
    && forall i, j | 0 <= i < j < |s.permissions| :: Precedes(s.permissions[i], s.permissions[j])
  }

  lemma SourceAcceptedExactly(c: Configuration, s: BoundSource)
    ensures SourceAccepted(c, s) <==> IsSourceOf(c, s)
  {
    CanonicalPermissionsAreSorted(s.permissions);
    hide IsBoundedIdentity, IsPolicyVersion, IsPolicyDigest, IsPermission, IsCanonicalPermissions, Precedes, StrictlySorted;
  }

  /** Three readings that the clock lets through, one after another. */
  predicate AllSampled(clock: ClockState, readings: seq<Option<real>>)
    requires |readings| == 3
  {
    && !clock.failed && readings[0].Some? && readings[1].Some? && readings[2].Some?
    && 0.0 <= readings[0].value <= readings[1].value <= readings[2].value
    && (clock.lastObserved.Some? ==> clock.lastObserved.value <= readings[0].value)
  }

  /** The readings are the clock's and these are their windows; the second dates the grant and the third finds it open. */
  predicate AreWindows(clock: ClockState, s: BoundSource, e: Surroundings, first: Window, second: Window, third: Window)
    requires |e.wall| == 3 && |e.monotonic| == 3
  {
    && AllSampled(clock, e.monotonic)
    && IsWindow(e.wall[0], s.deadline - e.monotonic[0].value, first)
    && IsWindow(e.wall[1], s.deadline - e.monotonic[1].value, second)
    && IsWindow(e.wall[2], s.deadline - e.monotonic[2].value, third)
    && third.iat < second.exp
  }

  lemma ThreeWindows(clock: ClockState, s: BoundSource, e: Surroundings, first: Window, second: Window, third: Window)
    requires |e.wall| == 3 && |e.monotonic| == 3
    ensures var c1 := Observed(clock, e.monotonic[0]);
            && WindowAt(clock, s, e.wall[0], e.monotonic[0]) == Some(first)
            && WindowAt(c1, s, e.wall[1], e.monotonic[1]) == Some(second)
            && WindowAt(Observed(c1, e.monotonic[1]), s, e.wall[2], e.monotonic[2]) == Some(third)
            && third.iat < second.exp
            <==> AreWindows(clock, s, e, first, second, third)
  {
    hide WindowAt, IsWindow;
    var c1 := Observed(clock, e.monotonic[0]);
    WindowAtIsExact(clock, s, e.wall[0], e.monotonic[0], first);
    WindowAtIsExact(c1, s, e.wall[1], e.monotonic[1], second);
    WindowAtIsExact(Observed(c1, e.monotonic[1]), s, e.wall[2], e.monotonic[2], third);
  }

  /** A grant can be issued exactly for a sound source and a choice both sides allow, in time, under a name of its own. */
  lemma CanIssueExactly(c: Configuration, clock: ClockState, s: BoundSource, input: Input, e: Surroundings, reserved: set<ReservationKey>)
    requires |e.wall| == 3 && |e.monotonic| == 3
    ensures CanIssue(c, clock, s, input, e, reserved) <==>
            && IsSourceOf(c, s)
            && input.audience in c.audiences && input.requested != []
            && (forall permission | permission in input.requested ::
                  permission in s.permissions && permission in c.audiences[input.audience])
            && (exists first, second, third :: AreWindows(clock, s, e, first, second, third))
            && |e.random| == 32 && !e.outage && ReservationKey(c.issuer, c.applicationId, Base64Url(e.random)) !in reserved
            && e.compactLength <= 8192
  {
    hide IsSourceOf, SourceAccepted, Authorized, AllSampled, AreWindows, WindowAt, Observed;
    SourceAcceptedExactly(c, s);
    if SourceAccepted(c, s) {
      AuthorizedChoices(c, s, input);
    }
    var c1 := Observed(clock, e.monotonic[0]);
    var dates := (WindowAt(clock, s, e.wall[0], e.monotonic[0]), WindowAt(c1, s, e.wall[1], e.monotonic[1]),
                  WindowAt(Observed(c1, e.monotonic[1]), s, e.wall[2], e.monotonic[2]));
    if dates.0.Some? && dates.1.Some? && dates.2.Some? {
      ThreeWindows(clock, s, e, dates.0.value, dates.1.value, dates.2.value);
    }
    if first, second, third :| AreWindows(clock, s, e, first, second, third) {
      ThreeWindows(clock, s, e, first, second, third);
    }
    LiveClock(clock, s, e.wall[0], e.monotonic[0]);
  }

  lemma LiveClock(c: ClockState, s: BoundSource, wall: real, reading: Option<real>)
    ensures WindowAt(c, s, wall, reading).Some? ==> !c.failed
  {
  }

  class AccessGrantIssuer {
    const config: Configuration
    const clock: GuardedMonotonicClock
    const store: ReservationStore
    var domainFailed: bool
    var sourceReads: map<nat, BoundSource>
    var capabilities: map<nat, BoundSource>

    constructor (config: Configuration, clock: GuardedMonotonicClock, store: ReservationStore)
      requires Configured(config) && !clock.failed
      ensures this.config == config && this.clock == clock && this.store == store
      ensures Valid() && sourceReads == map[] && capabilities == map[]
    {
      this.config, this.clock, this.store := config, clock, store;
      domainFailed, sourceReads, capabilities := false, map[], map[];
    }

    ghost predicate Valid()
      reads this, clock
    {
      Configured(config) && domainFailed == clock.failed
    }

    /** A sample of the issuer's clock; its first failure fails the issuer's domain. */
    method Sample(reading: Option<real>) returns (now: Option<real>)
      requires Valid()
      modifies this`domainFailed, clock
      ensures Valid() && clock.State() == Observed(old(clock.State()), reading)
      ensures now == if clock.failed then None else reading
    {
      now := clock.Sample(reading);
      domainFailed := clock.failed;
    }

    /** The end of `readSourceAuthorization`, for a read begun at the sample `startedAt`. */
    method ReadEnds(startedAt: real, s: Snapshot, handle: nat) returns (ok: bool)
      requires Valid() && handle !in sourceReads
      modifies this`sourceReads
      ensures Valid() && ok == (1 <= s.maximumLifetimeMs <= MAX_SOURCE_LIFETIME && (s.scope.OrganizationScope? ==> s.scope.organizationId != []))
      ensures sourceReads == if ok then old(sourceReads)[handle := BoundSource(s.applicationId, s.principalId, s.policyVersion, s.permissions,
                                                                  s.policyDigest, s.scope, startedAt + s.maximumLifetimeMs as real)]
                       else old(sourceReads)
    {
      if s.maximumLifetimeMs < 1 || s.maximumLifetimeMs > MAX_SOURCE_LIFETIME {
        return false;
      }
      if s.scope.OrganizationScope? && s.scope.organizationId == [] {
        return false;
      }
      var bound := BoundSource(s.applicationId, s.principalId, s.policyVersion, s.permissions, s.policyDigest, s.scope,
                               startedAt + s.maximumLifetimeMs as real);
      sourceReads := sourceReads[handle := bound];
      return true;
    }

    method BindSourceAuthorization(read: nat, capability: nat) returns (ok: bool)
      requires Valid() && capability !in capabilities
      modifies this`capabilities
      ensures Valid() && ok == (read in sourceReads && !clock.failed)
      ensures capabilities == if ok then old(capabilities)[capability := sourceReads[read]] else old(capabilities)
    {
      if read !in sourceReads || domainFailed {
        return false;
      }
      capabilities := capabilities[capability := sourceReads[read]];
      return true;
    }

    /** `readGrantWindow`: the wall clock's reading is taken before the monotonic sample. */
    method ReadWindow(source: BoundSource, wall: real, reading: Option<real>) returns (window: Option<Window>)
      requires Valid()
      modifies this`domainFailed, clock
      ensures Valid() && clock.State() == Observed(old(clock.State()), reading)
      ensures window == WindowAt(old(clock.State()), source, wall, reading)
    {
      var now := Sample(reading);
      if now.None? {
        return None;
      }
      return ReadGrantWindow(wall, now.value, source.deadline);
    }

    /** The checks `issue` makes before it reads a clock. */
    method Admit(capability: nat, input: Input) returns (source: Option<BoundSource>)
      requires Valid()
      ensures source == if capability in capabilities && !clock.failed && SourceAccepted(config, capabilities[capability])
                           && Authorized(config, capabilities[capability], input) then Some(capabilities[capability]) else None
    {
      if capability !in capabilities || domainFailed {
        return None;
      }
      var s := capabilities[capability];
      if !SourceAccepted(config, s) {
        return None;
      }
      if input.audience !in config.audiences || input.requested == [] {
        return None;
      }
      for i := 0 to |input.requested|
        invariant forall j | 0 <= j < i ::
          && IsPermission(input.requested[j])
          && input.requested[j] in s.permissions && input.requested[j] in config.audiences[input.audience]
      {
        var p := input.requested[i];
        if !IsPermission(p) || p !in s.permissions || p !in config.audiences[input.audience] {
          return None;
        }
      }
      return Some(s);
    }

    /**
     * `issue`, up to the signature itself: the claims that were signed, if everything it needs is there. They are
     * valid, dated by the second window, confined to what source and audience both allow, and named by an identifier
     * nobody had reserved before.
     */
    method Issue(capability: nat, input: Input, e: Surroundings) returns (r: Option<GrantClaims>)
      requires Valid() && |e.wall| == 3 && |e.monotonic| == 3
      modifies this`domainFailed, clock, store
      ensures Valid()
      ensures old(store.reserved) <= store.reserved
      ensures r.Some? <==> && capability in capabilities
                           && CanIssue(config, old(clock.State()), capabilities[capability], input, e, old(store.reserved))
      ensures r.Some? ==>
                && ClaimsValid(r.value)
                && capability in old(capabilities)
                && e.monotonic[1].Some?
                && ReadGrantWindow(e.wall[1], e.monotonic[1].value, capabilities[capability].deadline).Some?
                && r.value == ClaimsOf(config, capabilities[capability], input, Base64Url(e.random),
                                       ReadGrantWindow(e.wall[1], e.monotonic[1].value, capabilities[capability].deadline).value)
                && IsWindow(e.wall[1], capabilities[capability].deadline - e.monotonic[1].value, Window(r.value.iat, r.value.exp))
                && SourceAccepted(config, capabilities[capability]) && Authorized(config, capabilities[capability], input)
                && Seconds(e.wall[2]) < r.value.exp && e.compactLength <= MAX_COMPACT_LENGTH
      ensures r.Some? ==>
                var key := ReservationKey(r.value.iss, r.value.applicationId, r.value.jti);
                key !in old(store.reserved) && store.reserved == old(store.reserved) + {key}
      ensures clock.failed ==> r.None?
    {
      hide ReadGrantWindow, IsWindow, WindowAt, Observed, Base64Url, SourceAccepted, Authorized, Configured, Seconds, ClaimsValid, Sorted, Elements;
      var admitted := Admit(capability, input);
      if admitted.None? {
        return None;
      }
      var source := admitted.value;
      ghost var second := Observed(clock.State(), e.monotonic[0]);
      ghost var third := Observed(second, e.monotonic[1]);
      OpenWindow(second, source, e.wall[1], e.monotonic[1]);
      OpenWindow(third, source, e.wall[2], e.monotonic[2]);
      var first := ReadWindow(source, e.wall[0], e.monotonic[0]);
      if first.None? || |e.random| != 32 {
        return None;
      }
      var jti := Base64Url(e.random);
      var reserved := store.Reserve(ReservationKey(config.issuer, config.applicationId, jti), e.outage, e.committed);
      if !reserved {
        return None;
      }
      var window := ReadWindow(source, e.wall[1], e.monotonic[1]);
      if window.None? {
        return None;
      }
      var permissions := UniqueSorted(input.requested);
      var claims := GrantClaims(config.issuer, config.applicationId, input.audience, source.principalId,
                                window.value.exp, window.value.iat, jti, source.policyVersion, source.policyDigest, permissions);
      if e.compactLength > MAX_COMPACT_LENGTH {
        return None;
      }
      var after := ReadWindow(source, e.wall[2], e.monotonic[2]);
      if after.None? || after.value.iat >= window.value.exp {
        return None;
      }
      IssuedClaimsAreValid(config, source, input, e.random, e.wall[1], e.monotonic[1].value);
      WindowIsExact(e.wall[1], e.monotonic[1].value, source.deadline, window.value);
      return Some(claims);
    }
  }
}
