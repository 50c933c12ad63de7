/**
 * Issuers and verifiers as one system: grants are issued, presented and consumed in any order, and every one of them is
 * accepted at most once.
 */
module GrantLifecycle {
  import opened Prelude
  import opened GrantWindow
  import opened Profile
  import Issuer
  import Issuance
  import Replay

  datatype Event = Issuing(issuing: Issuance.Action) | Verifying(verifying: Replay.Action)

  datatype System = System(issuers: Issuance.World, verifiers: Replay.World)

  /** What the replay protocol reads of a grant. */
  function ReplayClaims(c: GrantClaims): Replay.Claims {
    Replay.Claims(Issuance.ReplayKeyOf(c), c.iat, c.exp)
  }

  predicate IssuedBy(w: Issuance.World, id: nat, claims: Replay.Claims) {
    id in w.calls && w.calls[id].pc.Issued? && ReplayClaims(w.calls[id].pc.claims) == claims
  }

  ghost predicate IsIssued(w: Issuance.World, claims: Replay.Claims) {
    exists id :: IssuedBy(w, id, claims)
  }

  /** The grants there are, as the verifiers' protocol sees them while it works on `a`: the one presented, if any. */
  function Presented(a: Replay.Action): map<Replay.ReplayKey, Replay.Claims> {
    if a.Present? then map[a.claims.key := a.claims] else map[]
  }

  /** Nothing is presented but grants that have been issued, their signatures being checked. */
  ghost predicate Possible(lag: real, s: System, e: Event) {
    match e
    case Issuing(a) => Issuance.Enabled(s.issuers, a)
    case Verifying(a) => Replay.Enabled(lag, Presented(a), s.verifiers, a) && (a.Present? ==> IsIssued(s.issuers, a.claims))
  }

  ghost function Next(lag: real, s: System, e: Event): System
    requires Possible(lag, s, e)
  {
    match e
    case Issuing(a) => s.(issuers := Issuance.Apply(s.issuers, a))
    case Verifying(a) => s.(verifiers := Replay.Apply(lag, Presented(a), s.verifiers, a))
  }

  ghost function After(lag: real, events: seq<Event>): Option<System> {
    if events == [] then Some(System(Issuance.World({}, map[]), Replay.INITIAL))
    else
      match After(lag, events[..|events| - 1])
      case None => None
      case Some(s) =>
        var e := events[|events| - 1];
        if Possible(lag, s, e) then Some(Next(lag, s, e)) else None
  }

  // ---------------------------------------------------------------- the two parts are runs of their own

  function IssuerActions(events: seq<Event>): seq<Issuance.Action> {
    if events == [] then []
    else
      var e := events[|events| - 1];
      IssuerActions(events[..|events| - 1]) + if e.Issuing? then [e.issuing] else []
  }

  function VerifierActions(events: seq<Event>): seq<Replay.Action> {
    if events == [] then []
    else
      var e := events[|events| - 1];
      VerifierActions(events[..|events| - 1]) + if e.Verifying? then [e.verifying] else []
  }

  lemma {:induction false} IssuersRun(lag: real, events: seq<Event>)
    requires After(lag, events).Some?
    ensures Issuance.After(IssuerActions(events)) == Some(After(lag, events).value.issuers)
  {
    if events != [] {
      var before := events[..|events| - 1];
      var e := events[|events| - 1];
      IssuersRun(lag, before);
      hide Issuance.Enabled, Issuance.Apply, Replay.Enabled, Replay.Apply;
      var actions := IssuerActions(events);
      if e.Issuing? {
        assert actions[..|actions| - 1] == IssuerActions(before) && actions[|actions| - 1] == e.issuing;
      } else {
        assert actions == IssuerActions(before);
      }
    }
  }

  /** An issued grant stays issued. */
  lemma IssuedStays(w: Issuance.World, a: Issuance.Action, claims: Replay.Claims)
    requires Issuance.Enabled(w, a) && IsIssued(w, claims)
    ensures IsIssued(Issuance.Apply(w, a), claims)
  {
    var id :| IssuedBy(w, id, claims);
    hide ReadGrantWindow, Issuer.Configured, Issuer.SourceAccepted, Issuer.Authorized, Issuer.ClaimsOf, Base64Url, ReplayClaims;
    assert IssuedBy(Issuance.Apply(w, a), id, claims);
  }

  /** The grants issued when the run ends, each under its replay key. */
  ghost predicate AreMinted(w: Issuance.World, minted: map<Replay.ReplayKey, Replay.Claims>) {
    forall claims | IsIssued(w, claims) :: claims.key in minted && minted[claims.key] == claims
  }

  function IssuedKeys(w: Issuance.World): set<Replay.ReplayKey> {
    set id | id in w.calls && w.calls[id].pc.Issued? :: Issuance.ReplayKeyOf(w.calls[id].pc.claims)
  }

  ghost function MintedBy(w: Issuance.World): map<Replay.ReplayKey, Replay.Claims> {
    map key | key in IssuedKeys(w) :: GrantUnder(w, key)
  }

  ghost function GrantUnder(w: Issuance.World, key: Replay.ReplayKey): Replay.Claims
    requires key in IssuedKeys(w)
  {
    var id :| id in w.calls && w.calls[id].pc.Issued? && Issuance.ReplayKeyOf(w.calls[id].pc.claims) == key;
    ReplayClaims(w.calls[id].pc.claims)
  }

  /** Issuing gives the verifiers' protocol what it relies on: the grants in existence have one set of claims a key. */
  lemma IssuedAreMinted(actions: seq<Issuance.Action>)
    requires Issuance.After(actions).Some?
    ensures var w := Issuance.After(actions).value;
            AreMinted(w, MintedBy(w)) && forall key | key in MintedBy(w) :: IsIssued(w, MintedBy(w)[key])
  {
    var w := Issuance.After(actions).value;
    forall claims | IsIssued(w, claims) ensures claims.key in MintedBy(w) && MintedBy(w)[claims.key] == claims {
      var id :| IssuedBy(w, id, claims);
      assert claims.key in IssuedKeys(w);
      var other :| other in w.calls && w.calls[other].pc.Issued? && Issuance.ReplayKeyOf(w.calls[other].pc.claims) == claims.key
                   && ReplayClaims(w.calls[other].pc.claims) == GrantUnder(w, claims.key);
      Issuance.OneGrantPerReplayKey(actions, id, other);
    }
    hide Issuance.After;
    forall key | key in MintedBy(w) ensures IsIssued(w, MintedBy(w)[key]) {
      var id :| id in w.calls && w.calls[id].pc.Issued? && Issuance.ReplayKeyOf(w.calls[id].pc.claims) == key
                && ReplayClaims(w.calls[id].pc.claims) == GrantUnder(w, key);
      assert IssuedBy(w, id, MintedBy(w)[key]);
    }
  }

  lemma IssuedBefore(lag: real, s: System, e: Event, minted: map<Replay.ReplayKey, Replay.Claims>)
    requires Possible(lag, s, e) && AreMinted(Next(lag, s, e).issuers, minted)
    ensures AreMinted(s.issuers, minted)
  {
    hide Issuance.Enabled, Issuance.Apply, IsIssued;
    forall claims | IsIssued(s.issuers, claims) ensures claims.key in minted && minted[claims.key] == claims {
      if e.Issuing? {
        IssuedStays(s.issuers, e.issuing, claims);
      }
    }
  }

  /** A verifier that is presented issued grants only works as if all those ever issued were there from the start. */
  lemma VerifierStep(lag: real, s: System, a: Replay.Action, minted: map<Replay.ReplayKey, Replay.Claims>)
    requires Possible(lag, s, Verifying(a)) && AreMinted(s.issuers, minted)
    ensures Replay.Enabled(lag, minted, s.verifiers, a)
    ensures Replay.Apply(lag, minted, s.verifiers, a) == Next(lag, s, Verifying(a)).verifiers
  {
    hide IsIssued, Replay.WindowOpen, Replay.RetentionOpen;
  }

  lemma {:induction false} VerifiersRun(lag: real, events: seq<Event>, minted: map<Replay.ReplayKey, Replay.Claims>)
    requires After(lag, events).Some? && AreMinted(After(lag, events).value.issuers, minted)
    ensures Replay.After(lag, minted, VerifierActions(events)) == Some(After(lag, events).value.verifiers)
  {
    if events != [] {
      var before := events[..|events| - 1];
      var e := events[|events| - 1];
      var s := After(lag, before).value;
      IssuedBefore(lag, s, e, minted);
      VerifiersRun(lag, before, minted);
      var actions := VerifierActions(events);
      if e.Verifying? {
        VerifierStep(lag, s, e.verifying, minted);
        assert actions[..|actions| - 1] == VerifierActions(before) && actions[|actions| - 1] == e.verifying;
      } else {
        assert actions == VerifierActions(before);
      }
      hide Issuance.Enabled, Issuance.Apply, Replay.Enabled, Replay.Apply, AreMinted;
    }
  }

  // ---------------------------------------------------------------- the result

  /**
   * Over any number of issuers and verifiers, with outages on both sides, a forgetful replay store and verifier clocks
   * at most six seconds behind it: a call that accepts was presented a grant that had been issued, and no other call
   * ever accepts that grant.
   */
  lemma EachGrantAcceptedAtMostOnce(lag: real, events: seq<Event>, a: nat)
    requires lag <= 6000.0 && After(lag, events).Some?
    requires var v := After(lag, events).value.verifiers; a in v.calls && v.calls[a].pc == Replay.Accepted
    ensures var s := After(lag, events).value;
            exists id :: IssuedBy(s.issuers, id, s.verifiers.calls[a].claims)
                         && forall b | b in s.verifiers.calls && s.verifiers.calls[b].pc == Replay.Accepted
                                       && s.verifiers.calls[b].claims.key == Issuance.ReplayKeyOf(s.issuers.calls[id].pc.claims) :: b == a
  {
    IssuersRun(lag, events);
    IssuedAreMinted(IssuerActions(events));
    var s := After(lag, events).value;
    hide After, AreMinted;
    VerifiersRun(lag, events, MintedBy(s.issuers));
    OneOfThem(lag, MintedBy(s.issuers), VerifierActions(events), s.verifiers, a);
    var id :| IssuedBy(s.issuers, id, s.verifiers.calls[a].claims);
    assert Issuance.ReplayKeyOf(s.issuers.calls[id].pc.claims) == s.verifiers.calls[a].claims.key;
  }

  lemma OneOfThem(lag: real, minted: map<Replay.ReplayKey, Replay.Claims>, actions: seq<Replay.Action>, v: Replay.World, a: nat)
    requires lag <= 6000.0 && Replay.After(lag, minted, actions) == Some(v) && a in v.calls && v.calls[a].pc == Replay.Accepted
    ensures v.calls[a].claims.key in minted && minted[v.calls[a].claims.key] == v.calls[a].claims
    ensures forall b | b in v.calls && v.calls[b].pc == Replay.Accepted && v.calls[b].claims.key == v.calls[a].claims.key :: b == a
  {
    Replay.RunKeepsInv(lag, minted, actions);
    Replay.AtMostOneAcceptance(lag, minted, actions);
    hide Replay.After, Replay.RecordsGenuine, Replay.Remembered, Replay.Apart;
  }
}
