/** How an issuer turns the monotonic deadline of its source into a grant's validity window. */
module GrantWindow {
  import opened Prelude
  import opened Replay

  /** `MAX_ACCESS_GRANT_LIFETIME_SECONDS`. */
  const MAX_LIFETIME: int := 30

  datatype Window = Window(iat: int, exp: int)

  function Smaller(a: int, b: int): int {
    if a <= b then a else b
  }

  function NominalLifetime(monotonic: real, deadline: real): int {
    Smaller(MAX_LIFETIME, Seconds(deadline - monotonic) - MAX_NEGATIVE_OFFSET)
  }

  /** `readGrantWindow`, given its two clock samples; no window when the source has too little lifetime left. */
  function ReadGrantWindow(wall: real, monotonic: real, deadline: real): (r: Option<Window>)
    ensures r.Some? ==> IsNumericDate(r.value.iat) && IsNumericDate(r.value.exp)
    ensures r.Some? ==> 1 <= r.value.exp - r.value.iat <= MAX_LIFETIME
  {
    if wall < 0.0 || monotonic >= deadline then None
    else
      var lifetime := NominalLifetime(monotonic, deadline);
      if lifetime < 1 then None
      else
        var iat := Seconds(wall);
        if !IsNumericDate(iat) || !IsNumericDate(iat + lifetime) then None else Some(Window(iat, iat + lifetime))
  }

  lemma SecondsBound(ms: real)
    ensures Seconds(ms) as real * 1000.0 <= ms < (Seconds(ms) + 1) as real * 1000.0
  {
    var q := ms / 1000.0;
    assert q.Floor as real <= q < q.Floor as real + 1.0;
    assert q * 1000.0 == ms;
  }

  /**
   * The window of a grant issued at the wall clock reading `wall` with `remaining` milliseconds of source lifetime left:
   * it begins with the second that the wall clock shows, and lasts the greatest number of seconds up to thirty that
   * leaves the source five more.
   */
  predicate IsWindow(wall: real, remaining: real, w: Window) {
    var n := w.exp - w.iat;
    && w.iat as real * 1000.0 <= wall < (w.iat + 1) as real * 1000.0
    && 1 <= n <= 30
    && (n + 5) as real * 1000.0 <= remaining
    && (n < 30 ==> remaining < (n + 6) as real * 1000.0)
    && 0 < w.iat && w.exp <= 0x1F_FFFF_FFFF_FFFF
  }

  /** Exactly that window is given, and none exactly where there is none. */
  lemma WindowIsExact(wall: real, monotonic: real, deadline: real, w: Window)
    ensures ReadGrantWindow(wall, monotonic, deadline) == Some(w) <==> IsWindow(wall, deadline - monotonic, w)
  {
    SecondsBound(wall);
    SecondsBound(deadline - monotonic);
    hide Seconds;
    if IsWindow(wall, deadline - monotonic, w) {
      ExactSeconds(w.iat, wall);
    }
  }

  lemma ExactSeconds(n: int, ms: real)
    requires n as real * 1000.0 <= ms < (n + 1) as real * 1000.0
    ensures Seconds(ms) == n
  {
    SecondsBound(ms);
  }

  /** A window takes six whole seconds of source lifetime and a numeric date, and nothing else, but at the end of all dates. */
  lemma WindowIsGiven(wall: real, monotonic: real, deadline: real)
    ensures ReadGrantWindow(wall, monotonic, deadline).Some? ==> wall >= 1000.0 && deadline - monotonic >= 6000.0
    ensures 1000.0 <= wall < 9_007_199_254_740_961_000.0 && deadline - monotonic >= 6000.0 ==>
              ReadGrantWindow(wall, monotonic, deadline).Some?
  {
    SecondsBound(wall);
    SecondsBound(deadline - monotonic);
    hide Seconds;
  }

  /**
   * Instants are readings of the issuer's monotonic clock. Its wall clock runs alongside, `base` ahead; a
   * verifier's wall clock shows at least the issuer's less `offset`.
   */
  predicate IssuedAt(base: real, wallRead: real, monotonicRead: real, deadline: real, window: Window) {
    ReadGrantWindow(base + wallRead, monotonicRead, deadline) == Some(window)
  }

  predicate AcceptedAt(base: real, offset: real, key: ReplayKey, window: Window, instant: real, reading: real) {
    reading >= base + instant - offset && WindowOpen(Claims(key, window.iat, window.exp), reading)
  }

  /**
   * A grant is accepted only strictly before the deadline its source had, through both roundings, the cap, and any
   * pause between the issuer's wall reading and its monotonic sample, which is taken second.
   */
  lemma AcceptedBeforeTheDeadline(
      base: real, offset: real, wallRead: real, monotonicRead: real, deadline: real, window: Window,
      key: ReplayKey, instant: real, reading: real)
    requires wallRead <= monotonicRead && IssuedAt(base, wallRead, monotonicRead, deadline, window)
    requires offset <= 5000.0 && AcceptedAt(base, offset, key, window, instant, reading)
    ensures instant < deadline
  {
    SecondsBound(reading);
    SecondsBound(base + wallRead);
    SecondsBound(deadline - monotonicRead);
    hide Seconds;
    assert (Seconds(reading) + 1) as real <= window.exp as real;
    assert window.exp <= Seconds(base + wallRead) + Seconds(deadline - monotonicRead) - 5;
  }

  const KEY: ReplayKey := ReplayKey([1], [1], [1], [1])

  /** The reserve of five seconds is exact: a verifier further behind can accept at or after the deadline. */
  lemma SlowerVerifierAcceptsLate(offset: real)
    requires offset > 5000.0
    ensures exists instant, reading ::
              IssuedAt(1_000_000.0, 0.0, 0.0, 10_000.0, Window(1000, 1005)) &&
              AcceptedAt(1_000_000.0, offset, KEY, Window(1000, 1005), instant, reading) && instant >= 10_000.0
  {
    ExactSeconds(1000, 1_000_000.0);
    ExactSeconds(10, 10_000.0);
    var reading := if offset < 5001.0 then 1_010_000.0 - offset else 1_004_999.0;
    ExactSeconds(1004, reading);
    assert AcceptedAt(1_000_000.0, offset, KEY, Window(1000, 1005), 10_000.0, reading);
  }

  predicate NeverLate(offset: real, base: real, wallRead: real, monotonicRead: real, deadline: real, window: Window,
                      key: ReplayKey, instant: real, reading: real) {
    && wallRead <= monotonicRead
    && IssuedAt(base, wallRead, monotonicRead, deadline, window)
    && AcceptedAt(base, offset, key, window, instant, reading)
    ==>
    instant < deadline
  }

  lemma ReserveIsExact(offset: real)
    ensures (forall base, wallRead, monotonicRead, deadline, window, key, instant, reading ::
               NeverLate(offset, base, wallRead, monotonicRead, deadline, window, key, instant, reading))
            <==> offset <= 5000.0
  {
    if offset <= 5000.0 {
      forall base, wallRead, monotonicRead, deadline, window, key, instant, reading
        ensures NeverLate(offset, base, wallRead, monotonicRead, deadline, window, key, instant, reading)
      {
        hide IssuedAt, AcceptedAt;
        if wallRead <= monotonicRead && IssuedAt(base, wallRead, monotonicRead, deadline, window)
           && AcceptedAt(base, offset, key, window, instant, reading) {
          AcceptedBeforeTheDeadline(base, offset, wallRead, monotonicRead, deadline, window, key, instant, reading);
        }
      }
    } else {
      SlowerVerifierAcceptsLate(offset);
      hide IssuedAt, AcceptedAt;
      var instant, reading :|
        IssuedAt(1_000_000.0, 0.0, 0.0, 10_000.0, Window(1000, 1005)) &&
        AcceptedAt(1_000_000.0, offset, KEY, Window(1000, 1005), instant, reading) && instant >= 10_000.0;
      assert !NeverLate(offset, 1_000_000.0, 0.0, 0.0, 10_000.0, Window(1000, 1005), KEY, instant, reading);
    }
  }

  /** The test of `iat` never turns away a grant that has been issued, for a verifier at most `offset` behind. */
  predicate NeverEarly(offset: real, base: real, wallRead: real, monotonicRead: real, deadline: real, window: Window,
                       key: ReplayKey, reading: real) {
    && IssuedAt(base, wallRead, monotonicRead, deadline, window)
    && reading >= base + wallRead - offset && reading >= 0.0 && Seconds(reading) < window.exp
    ==>
    WindowOpen(Claims(key, window.iat, window.exp), reading)
  }

  /** The verifier's allowance for its own slow clock is exact too: five seconds are tolerated, and no more. */
  lemma AllowanceIsExact(offset: real)
    ensures (forall base, wallRead, monotonicRead, deadline, window, key, reading ::
               NeverEarly(offset, base, wallRead, monotonicRead, deadline, window, key, reading))
            <==> offset <= 5000.0
  {
    if offset <= 5000.0 {
      forall base, wallRead, monotonicRead, deadline, window, key, reading
        ensures NeverEarly(offset, base, wallRead, monotonicRead, deadline, window, key, reading)
      {
        SecondsBound(reading);
        SecondsBound(base + wallRead);
        hide Seconds;
      }
    } else {
      ExactSeconds(1000, 1_000_000.0);
      ExactSeconds(10, 10_000.0);
      var reading := if offset < 5001.0 then 1_000_000.0 - offset else 994_999.0;
      ExactSeconds(994, reading);
      assert !NeverEarly(offset, 1_000_000.0, 0.0, 0.0, 10_000.0, Window(1000, 1005), KEY, reading);
    }
  }

  /**
   * The order of the issuer's two reads matters: sampled the other way round, a pause between them lets a grant be
   * accepted ten seconds after the deadline.
   */
  lemma ReadOrderMatters()
    ensures IssuedAt(1_000_000.0, 20_000.0, 0.0, 10_000.0, Window(1020, 1025))
            && AcceptedAt(1_000_000.0, 5000.0, KEY, Window(1020, 1025), 20_000.0, 1_020_000.0)
  {
    ExactSeconds(1020, 1_020_000.0);
    ExactSeconds(10, 10_000.0);
  }
}
