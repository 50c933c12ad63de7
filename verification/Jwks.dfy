/**
 * The shared key cache of access-grant verifiers: one refresh at a time, key sets replaced whole, and a clock whose
 * failure is final. Calls of `resolve` interleave wherever they wait.
 */
module Jwks {
  import opened Prelude

  /** `UNKNOWN_KID_REFRESH_INTERVAL_MS` and `MAX_JWKS_CACHE_AGE_MS`. */
  const UNKNOWN_KID_INTERVAL: real := 5000.0
  const MAX_CACHE_AGE: real := 60000.0

  datatype PublicKey = PublicKey(x: Text, y: Text)

  type KeySet = map<Text, PublicKey>

  /** The fields of the cache; `inFlight` is the number of the load `refreshInFlight` refers to. */
  datatype Cache = Cache(
    keys: Option<KeySet>, loadedAt: Option<real>, lastObserved: Option<real>, clockFailed: bool,
    inFlight: Option<nat>, nextUnknownKid: Option<real>, maxAge: real)

  // ---------------------------------------------------------------- what each uninterrupted stretch of code does

  /** A reading of the monotonic clock; none when it is not a finite number. */
  type Reading = Option<real>

  predicate GoodReading(c: Cache, reading: Reading) {
    reading.Some? && reading.value >= 0.0 && (c.lastObserved.Some? ==> reading.value >= c.lastObserved.value)
  }

  /** The cache after `#sample`. Whether it answered is whether the clock is still alive afterwards. */
  function Sampled(c: Cache, reading: Reading): Cache {
    if c.clockFailed then c
    else if !GoodReading(c, reading) then c.(clockFailed := true, keys := None, loadedAt := None)
    else c.(lastObserved := reading)
  }

  predicate Fresh(c: Cache, now: real) {
    c.keys.Some? && c.loadedAt.Some? && now - c.loadedAt.value < c.maxAge
  }

  predicate Knows(c: Cache, kid: Text) {
    c.keys.Some? && kid in c.keys.value
  }

  predicate CoolingDown(c: Cache, now: real) {
    c.nextUnknownKid.Some? && now < c.nextUnknownKid.value
  }

  function CoolFrom(c: Cache, now: real): Cache {
    c.(nextUnknownKid := Some(now + UNKNOWN_KID_INTERVAL))
  }

  /** How `resolve` stands when it first gives way to others. */
  datatype Begun =
    | Answered(key: PublicKey)
    | Refused
    | Waiting(load: nat, initiator: bool, wasFresh: bool, known: bool, now: real)

  /** `#refresh` up to its wait: it joins the load in flight, or starts load number `next`. */
  function Refreshing(c: Cache, next: nat, wasFresh: bool, known: bool, now: real): (Cache, Begun) {
    match c.inFlight
    case Some(load) => (c, Waiting(load, false, wasFresh, known, now))
    case None => (c.(inFlight := Some(next)), Waiting(next, true, wasFresh, known, now))
  }

  /** `resolve` up to its first wait. */
  function Begin(c: Cache, kid: Text, reading: Reading, next: nat): (Cache, Begun) {
    var s := Sampled(c, reading);
    if s.clockFailed || reading.None? then (s, Refused)
    else
      var now := reading.value;
      var known := Knows(s, kid);
      if Fresh(s, now) then
        if known then (s, Answered(s.keys.value[kid]))
        else if CoolingDown(s, now) then (s, Refused)
        else Refreshing(CoolFrom(s, now), next, true, known, now)
      else if !known && s.inFlight.None? then
        if CoolingDown(s, now) then (s, Refused) else Refreshing(CoolFrom(s, now), next, false, known, now)
      else Refreshing(s, next, false, known, now)
  }

  /** The end of `#load`: the fetched document, if it was fetched and is valid, replaces the keys. */
  function Loaded(c: Cache, began: real, document: Option<KeySet>): Cache {
    if document.None? || c.clockFailed then c else c.(keys := document, loadedAt := Some(began))
  }

  /** The `finally` of `#refresh`. */
  function Released(c: Cache, load: nat, initiator: bool): Cache {
    if initiator && c.inFlight == Some(load) then c.(inFlight := None) else c
  }

  /** The rest of `resolve` after its refresh has succeeded. */
  function Continue(c: Cache, kid: Text, wasFresh: bool, known: bool, now: real): (Cache, Option<PublicKey>) {
    if c.clockFailed then (c, None)
    else if Knows(c, kid) then (c, Some(c.keys.value[kid]))
    else if !wasFresh && known then (CoolFrom(c, now), None)
    else (c, None)
  }

  /** `assertActive`. */
  predicate Active(c: Cache, reading: Reading) {
    var s := Sampled(c, reading);
    !s.clockFailed && reading.Some? && Fresh(s, reading.value)
  }

  // ---------------------------------------------------------------- the class

  class JwksCache {
    var keys: Option<KeySet>
    var loadedAt: Option<real>
    var lastObserved: Option<real>
    var clockFailed: bool
    var refreshInFlight: Option<nat>
    var nextUnknownKidRefreshAt: Option<real>
    var maxAge: real

    ghost function State(): Cache
      reads this
    {
      Cache(keys, loadedAt, lastObserved, clockFailed, refreshInFlight, nextUnknownKidRefreshAt, maxAge)
    }

    constructor (maxAge: real)
      requires 1.0 <= maxAge <= MAX_CACHE_AGE
      ensures State() == Empty(maxAge)
    {
      keys, loadedAt, lastObserved, clockFailed := None, None, None, false;
      refreshInFlight, nextUnknownKidRefreshAt := None, None;
      this.maxAge := maxAge;
    }

    method TightenMaxAge(age: real)
      requires 1.0 <= age <= MAX_CACHE_AGE
      modifies this
      ensures State() == Tightened(old(State()), age)
    {
      if age < maxAge {
        maxAge := age;
      }
    }

    method Sample(reading: Reading) returns (now: Option<real>)
      modifies this
      ensures State() == Sampled(old(State()), reading)
      ensures now == if clockFailed then None else reading
      ensures !clockFailed ==> reading.Some?
    {
      if clockFailed {
        return None;
      }
      if reading.None? || reading.value < 0.0 || (lastObserved.Some? && reading.value < lastObserved.value) {
        clockFailed := true;
        keys := None;
        loadedAt := None;
        return None;
      }
      lastObserved := reading;
      return reading;
    }

    method AssertActive(reading: Reading) returns (active: bool)
      modifies this
      ensures State() == Sampled(old(State()), reading)
      ensures active == Active(old(State()), reading)
    {
      var now := Sample(reading);
      if now.None? {
        return false;
      }
      return keys.Some? && loadedAt.Some? && now.value - loadedAt.value < maxAge;
    }

    method BeginUnknownKidRefresh(now: real) returns (ok: bool)
      modifies this
      ensures ok == !CoolingDown(old(State()), now)
      ensures State() == if ok then CoolFrom(old(State()), now) else old(State())
    {
      if nextUnknownKidRefreshAt.Some? && now < nextUnknownKidRefreshAt.value {
        return false;
      }
      nextUnknownKidRefreshAt := Some(now + UNKNOWN_KID_INTERVAL);
      return true;
    }

    method Refresh(next: nat, wasFresh: bool, known: bool, now: real) returns (begun: Begun)
      modifies this
      ensures (State(), begun) == Refreshing(old(State()), next, wasFresh, known, now)
    {
      if refreshInFlight.Some? {
        return Waiting(refreshInFlight.value, false, wasFresh, known, now);
      }
      refreshInFlight := Some(next);
      return Waiting(next, true, wasFresh, known, now);
    }

    /** `resolve` up to its first wait; `next` is the number a load started here gets. */
    method Resolve(kid: Text, reading: Reading, next: nat) returns (begun: Begun)
      modifies this
      ensures (State(), begun) == Begin(old(State()), kid, reading, next)
    {
      var sample := Sample(reading);
      if sample.None? {
        return Refused;
      }
      var now := sample.value;
      var wasFresh := keys.Some? && loadedAt.Some? && now - loadedAt.value < maxAge;
      var knownBeforeRefresh := keys.Some? && kid in keys.value;
      if !wasFresh {
        if !knownBeforeRefresh {
          if refreshInFlight.None? {
            var ok := BeginUnknownKidRefresh(now);
            if !ok {
              return Refused;
            }
          }
        }
        begun := Refresh(next, wasFresh, knownBeforeRefresh, now);
        return;
      }
      if knownBeforeRefresh {
        return Answered(keys.value[kid]);
      }
      var ok := BeginUnknownKidRefresh(now);
      if !ok {
        return Refused;
      }
      begun := Refresh(next, wasFresh, knownBeforeRefresh, now);
    }

    /** The end of `#load`. */
    method LoadEnds(began: real, document: Option<KeySet>) returns (ok: bool)
      modifies this
      ensures State() == Loaded(old(State()), began, document)
      ensures ok == (document.Some? && !old(clockFailed))
    {
      if document.None? || clockFailed {
        return false;
      }
      keys := document;
      loadedAt := Some(began);
      return true;
    }

    /** The `finally` of `#refresh`. */
    method RefreshEnds(load: nat, initiator: bool)
      modifies this
      ensures State() == Released(old(State()), load, initiator)
    {
      if initiator {
        if refreshInFlight == Some(load) {
          refreshInFlight := None;
        }
      }
    }

    /** The rest of `resolve` after a refresh that succeeded. */
    method ResolveContinues(kid: Text, wasFresh: bool, known: bool, now: real) returns (key: Option<PublicKey>)
      modifies this
      ensures (State(), key) == Continue(old(State()), kid, wasFresh, known, now)
    {
      if clockFailed {
        return None;
      }
      if keys.Some? && kid in keys.value {
        return Some(keys.value[kid]);
      }
      if !wasFresh {
        if known {
          nextUnknownKidRefreshAt := Some(now + UNKNOWN_KID_INTERVAL);
        }
      }
      return None;
    }
  }

  function Empty(maxAge: real): Cache {
    Cache(None, None, None, false, None, None, maxAge)
  }

  function Tightened(c: Cache, age: real): Cache {
    if age < c.maxAge then c.(maxAge := age) else c
  }

  // ---------------------------------------------------------------- interleaved calls

  datatype LoadState = Pending | Fulfilled(document: KeySet) | Rejected

  /** A load and the clock reading it began at. */
  datatype Load = Load(began: real, state: LoadState)

  datatype Pc =
    | AwaitingLoad(load: nat, initiator: bool, wasFresh: bool, known: bool, now: real)
    | AwaitingRefresh(ok: bool, wasFresh: bool, known: bool, now: real)
    | Done(key: PublicKey)
    | Failed

  datatype Call = Call(kid: Text, pc: Pc)

  datatype World = World(cache: Cache, loads: seq<Load>, calls: map<nat, Call>)

  datatype Action =
    | Start(id: nat, kid: Text, reading: Reading)
    | Settle(load: nat, document: Option<KeySet>)
    | ResumeRefresh(id: nat)
    | ResumeResolve(id: nat)
    | Assert(reading: Reading)
    | Tighten(age: real)

  predicate Enabled(w: World, a: Action) {
    match a
    case Start(id, _, _) => id !in w.calls
    case Settle(load, _) => load < |w.loads| && w.loads[load].state.Pending?
    case ResumeRefresh(id) =>
      id in w.calls && w.calls[id].pc.AwaitingLoad? && w.calls[id].pc.load < |w.loads|
      && !w.loads[w.calls[id].pc.load].state.Pending?
    case ResumeResolve(id) => id in w.calls && w.calls[id].pc.AwaitingRefresh?
    case Assert(_) => true
    case Tighten(age) => 1.0 <= age <= MAX_CACHE_AGE
  }

  function PcOf(begun: Begun): Pc {
    match begun
    case Answered(key) => Done(key)
    case Refused => Failed
    case Waiting(load, initiator, wasFresh, known, now) => AwaitingLoad(load, initiator, wasFresh, known, now)
  }

  function Apply(w: World, a: Action): World
    requires Enabled(w, a)
  {
    match a
    case Start(id, kid, reading) =>
      var (cache, begun) := Begin(w.cache, kid, reading, |w.loads|);
      World(cache,
            if begun.Waiting? && begun.initiator then w.loads + [Load(begun.now, Pending)] else w.loads,
            w.calls[id := Call(kid, PcOf(begun))])
    case Settle(load, document) =>
      var l := w.loads[load];
      var state := if document.Some? && !w.cache.clockFailed then Fulfilled(document.value) else Rejected;
      w.(cache := Loaded(w.cache, l.began, document), loads := w.loads[load := l.(state := state)])
    case ResumeRefresh(id) =>
      var c := w.calls[id];
      w.(cache := Released(w.cache, c.pc.load, c.pc.initiator),
         calls := w.calls[id := c.(pc := AwaitingRefresh(w.loads[c.pc.load].state.Fulfilled?, c.pc.wasFresh, c.pc.known, c.pc.now))])
    case ResumeResolve(id) =>
      var c := w.calls[id];
      if !c.pc.ok then w.(calls := w.calls[id := c.(pc := Failed)])
      else
        var (cache, key) := Continue(w.cache, c.kid, c.pc.wasFresh, c.pc.known, c.pc.now);
        w.(cache := cache, calls := w.calls[id := c.(pc := if key.Some? then Done(key.value) else Failed)])
    case Assert(reading) => w.(cache := Sampled(w.cache, reading))
    case Tighten(age) => w.(cache := Tightened(w.cache, age))
  }

  function Initial(maxAge: real): World {
    World(Empty(maxAge), [], map[])
  }

  /** The world after `actions`, if each of them was possible when it happened. */
  function After(maxAge: real, actions: seq<Action>): Option<World> {
    if actions == [] then Some(Initial(maxAge))
    else
      match After(maxAge, actions[..|actions| - 1])
      case None => None
      case Some(w) => if Enabled(w, actions[|actions| - 1]) then Some(Apply(w, actions[|actions| - 1])) else None
  }

  // ---------------------------------------------------------------- invariants

  ghost predicate Initiates(w: World, id: nat, load: nat) {
    id in w.calls && w.calls[id].pc.AwaitingLoad? && w.calls[id].pc.initiator && w.calls[id].pc.load == load
  }

  predicate PendingAt(w: World, load: nat) {
    load < |w.loads| && w.loads[load].state.Pending?
  }

  /** Only the newest load can be pending, and then it is in flight; whoever started it is still waiting for it. */
  ghost predicate FlightInv(w: World) {
    && (forall load: nat | PendingAt(w, load) :: w.cache.inFlight == Some(load))
    && (w.cache.inFlight.Some? ==>
          w.cache.inFlight.value + 1 == |w.loads| && exists id: nat :: Initiates(w, id, w.cache.inFlight.value))
    && (forall id | id in w.calls && w.calls[id].pc.AwaitingLoad? :: w.calls[id].pc.load < |w.loads|)
    && (forall id: nat, load: nat | Initiates(w, id, load) :: w.cache.inFlight == Some(load))
    && (forall id: nat, other: nat, load: nat | Initiates(w, id, load) && Initiates(w, other, load) :: id == other)
  }

  /** Loads began in order, no later than the clock was last observed. */
  ghost predicate OrderInv(w: World) {
    && (forall i, j | 0 <= i < j < |w.loads| :: w.loads[i].began <= w.loads[j].began)
    && (forall i | 0 <= i < |w.loads| :: w.cache.lastObserved.Some? && w.loads[i].began <= w.cache.lastObserved.value)
  }

  /** Load `i` is the last that was fulfilled. */
  predicate LastFulfilled(w: World, i: nat) {
    && i < |w.loads| && w.loads[i].state.Fulfilled?
    && forall j | i < j < |w.loads| :: !w.loads[j].state.Fulfilled?
  }

  /** The keys are all of, and nothing but, what load `i` fetched, and are dated from when it began. */
  predicate KeysFrom(w: World, i: nat) {
    LastFulfilled(w, i) && w.cache.keys == Some(w.loads[i].state.document) && w.cache.loadedAt == Some(w.loads[i].began)
  }

  ghost predicate KeysInv(w: World) {
    && (w.cache.clockFailed ==> w.cache.keys.None?)
    && (w.cache.keys.Some? <==> w.cache.loadedAt.Some?)
    && (w.cache.keys.Some? ==> exists i: nat :: KeysFrom(w, i))
  }

  /** A key that was returned comes from a document some load fetched. */
  ghost predicate AnswersInv(w: World) {
    forall id | id in w.calls && w.calls[id].pc.Done? :: exists i: nat :: Vouches(w, i, w.calls[id].kid, w.calls[id].pc.key)
  }

  predicate Vouches(w: World, i: nat, kid: Text, key: PublicKey) {
    i < |w.loads| && w.loads[i].state.Fulfilled? && kid in w.loads[i].state.document && w.loads[i].state.document[kid] == key
  }

  ghost predicate Inv(w: World) {
    FlightInv(w) && OrderInv(w) && KeysInv(w) && AnswersInv(w)
  }

  /** What `Begin` does to the fields the invariants speak of. */
  lemma BeginFacts(c: Cache, kid: Text, reading: Reading, next: nat)
    ensures var (d, begun) := Begin(c, kid, reading, next);
            && (c.clockFailed ==> d.clockFailed && begun == Refused)
            && (d.clockFailed ==> begun == Refused && (c.keys.None? ==> d.keys.None?) && (c.loadedAt.None? ==> d.loadedAt.None?))
            && (!d.clockFailed ==> d.keys == c.keys && d.loadedAt == c.loadedAt && d.lastObserved == reading && reading.Some?)
            && (d.lastObserved == c.lastObserved || (GoodReading(c, reading) && d.lastObserved == reading))
            && (begun.Answered? ==> Knows(c, kid) && begun.key == c.keys.value[kid])
            && (begun.Waiting? ==> !d.clockFailed && reading == Some(begun.now) && GoodReading(c, reading))
            && (begun.Waiting? && begun.initiator ==> c.inFlight.None? && d.inFlight == Some(next) && begun.load == next)
            && (begun.Waiting? && !begun.initiator ==> c.inFlight == Some(begun.load) && d.inFlight == c.inFlight)
            && (!begun.Waiting? ==> d.inFlight == c.inFlight)
            && (d.clockFailed && !c.clockFailed ==> d.keys.None? && d.loadedAt.None?)
  {
  }

  lemma StartKeepsFlight(w: World, a: Action)
    requires Enabled(w, a) && a.Start? && FlightInv(w)
    ensures FlightInv(Apply(w, a))
  {
    BeginFacts(w.cache, a.kid, a.reading, |w.loads|);
    var (cache, begun) := Begin(w.cache, a.kid, a.reading, |w.loads|);
    var v := Apply(w, a);
    hide Begin;
    assert forall id: nat, load: nat :: Initiates(w, id, load) ==> id != a.id && Initiates(v, id, load);
    assert forall id: nat, load: nat :: Initiates(v, id, load) && id != a.id ==> Initiates(w, id, load);
    if begun.Waiting? && begun.initiator {
      assert Initiates(v, a.id, |w.loads|);
      assert forall load: nat :: PendingAt(v, load) && load != |w.loads| ==> PendingAt(w, load);
    } else {
      assert forall load: nat :: PendingAt(v, load) ==> PendingAt(w, load);
    }
  }

  lemma SettleKeepsFlight(w: World, a: Action)
    requires Enabled(w, a) && a.Settle? && FlightInv(w)
    ensures FlightInv(Apply(w, a))
  {
    var v := Apply(w, a);
    assert forall id: nat, load: nat :: Initiates(v, id, load) <==> Initiates(w, id, load);
    assert forall load: nat :: PendingAt(v, load) ==> PendingAt(w, load);
  }

  lemma ResumeKeepsFlight(w: World, a: Action)
    requires Enabled(w, a) && (a.ResumeRefresh? || a.ResumeResolve?) && FlightInv(w)
    ensures FlightInv(Apply(w, a))
  {
    var v := Apply(w, a);
    assert v.loads == w.loads;
    assert forall load: nat :: PendingAt(v, load) ==> PendingAt(w, load);
    assert forall id: nat, load: nat :: Initiates(v, id, load) <==> Initiates(w, id, load) && id != a.id;
    if a.ResumeRefresh? && w.calls[a.id].pc.initiator {
      assert Initiates(w, a.id, w.calls[a.id].pc.load);
    } else {
      assert forall load: nat :: !Initiates(w, a.id, load);
      assert v.cache.inFlight == w.cache.inFlight;
    }
  }

  lemma StepKeepsFlight(w: World, a: Action)
    requires Enabled(w, a) && FlightInv(w)
    ensures FlightInv(Apply(w, a))
  {
    match a
    case Start(_, _, _) => StartKeepsFlight(w, a);
    case Settle(_, _) => SettleKeepsFlight(w, a);
    case ResumeRefresh(_) => ResumeKeepsFlight(w, a);
    case ResumeResolve(_) => ResumeKeepsFlight(w, a);
    case _ =>
      var v := Apply(w, a);
      assert v.loads == w.loads && v.calls == w.calls && v.cache.inFlight == w.cache.inFlight;
      assert forall load: nat :: PendingAt(v, load) ==> PendingAt(w, load);
      assert forall id: nat, load: nat :: Initiates(v, id, load) <==> Initiates(w, id, load);
  }

  /** `v` has the loads of `w`, begun when they were, and perhaps one more, begun when the clock was last observed. */
  predicate LoadsFollow(w: World, v: World) {
    && |w.loads| <= |v.loads| <= |w.loads| + 1
    && (forall i | 0 <= i < |w.loads| :: v.loads[i].began == w.loads[i].began)
    && (|w.loads| < |v.loads| ==> v.cache.lastObserved == Some(v.loads[|w.loads|].began))
    && (w.cache.lastObserved.Some? ==>
          v.cache.lastObserved.Some? && w.cache.lastObserved.value <= v.cache.lastObserved.value)
  }

  lemma StartFollows(w: World, a: Action)
    requires Enabled(w, a) && a.Start?
    ensures LoadsFollow(w, Apply(w, a))
  {
    BeginFacts(w.cache, a.kid, a.reading, |w.loads|);
    hide Begin;
  }

  lemma OtherFollows(w: World, a: Action)
    requires Enabled(w, a) && !a.Start?
    ensures LoadsFollow(w, Apply(w, a))
  {
  }

  lemma FollowingKeepsOrder(w: World, v: World)
    requires LoadsFollow(w, v) && OrderInv(w)
    ensures OrderInv(v)
  {
    if v.loads != [] {
      assert w.loads != [] ==> w.loads[0].began <= w.cache.lastObserved.value;
      assert v.cache.lastObserved.Some?;
    }
    forall i, j | 0 <= i < j < |v.loads| ensures v.loads[i].began <= v.loads[j].began {
      assert v.loads[i].began == w.loads[i].began;
      assert j < |w.loads| ==> v.loads[j].began == w.loads[j].began;
    }
  }

  lemma StepKeepsOrder(w: World, a: Action)
    requires Enabled(w, a) && OrderInv(w)
    ensures OrderInv(Apply(w, a))
  {
    hide *;
    if a.Start? {
      StartFollows(w, a);
    } else {
      OtherFollows(w, a);
    }
    FollowingKeepsOrder(w, Apply(w, a));
  }

  lemma StepKeepsKeys(w: World, a: Action)
    requires Enabled(w, a) && FlightInv(w) && KeysInv(w)
    ensures KeysInv(Apply(w, a))
  {
    var v := Apply(w, a);
    if a.Start? {
      BeginFacts(w.cache, a.kid, a.reading, |w.loads|);
      hide Begin;
    }
    if v.cache.keys.Some? {
      if a.Settle? && a.document.Some? && !w.cache.clockFailed {
        assert PendingAt(w, a.load);
        assert KeysFrom(v, a.load);
      } else {
        assert v.cache.keys == w.cache.keys && v.cache.loadedAt == w.cache.loadedAt;
        var i: nat :| KeysFrom(w, i);
        assert KeysFrom(v, i);
      }
    }
  }

  lemma StepKeepsAnswers(w: World, a: Action)
    requires Enabled(w, a) && KeysInv(w) && AnswersInv(w)
    ensures AnswersInv(Apply(w, a))
  {
    var v := Apply(w, a);
    if a.Start? {
      BeginFacts(w.cache, a.kid, a.reading, |w.loads|);
      hide Begin;
    }
    forall id | id in v.calls && v.calls[id].pc.Done?
      ensures exists i: nat :: Vouches(v, i, v.calls[id].kid, v.calls[id].pc.key)
    {
      if id in w.calls && w.calls[id].pc.Done? {
        var i: nat :| Vouches(w, i, w.calls[id].kid, w.calls[id].pc.key);
        assert Vouches(v, i, v.calls[id].kid, v.calls[id].pc.key);
      } else {
        assert w.cache.keys.Some?;
        var i: nat :| KeysFrom(w, i);
        assert Vouches(v, i, v.calls[id].kid, v.calls[id].pc.key);
      }
    }
  }

  lemma {:induction false} RunKeepsInv(maxAge: real, actions: seq<Action>)
    requires After(maxAge, actions).Some?
    ensures Inv(After(maxAge, actions).value)
  {
    if actions != [] {
      var before := actions[..|actions| - 1];
      RunKeepsInv(maxAge, before);
      var w := After(maxAge, before).value;
      var a := actions[|actions| - 1];
      hide FlightInv, OrderInv, KeysInv, AnswersInv, Apply, Enabled;
      StepKeepsFlight(w, a);
      StepKeepsOrder(w, a);
      StepKeepsKeys(w, a);
      StepKeepsAnswers(w, a);
    }
  }

  // ---------------------------------------------------------------- the results

  /** However calls interleave, at most one load is in progress. */
  lemma OneLoadAtATime(maxAge: real, actions: seq<Action>)
    requires After(maxAge, actions).Some?
    ensures var w := After(maxAge, actions).value; forall i: nat, j: nat | PendingAt(w, i) && PendingAt(w, j) :: i == j
  {
    RunKeepsInv(maxAge, actions);
  }

  /** The cache is never left pointing at a load nobody will clear: the call that started it is waiting for it. */
  lemma FlightIsOwned(maxAge: real, actions: seq<Action>)
    requires After(maxAge, actions).Some?
    ensures var w := After(maxAge, actions).value;
            w.cache.inFlight.Some? ==> exists id: nat :: Initiates(w, id, w.cache.inFlight.value)
  {
    RunKeepsInv(maxAge, actions);
  }

  /** The keys are exactly the document of the last load that succeeded: sets are replaced, never merged. */
  lemma KeysAreOneDocument(maxAge: real, actions: seq<Action>)
    requires After(maxAge, actions).Some? && After(maxAge, actions).value.cache.keys.Some?
    ensures exists i: nat :: KeysFrom(After(maxAge, actions).value, i)
  {
    RunKeepsInv(maxAge, actions);
  }

  /** `loadedAt` never moves back, from any reachable state to the next. */
  lemma LoadedAtAdvances(maxAge: real, actions: seq<Action>, a: Action)
    requires After(maxAge, actions).Some? && After(maxAge, actions + [a]).Some?
    ensures var c, d := After(maxAge, actions).value.cache, After(maxAge, actions + [a]).value.cache;
            c.loadedAt.Some? && d.loadedAt.Some? ==> c.loadedAt.value <= d.loadedAt.value
  {
    assert (actions + [a])[..|actions|] == actions;
    RunKeepsInv(maxAge, actions);
    var w := After(maxAge, actions).value;
    assert After(maxAge, actions + [a]) == Some(Apply(w, a));
    hide After;
    var d := Apply(w, a).cache;
    if a.Start? {
      BeginFacts(w.cache, a.kid, a.reading, |w.loads|);
      hide Begin;
    }
    if a.Settle? && w.cache.loadedAt.Some? {
      var i: nat :| KeysFrom(w, i);
      assert PendingAt(w, a.load);
      assert i < a.load;
    }
  }

  /** The clock is alive and goes on living with this reading: a number, not negative, and not before the last. */
  predicate Lives(w: World, reading: Reading) {
    && !w.cache.clockFailed && reading.Some? && 0.0 <= reading.value
    && (w.cache.lastObserved.Some? ==> w.cache.lastObserved.value <= reading.value)
  }

  /** The keys come from load `i`, which began less than the maximum age before `now`. */
  predicate RecentKeys(w: World, i: nat, now: real) {
    KeysFrom(w, i) && now - w.loads[i].began < w.cache.maxAge
  }

  /**
   * `assertActive` passes exactly on a living clock with keys from a load, the last that succeeded, which began less than
   * the maximum age before the reading.
   */
  lemma ActiveMeansRecent(maxAge: real, actions: seq<Action>, reading: Reading)
    requires After(maxAge, actions).Some?
    ensures var w := After(maxAge, actions).value;
            Active(w.cache, reading) <==> Lives(w, reading) && exists i: nat :: RecentKeys(w, i, reading.value)
    ensures var w := After(maxAge, actions).value;
            Active(w.cache, reading) ==> exists i: nat :: KeysFrom(w, i) && 0.0 <= reading.value - w.loads[i].began < w.cache.maxAge
  {
    RunKeepsInv(maxAge, actions);
    var w := After(maxAge, actions).value;
    hide After;
    if Active(w.cache, reading) {
      var i: nat :| KeysFrom(w, i);
      assert RecentKeys(w, i, reading.value);
      assert reading.value - w.loads[i].began < w.cache.maxAge;
    }
  }

  /** The maximum age in force is the least of the first one and all those it was tightened to. */
  lemma {:induction false} MaxAgeIsLeast(maxAge: real, actions: seq<Action>)
    requires After(maxAge, actions).Some?
    ensures var age := After(maxAge, actions).value.cache.maxAge;
            && age <= maxAge && (forall k | 0 <= k < |actions| && actions[k].Tighten? :: age <= actions[k].age)
            && (age == maxAge || exists k :: 0 <= k < |actions| && actions[k] == Tighten(age))
  {
    if actions != [] {
      var before := actions[..|actions| - 1];
      MaxAgeIsLeast(maxAge, before);
      hide Apply, Enabled;
      MaxAgeMoves(After(maxAge, before).value, actions[|actions| - 1]);
      var age := After(maxAge, before).value.cache.maxAge;
      if age != maxAge {
        var k :| 0 <= k < |before| && before[k] == Tighten(age);
        assert actions[k] == Tighten(age);
      }
      forall k | 0 <= k < |before| && actions[k].Tighten? ensures age <= actions[k].age {
        assert before[k] == actions[k];
      }
    }
  }

  lemma MaxAgeMoves(w: World, a: Action)
    requires Enabled(w, a)
    ensures Apply(w, a).cache.maxAge == if a.Tighten? && a.age < w.cache.maxAge then a.age else w.cache.maxAge
  {
  }

  // ---------------------------------------------------------------- what every call is answered

  /** The keys held are from load `i` and include `kid`. */
  predicate Held(w: World, i: nat, kid: Text) {
    KeysFrom(w, i) && kid in w.loads[i].state.document
  }

  ghost predicate IsHeld(w: World, kid: Text) {
    exists i: nat :: Held(w, i, kid)
  }

  ghost predicate AreRecent(w: World, now: real) {
    exists i: nat :: RecentKeys(w, i, now)
  }

  /** A refresh on account of an unknown key was begun, or its cooldown restarted, less than five seconds ago. */
  predicate Cooling(w: World, now: real) {
    w.cache.nextUnknownKid.Some? && now < w.cache.nextUnknownKid.value
  }

  /** The call may have to wait out a cooldown: its key is unknown, and no stale key set is being replaced already. */
  ghost predicate MustCool(w: World, kid: Text, now: real) {
    !IsHeld(w, kid) && (AreRecent(w, now) || w.cache.inFlight.None?)
  }

  lemma HeldIsKnown(w: World, kid: Text)
    requires KeysInv(w)
    ensures IsHeld(w, kid) <==> Knows(w.cache, kid)
    ensures forall i: nat | KeysFrom(w, i) && Knows(w.cache, kid) :: w.cache.keys.value[kid] == w.loads[i].state.document[kid]
  {
    if w.cache.keys.Some? {
      var i: nat :| KeysFrom(w, i);
      assert Knows(w.cache, kid) ==> Held(w, i, kid);
    }
  }

  lemma RecentIsFresh(w: World, now: real)
    requires KeysInv(w)
    ensures AreRecent(w, now) <==> Fresh(w.cache, now)
  {
    if w.cache.keys.Some? {
      var i: nat :| KeysFrom(w, i);
      assert Fresh(w.cache, now) ==> RecentKeys(w, i, now);
    }
  }

  lemma LastStep(maxAge: real, actions: seq<Action>, a: Action)
    requires After(maxAge, actions).Some? && Enabled(After(maxAge, actions).value, a)
    ensures After(maxAge, actions + [a]) == Some(Apply(After(maxAge, actions).value, a))
  {
    assert (actions + [a])[..|actions|] == actions;
  }

  /**
   * What becomes of a call of `resolve` before it first waits. On a clock that does not live it fails. A key held from a
   * recent load is returned at once. A key that is unknown is refused during the cooldown. In all other cases the call
   * waits, for the load in flight if there is one, else for a load that it begins.
   */
  lemma StartDecides(maxAge: real, actions: seq<Action>, id: nat, kid: Text, reading: Reading)
    requires After(maxAge, actions).Some? && id !in After(maxAge, actions).value.calls
    ensures After(maxAge, actions + [Start(id, kid, reading)]).Some?
    ensures var w, v := After(maxAge, actions).value, After(maxAge, actions + [Start(id, kid, reading)]).value;
            && id in v.calls && v.calls == w.calls[id := v.calls[id]] && v.calls[id].kid == kid
            && var pc := v.calls[id].pc;
            && (!Lives(w, reading) ==> pc == Failed && v.loads == w.loads && v.cache.clockFailed)
            && (Lives(w, reading) ==>
                  var now := reading.value;
                  && !v.cache.clockFailed && v.cache.lastObserved == reading && v.cache.keys == w.cache.keys
                  && (forall i: nat | RecentKeys(w, i, now) && kid in w.loads[i].state.document ::
                        pc == Done(w.loads[i].state.document[kid]) && v.loads == w.loads)
                  && (!(IsHeld(w, kid) && AreRecent(w, now)) && MustCool(w, kid, now) && Cooling(w, now) ==>
                        pc == Failed && v.loads == w.loads)
                  && (!(IsHeld(w, kid) && AreRecent(w, now)) && !(MustCool(w, kid, now) && Cooling(w, now)) ==>
                        if w.cache.inFlight.Some? then
                          pc == AwaitingLoad(w.cache.inFlight.value, false, AreRecent(w, now), IsHeld(w, kid), now) && v.loads == w.loads
                        else
                          && pc == AwaitingLoad(|w.loads|, true, AreRecent(w, now), IsHeld(w, kid), now)
                          && v.loads == w.loads + [Load(now, Pending)]))
  {
    RunKeepsInv(maxAge, actions);
    var w := After(maxAge, actions).value;
    LastStep(maxAge, actions, Start(id, kid, reading));
    hide After;
    HeldIsKnown(w, kid);
    if reading.Some? {
      RecentIsFresh(w, reading.value);
      forall i: nat | RecentKeys(w, i, reading.value) && kid in w.loads[i].state.document
        ensures IsHeld(w, kid) && AreRecent(w, reading.value)
      {
        assert Held(w, i, kid);
      }
    }
    hide FlightInv, OrderInv, AnswersInv, KeysInv, IsHeld, AreRecent;
  }

  /** A load that settles replaces the keys by its document exactly when it has one and the clock is alive. */
  lemma SettleDecides(maxAge: real, actions: seq<Action>, load: nat, document: Option<KeySet>)
    requires After(maxAge, actions).Some? && PendingAt(After(maxAge, actions).value, load)
    ensures After(maxAge, actions + [Settle(load, document)]).Some?
    ensures var w, v := After(maxAge, actions).value, After(maxAge, actions + [Settle(load, document)]).value;
            && v.calls == w.calls && |v.loads| == |w.loads| && (forall k | 0 <= k < |w.loads| && k != load :: v.loads[k] == w.loads[k])
            && if document.Some? && !w.cache.clockFailed
               then v.loads[load].state == Fulfilled(document.value) && KeysFrom(v, load)
               else v.loads[load].state == Rejected && v.cache == w.cache
  {
    RunKeepsInv(maxAge, actions);
    LastStep(maxAge, actions, Settle(load, document));
    hide After, Begin;
  }

  /** A waiting call is told, once its load has settled, whether it succeeded. */
  lemma RefreshDecides(maxAge: real, actions: seq<Action>, id: nat)
    requires After(maxAge, actions).Some?
    requires var w := After(maxAge, actions).value;
             id in w.calls && w.calls[id].pc.AwaitingLoad? && !PendingAt(w, w.calls[id].pc.load)
    ensures After(maxAge, actions + [ResumeRefresh(id)]).Some?
    ensures var w, v := After(maxAge, actions).value, After(maxAge, actions + [ResumeRefresh(id)]).value;
            var pc := w.calls[id].pc;
            && pc.load < |w.loads| && v.loads == w.loads && v.cache.keys == w.cache.keys && v.calls.Keys == w.calls.Keys
            && v.calls[id] == Call(w.calls[id].kid, AwaitingRefresh(w.loads[pc.load].state.Fulfilled?, pc.wasFresh, pc.known, pc.now))
  {
    RunKeepsInv(maxAge, actions);
    LastStep(maxAge, actions, ResumeRefresh(id));
    hide After, Begin;
  }

  /** A call whose refresh succeeded returns its key exactly when the keys now held include it, and no clock has failed. */
  lemma ResolveDecides(maxAge: real, actions: seq<Action>, id: nat)
    requires After(maxAge, actions).Some?
    requires var w := After(maxAge, actions).value; id in w.calls && w.calls[id].pc.AwaitingRefresh?
    ensures After(maxAge, actions + [ResumeResolve(id)]).Some?
    ensures var w, v := After(maxAge, actions).value, After(maxAge, actions + [ResumeResolve(id)]).value;
            var kid := w.calls[id].kid;
            && id in v.calls && v.calls[id].kid == kid
            && (w.calls[id].pc.ok && !w.cache.clockFailed && IsHeld(w, kid) <==> v.calls[id].pc.Done?)
            && (v.calls[id].pc.Done? ==> forall i: nat | KeysFrom(w, i) :: v.calls[id].pc.key == w.loads[i].state.document[kid])
            && (!v.calls[id].pc.Done? ==> v.calls[id].pc == Failed)
  {
    RunKeepsInv(maxAge, actions);
    var w := After(maxAge, actions).value;
    LastStep(maxAge, actions, ResumeResolve(id));
    hide After, Begin;
    HeldIsKnown(w, w.calls[id].kid);
    hide FlightInv, OrderInv, AnswersInv, KeysInv, IsHeld;
  }

  predicate Ended(w: World, id: nat) {
    id in w.calls && (w.calls[id].pc.Done? || w.calls[id].pc == Failed)
  }

  /** How far a call is from its end. */
  function StepsLeft(w: World, id: nat): nat
    requires id in w.calls
  {
    match w.calls[id].pc
    case AwaitingLoad(load, _, _, _, _) => if PendingAt(w, load) then 3 else 2
    case AwaitingRefresh(_, _, _, _) => 1
    case _ => 0
  }

  lemma OneStepNearer(maxAge: real, actions: seq<Action>, id: nat) returns (a: Action)
    requires After(maxAge, actions).Some? && id in After(maxAge, actions).value.calls && !Ended(After(maxAge, actions).value, id)
    ensures After(maxAge, actions + [a]).Some? && id in After(maxAge, actions + [a]).value.calls
    ensures StepsLeft(After(maxAge, actions + [a]).value, id) < StepsLeft(After(maxAge, actions).value, id)
  {
    hide After, IsHeld, KeysFrom;
    var w := After(maxAge, actions).value;
    match w.calls[id].pc
    case AwaitingRefresh(_, _, _, _) =>
      a := ResumeResolve(id);
      ResolveDecides(maxAge, actions, id);
    case AwaitingLoad(load, _, _, _, _) =>
      if PendingAt(w, load) {
        a := Settle(load, None);
        SettleDecides(maxAge, actions, load, None);
      } else {
        a := ResumeRefresh(id);
        RefreshDecides(maxAge, actions, id);
      }
  }

  /** No call is ever stuck: from every reachable state it can be brought to its end, its load settling if it is pending. */
  lemma EveryResolveCanEnd(maxAge: real, actions: seq<Action>, id: nat) returns (more: seq<Action>)
    requires After(maxAge, actions).Some? && id in After(maxAge, actions).value.calls
    ensures After(maxAge, actions + more).Some? && Ended(After(maxAge, actions + more).value, id)
    decreases StepsLeft(After(maxAge, actions).value, id)
  {
    hide *;
    if Ended(After(maxAge, actions).value, id) {
      more := [];
      assert actions + more == actions;
    } else {
      var a := OneStepNearer(maxAge, actions, id);
      var rest := EveryResolveCanEnd(maxAge, actions + [a], id);
      more := [a] + rest;
      assert actions + [a] + rest == actions + more;
    }
  }

  /** Every key `resolve` returned was in a document some load fetched, under the name asked for. */
  lemma AnswersAreFetched(maxAge: real, actions: seq<Action>, id: nat)
    requires After(maxAge, actions).Some?
    requires var w := After(maxAge, actions).value; id in w.calls && w.calls[id].pc.Done?
    ensures var w := After(maxAge, actions).value; exists i: nat :: Vouches(w, i, w.calls[id].kid, w.calls[id].pc.key)
  {
    RunKeepsInv(maxAge, actions);
  }

  lemma DeadStep(w: World, a: Action)
    requires Enabled(w, a) && w.cache.clockFailed && w.cache.keys.None?
    ensures var v := Apply(w, a);
            && v.cache.clockFailed && v.cache.keys.None?
            && forall id | id in v.calls && v.calls[id].pc.Done? :: id in w.calls && w.calls[id] == v.calls[id]
  {
    if a.Start? {
      BeginFacts(w.cache, a.kid, a.reading, |w.loads|);
      hide Begin;
    }
  }

  /**
   * After the clock has failed no call ever returns a key again: whatever follows, the calls that have a key are
   * those that had it.
   */
  lemma {:induction false} NoKeyAfterClockFailure(maxAge: real, actions: seq<Action>, more: seq<Action>)
    requires After(maxAge, actions).Some? && After(maxAge, actions).value.cache.clockFailed
    requires After(maxAge, actions + more).Some?
    ensures var w, v := After(maxAge, actions).value, After(maxAge, actions + more).value;
            && v.cache.clockFailed && v.cache.keys.None?
            && forall id | id in v.calls && v.calls[id].pc.Done? :: id in w.calls && w.calls[id] == v.calls[id]
    decreases |more|
  {
    if more == [] {
      assert actions + more == actions;
      RunKeepsInv(maxAge, actions);
    } else {
      var most := more[..|more| - 1];
      assert (actions + more)[..|actions + more| - 1] == actions + most;
      NoKeyAfterClockFailure(maxAge, actions, most);
      DeadStep(After(maxAge, actions + most).value, more[|more| - 1]);
    }
  }

  // ---------------------------------------------------------------- the cooldown after an unknown key

  /** The action is a call that, on account of an unknown key, waits for a load from this reading on. */
  ghost predicate BeginsUnknown(w: World, a: Action, now: real) {
    && Enabled(w, a) && a.Start? && a.reading == Some(now) && Lives(w, a.reading) && MustCool(w, a.kid, now)
    && Apply(w, a).calls[a.id].pc.AwaitingLoad?
  }

  /** A call whose key was held before its refresh and is gone after it starts the cooldown afresh, as of its start. */
  ghost predicate Restarts(w: World, a: Action) {
    && a.ResumeResolve? && a.id in w.calls && w.calls[a.id].pc.AwaitingRefresh? && w.calls[a.id].pc.ok
    && !w.cache.clockFailed && !IsHeld(w, w.calls[a.id].kid) && !w.calls[a.id].pc.wasFresh && w.calls[a.id].pc.known
  }

  predicate CoolUntil(c: Cache, until: real) {
    c.nextUnknownKid.Some? && c.nextUnknownKid.value >= until
  }

  lemma BeginCools(w: World, a: Action, now: real)
    requires KeysInv(w) && BeginsUnknown(w, a, now)
    ensures !Cooling(w, now) && Apply(w, a).cache.nextUnknownKid == Some(now + 5000.0)
  {
    HeldIsKnown(w, a.kid);
    RecentIsFresh(w, now);
    hide KeysInv, IsHeld, AreRecent;
  }

  lemma CoolingLasts(w: World, a: Action, until: real)
    requires KeysInv(w) && Enabled(w, a) && CoolUntil(w.cache, until) && !Restarts(w, a)
    ensures CoolUntil(Apply(w, a).cache, until)
  {
    if a.ResumeResolve? {
      HeldIsKnown(w, w.calls[a.id].kid);
    }
    hide KeysInv, IsHeld;
  }

  /** A step that sets the cooldown is one of those two, and sets it for five seconds. */
  lemma CooldownSet(w: World, a: Action)
    requires KeysInv(w) && Enabled(w, a) && Apply(w, a).cache.nextUnknownKid != w.cache.nextUnknownKid
    ensures Apply(w, a).cache.nextUnknownKid.Some? && Cools(w, a, Apply(w, a).cache.nextUnknownKid.value)
  {
    if a.ResumeResolve? {
      HeldIsKnown(w, w.calls[a.id].kid);
    } else if a.Start? && a.reading.Some? {
      HeldIsKnown(w, a.kid);
      RecentIsFresh(w, a.reading.value);
    }
    hide KeysInv, IsHeld, AreRecent;
  }

  lemma AfterPrefix(maxAge: real, actions: seq<Action>, i: nat)
    requires i < |actions| && After(maxAge, actions).Some?
    ensures After(maxAge, actions[..i]).Some? && Enabled(After(maxAge, actions[..i]).value, actions[i])
    ensures After(maxAge, actions[..i + 1]) == Some(Apply(After(maxAge, actions[..i]).value, actions[i]))
    decreases |actions|
  {
    var before := actions[..|actions| - 1];
    if i + 1 < |actions| {
      AfterPrefix(maxAge, before, i);
      assert before[..i] == actions[..i] && before[..i + 1] == actions[..i + 1];
    } else {
      assert actions[..i + 1] == actions;
    }
  }

  /** Between two refreshes begun for unknown keys five seconds pass, unless the cooldown was restarted in between. */
  lemma {:induction false} UnknownKeysAreSpaced(maxAge: real, actions: seq<Action>, i: nat, j: nat, x: real, y: real)
    requires i < j < |actions| && After(maxAge, actions).Some? && After(maxAge, actions[..i]).Some? && After(maxAge, actions[..j]).Some?
    requires BeginsUnknown(After(maxAge, actions[..i]).value, actions[i], x)
    requires BeginsUnknown(After(maxAge, actions[..j]).value, actions[j], y)
    requires forall k | i < k < j && After(maxAge, actions[..k]).Some? :: !Restarts(After(maxAge, actions[..k]).value, actions[k])
    ensures x + 5000.0 <= y
  {
    hide After, Apply, Enabled, BeginsUnknown, Restarts;
    PrefixKeys(maxAge, actions, i);
    BeginCools(After(maxAge, actions[..i]).value, actions[i], x);
    var k := i + 1;
    while k < j
      invariant i < k <= j && After(maxAge, actions[..k]).Some?
      invariant CoolUntil(After(maxAge, actions[..k]).value.cache, x + 5000.0)
    {
      PrefixKeys(maxAge, actions, k);
      CoolingLasts(After(maxAge, actions[..k]).value, actions[k], x + 5000.0);
      k := k + 1;
    }
    PrefixKeys(maxAge, actions, j);
    BeginCools(After(maxAge, actions[..j]).value, actions[j], y);
  }

  lemma PrefixKeys(maxAge: real, actions: seq<Action>, i: nat)
    requires i < |actions| && After(maxAge, actions).Some?
    ensures After(maxAge, actions[..i]).Some? && Enabled(After(maxAge, actions[..i]).value, actions[i])
    ensures After(maxAge, actions[..i + 1]) == Some(Apply(After(maxAge, actions[..i]).value, actions[i]))
    ensures KeysInv(After(maxAge, actions[..i]).value)
  {
    AfterPrefix(maxAge, actions, i);
    RunKeepsInv(maxAge, actions[..i]);
    hide After, KeysInv, Apply, Enabled;
  }

  /** Action `k` set a cooldown that ends at `until`, five seconds after its refresh began or its call had begun. */
  ghost predicate CooledBy(maxAge: real, actions: seq<Action>, k: nat, until: real) {
    && k < |actions| && After(maxAge, actions[..k]).Some? && Cools(After(maxAge, actions[..k]).value, actions[k], until)
  }

  ghost predicate Cools(w: World, a: Action, until: real) {
    BeginsUnknown(w, a, until - 5000.0) || (Restarts(w, a) && w.calls[a.id].pc.now + 5000.0 == until)
  }

  /** A cooldown in force was set by an unknown key's refresh, or by a key that disappeared, and lasts five seconds. */
  lemma {:induction false} CooldownHasCause(maxAge: real, actions: seq<Action>)
    requires After(maxAge, actions).Some? && After(maxAge, actions).value.cache.nextUnknownKid.Some?
    ensures exists k: nat :: CooledBy(maxAge, actions, k, After(maxAge, actions).value.cache.nextUnknownKid.value)
  {
    if actions != [] {
      var before := actions[..|actions| - 1];
      var a := actions[|actions| - 1];
      RunKeepsInv(maxAge, before);
      hide Apply, Enabled, KeysInv, Cools;
      var w := After(maxAge, before).value;
      var until := After(maxAge, actions).value.cache.nextUnknownKid.value;
      if Apply(w, a).cache.nextUnknownKid == w.cache.nextUnknownKid {
        CooldownHasCause(maxAge, before);
        var k: nat :| CooledBy(maxAge, before, k, until);
        hide After;
        assert before[..k] == actions[..k];
        assert CooledBy(maxAge, actions, k, until);
      } else {
        CooldownSet(w, a);
        assert CooledBy(maxAge, actions, |before|, until);
      }
    }
  }
}
