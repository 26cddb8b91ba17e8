/**
 * The process-wide profile cache: a TTL store of settled values and a registry of the
 * computations still in flight, keyed by the same string. `State` is the specification,
 * as a value; `Cache` is the mutable object whose two map fields the source updates in
 * place, with every method proved to move its state exactly as `State` says.
 *
 * A call of `cachedProfile` is split at its one suspension point: `Lookup` is the
 * synchronous part up to the `await` (hit, join or start-and-register), `Settle` is what
 * happens when the started fetcher's promise settles (store on success, then the
 * `finally` that drops the registration). Clock readings are parameters.
 */
module ProfileCache {

  /** A stored value and the instant (in milliseconds) from which it no longer counts. */
  datatype Entry<T> = Entry(value: T, expiresAt: int)

  /** The identity of a promise registered in the in-flight map. */
  datatype Pending = Pending(id: nat)

  /** How a call proceeds after its synchronous part. */
  datatype Step<T> =
    | Hit(value: T)           // returned the stored value
    | Join(pending: Pending)  // awaits the computation already in flight
    | Start(pending: Pending) // invoked the fetcher and registered its promise

  /** How a fetcher's promise settles. */
  datatype Outcome<T> = Fulfilled(value: T) | Rejected(reason: string)

  /** The two maps, and the number of fetcher invocations so far (which also names the next promise). */
  datatype State<T> = State(store: map<string, Entry<T>>, inflight: map<string, Pending>, started: nat)
  {
    /** Every registered promise is one of the computations started so far. */
    predicate Valid() {
      forall k :: k in inflight ==> inflight[k].id < started
    }

    /** `hit && now < hit.expiresAt`: the strict expiry test. */
    predicate IsFresh(key: string, now: int) {
      key in store && now < store[key].expiresAt
    }

    /** The synchronous part of `cachedProfile(key, ...)` at time `now`. */
    function Lookup(key: string, now: int): (r: (Step<T>, State<T>))
      ensures r.1.store == store
      ensures r.0.Hit? <==> IsFresh(key, now)
      ensures r.0.Hit? ==> r.0.value == store[key].value && r.1 == this
      ensures r.0.Join? <==> !IsFresh(key, now) && key in inflight
      ensures r.0.Join? ==> r.0.pending == inflight[key] && r.1 == this
      ensures r.0.Start? ==> && r.1.started == started + 1
                             && key in r.1.inflight && r.1.inflight[key] == r.0.pending
                             && (forall k :: k != key ==> (k in r.1.inflight <==> k in inflight))
                             && (forall k :: k != key && k in inflight ==> r.1.inflight[k] == inflight[k])
      ensures Valid() ==> r.1.Valid()
      ensures Valid() && r.0.Start? ==> forall k :: k in inflight ==> inflight[k] != r.0.pending
    {
      if IsFresh(key, now) then (Hit(store[key].value), this)
      else if key in inflight then (Join(inflight[key]), this)
      else
        var p := Pending(started);
        (Start(p), State(store, inflight[key := p], started + 1))
    }

    /** The started computation for `key` settles at time `now`: a value is stored until
        `now + ttl` (the completion time, not the lookup time), a rejection stores nothing,
        and in both cases the key's registration is dropped. */
    function Settle(key: string, outcome: Outcome<T>, now: int, ttl: int): (s: State<T>)
      ensures key !in s.inflight
      ensures forall k :: k != key ==> (k in s.inflight <==> k in inflight)
      ensures forall k :: k != key && k in inflight ==> s.inflight[k] == inflight[k]
      ensures s.started == started
      ensures outcome.Fulfilled? ==> key in s.store && s.store[key] == Entry(outcome.value, now + ttl)
      ensures outcome.Fulfilled? ==> forall k :: k != key ==> (k in s.store <==> k in store)
      ensures outcome.Fulfilled? ==> forall k :: k != key && k in store ==> s.store[k] == store[k]
      ensures outcome.Rejected? ==> s.store == store
      ensures Valid() ==> s.Valid()
    {
      var store' := if outcome.Fulfilled? then store[key := Entry(outcome.value, now + ttl)] else store;
      State(store', inflight - {key}, started)
    }

    /** `invalidateProfile(key)`: the key leaves both maps; no other key is touched. */
    function Invalidate(key: string): (s: State<T>)
      ensures key !in s.store && key !in s.inflight
      ensures forall k :: k != key ==> (k in s.store <==> k in store) && (k in s.inflight <==> k in inflight)
      ensures forall k :: k != key && k in store ==> s.store[k] == store[k]
      ensures forall k :: k != key && k in inflight ==> s.inflight[k] == inflight[k]
      ensures s.started == started
      ensures Valid() ==> s.Valid()
    {
      State(store - {key}, inflight - {key}, started)
    }
  }

  /** One whole `cachedProfile(key, ttlMs, fetcher)` call at `now` with no other call
      running meanwhile: `fetched` is what the fetcher settles with at `completedAt` if the
      call starts it, `joined` what the computation already in flight settles with if the
      call joins it. The call's outcome, and the state it leaves. */
  function Call<T>(s: State<T>, key: string, ttlMs: int, now: int, fetched: Outcome<T>, completedAt: int, joined: Outcome<T>)
    : (r: (Outcome<T>, State<T>))
    ensures s.IsFresh(key, now) ==> r == (Fulfilled(s.store[key].value), s)
    ensures !s.IsFresh(key, now) && key in s.inflight ==> r == (joined, s)
    ensures !s.IsFresh(key, now) && key !in s.inflight ==>
              && r.0 == fetched
              && r.1.started == s.started + 1
              && r.1.inflight == s.inflight
              && r.1.store == if fetched.Fulfilled? then s.store[key := Entry(fetched.value, completedAt + ttlMs)]
                              else s.store
    ensures s.Valid() ==> r.1.Valid()
  {
    var (step, s1) := s.Lookup(key, now);
    match step
    case Hit(v) => (Fulfilled(v), s1)
    case Join(_) => (joined, s1)
    case Start(_) =>
      var s2 := s1.Settle(key, fetched, completedAt, ttlMs);
      assert s2.inflight == s.inflight;
      (fetched, s2)
  }

  /** An empty cache, as the module creates it. */
  function Empty<T>(): (s: State<T>)
    ensures s.Valid()
    ensures forall k, now :: !s.IsFresh(k, now) && k !in s.inflight
  {
    State(map[], map[], 0)
  }

  /** Expiry is strict: at the very instant `expiresAt` the entry is a miss, and the miss
      leaves the expired entry where it was. */
  lemma StrictExpiry<T>(s: State<T>, key: string)
    requires key in s.store
    ensures var (step, s') := s.Lookup(key, s.store[key].expiresAt);
            !step.Hit? && key in s'.store && s'.store[key] == s.store[key]
  {
  }

  /** `invalidateProfile` twice is `invalidateProfile` once. */
  lemma InvalidateIdempotent<T>(s: State<T>, key: string)
    ensures s.Invalidate(key).Invalidate(key) == s.Invalidate(key)
  {
  }

  /** After an invalidation, the next call for that key invokes the fetcher. */
  lemma InvalidateThenMiss<T>(s: State<T>, key: string, now: int)
    ensures s.Invalidate(key).Lookup(key, now).0.Start?
  {
  }

  /** A value stored at `t0` is served without a fetch at every `t < t0 + ttl`; at every
      later instant the next call (the registration being gone) starts one new fetch. */
  lemma TtlWindow<T>(s: State<T>, key: string, v: T, t0: int, ttl: int, t: int)
    ensures var s' := s.Settle(key, Fulfilled(v), t0, ttl);
            && (t < t0 + ttl ==> s'.Lookup(key, t) == (Hit(v), s'))
            && (t >= t0 + ttl ==> s'.Lookup(key, t).0 == Start(Pending(s.started)))
  {
  }

  /** No negative caching: when a started fetch is rejected, the next call at any later
      instant starts a new fetch, and the store is as it was before the call. */
  lemma NoNegativeCaching<T>(s: State<T>, key: string, t1: int, reason: string, t2: int, ttl: int, t3: int)
    requires s.Lookup(key, t1).0.Start?
    requires t1 <= t3
    ensures var s2 := s.Lookup(key, t1).1.Settle(key, Rejected(reason), t2, ttl);
            s2.store == s.store && s2.Lookup(key, t3).0.Start?
  {
  }

  /** Invalidation does not reach a fetch already under way: when a fetch started before
      `invalidateProfile` settles with a value, that value is stored all the same. */
  lemma InvalidateDuringFlight<T>(s: State<T>, key: string, t1: int, v: T, t2: int, ttl: int)
    requires s.Lookup(key, t1).0.Start? && ttl > 0
    ensures var s3 := s.Lookup(key, t1).1.Invalidate(key).Settle(key, Fulfilled(v), t2, ttl);
            s3.IsFresh(key, t2) && s3.store[key] == Entry(v, t2 + ttl)
  {
  }

  /** The `finally` of an older call drops the registration of a newer one: a fetch is
      started, the key is invalidated, a second fetch is started; when the first one fails,
      nothing is registered any more, so a third call starts a third fetch while the second
      is still running. */
  lemma StaleSettleDropsNewerRegistration<T>(s: State<T>, key: string, t1: int, t2: int,
                                             reason: string, t3: int, ttl: int, t4: int)
    requires s.Lookup(key, t1).0.Start?
    ensures var s1 := s.Lookup(key, t1).1.Invalidate(key);
            var (step2, s2) := s1.Lookup(key, t2);
            var s3 := s2.Settle(key, Rejected(reason), t3, ttl);
            && step2 == Start(Pending(s.started + 1))
            && s3.Lookup(key, t4).0 == Start(Pending(s.started + 2))
  {
  }

  /** The calls for `key` at the instants `times`, one after the other, none settling:
      their steps, and the state they leave. */
  function LookupAll<T>(s: State<T>, key: string, times: seq<int>): (r: (seq<Step<T>>, State<T>))
    ensures |r.0| == |times|
    decreases |times|
  {
    if times == [] then ([], s)
    else
      var (step, s1) := s.Lookup(key, times[0]);
      var (rest, s2) := LookupAll(s1, key, times[1..]);
      ([step] + rest, s2)
  }

  /** Calls that find `key` in flight and no fresh entry all join that one computation. */
  lemma {:induction false} AllJoin<T>(s: State<T>, key: string, times: seq<int>)
    requires key in s.inflight
    requires forall i :: 0 <= i < |times| ==> !s.IsFresh(key, times[i])
    ensures var (steps, s') := LookupAll(s, key, times);
            s' == s && forall i :: 0 <= i < |steps| ==> steps[i] == Join(s.inflight[key])
  {
    if times != [] {
      AllJoin(s, key, times[1..]);
    }
  }

  /** Single flight: of any number of calls for a key that arrive, at or after the first
      one's instant, before its fetch settles, the first starts the only fetch and every
      other one joins it; the store is untouched. */
  lemma SingleFlight<T>(s: State<T>, key: string, times: seq<int>)
    requires |times| > 0 && !s.IsFresh(key, times[0]) && key !in s.inflight
    requires forall i :: 0 <= i < |times| ==> times[0] <= times[i]
    ensures var (steps, s') := LookupAll(s, key, times);
            && steps[0] == Start(Pending(s.started))
            && (forall i :: 1 <= i < |steps| ==> steps[i] == Join(Pending(s.started)))
            && s'.started == s.started + 1
            && s'.store == s.store
  {
    var (step, s1) := s.Lookup(key, times[0]);
    var rest := times[1..];
    assert forall i :: 0 <= i < |rest| ==> !s1.IsFresh(key, rest[i]) by {
      forall i | 0 <= i < |rest| ensures !s1.IsFresh(key, rest[i]) {
        assert rest[i] == times[i + 1];
      }
    }
    AllJoin(s1, key, rest);
  }

  /** The live cache: the two module-level maps, and the count of fetcher invocations,
      which models the identity of each promise it creates. */
  class Cache<T> {
    var store: map<string, Entry<T>>
    var inflight: map<string, Pending>
    var started: nat

    function Model(): State<T>
      reads this
    {
      State(store, inflight, started)
    }

    ghost predicate Valid()
      reads this
    {
      Model().Valid()
    }

    constructor ()
      ensures Valid() && Model() == Empty()
    {
      store, inflight, started := map[], map[], 0;
    }

    /** The synchronous part of `cachedProfile`. */
    method Lookup(key: string, now: int) returns (step: Step<T>)
      requires Valid()
      modifies this
      ensures Valid()
      ensures (step, Model()) == old(Model()).Lookup(key, now)
    {
      if key in store && now < store[key].expiresAt {
        return Hit(store[key].value);
      }
      if key in inflight {
        return Join(inflight[key]);
      }
      var p := Pending(started);
      inflight := inflight[key := p];
      started := started + 1;
      step := Start(p);
    }

    /** The started fetcher's promise settles at `now`: on success the value is stored with
        `expiresAt = now + ttlMs`; then, whatever the outcome, the key is deleted from `inflight`. */
    method Settle(key: string, outcome: Outcome<T>, now: int, ttlMs: int)
      requires Valid()
      modifies this
      ensures Valid()
      ensures Model() == old(Model()).Settle(key, outcome, now, ttlMs)
    {
      if outcome.Fulfilled? {
        store := store[key := Entry(outcome.value, now + ttlMs)];
      }
      inflight := inflight - {key};
    }

    /** `invalidateProfile(key)`. */
    method Invalidate(key: string)
      requires Valid()
      modifies this
      ensures Valid()
      ensures Model() == old(Model()).Invalidate(key)
    {
      store := store - {key};
      inflight := inflight - {key};
    }

    /** One whole `cachedProfile(key, ttlMs, fetcher)` call, as `Call` describes it. */
    method CachedProfile(key: string, ttlMs: int, now: int, fetched: Outcome<T>, completedAt: int, joined: Outcome<T>)
      returns (outcome: Outcome<T>)
      requires Valid()
      modifies this
      ensures Valid()
      ensures (outcome, Model()) == Call(old(Model()), key, ttlMs, now, fetched, completedAt, joined)
    {
      var step := Lookup(key, now);
      match step
      case Hit(v) =>
        outcome := Fulfilled(v);
      case Join(_) =>
        outcome := joined;
      case Start(_) =>
        Settle(key, fetched, completedAt, ttlMs);
        outcome := fetched;
    }
  }
}
