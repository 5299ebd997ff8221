/**
 * The fixed-window request limiter of lib/rate-limit.ts.
 *
 * One module-level store maps a client key to its record (a request count and
 * the time, in milliseconds, at which the window resets). JavaScript's `Map`
 * remembers insertion order, which the size-based eviction relies on, so the
 * store is kept as the list of keys in insertion order beside the map of
 * records. Clock readings are parameters: `check` reads the clock once itself
 * and once more inside the cleanup it calls.
 */
module RateLimit {
  import opened Js
  import opened Seqs

  datatype Config = Config(interval: int, maxRequests: int)

  /** The three limiters the application creates. */
  const AiLimit := Config(60 * 1000, 10)
  const AuthLimit := Config(15 * 60 * 1000, 5)
  const InviteLimit := Config(60 * 60 * 1000, 10)

  const MaxStoreSize := 10000
  const EvictCount := 1000

  datatype RateRecord = RateRecord(count: int, resetTime: int)

  /** What `check` resolves to; `reset` (seconds) is only present on a denial. */
  datatype Outcome = Outcome(success: bool, remaining: int, reset: Option<int>)

  predicate Expired(r: RateRecord, now: int) {
    now > r.resetTime
  }

  /** The store: keys in insertion order, and the record of each. */
  datatype Store = Store(keys: seq<string>, records: map<string, RateRecord>)

  predicate WellFormed(st: Store) {
    Distinct(st.keys) && Elems(st.keys) == st.records.Keys
  }

  /** The keys whose record has not expired, in insertion order. */
  function Live(keys: seq<string>, records: map<string, RateRecord>, now: int): (r: seq<string>)
    requires forall k :: k in keys ==> k in records
    ensures |r| <= |keys|
    ensures forall k :: k in r <==> k in keys && !Expired(records[k], now)
  {
    if keys == [] then []
    else (if Expired(records[keys[0]], now) then [] else [keys[0]]) + Live(keys[1..], records, now)
  }

  /** The keys whose record has expired, in insertion order (the first loop of the cleanup). */
  function ExpiredKeys(keys: seq<string>, records: map<string, RateRecord>, now: int): (r: seq<string>)
    requires forall k :: k in keys ==> k in records
    ensures forall k :: k in r <==> k in keys && Expired(records[k], now)
  {
    if keys == [] then []
    else
      var last := keys[|keys| - 1];
      ExpiredKeys(keys[..|keys| - 1], records, now) + (if Expired(records[last], now) then [last] else [])
  }

  function Restrict(records: map<string, RateRecord>, keys: set<string>): (r: map<string, RateRecord>)
    ensures r.Keys == records.Keys * keys
    ensures forall k :: k in r ==> r[k] == records[k]
  {
    map k | k in records && k in keys :: records[k]
  }

  /**
   * The store after `cleanupExpiredRecords`: expired records removed, then, if
   * more than MaxStoreSize remain, the EvictCount oldest ones as well.
   */
  function Cleaned(st: Store, now: int): (r: Store)
    requires WellFormed(st)
    ensures WellFormed(r)
  {
    var live := Live(st.keys, st.records, now);
    LiveDistinct(st.keys, st.records, now);
    var keys := if |live| > MaxStoreSize then live[EvictCount..] else live;
    Store(keys, Restrict(st.records, Elems(keys)))
  }

  lemma {:induction false} LiveDistinct(keys: seq<string>, records: map<string, RateRecord>, now: int)
    requires forall k :: k in keys ==> k in records
    requires Distinct(keys)
    ensures Distinct(Live(keys, records, now))
  {
    var gone := set k | k in keys && Expired(records[k], now);
    LiveIsWithout(keys, records, now, gone);
    WithoutDistinct(keys, gone);
  }

  lemma {:induction false} LiveIsWithout(keys: seq<string>, records: map<string, RateRecord>, now: int, gone: set<string>)
    requires forall k :: k in keys ==> k in records
    requires forall k :: k in keys ==> (k in gone <==> Expired(records[k], now))
    ensures Live(keys, records, now) == Without(keys, gone)
  {
    if keys != [] {
      LiveIsWithout(keys[1..], records, now, gone);
    }
  }

  lemma ElemsSnoc(s: seq<string>, j: nat)
    requires j < |s|
    ensures Elems(s[..j]) + {s[j]} == Elems(s[..j + 1])
  {
    assert s[..j + 1] == s[..j] + [s[j]];
  }

  lemma SubmapIsRestrict(m: map<string, RateRecord>, r: map<string, RateRecord>)
    requires forall k :: k in m ==> k in r && m[k] == r[k]
    ensures m == Restrict(r, m.Keys)
  {
  }

  lemma RestrictTwice(records: map<string, RateRecord>, a: set<string>, b: set<string>)
    requires b <= a
    ensures Restrict(Restrict(records, a), b) == Restrict(records, b)
  {
  }

  lemma CleanedIs(st: Store, now: int, keys: seq<string>, records: map<string, RateRecord>)
    requires WellFormed(st)
    requires var live := Live(st.keys, st.records, now);
      keys == if |live| > MaxStoreSize then live[EvictCount..] else live
    requires records == Restrict(st.records, Elems(keys))
    ensures Cleaned(st, now) == Store(keys, records)
  {
  }

  /** Cleanup keeps exactly the unexpired records while the store is within its bound. */
  lemma CleanedWithinBound(st: Store, now: int, k: string)
    requires WellFormed(st)
    requires |Live(st.keys, st.records, now)| <= MaxStoreSize
    ensures k in Cleaned(st, now).records <==> k in st.records && !Expired(st.records[k], now)
  {
  }

  /**
   * After cleanup no expired record is left, every survivor is unchanged, the
   * survivors keep their insertion order, and an eviction drops exactly the
   * EvictCount oldest live keys.
   */
  lemma CleanedSound(st: Store, now: int)
    requires WellFormed(st)
    ensures var r := Cleaned(st, now);
      && (forall k :: k in r.records ==> k in st.records && r.records[k] == st.records[k] && !Expired(r.records[k], now))
      && var live := Live(st.keys, st.records, now);
         r.keys == if |live| > MaxStoreSize then live[EvictCount..] else live
  {
    var live := Live(st.keys, st.records, now);
    forall k | k in Cleaned(st, now).records ensures k in live {
      if |live| > MaxStoreSize {
        assert k in live[EvictCount..];
      }
    }
  }

  /**
   * The decision `check` takes once the cleanup has run, given the key's record
   * (if any): the record it leaves in the store and the outcome it returns.
   */
  function Decide(record: Option<RateRecord>, cfg: Config, now: int): (r: (RateRecord, Outcome))
    ensures r.1.success <==> record.None? || Expired(record.value, now) || record.value.count < cfg.maxRequests
    ensures r.1.success ==> r.1.remaining == cfg.maxRequests - r.0.count && r.1.reset.None?
    ensures r.1.success && (record.None? || Expired(record.value, now)) ==>
      r.0 == RateRecord(1, now + cfg.interval)
    ensures r.1.success && record.Some? && !Expired(record.value, now) ==>
      r.0 == record.value.(count := record.value.count + 1)
    ensures !r.1.success ==> r.0 == record.value && r.1.remaining == 0
    ensures !r.1.success ==> r.1.reset.Some? && 1000 * (r.1.reset.value - 1) < record.value.resetTime - now <= 1000 * r.1.reset.value
  {
    if record.None? || Expired(record.value, now) then
      (RateRecord(1, now + cfg.interval), Outcome(true, cfg.maxRequests - 1, None))
    else if record.value.count >= cfg.maxRequests then
      (record.value, Outcome(false, 0, Some(CeilDiv(record.value.resetTime - now, 1000))))
    else
      var updated := record.value.(count := record.value.count + 1);
      (updated, Outcome(true, cfg.maxRequests - updated.count, None))
  }

  /** The store and outcome of the decision part of `check`, on the cleaned store `c`. */
  function Step(c: Store, cfg: Config, key: string, now: int): (r: (Store, Outcome))
    requires WellFormed(c)
    ensures WellFormed(r.0)
  {
    var d := Decide(if key in c.records then Some(c.records[key]) else None, cfg, now);
    var keys := if key in c.records then c.keys else c.keys + [key];
    assert Distinct(keys);
    (Store(keys, c.records[key := d.0]), d.1)
  }

  /** The store and outcome of one `check` for `key`; `cleanupNow` is the cleanup's own clock reading. */
  function Checked(st: Store, cfg: Config, key: string, now: int, cleanupNow: int): (r: (Store, Outcome))
    requires WellFormed(st)
    ensures WellFormed(r.0)
  {
    Step(Cleaned(st, cleanupNow), cfg, key, now)
  }

  /**
   * With a clock that does not run backwards, the cleanup inside `check` has
   * already removed every record that `check`'s own expiry test would catch:
   * a record found after cleanup is never expired.
   */
  lemma FoundRecordNotExpired(st: Store, key: string, now: int, cleanupNow: int)
    requires WellFormed(st) && now <= cleanupNow
    requires key in Cleaned(st, cleanupNow).records
    ensures !Expired(Cleaned(st, cleanupNow).records[key], now)
  {
    CleanedSound(st, cleanupNow);
  }

  predicate CountsAtMost(st: Store, bound: int) {
    forall k :: k in st.records ==> st.records[k].count <= bound
  }

  /**
   * The stored count never exceeds the limit: if every count is within `bound`
   * and the limiter's maximum is between 1 and `bound`, a check keeps it so.
   */
  lemma CheckKeepsCountBound(st: Store, cfg: Config, key: string, now: int, cleanupNow: int, bound: int)
    requires WellFormed(st) && CountsAtMost(st, bound)
    requires 1 <= cfg.maxRequests <= bound
    ensures CountsAtMost(Checked(st, cfg, key, now, cleanupNow).0, bound)
  {
    CleanedSound(st, cleanupNow);
  }

  /** A successful check reports the requests left; a denial reports none and changes no count. */
  lemma CheckRemaining(st: Store, cfg: Config, key: string, now: int, cleanupNow: int)
    requires WellFormed(st)
    ensures var (st', out) := Checked(st, cfg, key, now, cleanupNow);
      && key in st'.records
      && (out.success ==> out.remaining == cfg.maxRequests - st'.records[key].count)
      && (!out.success ==> out.remaining == 0 && st'.records[key] == st.records[key])
  {
    CleanedSound(st, cleanupNow);
  }

  /** `getClientIdentifier`: the first field of `x-forwarded-for`, else `x-real-ip`, else the loopback address. */
  function ClientIdentifier(forwardedFor: Option<string>, realIp: Option<string>): (r: string)
    ensures |r| >= 3 && r[..3] == "ip:"
    ensures forwardedFor.Some? && forwardedFor.value != "" ==>
      r[3..] == Split(forwardedFor.value, ',')[0] && ',' !in r[3..]
    ensures (forwardedFor.None? || forwardedFor.value == "") && realIp.Some? && realIp.value != "" ==>
      r[3..] == realIp.value
    ensures (forwardedFor.None? || forwardedFor.value == "") && (realIp.None? || realIp.value == "") ==>
      r[3..] == "127.0.0.1"
  {
    var ip :=
      if forwardedFor.Some? && forwardedFor.value != "" then Split(forwardedFor.value, ',')[0]
      else if realIp.Some? && realIp.value != "" then realIp.value
      else "127.0.0.1";
    "ip:" + ip
  }

  /** The module-level store shared by every limiter. */
  class RateLimitStore {
    var keys: seq<string>
    var records: map<string, RateRecord>

    ghost predicate Valid()
      reads this
    {
      WellFormed(Store(keys, records))
    }

    function State(): Store
      reads this
    {
      Store(keys, records)
    }

    constructor ()
      ensures Valid() && keys == [] && records == map[]
    {
      keys := [];
      records := map[];
    }

    /** `Map.delete`: the key leaves both the order and the map. */
    method Delete(key: string)
      requires Valid()
      modifies this
      ensures Valid()
      ensures keys == Without(old(keys), {key})
      ensures records == old(records) - {key}
    {
      WithoutDistinct(keys, {key});
      keys := Without(keys, {key});
      records := records - {key};
    }

    /** The first loop of the cleanup: the keys whose record has expired, in insertion order. */
    method ExpiredNow(now: int) returns (toDelete: seq<string>)
      requires Valid()
      ensures toDelete == ExpiredKeys(keys, records, now)
    {
      toDelete := [];
      var i := 0;
      while i < |keys|
        invariant 0 <= i <= |keys|
        invariant toDelete == ExpiredKeys(keys[..i], records, now)
      {
        assert keys[..i + 1][..i] == keys[..i];
        if now > records[keys[i]].resetTime {
          toDelete := toDelete + [keys[i]];
        }
        i := i + 1;
      }
      assert keys[..i] == keys;
    }

    /** Deletes each of `gone` in turn. */
    method DeleteAll(gone: seq<string>)
      requires Valid()
      modifies this
      ensures Valid()
      ensures keys == Without(old(keys), Elems(gone))
      ensures records == Restrict(old(records), Elems(keys))
    {
      ghost var k0, r0 := keys, records;
      var j := 0;
      WithoutNone(k0, Elems(gone[..0]));
      while j < |gone|
        invariant 0 <= j <= |gone|
        invariant Valid()
        invariant keys == Without(k0, Elems(gone[..j]))
        invariant forall k :: k in records ==> k in r0 && records[k] == r0[k]
      {
        WithoutTwice(k0, Elems(gone[..j]), {gone[j]});
        ElemsSnoc(gone, j);
        Delete(gone[j]);
        j := j + 1;
      }
      assert gone[..j] == gone;
      SubmapIsRestrict(records, r0);
    }

    /** `cleanupExpiredRecords` with the clock reading `now`. */
    method Cleanup(now: int)
      requires Valid()
      modifies this
      ensures Valid()
      ensures State() == Cleaned(old(State()), now)
    {
      ghost var k0, r0 := keys, records;
      var toDelete := ExpiredNow(now);
      DeleteAll(toDelete);
      LiveIsWithout(k0, r0, now, Elems(toDelete));
      ghost var live := keys;
      assert live == Live(k0, r0, now);
      ghost var r1 := records;
      if |keys| > MaxStoreSize {
        var oldest := keys[..EvictCount];
        DeleteAll(oldest);
        WithoutPrefix(live, EvictCount);
        RestrictTwice(r0, Elems(live), Elems(keys));
      }
      CleanedIs(Store(k0, r0), now, keys, records);
    }

    /**
     * One `check` of a limiter with configuration `cfg` for the request with
     * the given headers; `now` is `check`'s clock reading and `cleanupNow` the
     * cleanup's.
     */
    method Check(cfg: Config, forwardedFor: Option<string>, realIp: Option<string>, now: int, cleanupNow: int)
      returns (out: Outcome)
      requires Valid()
      modifies this
      ensures Valid()
      ensures (State(), out) == Checked(old(State()), cfg, ClientIdentifier(forwardedFor, realIp), now, cleanupNow)
    {
      var identifier := ClientIdentifier(forwardedFor, realIp);
      Cleanup(cleanupNow);
      out := Admit(cfg, identifier, now);
    }

    /** The part of `check` after the cleanup: look the key up and decide. */
    method Admit(cfg: Config, identifier: string, now: int) returns (out: Outcome)
      requires Valid()
      modifies this
      ensures Valid()
      ensures (State(), out) == Step(old(State()), cfg, identifier, now)
    {
      if identifier !in records || now > records[identifier].resetTime {
        if identifier !in records {
          keys := keys + [identifier];
        }
        records := records[identifier := RateRecord(1, now + cfg.interval)];
        return Outcome(true, cfg.maxRequests - 1, None);
      }
      var record := records[identifier];
      if record.count >= cfg.maxRequests {
        assert records[identifier := record] == records;
        return Outcome(false, 0, Some(CeilDiv(record.resetTime - now, 1000)));
      }
      records := records[identifier := record.(count := record.count + 1)];
      out := Outcome(true, cfg.maxRequests - (record.count + 1), None);
    }
  }

  // ---------------------------------------------------------------------------
  // One store for all limiters

  /**
   * Every limiter made by `rateLimit` shares the one store and the same key
   * `ip:<address>`: after five AI-limited requests from one address within a
   * minute, the auth limiter's next `check` for that address is denied,
   * although the auth limiter itself has seen no request. No route in this
   * repository calls the AI or the auth limiter (only the invite route calls a
   * limiter), so the cross-talk is latent.
   */
  lemma SharedStoreCrossTalk(key: string, now: int)
    ensures var s1 := Checked(Store([], map[]), AiLimit, key, now, now).0;
      var s2 := Checked(s1, AiLimit, key, now, now).0;
      var s3 := Checked(s2, AiLimit, key, now, now).0;
      var s4 := Checked(s3, AiLimit, key, now, now).0;
      var s5 := Checked(s4, AiLimit, key, now, now).0;
      !Checked(s5, AuthLimit, key, now, now).1.success
  {
    assert Cleaned(Store([], map[]), now) == Store([], map[]);
    var s1 := Checked(Store([], map[]), AiLimit, key, now, now).0;
    assert s1 == OneRecord(key, 1, now);
    AiStep(key, 1, now);
    AiStep(key, 2, now);
    AiStep(key, 3, now);
    AiStep(key, 4, now);
    CleanedSingle(key, RateRecord(5, now + AiLimit.interval), now);
  }

  /** A store holding one record for `key`: `count` requests, resetting a minute after `now`. */
  function OneRecord(key: string, count: int, now: int): Store {
    Store([key], map[key := RateRecord(count, now + AiLimit.interval)])
  }

  /** One more AI request within the minute adds one to the count. */
  lemma AiStep(key: string, count: int, now: int)
    requires 1 <= count < AiLimit.maxRequests
    ensures WellFormed(OneRecord(key, count, now))
    ensures Checked(OneRecord(key, count, now), AiLimit, key, now, now).0 == OneRecord(key, count + 1, now)
  {
    CleanedSingle(key, RateRecord(count, now + AiLimit.interval), now);
  }

  lemma CleanedSingle(key: string, rec: RateRecord, now: int)
    requires !Expired(rec, now)
    ensures Cleaned(Store([key], map[key := rec]), now) == Store([key], map[key := rec])
  {
    assert Live([key], map[key := rec], now) == [key];
  }

  /** A limiter's first check on a store of its own always succeeds, with `maxRequests - 1` left. */
  lemma FirstCheckAdmits(cfg: Config, key: string, now: int, cleanupNow: int)
    ensures var (st, out) := Checked(Store([], map[]), cfg, key, now, cleanupNow);
      out.success && out.remaining == cfg.maxRequests - 1 && st.records[key].count == 1
  {
    assert Cleaned(Store([], map[]), cleanupNow) == Store([], map[]);
  }

  /** A limiter with a store of its own, as each `rateLimit(config)` evidently means to be. */
  class Limiter {
    const config: Config
    const store: RateLimitStore

    constructor (config: Config)
      ensures this.config == config && fresh(store)
      ensures store.Valid() && store.State() == Store([], map[])
    {
      this.config := config;
      store := new RateLimitStore();
    }

    method Check(forwardedFor: Option<string>, realIp: Option<string>, now: int, cleanupNow: int)
      returns (out: Outcome)
      requires store.Valid()
      modifies store
      ensures store.Valid()
      ensures (store.State(), out) == Checked(old(store.State()), config, ClientIdentifier(forwardedFor, realIp), now, cleanupNow)
    {
      out := store.Check(config, forwardedFor, realIp, now, cleanupNow);
    }
  }

  /**
   * With a store per limiter, AI-limited requests leave the auth limiter's
   * state, and so its next decision, untouched.
   */
  method AiRequestsLeaveAuthAlone(ai: Limiter, auth: Limiter, forwardedFor: Option<string>, realIp: Option<string>, now: int)
    requires ai.store != auth.store && ai.store.Valid() && auth.store.Valid()
    modifies ai.store
    ensures auth.store.State() == old(auth.store.State())
  {
    var _ := ai.Check(forwardedFor, realIp, now, now);
  }
}
