/**
 * The background token refresher of src/refresher.rs. One sweep partitions the
 * backend's keys by remaining TTL, then renews every scheduled session's token
 * with a refresh-token grant (section 6 of RFC 6749) and tallies the per-key
 * tasks. The per-key tasks run concurrently in the source; here they run one
 * after another, which is sound because each touches only its own key
 * (`RefreshIsLocal`, `UnitsCommute`, `RunAllPointwise`). Sleeping, the Valkey connection and the
 * HTTP exchange are not modelled: their results are inputs.
 */
module Refresher {
  import opened Wrappers
  import opened Json
  import opened Token
  import opened Storage

  /** Sessions with at most four hours left are renewed. */
  const UPDATE_THRESHOLD_SECS: int := 4 * 60 * 60
  const AVG_UPDATES_PER_MINUTE: nat := 50

  // ---------------------------------------------------------------- partition

  /**
   * A key is renewed when its `TTL` probe answered and the answer is at most
   * the threshold; Valkey's negative answers (-1 no expiry, -2 no key) qualify.
   */
  predicate DueForRefresh(probe: Option<int>)
  {
    probe.Some? && probe.value <= UPDATE_THRESHOLD_SECS
  }

  /** The keys scheduled for renewal, in enumeration order. */
  function Scheduled(keys: seq<string>, probes: seq<Option<int>>): (r: seq<string>)
    requires |keys| == |probes|
    ensures |r| <= |keys|
    decreases |keys|
  {
    if |keys| == 0 then []
    else
      var n := |keys| - 1;
      Scheduled(keys[..n], probes[..n]) + (if DueForRefresh(probes[n]) then [keys[n]] else [])
  }

  /** A key is scheduled exactly when one of its probes makes it due. */
  lemma {:induction false} ScheduledMembers(keys: seq<string>, probes: seq<Option<int>>, k: string)
    requires |keys| == |probes|
    ensures k in Scheduled(keys, probes) <==>
            exists i :: 0 <= i < |keys| && keys[i] == k && DueForRefresh(probes[i])
    decreases |keys|
  {
    if |keys| > 0 {
      var n := |keys| - 1;
      ScheduledMembers(keys[..n], probes[..n], k);
      if exists i :: 0 <= i < |keys| && keys[i] == k && DueForRefresh(probes[i]) {
        var i :| 0 <= i < |keys| && keys[i] == k && DueForRefresh(probes[i]);
        if i < n {
          assert keys[..n][i] == k && probes[..n][i] == probes[i];
        }
      }
      if k in Scheduled(keys[..n], probes[..n]) {
        var i :| 0 <= i < n && keys[..n][i] == k && DueForRefresh(probes[..n][i]);
        assert keys[i] == k && DueForRefresh(probes[i]);
      }
    }
  }

  /** Scheduling distributes over concatenation: the enumeration order is kept. */
  lemma {:induction false} ScheduledAppend(keys1: seq<string>, probes1: seq<Option<int>>,
                                           keys2: seq<string>, probes2: seq<Option<int>>)
    requires |keys1| == |probes1| && |keys2| == |probes2|
    ensures Scheduled(keys1 + keys2, probes1 + probes2) == Scheduled(keys1, probes1) + Scheduled(keys2, probes2)
    decreases |keys2|
  {
    if |keys2| == 0 {
      assert keys1 + keys2 == keys1 && probes1 + probes2 == probes1;
    } else {
      var n := |keys2| - 1;
      ScheduledAppend(keys1, probes1, keys2[..n], probes2[..n]);
      var keys, probes := keys1 + keys2, probes1 + probes2;
      assert keys[..|keys| - 1] == keys1 + keys2[..n];
      assert probes[..|probes| - 1] == probes1 + probes2[..n];
      assert keys[|keys| - 1] == keys2[n] && probes[|probes| - 1] == probes2[n];
    }
  }

  /** Partition examples: TTLs 100, 14400 and 5 are renewed, 14401 is not; so are -2 and -1, a failed probe is not. */
  lemma PartitionExample()
    ensures Scheduled(["a", "b", "c", "d"], [Some(100), Some(14400), Some(14401), Some(5)]) == ["a", "b", "d"]
    ensures Scheduled(["x", "y", "z"], [Some(-2), None, Some(-1)]) == ["x", "z"]
  {
    assert ["a", "b", "c", "d"][..3] == ["a", "b", "c"];
    assert ["a", "b", "c"][..2] == ["a", "b"];
    assert ["a", "b"][..1] == ["a"];
    assert ["a"][..0] == [];
    assert [Some(100), Some(14400), Some(14401), Some(5)][..3] == [Some(100), Some(14400), Some(14401)];
    assert [Some(100), Some(14400), Some(14401)][..2] == [Some(100), Some(14400)];
    assert [Some(100), Some(14400)][..1] == [Some(100)];
    assert ["x", "y", "z"][..2] == ["x", "y"];
    assert ["x", "y"][..1] == ["x"];
    assert [Some(-2), None, Some(-1)][..2] == [Some(-2), None];
    assert [Some(-2), None][..1] == [Some(-2)];
  }

  /**
   * The loop that awaits each key's TTL probe (zipped with the keys) and
   * pushes the due keys onto `scheduled_for_update`.
   */
  method PartitionByTtl(allSessions: seq<string>, probes: seq<Option<int>>) returns (scheduled: seq<string>)
    requires |allSessions| == |probes|
    ensures scheduled == Scheduled(allSessions, probes)
  {
    scheduled := [];
    var i := 0;
    while i < |allSessions|
      invariant 0 <= i <= |allSessions|
      invariant scheduled == Scheduled(allSessions[..i], probes[..i])
    {
      assert allSessions[..i + 1][..i] == allSessions[..i];
      assert probes[..i + 1][..i] == probes[..i];
      if DueForRefresh(probes[i]) {
        scheduled := scheduled + [allSessions[i]];
      }
      i := i + 1;
    }
    assert allSessions[..i] == allSessions && probes[..i] == probes;
  }

  // ------------------------------------------------------------------- jitter

  /** The jitter window in seconds: `total_keys / 50`, rounded down. */
  function JitterWindow(totalKeys: nat): (w: nat)
    ensures w * AVG_UPDATES_PER_MINUTE <= totalKeys < (w + 1) * AVG_UPDATES_PER_MINUTE
  {
    totalKeys / AVG_UPDATES_PER_MINUTE
  }

  /** No delay when the window is empty, otherwise a delay in `[0, window)`. */
  predicate DelayAllowed(totalKeys: nat, delaySecs: nat)
  {
    if JitterWindow(totalKeys) == 0 then delaySecs == 0 else delaySecs < JitterWindow(totalKeys)
  }

  /** `gen_range(0..max_wait_time)`, a choice the model leaves open. */
  method PickDelay(totalKeys: nat) returns (delaySecs: nat)
    ensures DelayAllowed(totalKeys, delaySecs)
  {
    var window := JitterWindow(totalKeys);
    if window == 0 {
      delaySecs := 0;
    } else {
      delaySecs :| 0 <= delaySecs < window;
    }
  }

  /** Fewer than fifty scheduled keys go out at once; five hundred spread over ten seconds. */
  lemma JitterExamples()
    ensures forall n: nat :: n < 50 ==> JitterWindow(n) == 0
    ensures JitterWindow(50) == 1 && JitterWindow(500) == 10
  {
  }

  /**
   * As written the window is in seconds, so the renewals arrive fifty a second
   * rather than fifty a minute: 3000 keys spread over one minute, sixty times the rate.
   */
  lemma JitterRateAsWritten()
    ensures JitterWindow(3000) == 60 && 3000 / JitterWindow(3000) == AVG_UPDATES_PER_MINUTE
    ensures forall n: nat :: JitterWindow(n) > 0 ==> n >= AVG_UPDATES_PER_MINUTE * JitterWindow(n)
  {
  }

  /**
   * The window that spreads the keys at `AVG_UPDATES_PER_MINUTE`: total keys
   * over fifty a minute, in seconds; one minute more would hold every key at that rate.
   */
  function IntendedJitterWindow(totalKeys: nat): (w: nat)
    ensures w * AVG_UPDATES_PER_MINUTE <= totalKeys * 60 < (w + 1) * AVG_UPDATES_PER_MINUTE
  {
    totalKeys * 60 / AVG_UPDATES_PER_MINUTE
  }

  /** Under the intended window 3000 keys take an hour and at most fifty start in any minute, on average. */
  lemma IntendedJitterExamples()
    ensures IntendedJitterWindow(3000) == 3600 && IntendedJitterWindow(50) == 60
    ensures forall n: nat :: n <= AVG_UPDATES_PER_MINUTE * (IntendedJitterWindow(n) / 60 + 1)
  {
  }

  // ------------------------------------------------------------ one renewal

  /** The upstream exchange as the refresher sees it. */
  datatype Upstream =
    | TransportError       // `execute` failed
    | BodyUnreadable       // `text()` failed
    | Body(text: string)   // the response body

  /**
   * What the world does for one key: whether the backend read fails, how the
   * token endpoint answers a grant for a given refresh token, and whether the
   * store's `SET`/`DEL` fail.
   */
  datatype KeyEnv = KeyEnv(
    readFault: bool,
    exchange: string -> Upstream,
    writeFault: bool,
    deleteFault: bool)

  /** The `eyre` errors a renewal task returns early with. */
  datatype RefreshError =
    | SessionUnreadable
    | RecordUnparseable
    | StoredTokenUnparseable
    | ResponseUnreadable
    | ResponseUnparseable

  /** How a spawned renewal task ends: it returns a result, or it panics. */
  datatype Outcome = Finished(result: Result<(), RefreshError>) | Panicked

  /** The backend entry of `key`, the only part of the store a renewal reads. */
  function EntryAt(st: StoreState, key: string): Option<Entry>
  {
    if key in st.backend then Some(st.backend[key]) else None
  }

  /** The record as the refresher reads it: straight from the backend, bypassing the cache. */
  function BackendRecord(st: StoreState, codec: TextCodec, key: string, readFault: bool): Option<Record>
  {
    var entry := EntryAt(st, key);
    if readFault || entry.None? then None else DecodeRecord(codec, entry.value.text)
  }

  /** The record with its `token` field replaced by the renewed token. */
  function Renewed(rec: Record, t: AccessToken): Record
  {
    rec[SESSION_FIELD_TOKEN := ToJson(t)]
  }

  /** The write a renewal makes through the store, if any. */
  datatype Change =
    | Keep
    | Drop(deleteFault: bool)
    | Put(rec: Record, exp: Duration, writeFault: bool)

  function Apply(st: StoreState, codec: TextCodec, key: string, c: Change): StoreState
  {
    match c
    case Keep => st
    case Drop(fault) => Removed(st, key, fault)
    case Put(rec, exp, fault) => Stored(st, codec, key, rec, exp, fault)
  }

  /**
   * The decision `refresh_single_token` takes from the key's backend entry:
   * which write to make and how the task ends. A negative `expires_in` makes
   * `try_into().unwrap()` panic.
   */
  function Decide(entry: Option<Entry>, codec: TextCodec, now: int, env: KeyEnv): (Change, Outcome)
  {
    if env.readFault || entry.None? then (Keep, Finished(Err(SessionUnreadable)))
    else match DecodeRecord(codec, entry.value.text)
      case None => (Keep, Finished(Err(RecordUnparseable)))
      case Some(rec) =>
        if SESSION_FIELD_TOKEN !in rec then (Keep, Finished(Ok(())))
        else match FromJson(rec[SESSION_FIELD_TOKEN], now)
          case None => (Keep, Finished(Err(StoredTokenUnparseable)))
          case Some(current) =>
            match env.exchange(current.refreshToken)
            case TransportError => (Drop(env.deleteFault), Finished(Ok(())))
            case BodyUnreadable => (Keep, Finished(Err(ResponseUnreadable)))
            case Body(text) =>
              match ParseToken(codec, text, now)
              case None => (Keep, Finished(Err(ResponseUnparseable)))
              case Some(t) =>
                if t.expiresIn < 0 then (Keep, Panicked)
                else (Put(Renewed(rec, t), Duration(t.expiresIn, 0), env.writeFault), Finished(Ok(())))
  }

  /** `refresh_single_token` on a store state: the new state and how the task ends. */
  function RefreshEffect(st: StoreState, codec: TextCodec, key: string, now: int, env: KeyEnv): (StoreState, Outcome)
  {
    var (c, o) := Decide(EntryAt(st, key), codec, now, env);
    (Apply(st, codec, key, c), o)
  }

  /** What a write does to one map at its key. */
  datatype MapOp<V> = Same | Delete | SetTo(v: V)

  function Do<V>(m: map<string, V>, key: string, op: MapOp<V>): map<string, V>
  {
    match op
    case Same => m
    case Delete => m - {key}
    case SetTo(v) => m[key := v]
  }

  lemma DoCommutes<V>(m: map<string, V>, k1: string, op1: MapOp<V>, k2: string, op2: MapOp<V>)
    requires k1 != k2
    ensures Do(Do(m, k1, op1), k2, op2) == Do(Do(m, k2, op2), k1, op1)
  {
  }

  function CacheOp(c: Change): MapOp<Record>
  {
    match c
    case Keep => Same
    case Drop(_) => Delete
    case Put(rec, _, _) => SetTo(rec)
  }

  function BackendOp(codec: TextCodec, c: Change): MapOp<Entry>
  {
    match c
    case Keep => Same
    case Drop(fault) => if fault then Same else Delete
    case Put(rec, exp, fault) =>
      if BackendWritten(codec, rec, exp, fault) then SetTo(Entry(EncodeRecord(codec, rec).value, exp.AsSecs()))
      else Same
  }

  /** A change is one operation on the cache and one on the backend, both at its key. */
  lemma ApplyAsOps(st: StoreState, codec: TextCodec, key: string, c: Change)
    ensures Apply(st, codec, key, c) == StoreState(Do(st.cache, key, CacheOp(c)), Do(st.backend, key, BackendOp(codec, c)))
  {
  }

  /** Writes to two different keys commute, and neither changes the other's backend entry. */
  lemma ApplyCommutes(st: StoreState, codec: TextCodec, k1: string, c1: Change, k2: string, c2: Change)
    requires k1 != k2
    ensures EntryAt(Apply(st, codec, k1, c1), k2) == EntryAt(st, k2)
    ensures Apply(Apply(st, codec, k1, c1), codec, k2, c2) == Apply(Apply(st, codec, k2, c2), codec, k1, c1)
  {
    var a, b := Apply(st, codec, k1, c1), Apply(st, codec, k2, c2);
    ApplyAsOps(st, codec, k1, c1);
    ApplyAsOps(st, codec, k2, c2);
    ApplyAsOps(a, codec, k2, c2);
    ApplyAsOps(b, codec, k1, c1);
    DoCommutes(st.cache, k1, CacheOp(c1), k2, CacheOp(c2));
    DoCommutes(st.backend, k1, BackendOp(codec, c1), k2, BackendOp(codec, c2));
  }

  /**
   * Renewals of two different keys can run in either order with the same
   * result: the source's concurrent per-key tasks share nothing but the store.
   */
  lemma UnitsCommute(st: StoreState, codec: TextCodec, k1: string, env1: KeyEnv, k2: string, env2: KeyEnv,
                     now: int)
    requires k1 != k2
    ensures var (a, o1) := RefreshEffect(st, codec, k1, now, env1);
            var (ab, o2) := RefreshEffect(a, codec, k2, now, env2);
            var (b, p2) := RefreshEffect(st, codec, k2, now, env2);
            var (ba, p1) := RefreshEffect(b, codec, k1, now, env1);
            ab == ba && o1 == p1 && o2 == p2
  {
    var (c1, o1) := Decide(EntryAt(st, k1), codec, now, env1);
    var (c2, o2) := Decide(EntryAt(st, k2), codec, now, env2);
    ApplyCommutes(st, codec, k1, c1, k2, c2);
    ApplyCommutes(st, codec, k2, c2, k1, c1);
  }

  /** The record holds a token the refresher can read, whose refresh token goes upstream. */
  predicate HasStoredToken(st: StoreState, codec: TextCodec, key: string, now: int, readFault: bool)
  {
    var rec := BackendRecord(st, codec, key, readFault);
    rec.Some? && SESSION_FIELD_TOKEN in rec.value && FromJson(rec.value[SESSION_FIELD_TOKEN], now).Some?
  }

  function StoredRefreshToken(st: StoreState, codec: TextCodec, key: string, now: int, readFault: bool): string
    requires HasStoredToken(st, codec, key, now, readFault)
  {
    FromJson(BackendRecord(st, codec, key, readFault).value[SESSION_FIELD_TOKEN], now).value.refreshToken
  }

  /** A renewal changes its own key only. */
  lemma RefreshIsLocal(st: StoreState, codec: TextCodec, key: string, now: int, env: KeyEnv, other: string)
    requires other != key
    ensures SameAt(st, RefreshEffect(st, codec, key, now, env).0, other)
  {
  }

  /** A record without a `token` field: no upstream call (any answer gives the same), no write, `Ok`. */
  lemma MissingTokenIsSkipped(st: StoreState, codec: TextCodec, key: string, now: int, env: KeyEnv,
                              exchange: string -> Upstream)
    requires BackendRecord(st, codec, key, env.readFault).Some?
    requires SESSION_FIELD_TOKEN !in BackendRecord(st, codec, key, env.readFault).value
    ensures RefreshEffect(st, codec, key, now, env) == (st, Finished(Ok(())))
    ensures RefreshEffect(st, codec, key, now, env.(exchange := exchange)) == (st, Finished(Ok(())))
  {
  }

  /** A transport error on the grant removes the whole session; `get` then fails. */
  lemma TransportErrorRemovesSession(st: StoreState, codec: TextCodec, key: string, now: int, env: KeyEnv,
                                     readFault: bool)
    requires HasStoredToken(st, codec, key, now, env.readFault)
    requires env.exchange(StoredRefreshToken(st, codec, key, now, env.readFault)) == TransportError
    ensures RefreshEffect(st, codec, key, now, env) == (Removed(st, key, env.deleteFault), Finished(Ok(())))
    ensures var st' := RefreshEffect(st, codec, key, now, env).0;
            key !in st'.cache && (!env.deleteFault ==> Lookup(st', codec, key, readFault) == Err(Other))
  {
  }

  /**
   * A grant answered with a token: only the `token` field changes, the record
   * is written through the store with the new `expires_in` as its TTL, and
   * this process reads the renewed record back.
   */
  lemma RenewalReplacesOnlyToken(st: StoreState, codec: TextCodec, key: string, now: int, env: KeyEnv,
                                 text: string, readFault: bool)
    requires HasStoredToken(st, codec, key, now, env.readFault)
    requires env.exchange(StoredRefreshToken(st, codec, key, now, env.readFault)) == Body(text)
    requires ParseToken(codec, text, now).Some? && ParseToken(codec, text, now).value.expiresIn >= 0
    ensures var rec := BackendRecord(st, codec, key, env.readFault).value;
            var t := ParseToken(codec, text, now).value;
            var (st', outcome) := RefreshEffect(st, codec, key, now, env);
            && outcome == Finished(Ok(()))
            && key in st'.cache
            && st'.cache[key].Keys == rec.Keys
            && st'.cache[key][SESSION_FIELD_TOKEN] == ToJson(t)
            && (forall f :: f in rec && f != SESSION_FIELD_TOKEN ==> st'.cache[key][f] == rec[f])
            && (BackendWritten(codec, Renewed(rec, t), Duration(t.expiresIn, 0), env.writeFault) ==>
                  st'.backend[key].ttl == t.expiresIn)
            && Lookup(st', codec, key, readFault) == Ok(Some(st'.cache[key]))
  {
  }

  /** An answer that does not parse as a token ends the task with an error and leaves the session alone. */
  lemma UnparseableResponseKeepsSession(st: StoreState, codec: TextCodec, key: string, now: int, env: KeyEnv,
                                        text: string)
    requires HasStoredToken(st, codec, key, now, env.readFault)
    requires env.exchange(StoredRefreshToken(st, codec, key, now, env.readFault)) == Body(text)
    requires ParseToken(codec, text, now).None?
    ensures RefreshEffect(st, codec, key, now, env) == (st, Finished(Err(ResponseUnparseable)))
  {
  }

  /** A token with a negative `expires_in` panics the task before anything is written. */
  lemma NegativeExpiryPanics(st: StoreState, codec: TextCodec, key: string, now: int, env: KeyEnv,
                             text: string)
    requires HasStoredToken(st, codec, key, now, env.readFault)
    requires env.exchange(StoredRefreshToken(st, codec, key, now, env.readFault)) == Body(text)
    requires ParseToken(codec, text, now).Some? && ParseToken(codec, text, now).value.expiresIn < 0
    ensures RefreshEffect(st, codec, key, now, env) == (st, Panicked)
  {
  }

  /** `refresh_single_token`: reads the backend directly, writes through the store. */
  method RefreshSingleToken(storage: ValkeyStorage, key: string, totalKeys: nat, now: int, env: KeyEnv)
    returns (outcome: Outcome)
    modifies storage
    ensures (storage.State(), outcome) == RefreshEffect(old(storage.State()), storage.codec, key, now, env)
  {
    var delaySecs := PickDelay(totalKeys);  // the jitter sleep; time is not modelled
    if env.readFault || key !in storage.backend {
      return Finished(Err(SessionUnreadable));
    }
    var sessionData := storage.backend[key].text;
    var parsed := DecodeRecord(storage.codec, sessionData);
    if parsed.None? {
      return Finished(Err(RecordUnparseable));
    }
    var deserialized := parsed.value;
    if SESSION_FIELD_TOKEN !in deserialized {
      return Finished(Ok(()));
    }
    var current := FromJson(deserialized[SESSION_FIELD_TOKEN], now);
    if current.None? {
      return Finished(Err(StoredTokenUnparseable));
    }
    var result := env.exchange(current.value.refreshToken);
    match result {
      case TransportError =>
        var _ := storage.Remove(key, env.deleteFault);
        outcome := Finished(Ok(()));
      case BodyUnreadable =>
        outcome := Finished(Err(ResponseUnreadable));
      case Body(text) =>
        var token := ParseToken(storage.codec, text, now);
        if token.None? {
          return Finished(Err(ResponseUnparseable));
        }
        if token.value.expiresIn < 0 {
          return Panicked;
        }
        var exp := Duration(token.value.expiresIn, 0);
        deserialized := deserialized[SESSION_FIELD_TOKEN := ToJson(token.value)];
        var _ := storage.Set(key, deserialized, exp, env.writeFault);
        outcome := Finished(Ok(()));
    }
  }

  // -------------------------------------------------------------------- sweep

  /** The renewals of one sweep applied in order: final state and each task's outcome. */
  function RunAll(st: StoreState, codec: TextCodec, keys: seq<string>, now: int, env: string -> KeyEnv)
    : (r: (StoreState, seq<Outcome>))
    ensures |r.1| == |keys|
    decreases |keys|
  {
    if |keys| == 0 then (st, [])
    else
      var n := |keys| - 1;
      var (st1, outs) := RunAll(st, codec, keys[..n], now, env);
      var (st2, o) := RefreshEffect(st1, codec, keys[n], now, env(keys[n]));
      (st2, outs + [o])
  }

  /** Tasks that ran to completion, whatever they returned. */
  function CountFinished(outs: seq<Outcome>): nat
  {
    if |outs| == 0 then 0 else CountFinished(outs[..|outs| - 1]) + (if outs[|outs| - 1].Finished? then 1 else 0)
  }

  /** Tasks that panicked (a join error). */
  function CountPanicked(outs: seq<Outcome>): nat
  {
    if |outs| == 0 then 0 else CountPanicked(outs[..|outs| - 1]) + (if outs[|outs| - 1].Panicked? then 1 else 0)
  }

  /** Every task is tallied exactly once, an `Err` return as a success. */
  lemma {:induction false} TallyPartition(outs: seq<Outcome>)
    ensures CountFinished(outs) + CountPanicked(outs) == |outs|
    ensures (forall i :: 0 <= i < |outs| ==> outs[i].Finished?) ==> CountFinished(outs) == |outs|
  {
    if |outs| > 0 {
      TallyPartition(outs[..|outs| - 1]);
    }
  }

  /** A sweep leaves every key it did not schedule exactly as it was. */
  lemma {:induction false} RunAllLeavesOthers(st: StoreState, codec: TextCodec, keys: seq<string>, now: int,
                                              env: string -> KeyEnv, k: string)
    requires k !in keys
    ensures SameAt(st, RunAll(st, codec, keys, now, env).0, k)
    decreases |keys|
  {
    if |keys| > 0 {
      var n := |keys| - 1;
      assert k !in keys[..n];
      RunAllLeavesOthers(st, codec, keys[..n], now, env, k);
      var st1 := RunAll(st, codec, keys[..n], now, env).0;
      RefreshIsLocal(st1, codec, keys[n], now, env(keys[n]), k);
    }
  }

  /** A key whose probe failed or whose TTL is above the threshold is untouched by the sweep. */
  lemma UnscheduledUntouched(st: StoreState, codec: TextCodec, allSessions: seq<string>,
                             probes: seq<Option<int>>, now: int, env: string -> KeyEnv, k: string)
    requires |allSessions| == |probes|
    requires forall i :: 0 <= i < |allSessions| && allSessions[i] == k ==> !DueForRefresh(probes[i])
    ensures SameAt(st, RunAll(st, codec, Scheduled(allSessions, probes), now, env).0, k)
  {
    ScheduledMembers(allSessions, probes, k);
    RunAllLeavesOthers(st, codec, Scheduled(allSessions, probes), now, env, k);
  }

  /** No key occurs twice, as in the answer to `KEYS *`. */
  predicate Distinct(keys: seq<string>)
  {
    forall i, j :: 0 <= i < j < |keys| ==> keys[i] != keys[j]
  }

  /** Scheduling picks keys out without repeating any. */
  lemma {:induction false} ScheduledDistinct(keys: seq<string>, probes: seq<Option<int>>)
    requires |keys| == |probes| && Distinct(keys)
    ensures Distinct(Scheduled(keys, probes))
    decreases |keys|
  {
    if |keys| > 0 {
      var n := |keys| - 1;
      assert Distinct(keys[..n]);
      ScheduledDistinct(keys[..n], probes[..n]);
      ScheduledMembers(keys[..n], probes[..n], keys[n]);
      assert forall i :: 0 <= i < n ==> keys[..n][i] != keys[n];
    }
  }

  /** A write depends on the key's old entries only: states that agree there agree afterwards. */
  lemma ApplyKeepsAgreement(st: StoreState, st': StoreState, codec: TextCodec, key: string, c: Change)
    requires SameAt(st, st', key)
    ensures SameAt(Apply(st, codec, key, c), Apply(st', codec, key, c), key)
  {
  }

  /**
   * Over distinct keys, every key ends the sweep as its own renewal from the
   * sweep's starting state leaves it, with the same outcome: the other
   * renewals neither feed into it nor overwrite it.
   */
  lemma {:induction false} RunAllPointwise(st: StoreState, codec: TextCodec, keys: seq<string>, now: int,
                                           env: string -> KeyEnv, i: int)
    requires Distinct(keys) && 0 <= i < |keys|
    ensures RunAll(st, codec, keys, now, env).1[i] == RefreshEffect(st, codec, keys[i], now, env(keys[i])).1
    ensures SameAt(RunAll(st, codec, keys, now, env).0, RefreshEffect(st, codec, keys[i], now, env(keys[i])).0, keys[i])
    decreases |keys|
  {
    var n := |keys| - 1;
    var st1 := RunAll(st, codec, keys[..n], now, env).0;
    if i < n {
      assert Distinct(keys[..n]) && keys[..n][i] == keys[i];
      RunAllPointwise(st, codec, keys[..n], now, env, i);
      RefreshIsLocal(st1, codec, keys[n], now, env(keys[n]), keys[i]);
    } else {
      assert keys[n] !in keys[..n];
      RunAllLeavesOthers(st, codec, keys[..n], now, env, keys[n]);
      assert EntryAt(st1, keys[n]) == EntryAt(st, keys[n]);
      var (c, _) := Decide(EntryAt(st, keys[n]), codec, now, env(keys[n]));
      ApplyKeepsAgreement(st1, st, codec, keys[n], c);
    }
  }

  /** A scheduled session whose grant hit a transport error is gone from the cache after the sweep. */
  lemma SweepDropsFailedGrant(st: StoreState, codec: TextCodec, keys: seq<string>, now: int,
                              env: string -> KeyEnv, i: int)
    requires Distinct(keys) && 0 <= i < |keys|
    requires HasStoredToken(st, codec, keys[i], now, env(keys[i]).readFault)
    requires env(keys[i]).exchange(StoredRefreshToken(st, codec, keys[i], now, env(keys[i]).readFault)) == TransportError
    ensures var (st', outs) := RunAll(st, codec, keys, now, env);
            && outs[i] == Finished(Ok(()))
            && keys[i] !in st'.cache
            && (!env(keys[i]).deleteFault ==> keys[i] !in st'.backend)
  {
    RunAllPointwise(st, codec, keys, now, env, i);
    TransportErrorRemovesSession(st, codec, keys[i], now, env(keys[i]), false);
  }

  /** A scheduled session answered with a token holds the renewed record after the sweep. */
  lemma SweepRenewsAnsweredSession(st: StoreState, codec: TextCodec, keys: seq<string>, now: int,
                                   env: string -> KeyEnv, i: int, text: string)
    requires Distinct(keys) && 0 <= i < |keys|
    requires HasStoredToken(st, codec, keys[i], now, env(keys[i]).readFault)
    requires env(keys[i]).exchange(StoredRefreshToken(st, codec, keys[i], now, env(keys[i]).readFault)) == Body(text)
    requires ParseToken(codec, text, now).Some? && ParseToken(codec, text, now).value.expiresIn >= 0
    ensures var (st', outs) := RunAll(st, codec, keys, now, env);
            && outs[i] == Finished(Ok(()))
            && keys[i] in st'.cache
            && st'.cache[keys[i]] == Renewed(BackendRecord(st, codec, keys[i], env(keys[i]).readFault).value,
                                             ParseToken(codec, text, now).value)
  {
    RunAllPointwise(st, codec, keys, now, env, i);
  }

  /** One more key of the sweep: its renewal runs on the state the earlier ones left. */
  lemma RunAllStep(st: StoreState, codec: TextCodec, keys: seq<string>, now: int, env: string -> KeyEnv, i: int)
    requires 0 <= i < |keys|
    ensures var (st1, outs) := RunAll(st, codec, keys[..i], now, env);
            var (st2, o) := RefreshEffect(st1, codec, keys[i], now, env(keys[i]));
            RunAll(st, codec, keys[..i + 1], now, env) == (st2, outs + [o])
  {
    assert keys[..i + 1][..i] == keys[..i];
  }

  /** Tallying one more outcome adds it to exactly one of the two counts. */
  lemma CountStep(outs: seq<Outcome>, o: Outcome)
    ensures CountFinished(outs + [o]) == CountFinished(outs) + (if o.Finished? then 1 else 0)
    ensures CountPanicked(outs + [o]) == CountPanicked(outs) + (if o.Panicked? then 1 else 0)
  {
    assert (outs + [o])[..|outs|] == outs;
  }

  datatype SweepReport = SweepReport(scheduled: seq<string>, successes: nat, failures: nat)

  /**
   * One iteration of `refresher_loop` after `KEYS *` and the `TTL` probes
   * answered: partition, renew each scheduled key, tally the tasks.
   */
  method Sweep(storage: ValkeyStorage, allSessions: seq<string>, probes: seq<Option<int>>, now: int,
               env: string -> KeyEnv) returns (report: SweepReport)
    requires |allSessions| == |probes|
    modifies storage
    ensures report.scheduled == Scheduled(allSessions, probes)
    ensures var (st, outs) := RunAll(old(storage.State()), storage.codec, report.scheduled, now, env);
            storage.State() == st && report.successes == CountFinished(outs) && report.failures == CountPanicked(outs)
    ensures report.successes + report.failures == |report.scheduled|
  {
    var scheduled := PartitionByTtl(allSessions, probes);
    var keysLen := |scheduled|;
    var successes, failures := 0, 0;
    ghost var outs: seq<Outcome> := [];
    ghost var st0 := storage.State();
    var i := 0;
    while i < keysLen
      invariant 0 <= i <= keysLen
      invariant (storage.State(), outs) == RunAll(st0, storage.codec, scheduled[..i], now, env)
      invariant successes == CountFinished(outs) && failures == CountPanicked(outs)
    {
      RunAllStep(st0, storage.codec, scheduled, now, env, i);
      var outcome := RefreshSingleToken(storage, scheduled[i], keysLen, now, env(scheduled[i]));
      CountStep(outs, outcome);
      outs := outs + [outcome];
      if outcome.Panicked? {
        failures := failures + 1;
      } else {
        successes := successes + 1;
      }
      i := i + 1;
    }
    assert scheduled[..i] == scheduled;
    TallyPartition(outs);
    report := SweepReport(scheduled, successes, failures);
  }

  // ---------------------------------------------------------------- lifecycle

  /** A spawned sweep loop (`JoinHandle`), told apart by spawn order. */
  datatype TaskHandle = TaskHandle(id: nat)

  /** `TokenRefresher`: holds the handle of the running loop, if any. */
  class TokenRefresher {
    const storage: ValkeyStorage
    var task: Option<TaskHandle>
    /** How many loops have been spawned so far. */
    var spawned: nat

    /** A held handle is one of those already spawned. */
    predicate Valid()
      reads this
    {
      task.Some? ==> task.value.id < spawned
    }

    constructor (storage: ValkeyStorage)
      ensures Valid() && this.storage == storage && task == None && spawned == 0
    {
      this.storage := storage;
      task := None;
      spawned := 0;
    }

    /** `start`: spawns a loop only when none is held. */
    method Start()
      requires Valid()
      modifies this
      ensures Valid()
      ensures old(task).Some? ==> task == old(task) && spawned == old(spawned)
      ensures old(task).None? ==> task == Some(TaskHandle(old(spawned))) && spawned == old(spawned) + 1
    {
      if task.None? {
        task := Some(TaskHandle(spawned));
        spawned := spawned + 1;
      }
    }

    /** `stop`: takes the handle (and aborts it), leaving none. */
    method Stop() returns (aborted: Option<TaskHandle>)
      requires Valid()
      modifies this
      ensures Valid()
      ensures aborted == old(task) && task == None && spawned == old(spawned)
    {
      aborted := task;
      task := None;
    }
  }

  /** Stopping twice aborts once, and starting afterwards spawns a new loop. */
  method StopIsIdempotent(r: TokenRefresher) returns (first: Option<TaskHandle>, second: Option<TaskHandle>)
    requires r.Valid()
    modifies r
    ensures first == old(r.task) && second == None
    ensures r.task.Some? && r.task != old(r.task)
  {
    first := r.Stop();
    second := r.Stop();
    r.Start();
  }
}
