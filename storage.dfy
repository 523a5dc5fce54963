/**
 * The session store of src/storage.rs: a process-local cache of records in
 * front of a Valkey backend that holds each record's JSON text with an expiry.
 * Backend faults are explicit flags; a connection that cannot be opened at all
 * (the `get_connection().unwrap()` panic) is not modelled.
 */
module Storage {
  import opened Wrappers
  import opened Json

  /** The session field that holds the user's token (`SESSION_FIELD_TOKEN`). */
  const SESSION_FIELD_TOKEN: string := "token"

  /** A backend value: the record's JSON text and the `EX` seconds it was stored with. */
  datatype Entry = Entry(text: string, ttl: nat)

  /** `std::time::Duration`: whole seconds and a sub-second part. */
  datatype Duration = Duration(secs: nat, nanos: nat)
  {
    /** `as_secs`: the sub-second part is dropped. */
    function AsSecs(): nat { secs }
  }

  /** The `std::io::ErrorKind` values `get` reports. */
  datatype ErrorKind = InvalidData | Other

  type GetResult = Result<Option<Record>, ErrorKind>

  /** Everything the store's operations read or write. */
  datatype StoreState = StoreState(cache: map<string, Record>, backend: map<string, Entry>)

  /**
   * `get`: the cached record if there is one; otherwise the backend's text,
   * parsed. A missing backend key is an error too (redis cannot convert a nil
   * reply into a `String`), so no lookup ever reports "no session".
   */
  function Lookup(st: StoreState, codec: TextCodec, key: string, backendFault: bool): (r: GetResult)
    ensures r != Ok(None)
    ensures key in st.cache ==> r == Ok(Some(st.cache[key]))
    ensures key !in st.cache && (backendFault || key !in st.backend) ==> r == Err(Other)
    ensures key !in st.cache && !backendFault && key in st.backend ==>
              r == (match DecodeRecord(codec, st.backend[key].text)
                    case Some(rec) => Ok(Some(rec))
                    case None => Err(InvalidData))
  {
    if key in st.cache then Ok(Some(st.cache[key]))
    else if backendFault || key !in st.backend then Err(Other)
    else match DecodeRecord(codec, st.backend[key].text)
      case Some(rec) => Ok(Some(rec))
      case None => Err(InvalidData)
  }

  /**
   * Whether `set` reaches the backend: the record must serialize, the write
   * must not fail, and Valkey refuses `SET ... EX 0`.
   */
  predicate BackendWritten(codec: TextCodec, val: Record, exp: Duration, backendFault: bool)
  {
    EncodeRecord(codec, val).Some? && !backendFault && exp.AsSecs() > 0
  }

  /** The state after `set`: the cache always holds `val`; the backend only when written. */
  function Stored(st: StoreState, codec: TextCodec, key: string, val: Record, exp: Duration, backendFault: bool): StoreState
  {
    StoreState(
      st.cache[key := val],
      if BackendWritten(codec, val, exp, backendFault)
      then st.backend[key := Entry(EncodeRecord(codec, val).value, exp.AsSecs())]
      else st.backend)
  }

  /** The state after `remove`: gone from the cache; gone from the backend unless `DEL` failed. */
  function Removed(st: StoreState, key: string, backendFault: bool): StoreState
  {
    StoreState(st.cache - {key}, if backendFault then st.backend else st.backend - {key})
  }

  /** Two states agree on one key, in the cache and in the backend. */
  predicate SameAt(st: StoreState, st': StoreState, key: string)
  {
    (key in st.cache <==> key in st'.cache) && (key in st.cache ==> st.cache[key] == st'.cache[key]) &&
    (key in st.backend <==> key in st'.backend) && (key in st.backend ==> st.backend[key] == st'.backend[key])
  }

  /** Read-your-write: right after `set`, `get` returns the value set, whatever the backend did. */
  lemma ReadYourWrite(st: StoreState, codec: TextCodec, key: string, val: Record, exp: Duration,
                      writeFault: bool, readFault: bool)
    ensures Lookup(Stored(st, codec, key, val, exp, writeFault), codec, key, readFault) == Ok(Some(val))
  {
  }

  /** A record that cannot be serialized still lands in the cache, and the backend is untouched. */
  lemma UnserializableSetIsCacheOnly(st: StoreState, codec: TextCodec, key: string, val: Record,
                                     exp: Duration, writeFault: bool)
    requires EncodeRecord(codec, val).None?
    ensures Stored(st, codec, key, val, exp, writeFault).backend == st.backend
    ensures Stored(st, codec, key, val, exp, writeFault).cache[key] == val
  {
  }

  /** A written record's backend expiry is the duration in whole seconds. */
  lemma SetTtlIsWholeSeconds(st: StoreState, codec: TextCodec, key: string, val: Record, secs: nat,
                             nanos: nat)
    requires EncodeRecord(codec, val).Some? && secs > 0
    ensures Stored(st, codec, key, val, Duration(secs, nanos), false).backend[key]
            == Entry(EncodeRecord(codec, val).value, secs)
  {
  }

  /** `set` and `remove` touch their own key only. */
  lemma WritesAreLocal(st: StoreState, codec: TextCodec, key: string, other: string, val: Record,
                       exp: Duration, fault: bool)
    requires other != key
    ensures SameAt(st, Stored(st, codec, key, val, exp, fault), other)
    ensures SameAt(st, Removed(st, key, fault), other)
  {
  }

  /**
   * After a successful `remove` the key is gone from both maps, so `get`
   * fails; removing an absent key changes nothing; removing twice is removing once.
   */
  lemma RemoveProperties(st: StoreState, codec: TextCodec, key: string, readFault: bool)
    ensures key !in Removed(st, key, false).cache && key !in Removed(st, key, false).backend
    ensures Lookup(Removed(st, key, false), codec, key, readFault) == Err(Other)
    ensures key !in st.cache && key !in st.backend ==> Removed(st, key, false) == st
    ensures Removed(Removed(st, key, false), key, false) == Removed(st, key, false)
  {
  }

  /**
   * If `DEL` fails the backend keeps the record, and a later `get` in this
   * process reads it back from there.
   */
  lemma FailedDeleteResurfaces(st: StoreState, codec: TextCodec, key: string, rec: Record)
    requires key in st.backend && DecodeRecord(codec, st.backend[key].text) == Some(rec)
    ensures Lookup(Removed(st, key, true), codec, key, false) == Ok(Some(rec))
  {
  }

  /**
   * What `set` wrote to the backend outlives the process: another process,
   * starting with an empty cache, reads the same record back.
   */
  lemma WrittenRecordSurvivesRestart(st: StoreState, codec: TextCodec, key: string, val: Record,
                                     exp: Duration, writeFault: bool)
    requires RoundTrips(codec) && BackendWritten(codec, val, exp, writeFault)
    ensures Lookup(StoreState(map[], Stored(st, codec, key, val, exp, writeFault).backend), codec, key, false)
            == Ok(Some(val))
  {
    RecordRoundTrip(codec, val);
  }

  /** `ValkeyStorage`: the cache map and the backend map it fronts. */
  class ValkeyStorage {
    const codec: TextCodec
    var cache: map<string, Record>
    var backend: map<string, Entry>

    function State(): StoreState
      reads this
    {
      StoreState(cache, backend)
    }

    /** `ValkeyStorage::new`: an empty cache over an existing backend. */
    constructor (codec: TextCodec, backend: map<string, Entry>)
      ensures this.codec == codec && cache == map[] && this.backend == backend
    {
      this.codec := codec;
      this.cache := map[];
      this.backend := backend;
    }

    /** `get`: reads the cache, then the backend; fills nothing. */
    method Get(key: string, backendFault: bool) returns (r: GetResult)
      ensures r == Lookup(State(), codec, key, backendFault)
    {
      if key in cache {
        return Ok(Some(cache[key]));
      }
      if backendFault || key !in backend {
        return Err(Other);
      }
      var loaded := DecodeRecord(codec, backend[key].text);
      match loaded {
        case Some(rec) => r := Ok(Some(rec));
        case None => r := Err(InvalidData);
      }
    }

    /** `set`: the cache first, then the backend if it can be written; always `Ok`. */
    method Set(key: string, val: Record, exp: Duration, backendFault: bool) returns (r: Result<(), ErrorKind>)
      modifies this
      ensures r == Ok(())
      ensures cache == old(cache)[key := val]
      ensures BackendWritten(codec, val, exp, backendFault) ==>
        backend == old(backend)[key := Entry(EncodeRecord(codec, val).value, exp.AsSecs())]
      ensures !BackendWritten(codec, val, exp, backendFault) ==> backend == old(backend)
      ensures State() == Stored(old(State()), codec, key, val, exp, backendFault)
    {
      cache := cache[key := val];
      var serialized := EncodeRecord(codec, val);
      match serialized {
        case None =>
        case Some(text) =>
          if !backendFault && exp.AsSecs() > 0 {
            backend := backend[key := Entry(text, exp.AsSecs())];
          }
      }
      r := Ok(());
    }

    /** `remove`: out of the cache, and out of the backend unless `DEL` fails; always `Ok`. */
    method Remove(key: string, backendFault: bool) returns (r: Result<(), ErrorKind>)
      modifies this
      ensures r == Ok(())
      ensures cache == old(cache) - {key}
      ensures backend == if backendFault then old(backend) else old(backend) - {key}
      ensures State() == Removed(old(State()), key, backendFault)
    {
      cache := cache - {key};
      if !backendFault {
        backend := backend - {key};
      }
      r := Ok(());
    }
  }

  /** Setting and then getting through the class returns the value set. */
  method SetThenGet(store: ValkeyStorage, key: string, val: Record, exp: Duration, writeFault: bool,
                    readFault: bool) returns (r: GetResult)
    modifies store
    ensures r == Ok(Some(val))
  {
    var _ := store.Set(key, val, exp, writeFault);
    r := store.Get(key, readFault);
  }
}
