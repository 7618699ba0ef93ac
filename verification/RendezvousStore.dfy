/**
 The in-memory rendezvous store (apps/share-backend/src/store_memory.rs): three tables of entries
 with expiry times under one lock. Writes sweep, reads do not.
 */
module RendezvousStore {
  import opened Common

  type Bytes = seq<Byte>

  const U64_MAX := 0xFFFF_FFFF_FFFF_FFFF
  const U32_MAX := 0xFFFF_FFFF

  datatype Entry<V> = Entry(value: V, expires: nat)

  datatype Store = Store(
    records: map<string, Entry<Bytes>>,
    blobs: map<string, Entry<Bytes>>,
    counters: map<string, Entry<nat>>)

  function Min(a: nat, b: nat): nat {
    if a <= b then a else b
  }

  function Max(a: nat, b: nat): nat {
    if a >= b then a else b
  }

  /** `retain_unexpired`. */
  function Retained<V>(m: map<string, Entry<V>>, now: nat): (r: map<string, Entry<V>>)
    ensures forall k :: k in r <==> k in m && m[k].expires > now
    ensures forall k :: k in r ==> r[k] == m[k]
  {
    map k | k in m && m[k].expires > now :: m[k]
  }

  function Sweep(s: Store, now: nat): Store {
    Store(Retained(s.records, now), Retained(s.blobs, now), Retained(s.counters, now))
  }

  /** Insert into a swept table, if the key is absent. */
  function Inserted<V>(m: map<string, Entry<V>>, key: string, e: Entry<V>): map<string, Entry<V>> {
    if key in m then m else m[key := e]
  }

  function PutRendezvous(s: Store, code: string, e: Entry<Bytes>, now: nat): Store {
    var swept := Sweep(s, now);
    swept.(records := Inserted(swept.records, code, e))
  }

  function PutBlob(s: Store, code: string, e: Entry<Bytes>, now: nat): Store {
    var swept := Sweep(s, now);
    swept.(blobs := Inserted(swept.blobs, code, e))
  }

  /** What `take_blob` hands out; it removes the entry, expired or not. */
  function Taken(s: Store, code: string, now: nat): Option<Bytes> {
    if code in s.blobs && s.blobs[code].expires > now then Some(s.blobs[code].value) else None
  }

  function TakeBlob(s: Store, code: string): Store {
    s.(blobs := s.blobs - {code})
  }

  /** The counter after one more hit: sweep at one clock reading, renew from the next. */
  function Counted(s: Store, ip: string, ttl: nat, swept: nat, now: nat): Entry<nat> {
    var counters := Retained(s.counters, swept);
    Entry(Min((if ip in counters then counters[ip].value else 0) + 1, U32_MAX), Min(now + ttl, U64_MAX))
  }

  function IncrementMintCounter(s: Store, ip: string, ttl: nat, swept: nat, now: nat): Store {
    var after := Sweep(s, swept);
    after.(counters := after.counters[ip := Counted(s, ip, ttl, swept, now)])
  }

  /** The store as the source has it: one object whose tables are changed in place. */
  class MemoryRendezvousStore {
    var records: map<string, Entry<Bytes>>
    var blobs: map<string, Entry<Bytes>>
    var counters: map<string, Entry<nat>>

    function State(): Store
      reads this
    {
      Store(records, blobs, counters)
    }

    constructor ()
      ensures State() == Store(map[], map[], map[])
    {
      records, blobs, counters := map[], map[], map[];
    }

    method SweepTables(now: nat)
      modifies this
      ensures State() == Sweep(old(State()), now)
    {
      records := Retained(records, now);
      blobs := Retained(blobs, now);
      counters := Retained(counters, now);
    }

    method InsertRendezvous(code: string, epk: Bytes, expires: nat, now: nat) returns (ok: bool)
      modifies this
      ensures ok == (code !in Sweep(old(State()), now).records)
      ensures State() == PutRendezvous(old(State()), code, Entry(epk, expires), now)
    {
      SweepTables(now);
      if code in records { return false; }
      records := records[code := Entry(epk, expires)];
      return true;
    }

    method GetRendezvous(code: string) returns (r: Option<Entry<Bytes>>)
      ensures r == if code in records then Some(records[code]) else None
    {
      if code in records { return Some(records[code]); }
      return None;
    }

    method InsertBlob(code: string, blob: Bytes, expires: nat, now: nat) returns (ok: bool)
      modifies this
      ensures ok == (code !in Sweep(old(State()), now).blobs)
      ensures State() == PutBlob(old(State()), code, Entry(blob, expires), now)
    {
      SweepTables(now);
      if code in blobs { return false; }
      blobs := blobs[code := Entry(blob, expires)];
      return true;
    }

    method PickUp(code: string, now: nat) returns (r: Option<Bytes>)
      modifies this`blobs
      ensures r == Taken(old(State()), code, now)
      ensures State() == TakeBlob(old(State()), code)
    {
      var expired := code in blobs && blobs[code].expires <= now;
      if expired {
        blobs := blobs - {code};
        return None;
      }
      if code !in blobs {
        assert blobs - {code} == blobs;
        return None;
      }
      r := Some(blobs[code].value);
      blobs := blobs - {code};
    }

    method Hit(ip: string, ttl: nat, swept: nat, now: nat) returns (count: nat)
      modifies this
      ensures count == Counted(old(State()), ip, ttl, swept, now).value
      ensures State() == IncrementMintCounter(old(State()), ip, ttl, swept, now)
    {
      SweepTables(swept);
      var expires := Min(now + ttl, U64_MAX);
      if ip !in counters { counters := counters[ip := Entry(0, expires)]; }
      counters := counters[ip := counters[ip].(value := Min(counters[ip].value + 1, U32_MAX))];
      counters := counters[ip := counters[ip].(expires := expires)];
      count := counters[ip].value;
    }
  }
}
