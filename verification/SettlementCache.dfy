/** packages/server/src/cache.ts: the in-memory cache with lazy eviction, and the
    Redis-backed one with its lock. */
module SettlementCache {
  import opened JsText

  // ----- In memory -----

  datatype Entry<T> = Entry(receipt: T, expiresAt: int)

  /** One call of set. */
  datatype Write<T> = Write(key: Text, receipt: T, at: int)

  /** The last write to a key. */
  function Latest<T>(writes: seq<Write<T>>, key: Text): Option<Write<T>> {
    if writes == [] then None
    else if writes[|writes| - 1].key == key then Some(writes[|writes| - 1])
    else Latest(writes[..|writes| - 1], key)
  }

  /** What a cache that forgets nothing early and nothing late returns: the last
      receipt written, until its time to live is over. */
  function Live<T>(writes: seq<Write<T>>, key: Text, ttlMs: int, now: int): Option<T> {
    var last := Latest(writes, key);
    if last.Some? && now < last.value.at + ttlMs then Some(last.value.receipt) else None
  }

  /** A write is returned from its time until its time to live is over, that moment
      excluded, and changes what no other key returns. */
  lemma WriteLives<T>(writes: seq<Write<T>>, w: Write<T>, key: Text, ttlMs: int, now: int)
    ensures var after := Live(writes + [w], key, ttlMs, now);
            if key != w.key then after == Live(writes, key, ttlMs, now)
            else if now - w.at >= ttlMs then after == None
            else after == Some(w.receipt)
  {
    assert (writes + [w])[..|writes|] == writes;
  }

  class InMemorySettlementCache<T> {
    const ttlMs: int
    var entries: map<Text, Entry<T>>
    ghost var writes: seq<Write<T>>   // every set so far
    ghost var clock: int              // the latest time seen

    /** Stored entries are the latest writes; a write whose entry is gone has
        expired. */
    ghost predicate Valid()
      reads this
    {
      && (forall k :: k in entries ==>
            var last := Latest(writes, k);
            last.Some? && entries[k] == Entry(last.value.receipt, last.value.at + ttlMs))
      && (forall k :: k !in entries && Latest(writes, k).Some? ==> Latest(writes, k).value.at + ttlMs <= clock)
    }

    constructor (ttlMs: int, now: int)
      ensures Valid() && this.ttlMs == ttlMs && writes == [] && clock == now
    {
      this.ttlMs := ttlMs;
      entries := map[];
      writes := [];
      clock := now;
    }

    /** Deleting an expired entry on the way is never observable. */
    method Get(key: Text, now: int) returns (receipt: Option<T>)
      requires Valid() && clock <= now
      modifies this
      ensures Valid() && clock == now && writes == old(writes)
      ensures receipt == Live(writes, key, ttlMs, now)
    {
      clock := now;
      if key !in entries {
        return None;
      }
      var entry := entries[key];
      if entry.expiresAt <= now {
        entries := entries - {key};
        return None;
      }
      return Some(entry.receipt);
    }

    method Set(key: Text, receipt: T, now: int)
      requires Valid() && clock <= now
      modifies this
      ensures Valid() && clock == now && writes == old(writes) + [Write(key, receipt, now)]
    {
      clock := now;
      ghost var before := writes;
      entries := entries[key := Entry(receipt, now + ttlMs)];
      writes := writes + [Write(key, receipt, now)];
      assert writes[..|before|] == before;
    }
  }

  // ----- In Redis -----

  /** A stored value: a serialised receipt, the lock's "1", or a value that is
      not a canonical signed receipt. */
  datatype Value<T> = Serialised(receipt: T) | Mark | Foreign

  datatype Cell<T> = Cell(value: Value<T>, expiresAt: int)

  const LOCK: Text := [108, 111, 99, 107, 58]                             // "lock:"
  const X402: Text := [120, 52, 48, 50, 58]                               // "x402:"
  const MPP_CHARGE: Text := [109, 112, 112, 45, 99, 104, 97, 114, 103, 101, 58]   // "mpp-charge:"

  /** The gate's keys are `<model>:<nonce>` for the two models it settles. */
  predicate IsGateKey(key: Text) {
    X402 <= key || MPP_CHARGE <= key
  }

  function EntryKey(prefix: Text, key: Text): Text {
    prefix + key
  }

  function LockKey(prefix: Text, key: Text): Text {
    prefix + LOCK + key
  }

  /** Entries and locks share one Redis key space. An entry of a gate key is never
      taken for a lock, because no model is called "lock". */
  lemma KeySpacesDisjoint(prefix: Text, a: Text, b: Text)
    requires IsGateKey(a)
    ensures a != LOCK + b && EntryKey(prefix, a) != LockKey(prefix, b)
  {
    assert a[0] != LOCK[0];
    assert EntryKey(prefix, a)[|prefix|..] == a && LockKey(prefix, b)[|prefix|..] == LOCK + b;
  }

  /** Math.max(1, Math.ceil(ms / unit)). */
  function RoundUp(ms: int, unit: int): (n: int)
    requires unit > 0
    ensures n >= 1 && n * unit >= ms && (n > 1 ==> (n - 1) * unit < ms)
  {
    var n := (ms + unit - 1) / unit;
    if n < 1 then 1 else n
  }

  /** The Redis instance. */
  type Cells<T> = map<Text, Cell<T>>

  predicate Alive<T>(cells: Cells<T>, k: Text, now: int) {
    k in cells && now < cells[k].expiresAt
  }

  /** The receipt cached under a key. */
  function CachedIn<T>(cells: Cells<T>, prefix: Text, key: Text, now: int): Option<T> {
    var k := EntryKey(prefix, key);
    if Alive(cells, k, now) && cells[k].value.Serialised? then Some(cells[k].value.receipt) else None
  }

  predicate LockedIn<T>(cells: Cells<T>, prefix: Text, key: Text, now: int) {
    Alive(cells, LockKey(prefix, key), now)
  }

  /** The cells after a SET NX that found the lock absent, and after a DEL. */
  function AcquiredCells<T>(cells: Cells<T>, prefix: Text, key: Text, lockTtlMs: int, now: int): Cells<T> {
    cells[LockKey(prefix, key) := Cell(Mark, now + RoundUp(lockTtlMs, 1))]
  }

  function ReleasedCells<T>(cells: Cells<T>, prefix: Text, key: Text): Cells<T> {
    cells - {LockKey(prefix, key)}
  }

  lemma KeysInjective(prefix: Text, a: Text, b: Text)
    ensures EntryKey(prefix, a) == EntryKey(prefix, b) <==> a == b
    ensures LockKey(prefix, a) == LockKey(prefix, b) <==> a == b
    ensures EntryKey(prefix, a) == LockKey(prefix, b) <==> a == LOCK + b
  {
    assert EntryKey(prefix, a)[|prefix|..] == a && EntryKey(prefix, b)[|prefix|..] == b;
    assert LockKey(prefix, a)[|prefix|..] == LOCK + a && LockKey(prefix, b)[|prefix|..] == LOCK + b;
    assert (LOCK + a)[|LOCK|..] == a && (LOCK + b)[|LOCK|..] == b;
    Reassociate(prefix, LOCK, b);
  }

  class RedisSettlementCache<T> {
    const prefix: Text
    const ttlSeconds: int
    var cells: Cells<T>

    constructor (prefix: Text, ttlMs: int)
      ensures this.prefix == prefix && ttlSeconds == RoundUp(ttlMs, 1000) && cells == map[]
    {
      this.prefix := prefix;
      ttlSeconds := RoundUp(ttlMs, 1000);
      cells := map[];
    }

    function Cached(key: Text, now: int): Option<T>
      reads this
    {
      CachedIn(cells, prefix, key, now)
    }

    predicate Locked(key: Text, now: int)
      reads this
    {
      LockedIn(cells, prefix, key, now)
    }

    /** A value that is not a canonical receipt reads as a miss. */
    method Get(key: Text, now: int) returns (receipt: Option<T>)
      ensures receipt == Cached(key, now)
    {
      var k := EntryKey(prefix, key);
      if !Alive(cells, k, now) {
        return None;
      }
      match cells[k].value
      case Serialised(r) => return Some(r);
      case _ => return None;
    }

    /** Caches under this key for the time to live and no longer; the one lock it
        can overwrite is the one whose name the key spells. */
    method Set(key: Text, receipt: T, now: int)
      modifies this
      ensures forall t :: now <= t < now + ttlSeconds * 1000 ==> Cached(key, t) == Some(receipt)
      ensures forall t :: t >= now + ttlSeconds * 1000 ==> Cached(key, t) == None
      ensures forall k, t :: k != key ==> Cached(k, t) == old(Cached(k, t))
      ensures forall k, t :: key != LOCK + k ==> Locked(k, t) == old(Locked(k, t))
    {
      var at := EntryKey(prefix, key);
      forall k ensures EntryKey(prefix, key) == EntryKey(prefix, k) <==> key == k
               ensures EntryKey(prefix, key) == LockKey(prefix, k) <==> key == LOCK + k {
        KeysInjective(prefix, key, k);
      }
      cells := cells[at := Cell(Serialised(receipt), now + ttlSeconds * 1000)];
    }

    /** SET NX PX: succeeds exactly when the key is not locked, and then locks it
        for the rounded-up time and no longer, and no other key. */
    method Acquire(key: Text, lockTtlMs: int, now: int) returns (ok: bool)
      modifies this
      ensures ok <==> !old(Locked(key, now))
      ensures ok ==> forall t :: now <= t ==> (Locked(key, t) <==> t < now + RoundUp(lockTtlMs, 1))
      ensures cells == if ok then AcquiredCells(old(cells), prefix, key, lockTtlMs, now) else old(cells)
      ensures forall k, t :: k != key ==> Locked(k, t) == old(Locked(k, t))
      ensures forall k, t :: k != LOCK + key ==> Cached(k, t) == old(Cached(k, t))
    {
      var at := LockKey(prefix, key);
      if Alive(cells, at, now) {
        return false;
      }
      forall k ensures LockKey(prefix, k) == at <==> k == key
               ensures EntryKey(prefix, k) == at <==> k == LOCK + key {
        KeysInjective(prefix, k, key);
      }
      cells := cells[at := Cell(Mark, now + RoundUp(lockTtlMs, 1))];
      ok := true;
    }

    /** DEL, with no check of the owner. */
    method Release(key: Text)
      modifies this
      ensures cells == ReleasedCells(old(cells), prefix, key)
      ensures forall t :: !Locked(key, t)
      ensures forall k, t :: k != key ==> Locked(k, t) == old(Locked(k, t))
      ensures forall k, t :: k != LOCK + key ==> Cached(k, t) == old(Cached(k, t))
    {
      var at := LockKey(prefix, key);
      forall k ensures LockKey(prefix, k) == at <==> k == key
               ensures EntryKey(prefix, k) == at <==> k == LOCK + key {
        KeysInjective(prefix, k, key);
      }
      cells := cells - {at};
    }
  }
}
