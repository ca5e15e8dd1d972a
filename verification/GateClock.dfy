/** The gate over the locks of a shared Redis: a lock lives for its time to live,
    so requests that finish their critical part sooner never lose it. */
module GateClock {
  import opened JsText
  import opened Receipts
  import opened Gate
  import opened GateInFlight
  import opened GateReleases
  import opened GateLocks
  import opened SettlementCache

  const SETTLEMENT_LOCK_TTL_MS: int := 30_000

  // ----- The store of the gate is what Redis holds alive -----

  /** The keys of the gate's locks and entries, at one time. */
  ghost predicate Represents(cells: Cells<Receipt>, prefix: Text, now: int, store: Store) {
    && (forall k :: IsGateKey(k) ==> (k in store.locks <==> LockedIn(cells, prefix, k, now)))
    && (forall k :: IsGateKey(k) ==>
          CachedIn(cells, prefix, k, now) == if k in store.entries then Some(store.entries[k]) else None)
  }

  /** SET of a receipt is the gate's write. */
  lemma SetRefines(cells: Cells<Receipt>, prefix: Text, now: int, store: Store, key: Text, receipt: Receipt, expiresAt: int)
    requires Represents(cells, prefix, now, store) && IsGateKey(key) && now < expiresAt
    ensures Represents(cells[EntryKey(prefix, key) := Cell(Serialised(receipt), expiresAt)], prefix, now,
                       store.(entries := store.entries[key := receipt]))
  {
    forall k | IsGateKey(k)
      ensures EntryKey(prefix, k) == EntryKey(prefix, key) <==> k == key
      ensures LockKey(prefix, k) != EntryKey(prefix, key)
    {
      KeysInjective(prefix, k, key);
      KeySpacesDisjoint(prefix, key, k);
    }
  }

  /** SET NX is the gate's acquire: it finds the lock absent exactly when the
      gate's store has none, and adds it. */
  lemma AcquireRefines(cells: Cells<Receipt>, prefix: Text, now: int, store: Store, key: Text, lockTtlMs: int)
    requires Represents(cells, prefix, now, store) && IsGateKey(key)
    ensures LockedIn(cells, prefix, key, now) <==> key in store.locks
    ensures Represents(AcquiredCells(cells, prefix, key, lockTtlMs, now), prefix, now, store.(locks := store.locks + {key}))
  {
    forall k | IsGateKey(k)
      ensures LockKey(prefix, k) == LockKey(prefix, key) <==> k == key
      ensures EntryKey(prefix, k) != LockKey(prefix, key)
    {
      KeysInjective(prefix, k, key);
      KeySpacesDisjoint(prefix, k, key);
    }
  }

  /** DEL is the gate's release. */
  lemma ReleaseRefines(cells: Cells<Receipt>, prefix: Text, now: int, store: Store, key: Text)
    requires Represents(cells, prefix, now, store) && IsGateKey(key)
    ensures Represents(ReleasedCells(cells, prefix, key), prefix, now, store.(locks := store.locks - {key}))
  {
    forall k | IsGateKey(k)
      ensures LockKey(prefix, k) == LockKey(prefix, key) <==> k == key
      ensures EntryKey(prefix, k) != LockKey(prefix, key)
    {
      KeysInjective(prefix, k, key);
      KeySpacesDisjoint(prefix, k, key);
    }
  }

  /** What is left of the gate's store when time passes: a lock or an entry goes
      when its cell does, as by the gate's expiry events. */
  ghost function Fade(cells: Cells<Receipt>, prefix: Text, later: int, store: Store): Store {
    Store(map k | k in store.entries && CachedIn(cells, prefix, k, later).Some? :: store.entries[k],
          set k | k in store.locks && LockedIn(cells, prefix, k, later))
  }

  lemma TimeFades(cells: Cells<Receipt>, prefix: Text, now: int, later: int, store: Store)
    requires Represents(cells, prefix, now, store) && now <= later
    ensures Represents(cells, prefix, later, Fade(cells, prefix, later, store))
  {
    var faded := Fade(cells, prefix, later, store);
    forall k | IsGateKey(k)
      ensures k in faded.locks <==> LockedIn(cells, prefix, k, later)
      ensures CachedIn(cells, prefix, k, later) == if k in faded.entries then Some(faded.entries[k]) else None
    {
      assert LockedIn(cells, prefix, k, later) ==> LockedIn(cells, prefix, k, now);
      assert CachedIn(cells, prefix, k, later).Some? ==> CachedIn(cells, prefix, k, later) == CachedIn(cells, prefix, k, now);
    }
  }

  // ----- Timed runs -----

  datatype Timed = Timed(event: Event, at: int)

  /** The state, the lock cells in Redis, and when each holder acquired. */
  datatype Clocked = Clocked(state: State, cells: Cells<Receipt>, since: map<Rid, int>)

  /** The event is a SET NX that reaches Redis, or a DEL that does. */
  predicate TriesLock(s: State, e: Event) {
    (e.AcquireReturns? || (e.AcquireThrows? && e.applied)) && e.r in s.requests
  }

  predicate Deletes(s: State, e: Event) {
    (e.ReleaseReturns? || (e.ReleaseThrows? && e.applied)) && e.r in s.requests
  }

  /** A lock expires when its cell is no longer alive, and SET NX sees just that. */
  predicate CanHappen(c: Clocked, t: Timed, prefix: Text) {
    && Enabled(c.state, t.event)
    && (t.event.LockExpires? && t.event.key in c.state.store.locks ==> !LockedIn(c.cells, prefix, t.event.key, t.at))
    && (TriesLock(c.state, t.event) ==>
          var key := c.state.requests[t.event.r].key;
          (key in c.state.store.locks <==> LockedIn(c.cells, prefix, key, t.at)))
  }

  /** The cells change as RedisSettlementCache changes them. */
  function Tick(c: Clocked, t: Timed, prefix: Text): Clocked
    requires Enabled(c.state, t.event)
  {
    var s, e := Next(c.state, t.event), t.event;
    if TriesLock(c.state, e) && c.state.requests[e.r].key !in c.state.store.locks then
      Clocked(s, AcquiredCells(c.cells, prefix, c.state.requests[e.r].key, SETTLEMENT_LOCK_TTL_MS, t.at), c.since[e.r := t.at])
    else if Deletes(c.state, e) then Clocked(s, ReleasedCells(c.cells, prefix, c.state.requests[e.r].key), c.since)
    else Clocked(s, c.cells, c.since)
  }

  /** Nobody is in the critical part of the key for as long as its lock lives. */
  ghost predicate Punctual(key: Key, c: Clocked, t: Timed) {
    forall r :: Holds(c.state, r) && c.state.requests[r].key == key && r in c.since ==>
      t.at < c.since[r] + 30_000
  }

  /** What the deployment can be relied on for, but for its locks. */
  ghost predicate KeepsRest(key: Key, trust: Trust, s: State, e: Event) {
    e.LockExpires? || Keeps(key, trust, s, e)
  }

  ghost predicate TimedRun(key: Key, trust: Trust, c: Clocked, run: seq<Timed>, prefix: Text)
    decreases |run|
  {
    run == [] ||
    (CanHappen(c, run[0], prefix) && Punctual(key, c, run[0]) && KeepsRest(key, trust, c.state, run[0].event)
     && TimedRun(key, trust, Tick(c, run[0], prefix), run[1..], prefix))
  }

  function Events(run: seq<Timed>): seq<Event> {
    if run == [] then [] else [run[0].event] + Events(run[1..])
  }

  /** The lock cell of a holder is the one it set. */
  ghost predicate OwnLock(key: Key, c: Clocked, prefix: Text) {
    forall r :: Holds(c.state, r) && c.state.requests[r].key == key ==>
      r in c.since && LockKey(prefix, key) in c.cells
      && c.cells[LockKey(prefix, key)].expiresAt == c.since[r] + SETTLEMENT_LOCK_TTL_MS
  }

  /** A lock that is held cannot expire in time. */
  lemma PunctualKeeps(key: Key, trust: Trust, c: Clocked, t: Timed, prefix: Text)
    requires Exclusive(key, c.state) && OwnLock(key, c, prefix) && CanHappen(c, t, prefix)
    requires Punctual(key, c, t) && KeepsRest(key, trust, c.state, t.event)
    ensures Keeps(key, trust, c.state, t.event)
  {
  }

  /** A request comes to hold a lock only by taking it while it is free. */
  lemma EntersByLocking(s: State, e: Event)
    requires Enabled(s, e) && !IsStoreEvent(e) && s.mode.Locking?
    requires !Holds(s, e.r) && InCritical(s, StepOf(s, e).request.phase)
    ensures TriesLock(s, e) && s.requests[e.r].key !in s.store.locks && StepOf(s, e).request.key == s.requests[e.r].key
  {
  }

  /** Whoever deletes a lock held it and holds it no more. */
  lemma DeletesOwn(s: State, e: Event)
    requires Enabled(s, e) && Deletes(s, e) && s.mode.Locking?
    ensures Holds(s, e.r) && !Holds(Next(s, e), e.r)
  {
  }

  lemma HeldBefore(s: State, e: Event, r: Rid)
    requires Enabled(s, e) && Holds(Next(s, e), r) && Holds(s, r)
    ensures Next(s, e).requests[r].key == s.requests[r].key
  {
    if !IsStoreEvent(e) && e.r == r {
      SameKey(s, e);
    }
  }

  lemma OldLockKept(key: Key, c: Clocked, t: Timed, prefix: Text, r: Rid)
    requires Enabled(c.state, t.event) && Exclusive(key, c.state) && OwnLock(key, c, prefix)
    requires Holds(c.state, r) && c.state.requests[r].key == key && Holds(Next(c.state, t.event), r)
    ensures var c' := Tick(c, t, prefix);
            r in c'.since && LockKey(prefix, key) in c'.cells
            && c'.cells[LockKey(prefix, key)].expiresAt == c'.since[r] + SETTLEMENT_LOCK_TTL_MS
  {
    var s, e := c.state, t.event;
    if TriesLock(s, e) || Deletes(s, e) {
      KeysInjective(prefix, s.requests[e.r].key, key);
      if Deletes(s, e) {
        DeletesOwn(s, e);
      }
    }
  }

  lemma OwnLockKept(key: Key, c: Clocked, t: Timed, prefix: Text)
    requires Enabled(c.state, t.event) && Exclusive(key, c.state) && OwnLock(key, c, prefix)
    ensures OwnLock(key, Tick(c, t, prefix), prefix)
  {
    var s, e, c' := c.state, t.event, Tick(c, t, prefix);
    forall r | Holds(c'.state, r) && c'.state.requests[r].key == key
      ensures r in c'.since && LockKey(prefix, key) in c'.cells
      ensures c'.cells[LockKey(prefix, key)].expiresAt == c'.since[r] + SETTLEMENT_LOCK_TTL_MS
    {
      if Holds(s, r) {
        HeldBefore(s, e, r);
        OldLockKept(key, c, t, prefix, r);
      } else {
        EntersByLocking(s, e);
      }
    }
  }

  lemma WeakerTrust(key: Key, trust: Trust, s: State, e: Event)
    requires Keeps(key, trust, s, e)
    ensures Keeps(key, LocksLast, s, e)
  {
  }

  /** What carries over from one timed event to the next. */
  ghost predicate ClockInv(key: Key, c: Clocked, prefix: Text) {
    FlightInv(c.state) && LockInv(key, LocksLast, c.state) && OwnLock(key, c, prefix)
  }

  lemma TimedStep(key: Key, trust: Trust, c: Clocked, t: Timed, prefix: Text)
    requires ClockInv(key, c, prefix) && CanHappen(c, t, prefix) && Punctual(key, c, t) && KeepsRest(key, trust, c.state, t.event)
    ensures Keeps(key, trust, c.state, t.event) && ClockInv(key, Tick(c, t, prefix), prefix)
  {
    PunctualKeeps(key, trust, c, t, prefix);
    WeakerTrust(key, trust, c.state, t.event);
    FlightKept(c.state, t.event);
    LocksKept(key, LocksLast, c.state, t.event);
    OwnLockKept(key, c, t, prefix);
  }

  lemma EventsStep(run: seq<Timed>)
    requires run != []
    ensures Events(run) != [] && Events(run)[0] == run[0].event && Events(run)[1..] == Events(run[1..])
  {
  }

  lemma KeepsFromStep(key: Key, trust: Trust, s: State, events: seq<Event>)
    requires events != [] && Enabled(s, events[0]) && Keeps(key, trust, s, events[0])
    requires IsRun(Next(s, events[0]), events[1..]) && KeepsRun(key, trust, Next(s, events[0]), events[1..])
    ensures IsRun(s, events) && KeepsRun(key, trust, s, events)
  {
  }

  lemma {:induction false} TimedKeeps(key: Key, trust: Trust, c: Clocked, run: seq<Timed>, prefix: Text)
    requires TimedRun(key, trust, c, run, prefix) && ClockInv(key, c, prefix)
    ensures IsRun(c.state, Events(run)) && KeepsRun(key, trust, c.state, Events(run))
    decreases |run|
  {
    if run != [] {
      TimedStep(key, trust, c, run[0], prefix);
      TimedKeeps(key, trust, Tick(c, run[0], prefix), run[1..], prefix);
      EventsStep(run);
      assert Tick(c, run[0], prefix).state == Next(c.state, run[0].event);
      KeepsFromStep(key, trust, c.state, Events(run));
    }
  }

  /** When every request of a key is out of its critical part sooner than a lock
      cell lives, the lock does not expire under its holder: the hypothesis of the
      results on locks is a bound on the time from acquire to release. */
  lemma ShortCriticalPartsKeepLocks(key: Key, trust: Trust, run: seq<Timed>, prefix: Text)
    requires TimedRun(key, trust, Clocked(Start(Locking), map[], map[]), run, prefix)
    ensures IsRun(Start(Locking), Events(run)) && ReachableUnder(key, trust, After(Start(Locking), Events(run)))
  {
    TimedKeeps(key, trust, Clocked(Start(Locking), map[], map[]), run, prefix);
  }
}
