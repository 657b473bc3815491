/**
 * The client-side event store: an attempt log held in memory, persisted to
 * browser storage after every change, re-read on start, and exposed sorted
 * by timestamp. Ingesting an attempt marks the store busy, waits a simulated
 * latency and then appends the attempt.
 */
module EventStore {
  import opened Wrappers
  import opened Types
  import opened Sorting
  import opened Persistence
  import opened Latency
  import opened DemoData

  /**
   * Browser storage for one origin. When it is unavailable (private mode,
   * quota exhausted) every call fails; the store ignores such failures, so a
   * failed read is nothing stored and a failed write changes nothing.
   */
  class Storage {
    var slots: map<string, Stored>
    var available: bool

    constructor(slots: map<string, Stored>, available: bool)
      ensures this.slots == slots && this.available == available
    {
      this.slots := slots;
      this.available := available;
    }

    /** `getItem`, with a failure read as an absent item. */
    function GetItem(key: string): Option<Stored>
      reads this
    {
      if available && key in slots then Some(slots[key]) else None
    }

    /** `setItem`, with a failure ignored. */
    method SetItem(key: string, value: Stored)
      modifies this
      ensures available == old(available)
      ensures slots == if available then old(slots)[key := value] else old(slots)
    {
      if available {
        slots := slots[key := value];
      }
    }

    /** `removeItem`, with a failure ignored. */
    method RemoveItem(key: string)
      modifies this
      ensures available == old(available)
      ensures slots == if available then old(slots) - {key} else old(slots)
    {
      if available {
        slots := slots - {key};
      }
    }
  }

  /** The latency bounds of an ingest. */
  const IngestLatency: LatencyOptions := LatencyOptions(Some(140), Some(520))

  function TsKey(e: AttemptEvent): real {
    e.ts
  }

  /** The starting log: what storage holds if anything, else the seed or nothing. */
  function InitialLog(fromStorage: Option<seq<AttemptEvent>>, seed: bool, base: real, ids: seq<string>): seq<AttemptEvent>
    requires |ids| == 4
  {
    match fromStorage
    case Some(log) => log
    case None => if seed then SeedEvents(base, ids) else []
  }

  /** The hook's options object; a field left out is `undefined`. */
  datatype StoreOptions = StoreOptions(persist: Option<bool>, seed: Option<bool>)

  /** `flag ?? true`: a flag left out is on, so only an explicit `false` turns it off. */
  function FlagOrOn(flag: Option<bool>): (on: bool)
    ensures on <==> flag != Some(false)
  {
    match flag
    case Some(b) => b
    case None => true
  }

  /** The `persist` flag read through `opts?.persist`. */
  function PersistOption(opts: Option<StoreOptions>): Option<bool> {
    if opts.Some? then opts.value.persist else None
  }

  /** The `seed` flag read through `opts?.seed`. */
  function SeedOption(opts: Option<StoreOptions>): Option<bool> {
    if opts.Some? then opts.value.seed else None
  }

  class EventStore {
    const persist: bool
    const seed: bool
    const storage: Storage
    var log: seq<AttemptEvent>
    var isIngesting: bool
    var lastIngestedAt: Option<real>

    /** What the persist effect maintains: storage holds the encoded log whenever it can. */
    ghost predicate Durable()
      reads this, storage
    {
      persist && storage.available ==>
        StorageKey in storage.slots && storage.slots[StorageKey] == Parsed(EncodeLog(log))
    }

    /** The storage after the persist effect has written the current log. */
    ghost function Persisted(before: map<string, Stored>): map<string, Stored>
      reads this, storage
    {
      if persist && storage.available then before[StorageKey := Parsed(EncodeLog(log))] else before
    }

    /** `events`: the log ordered by timestamp, oldest first. */
    function Events(): (r: seq<AttemptEvent>)
      reads this
      ensures |r| == |log| && multiset(r) == multiset(log)
      ensures SortedBy(r, TsKey)
    {
      SortBy(log, TsKey)
    }

    /**
     * Mounting the store: read the stored log when persisting, fall back to
     * the seed (drawn at `base` with `ids`) or to nothing, then persist.
     */
    constructor(storage: Storage, persist: bool, seed: bool, base: real, ids: seq<string>)
      requires |ids| == 4
      modifies storage
      ensures this.storage == storage && this.persist == persist && this.seed == seed
      ensures log == InitialLog(if persist then ReadFromStorage(old(storage.GetItem(StorageKey))) else None, seed, base, ids)
      ensures !isIngesting && lastIngestedAt == None
      ensures storage.available == old(storage.available)
      ensures storage.slots == Persisted(old(storage.slots))
      ensures Durable()
    {
      this.storage := storage;
      this.persist := persist;
      this.seed := seed;
      var fromStorage := if persist then ReadFromStorage(storage.GetItem(StorageKey)) else None;
      log := InitialLog(fromStorage, seed, base, ids);
      isIngesting := false;
      lastIngestedAt := None;
      new;
      PersistEffect();
    }

    /** The persist effect: write the encoded log, ignoring failures. */
    method PersistEffect()
      modifies storage
      ensures storage.available == old(storage.available)
      ensures storage.slots == Persisted(old(storage.slots))
      ensures Durable()
    {
      if persist {
        storage.SetItem(StorageKey, Parsed(EncodeLog(log)));
      }
    }

    /** First half of `ingest`: mark the store busy; the log, and so storage, is untouched. */
    method BeginIngest()
      modifies this
      ensures isIngesting
      ensures log == old(log) && lastIngestedAt == old(lastIngestedAt)
    {
      isIngesting := true;
    }

    /** Second half of `ingest`: append the attempt, clear the busy flag, stamp the time, persist. */
    method CompleteIngest(e: AttemptEvent, now: real)
      modifies this, storage
      ensures log == old(log) + [e]
      ensures !isIngesting && lastIngestedAt == Some(now)
      ensures storage.available == old(storage.available)
      ensures storage.slots == Persisted(old(storage.slots))
      ensures Durable()
    {
      log := log + [e];
      isIngesting := false;
      lastIngestedAt := Some(now);
      PersistEffect();
    }

    /**
     * `ingest`: busy, a latency of 140 to 520 ms drawn from `u`, then the
     * append at clock reading `now`. The wait itself is not modelled.
     */
    method Ingest(e: AttemptEvent, u: real, now: real) returns (delay: int)
      requires 0.0 <= u < 1.0
      modifies this, storage
      ensures delay == Delay(Some(IngestLatency), u) && 140 <= delay <= 520
      ensures log == old(log) + [e]
      ensures e in Events()
      ensures !isIngesting && lastIngestedAt == Some(now)
      ensures storage.available == old(storage.available)
      ensures storage.slots == Persisted(old(storage.slots))
      ensures Durable()
    {
      BeginIngest();
      delay := Delay(Some(IngestLatency), u);
      CompleteIngest(e, now);
      assert e in multiset(log);
    }

    /** `reset`: back to the seed (or nothing), storage item removed, then persisted anew. */
    method Reset(now: real, base: real, ids: seq<string>)
      requires |ids| == 4
      modifies this, storage
      ensures log == if seed then SeedEvents(base, ids) else []
      ensures !isIngesting && lastIngestedAt == Some(now)
      ensures storage.available == old(storage.available)
      ensures storage.slots == Persisted(old(storage.slots))
      ensures Durable()
    {
      Replace(if seed then SeedEvents(base, ids) else [], now);
    }

    /** `clear`: an empty log, storage item removed, then persisted anew. */
    method Clear(now: real)
      modifies this, storage
      ensures log == []
      ensures !isIngesting && lastIngestedAt == Some(now)
      ensures storage.available == old(storage.available)
      ensures storage.slots == Persisted(old(storage.slots))
      ensures Durable()
    {
      Replace([], now);
    }

    /** What `reset` and `clear` share: set the state, remove the item, let the effect write. */
    method Replace(next: seq<AttemptEvent>, now: real)
      modifies this, storage
      ensures log == next
      ensures !isIngesting && lastIngestedAt == Some(now)
      ensures storage.available == old(storage.available)
      ensures storage.slots == Persisted(old(storage.slots))
      ensures Durable()
    {
      log := next;
      isIngesting := false;
      lastIngestedAt := Some(now);
      ghost var before := storage.slots;
      if persist {
        storage.RemoveItem(StorageKey);
      }
      PersistEffect();
      assert persist && storage.available ==>
        (before - {StorageKey})[StorageKey := Parsed(EncodeLog(log))] == before[StorageKey := Parsed(EncodeLog(log))];
    }
  }

  /**
   * `useEventStore(opts)`: both flags default to on, so a store mounted
   * without options persists and starts from the stored log or the seed.
   */
  method UseEventStore(storage: Storage, opts: Option<StoreOptions>, base: real, ids: seq<string>)
    returns (store: EventStore)
    requires |ids| == 4
    modifies storage
    ensures store.storage == storage
    ensures store.persist <==> PersistOption(opts) != Some(false)
    ensures store.seed <==> SeedOption(opts) != Some(false)
    ensures opts.None? ==> store.persist && store.seed
    ensures store.log ==
      InitialLog(if store.persist then ReadFromStorage(old(storage.GetItem(StorageKey))) else None,
                 store.seed, base, ids)
    ensures !store.isIngesting && store.Durable()
  {
    var persist := FlagOrOn(PersistOption(opts));
    var seed := FlagOrOn(SeedOption(opts));
    store := new EventStore(storage, persist, seed, base, ids);
  }

  /**
   * A page refresh: a new store mounted on the same storage starts with the
   * log the old store had, whenever persisting and storage works.
   */
  method Refresh(store: EventStore, base: real, ids: seq<string>) returns (reloaded: EventStore)
    requires |ids| == 4
    requires store.Durable() && store.persist && store.storage.available
    modifies store.storage
    ensures reloaded.log == store.log && reloaded.storage == store.storage
    ensures reloaded.persist && reloaded.seed == store.seed
  {
    StoredLogReadsBack(store.log);
    reloaded := new EventStore(store.storage, store.persist, store.seed, base, ids);
  }

  /** A stored log wins over the seed, even an empty one: a cleared log stays cleared. */
  lemma StoredLogWinsOverSeed(log: seq<AttemptEvent>, base: real, ids: seq<string>)
    requires |ids| == 4
    ensures InitialLog(ReadFromStorage(Some(Parsed(EncodeLog(log)))), true, base, ids) == log
  {
    StoredLogReadsBack(log);
  }

  /** Without usable stored data the store starts from the seed, or empty when seeding is off. */
  lemma NothingStoredStartsFromSeed(slot: Option<Stored>, seed: bool, base: real, ids: seq<string>)
    requires |ids| == 4
    requires slot.None? || slot.value.Unparsable? || !slot.value.value.JArray?
    ensures InitialLog(ReadFromStorage(slot), seed, base, ids) == if seed then SeedEvents(base, ids) else []
  {
  }
}
