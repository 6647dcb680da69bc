/** The TTL cache and its JSON file: backend/core/result_cache.py. */
module ResultCache {
  import opened Wrappers

  /** Values with their expiry. */
  type Table<V> = map<string, (V, int)>

  datatype File<V> = Absent | Saved(table: Table<V>)

  /** `copy(v)` is what JSON makes of a value, if it can be written at all. */
  datatype Config<!V> = Config(defaultTtl: int, persists: bool, copy: V -> Option<V>)

  datatype Op<V> =
    | Set(key: string, value: V, ttl: Option<int>)
    | Get(key: string)
    | Invalidate(key: string)
    | Clear
    | Cleanup
    | Restart

  datatype Timed<V> = Timed(now: int, op: Op<V>)

  datatype State<V> = State(cache: Table<V>, file: File<V>)

  /** `None` and `0` both mean the default. */
  function Expiry<V>(c: Config<V>, now: int, ttl: Option<int>): int {
    now + if ttl.Some? && ttl.value != 0 then ttl.value else c.defaultTtl
  }

  function Live<V>(t: Table<V>, key: string, now: int): Option<V> {
    if key in t && now < t[key].1 then Some(t[key].0) else None
  }

  function Serializable<V>(c: Config<V>, t: Table<V>): Table<V> {
    map k | k in t && c.copy(t[k].0).Some? :: (c.copy(t[k].0).value, t[k].1)
  }

  function Unexpired<V>(t: Table<V>, now: int): Table<V> {
    map k | k in t && now < t[k].1 :: t[k]
  }

  function Load<V>(f: File<V>, now: int): Table<V> {
    if f == Absent then map[] else Unexpired(f.table, now)
  }

  function Step<V>(c: Config<V>, s: State<V>, t: Timed<V>): State<V> {
    match t.op
    case Set(key, value, ttl) =>
      var cache := s.cache[key := (value, Expiry(c, t.now, ttl))];
      State(cache, if c.persists then Saved(Serializable(c, cache)) else s.file)
    case Get(key) =>
      if key in s.cache && t.now >= s.cache[key].1 then s.(cache := s.cache - {key}) else s
    case Invalidate(key) => s.(cache := s.cache - {key})
    case Clear => State(map[], if c.persists then Absent else s.file)
    case Cleanup => s.(cache := Unexpired(s.cache, t.now))
    case Restart => s.(cache := if c.persists then Load(s.file, t.now) else map[])
  }

  /** A history over any number of sessions, on a file that may be there already. A
      session begins with a restart. */
  function Run<V>(c: Config<V>, f: File<V>, ops: seq<Timed<V>>): State<V> {
    if ops == [] then State(map[], f) else Step(c, Run(c, f, ops[..|ops| - 1]), ops[|ops| - 1])
  }

  class Cache<V(==)> {
    const config: Config<V>
    var cache: Table<V>
    var file: File<V>

    /** Starts from what the file still holds. */
    constructor (config: Config<V>, file: File<V>, now: int)
      ensures this.config == config
      ensures Abs() == Step(config, State(map[], file), Timed(now, Restart))
    {
      this.config := config;
      this.file := file;
      cache := map[];
      new;
      if config.persists && file != Absent {
        LoadFromDisk(now);
      }
    }

    function Abs(): State<V>
      reads this
    {
      State(cache, file)
    }

    method GetValue(key: string, now: int) returns (value: Option<V>)
      modifies this`cache
      ensures value == Live(old(cache), key, now)
      ensures Abs() == Step(config, old(Abs()), Timed(now, Get(key)))
    {
      if key in cache {
        var (v, expiry) := cache[key];
        if now < expiry {
          return Some(v);
        }
        cache := cache - {key};
      }
      return None;
    }

    method SetValue(key: string, value: V, ttl: Option<int>, now: int)
      modifies this
      ensures Abs() == Step(config, old(Abs()), Timed(now, Set(key, value, ttl)))
    {
      var seconds := if ttl.Some? && ttl.value != 0 then ttl.value else config.defaultTtl;
      cache := cache[key := (value, now + seconds)];
      if config.persists {
        SaveToDisk();
      }
    }

    method InvalidateKey(key: string)
      modifies this`cache
      ensures forall now :: Abs() == Step(config, old(Abs()), Timed(now, Invalidate(key)))
    {
      cache := cache - {key};
    }

    method ClearAll()
      modifies this
      ensures forall now :: Abs() == Step(config, old(Abs()), Timed(now, Clear))
    {
      cache := map[];
      if config.persists {
        file := Absent;
      }
    }

    method CleanupExpired(now: int)
      modifies this`cache
      ensures Abs() == Step(config, old(Abs()), Timed(now, Cleanup))
    {
      var expired := set k | k in cache && now >= cache[k].1;
      while expired != {}
        invariant expired <= cache.Keys <= old(cache).Keys
        invariant forall k :: k in cache ==> cache[k] == old(cache)[k]
        invariant forall k :: k in old(cache) && now < old(cache)[k].1 ==> k in cache
        invariant forall k :: k in cache && now >= cache[k].1 ==> k in expired
        decreases expired
      {
        var k :| k in expired;
        cache := cache - {k};
        expired := expired - {k};
      }
    }

    method SaveToDisk()
      modifies this`file
      ensures file == Saved(Serializable(config, cache))
    {
      var serializable: Table<V> := map[];
      var keys := cache.Keys;
      while keys != {}
        invariant keys <= cache.Keys
        invariant serializable == Serializable(config, map k | k in cache && k !in keys :: cache[k])
        decreases keys
      {
        var k :| k in keys;
        keys := keys - {k};
        var (value, expiry) := cache[k];
        if config.copy(value).Some? {
          serializable := serializable[k := (config.copy(value).value, expiry)];
        }
      }
      assert (map k | k in cache && k !in keys :: cache[k]) == cache;
      file := Saved(serializable);
    }

    method LoadFromDisk(now: int)
      requires file != Absent && cache == map[]
      modifies this`cache
      ensures cache == Load(file, now)
    {
      var keys := file.table.Keys;
      while keys != {}
        invariant keys <= file.table.Keys
        invariant cache == Unexpired(map k | k in file.table && k !in keys :: file.table[k], now)
        decreases keys
      {
        var k :| k in keys;
        keys := keys - {k};
        if now < file.table[k].1 {
          cache := cache[k := file.table[k]];
        }
      }
      assert (map k | k in file.table && k !in keys :: file.table[k]) == file.table;
    }
  }

  // ---- the plain timed map ----

  /** The last `set` of a key not since invalidated or cleared; after a restart, what
      the file held for it. */
  function LastSet<V>(c: Config<V>, f: File<V>, ops: seq<Timed<V>>, key: string): Option<(V, int)>
    decreases |ops|, 0
  {
    if ops == [] then None
    else
      var t := ops[|ops| - 1];
      var before := ops[..|ops| - 1];
      match t.op
      case Set(k, value, ttl) =>
        if k == key then Some((value, Expiry(c, t.now, ttl))) else LastSet(c, f, before, key)
      case Invalidate(k) => if k == key then None else LastSet(c, f, before, key)
      case Clear => None
      case Restart => if c.persists then OnFile(c, f, before, key) else None
      case _ => LastSet(c, f, before, key)
  }

  /** Since then, some clean-up, some `get` of the key or the restart itself came at
      or after its expiry. */
  predicate Dropped<V>(c: Config<V>, f: File<V>, ops: seq<Timed<V>>, key: string)
    decreases |ops|, 0
  {
    ops != [] &&
    var t := ops[|ops| - 1];
    var before := ops[..|ops| - 1];
    match t.op
    case Set(k, _, _) => k != key && Dropped(c, f, before, key)
    case Invalidate(k) => k != key && Dropped(c, f, before, key)
    case Clear => false
    case Get(k) => Dropped(c, f, before, key) || (k == key && ExpiredAt(LastSet(c, f, before, key), t.now))
    case Cleanup => Dropped(c, f, before, key) || ExpiredAt(LastSet(c, f, before, key), t.now)
    case Restart => c.persists && ExpiredAt(OnFile(c, f, before, key), t.now)
  }

  /** What the file holds for a key: the JSON copy of what memory held at the last
      write. */
  function OnFile<V>(c: Config<V>, f: File<V>, ops: seq<Timed<V>>, key: string): Option<(V, int)>
    decreases |ops|, 0
  {
    if ops == [] then Held(f, key)
    else
      var t := ops[|ops| - 1];
      var before := ops[..|ops| - 1];
      match t.op
      case Set(k, value, ttl) =>
        if !c.persists then OnFile(c, f, before, key)
        else CopyOf(c, if k == key then Some((value, Expiry(c, t.now, ttl))) else InMemory(c, f, before, key))
      case Clear => if c.persists then None else OnFile(c, f, before, key)
      case _ => OnFile(c, f, before, key)
  }

  function InMemory<V>(c: Config<V>, f: File<V>, ops: seq<Timed<V>>, key: string): Option<(V, int)>
    decreases |ops|, 1
  {
    if Dropped(c, f, ops, key) then None else LastSet(c, f, ops, key)
  }

  function Held<V>(f: File<V>, key: string): Option<(V, int)> {
    if f.Saved? && key in f.table then Some(f.table[key]) else None
  }

  function CopyOf<V>(c: Config<V>, entry: Option<(V, int)>): Option<(V, int)> {
    if entry.Some? && c.copy(entry.value.0).Some? then Some((c.copy(entry.value.0).value, entry.value.1)) else None
  }

  function Value<V>(last: Option<(V, int)>, now: int): Option<V> {
    if last.Some? && now < last.value.1 then Some(last.value.0) else None
  }

  predicate ExpiredAt<V>(last: Option<(V, int)>, now: int) {
    last.Some? && last.value.1 <= now
  }

  predicate ClockRuns<V>(ops: seq<Timed<V>>, now: int) {
    && (forall i, j :: 0 <= i < j < |ops| ==> ops[i].now <= ops[j].now)
    && (forall i :: 0 <= i < |ops| ==> ops[i].now <= now)
  }

  function Entry<V>(t: Table<V>, key: string): Option<(V, int)> {
    if key in t then Some(t[key]) else None
  }

  lemma EntryAfterStep<V>(c: Config<V>, s: State<V>, t: Timed<V>, key: string)
    ensures
      var entry := Entry(s.cache, key);
      Entry(Step(c, s, t).cache, key) ==
      match t.op
      case Set(k, value, ttl) => if k == key then Some((value, Expiry(c, t.now, ttl))) else entry
      case Invalidate(k) => if k == key then None else entry
      case Clear => None
      case Get(k) => if k == key && ExpiredAt(entry, t.now) then None else entry
      case Cleanup => if ExpiredAt(entry, t.now) then None else entry
      case Restart =>
        if c.persists && !ExpiredAt(Held(s.file, key), t.now) then Held(s.file, key) else None
  {
  }

  lemma FileAfterStep<V>(c: Config<V>, s: State<V>, t: Timed<V>, key: string)
    ensures
      Held(Step(c, s, t).file, key) ==
      if c.persists && t.op.Set? then CopyOf(c, Entry(Step(c, s, t).cache, key))
      else if c.persists && t.op.Clear? then None else Held(s.file, key)
  {
  }

  /** What is in memory and on file, over any sessions and whatever the clock did. */
  lemma {:induction false} CacheHoldsLastSets<V>(c: Config<V>, f: File<V>, ops: seq<Timed<V>>, key: string)
    ensures Entry(Run(c, f, ops).cache, key) == InMemory(c, f, ops, key)
    ensures Held(Run(c, f, ops).file, key) == OnFile(c, f, ops, key)
  {
    if ops != [] {
      var n := |ops| - 1;
      CacheHoldsLastSets(c, f, ops[..n], key);
      EntryAfterStep(c, Run(c, f, ops[..n]), ops[n], key);
      FileAfterStep(c, Run(c, f, ops[..n]), ops[n], key);
    }
  }

  /** On every history and every clock, `get` answers like a plain timed map if and
      only if the key was not dropped as expired while the clock now says that it
      is alive. */
  lemma GetAgreesUnlessDropped<V>(c: Config<V>, f: File<V>, ops: seq<Timed<V>>, key: string, now: int)
    ensures
      var last := LastSet(c, f, ops, key);
      Live(Run(c, f, ops).cache, key, now) == Value(last, now) <==>
      !(Dropped(c, f, ops, key) && last.Some? && now < last.value.1)
  {
    CacheHoldsLastSets(c, f, ops, key);
  }

  lemma {:induction false} DroppedIsExpired<V>(c: Config<V>, f: File<V>, ops: seq<Timed<V>>, key: string, now: int)
    requires ClockRuns(ops, now) && Dropped(c, f, ops, key)
    ensures ExpiredAt(LastSet(c, f, ops, key), now)
  {
    var n := |ops| - 1;
    if Dropped(c, f, ops[..n], key) {
      DroppedIsExpired(c, f, ops[..n], key, ops[n].now);
    }
  }

  /** With a clock that never runs back that cannot happen: lazy deletion and
      clean-ups cannot be observed. */
  lemma {:induction false} GetRefinesTimedMap<V>(c: Config<V>, f: File<V>, ops: seq<Timed<V>>, key: string, now: int)
    requires ClockRuns(ops, now)
    ensures Live(Run(c, f, ops).cache, key, now) == Value(LastSet(c, f, ops, key), now)
  {
    GetAgreesUnlessDropped(c, f, ops, key, now);
    if Dropped(c, f, ops, key) {
      DroppedIsExpired(c, f, ops, key, now);
    }
  }

  /** A value set is there until its own time to live has passed, the default one if
      none or zero was given. */
  lemma SetLivesForItsTtl<V>(
    c: Config<V>, f: File<V>, ops: seq<Timed<V>>, key: string, value: V, ttl: Option<int>, at: int, now: int)
    ensures
      var lifetime := match ttl
                      case None => c.defaultTtl
                      case Some(n) => if n == 0 then c.defaultTtl else n;
      Live(Run(c, f, ops + [Timed(at, Set(key, value, ttl))]).cache, key, now) ==
      if now < at + lifetime then Some(value) else None
  {
    assert (ops + [Timed(at, Set(key, value, ttl))])[..|ops|] == ops;
  }

  /** If the clock is set back behind the expiry after any clean-up, the
      difference shows. */
  lemma ClockSetBackShows<V>(
    c: Config<V>, f: File<V>, key: string, value: V, ttl: Option<int>, set_: int, swept: int, now: int)
    requires now < Expiry(c, set_, ttl) <= swept
    ensures
      var ops := [Timed(set_, Set(key, value, ttl)), Timed(swept, Cleanup)];
      Live(Run(c, f, ops).cache, key, now) == None && Value(LastSet(c, f, ops, key), now) == Some(value)
  {
    var ops := [Timed(set_, Set(key, value, ttl)), Timed(swept, Cleanup)];
    assert ops[..1] == [Timed(set_, Set(key, value, ttl))];
    assert LastSet(c, f, ops[..1], key) == Some((value, Expiry(c, set_, ttl)));
    GetAgreesUnlessDropped(c, f, ops, key, now);
  }

  // ---- restarts ----

  predicate Writes<V>(op: Op<V>) { op.Set? || op.Clear? }

  /** The history up to and including the last operation that wrote the file. */
  function Persisted<V>(ops: seq<Timed<V>>): (p: seq<Timed<V>>)
    ensures p <= ops
  {
    if ops == [] then []
    else if Writes(ops[|ops| - 1].op) then ops
    else Persisted(ops[..|ops| - 1])
  }

  /** The file is what the last write left, and a write leaves what memory holds. */
  lemma {:induction false} FileIsLastWrite<V>(c: Config<V>, f: File<V>, ops: seq<Timed<V>>)
    requires c.persists
    ensures Run(c, f, ops).file == Run(c, f, Persisted(ops)).file
    ensures Persisted(ops) == [] ==> Run(c, f, ops).file == f
    ensures Persisted(ops) != [] && Persisted(ops)[|Persisted(ops)| - 1].op.Set? ==>
              Run(c, f, ops).file == Saved(Serializable(c, Run(c, f, Persisted(ops)).cache))
    ensures Persisted(ops) != [] && Persisted(ops)[|Persisted(ops)| - 1].op.Clear? ==>
              Run(c, f, ops).file == Absent && Run(c, f, Persisted(ops)).cache == map[]
  {
    if ops != [] && !Writes(ops[|ops| - 1].op) {
      FileIsLastWrite(c, f, ops[..|ops| - 1]);
    }
  }

  /** What memory held at the last write. */
  function WrittenEntry<V>(c: Config<V>, f: File<V>, ops: seq<Timed<V>>, key: string): Option<(V, int)> {
    InMemory(c, f, Persisted(ops), key)
  }

  lemma {:induction false} OnFileIsLastWrite<V>(c: Config<V>, f: File<V>, ops: seq<Timed<V>>, key: string)
    requires c.persists
    ensures OnFile(c, f, ops, key) ==
            if Persisted(ops) == [] then Held(f, key) else CopyOf(c, WrittenEntry(c, f, ops, key))
  {
    if ops != [] {
      if Writes(ops[|ops| - 1].op) {
        WriteLeavesMemory(c, f, ops, key);
      } else {
        OnFileIsLastWrite(c, f, ops[..|ops| - 1], key);
      }
    }
  }

  lemma WriteLeavesMemory<V>(c: Config<V>, f: File<V>, ops: seq<Timed<V>>, key: string)
    requires c.persists && ops != [] && Writes(ops[|ops| - 1].op)
    ensures OnFile(c, f, ops, key) == CopyOf(c, InMemory(c, f, ops, key))
  {
    var before := ops[..|ops| - 1];
    match ops[|ops| - 1].op
    case Set(k, value, ttl) =>
      assert InMemory(c, f, ops, key) ==
             if k == key then Some((value, Expiry(c, ops[|ops| - 1].now, ttl))) else InMemory(c, f, before, key);
    case Clear =>
      assert InMemory(c, f, ops, key) == None;
  }

  /** What a restart finds for a key, over any sessions and whatever the clock did:
      the JSON copy of what memory held at the last write, or else what the file
      held all along, if still unexpired. */
  lemma RestartRoundTrip<V>(c: Config<V>, f: File<V>, ops: seq<Timed<V>>, key: string, now: int)
    requires c.persists
    ensures
      var kept := if Persisted(ops) == [] then Held(f, key) else CopyOf(c, WrittenEntry(c, f, ops, key));
      var loaded := Step(c, Run(c, f, ops), Timed(now, Restart)).cache;
      if kept.Some? && now < kept.value.1 then key in loaded && loaded[key] == kept.value else key !in loaded
  {
    OnFileIsLastWrite(c, f, ops, key);
    CacheHoldsLastSets(c, f, ops, key);
  }

  /** Since the last write or restart the key was invalidated or dropped. */
  predicate Missing<V>(c: Config<V>, f: File<V>, ops: seq<Timed<V>>, key: string) {
    ops == [] ||
    var t := ops[|ops| - 1];
    var before := ops[..|ops| - 1];
    match t.op
    case Set(_, _, _) => false
    case Clear => false
    case Invalidate(k) => k == key || Missing(c, f, before, key)
    case Get(k) => Missing(c, f, before, key) || (k == key && ExpiredAt(LastSet(c, f, before, key), t.now))
    case Cleanup => Missing(c, f, before, key) || ExpiredAt(LastSet(c, f, before, key), t.now)
    case Restart => ExpiredAt(OnFile(c, f, before, key), t.now)
  }

  /** No write came since the last restart. */
  predicate Reloaded<V>(ops: seq<Timed<V>>) {
    ops == [] || ops[|ops| - 1].op == Restart ||
    (!Writes(ops[|ops| - 1].op) && Reloaded(ops[..|ops| - 1]))
  }

  lemma {:induction false} MemorySinceWrite<V>(c: Config<V>, f: File<V>, ops: seq<Timed<V>>, key: string)
    requires c.persists
    ensures InMemory(c, f, ops, key) ==
            if Missing(c, f, ops, key) then None
            else if Reloaded(ops) then OnFile(c, f, ops, key) else WrittenEntry(c, f, ops, key)
  {
    if ops != [] && !Writes(ops[|ops| - 1].op) {
      MemorySinceWrite(c, f, ops[..|ops| - 1], key);
    }
  }

  /** `invalidate`, and the dropping of expired entries, are not written to disk,
      and JSON may lose a value. On every history, a restart answers like the running
      cache if and only if: after a restart without writes, what the file holds alive
      is not missing from memory; otherwise, what memory held at the last write, if
      alive, is copied unchanged, or is missing and cannot be written at all. */
  lemma RestartAgreesUnlessInvalidated<V>(c: Config<V>, f: File<V>, ops: seq<Timed<V>>, key: string, now: int)
    requires c.persists
    ensures
      var again := Step(c, Run(c, f, ops), Timed(now, Restart));
      var kept, held := OnFile(c, f, ops, key), WrittenEntry(c, f, ops, key);
      Live(again.cache, key, now) == Live(Run(c, f, ops).cache, key, now) <==>
      if Reloaded(ops) then Value(kept, now).Some? ==> !Missing(c, f, ops, key)
      else Value(held, now).Some? ==>
             c.copy(held.value.0) == if Missing(c, f, ops, key) then None else Some(held.value.0)
  {
    RestartRoundTrip(c, f, ops, key, now);
    OnFileIsLastWrite(c, f, ops, key);
    CacheHoldsLastSets(c, f, ops, key);
    MemorySinceWrite(c, f, ops, key);
    WritesArePersisted(ops);
  }

  lemma {:induction false} WritesArePersisted<V>(ops: seq<Timed<V>>)
    ensures !Reloaded(ops) ==> Persisted(ops) != []
  {
    if ops != [] {
      WritesArePersisted(ops[..|ops| - 1]);
    }
  }
}
