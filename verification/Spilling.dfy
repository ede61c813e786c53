/**
 The three-tier spill manager. Store and device answers are arbitrary: the world
 answers the manager's calls one by one, any of them may fail, a failed write may
 leave anything in its file, sizes are whatever the allocator reports. An operation
 makes exactly the calls it needs and fails exactly when one of them does.
 */
module Spilling {
  import opened Core
  import opened SpillState

  // ------------------------------------------------------------------ evictions

  ghost predicate InTier(m: Entries, t: Tier, id: BatchId) {
    id in m && m[id].tier == t
  }

  ghost predicate NoWarmer(m: Entries, t: Tier, id: BatchId, other: BatchId)
    requires id in m
  {
    InTier(m, t, other) ==> m[id].lastTouch <= m[other].lastTouch
  }

  ghost predicate IsColdest(m: Entries, t: Tier, id: BatchId) {
    InTier(m, t, id) && forall other :: NoWarmer(m, t, id, other)
  }

  function Below(t: Tier): Tier {
    if t.Device? then Host else Disk
  }

  /** Batch `id` left tier `from`. */
  ghost predicate Sank(a: Entries, b: Entries, from: Tier, id: BatchId) {
    InTier(a, from, id) && !InTier(b, from, id)
  }

  ghost predicate StayedOrSank(a: Entries, b: Entries, from: Tier, id: BatchId) {
    && (id in a <==> id in b)
    && (id in a && id in b && !Sank(a, b, from, id) ==> b[id] == a[id])
    && (id in b && Sank(a, b, from, id) ==> b[id].tier == Below(from) && b[id].lastTouch == a[id].lastTouch)
  }

  ghost predicate ColderFirst(a: Entries, b: Entries, from: Tier, v: BatchId, w: BatchId) {
    Sank(a, b, from, v) && InTier(a, from, w) && InTier(b, from, w) ==> a[v].lastTouch < a[w].lastTouch
  }

  /** Some batches sank one tier, the least recently touched first; nothing else changed. */
  ghost predicate Evicted(a: Entries, b: Entries, from: Tier) {
    (forall id :: StayedOrSank(a, b, from, id)) && (forall v, w :: ColderFirst(a, b, from, v, w))
  }

  ghost predicate LastToSink(a: Entries, b: Entries, from: Tier, v: BatchId) {
    Sank(a, b, from, v) && forall w :: Sank(a, b, from, w) ==> a[w].lastTouch <= a[v].lastTouch
  }

  /** The last batch to sink had to: with it, the tier would still be over budget. */
  ghost predicate NoneTooMany(a: Entries, b: Entries, from: Tier, used: nat, budget: nat) {
    forall v :: LastToSink(a, b, from, v) ==> used + a[v].bytes > budget
  }

  /** Tier `from` was trimmed to what the budget asks: the shortest coldest run of batches sank. */
  ghost predicate Trimmed(a: Entries, b: Entries, from: Tier, used: nat, budget: nat) {
    Evicted(a, b, from) && NoneTooMany(a, b, from, used, budget)
  }

  lemma {:induction false} NothingSank(a: Entries, from: Tier, used: nat, budget: nat)
    ensures Trimmed(a, a, from, used, budget)
  {
  }

  lemma {:induction false} EvictOne(a: Entries, b: Entries, from: Tier, v: BatchId, e: Entry, used: nat, budget: nat,
                                    clock: nat)
    requires Evicted(a, b, from) && Stamped(a, clock) && from != Disk && IsColdest(b, from, v)
    requires e.tier == Below(from) && e.lastTouch == b[v].lastTouch
    requires used + b[v].bytes > budget
    ensures Trimmed(a, b[v := e], from, used, budget)
  {
    var c := b[v := e];
    assert StayedOrSank(a, b, from, v);
    forall id ensures StayedOrSank(a, c, from, id) && (Sank(a, c, from, id) <==> Sank(a, b, from, id) || id == v) {
      assert StayedOrSank(a, b, from, id);
    }
    forall x, w ensures ColderFirst(a, c, from, x, w) {
      assert ColderFirst(a, b, from, x, w) && NoWarmer(b, from, v, w) && Apart(a, v, w) && StayedOrSank(a, b, from, w);
    }
    forall x | LastToSink(a, c, from, x) ensures used + a[x].bytes > budget {
      assert Sank(a, c, from, v) && ColderFirst(a, b, from, x, v) && Apart(a, x, v);
    }
  }

  /** The batches of a tier. */
  ghost function Residents(m: Entries, t: Tier): set<BatchId> {
    set id | id in m && m[id].tier == t
  }

  lemma {:induction false} OneLess(m: Entries, t: Tier, v: BatchId, e: Entry)
    requires InTier(m, t, v) && e.tier != t
    ensures |Residents(m[v := e], t)| == |Residents(m, t)| - 1
  {
    assert Residents(m[v := e], t) == Residents(m, t) - {v};
  }

  /** Trimming registers and forgets nobody, and touches nobody. */
  lemma {:induction false} TrimKeeps(a: Entries, b: Entries, from: Tier)
    requires Evicted(a, b, from)
    ensures a.Keys == b.Keys && forall id :: id in a ==> b[id].lastTouch == a[id].lastTouch
  {
    forall id ensures (id in a <==> id in b) && (id in a && id in b ==> b[id].lastTouch == a[id].lastTouch) {
      assert StayedOrSank(a, b, from, id);
    }
  }

  // ------------------------------------------------------------------ the world

  /** One answer from outside: success or not, the size reported, and what a failure leaves behind. */
  datatype Answer = Answer(ok: bool, size: nat, debris: nat)

  /** The calls numbered `from` up to `to` all succeed. */
  ghost predicate AllGood(world: nat -> Answer, from: nat, to: nat) {
    forall k :: from <= k < to ==> world(k).ok
  }

  /** Calls `from` up to `to` went well until the last, which decides. */
  ghost predicate LastDecides(world: nat -> Answer, from: nat, to: nat, ok: bool) {
    if ok then AllGood(world, from, to) else from < to && AllGood(world, from, to - 1) && !world(to - 1).ok
  }

  lemma {:induction false} OneMoreCall(world: nat -> Answer, from: nat, to: nat)
    requires from <= to && AllGood(world, from, to)
    ensures LastDecides(world, from, to + 1, world(to).ok)
  {
  }

  /** What a failed call leaves of a file: itself, rubbish, or nothing. */
  function Littered(store: map<Path, File>, path: Path, debris: nat): map<Path, File> {
    if debris == 1 then store[path := Broken] else if debris == 2 then store - {path} else store
  }

  /** Nothing outside ever fails. */
  ghost predicate Calm(world: nat -> Answer) {
    forall k :: world(k).ok
  }

  // ---------------------------------------------------------------- the manager

  class SpillManager {
    const deviceBudget: nat
    const hostBudget: nat
    const prefix: string
    const world: nat -> Answer

    /** The number of the next outside call. */
    var now: nat

    var entries: Entries
    var used: Usage
    var nextId: nat
    var clock: nat
    var store: map<Path, File>
    /** What the telemetry gauges show. */
    var gauges: Usage
    var demotions: nat
    var promotions: nat

    /** What was inserted under each id, and into which tier. */
    ghost var origin: map<BatchId, Data>
    ghost var start: map<BatchId, Tier>
    /** The levels that batches since forgotten had sunk. */
    ghost var retired: int

    ghost function Ledger(): Books
      reads this
    {
      Books(entries, used, nextId, clock, prefix, store, origin, start, demotions - promotions - retired)
    }

    ghost predicate Valid()
      reads this
    {
      Sound(Ledger())
    }

    constructor (device: nat, host: nat, under: string, files: map<Path, File>, answers: nat -> Answer)
      ensures Valid() && entries == map[] && origin == map[] && deviceBudget == device && hostBudget == host
        && prefix == under && world == answers && now == 0
    {
      deviceBudget, hostBudget, prefix, world, now := device, host, under, answers, 0;
      entries, used, nextId, clock, store, gauges := map[], Usage(0, 0, 0), 1, 0, files, Usage(0, 0, 0);
      demotions, promotions, origin, start, retired := 0, 0, map[], map[], 0;
      new;
      SoundEmpty(Ledger());
    }

    /** The least recently touched batch of a tier, in whatever order the map is walked. */
    method Coldest(t: Tier) returns (r: Option<BatchId>)
      ensures r.Some? ==> IsColdest(entries, t, r.value)
      ensures r.None? ==> forall id :: !InTier(entries, t, id)
    {
      r := None;
      var left := entries.Keys;
      while left != {}
        invariant left <= entries.Keys
        invariant r.Some? ==> InTier(entries, t, r.value)
        invariant forall id :: InTier(entries, t, id) && id !in left ==>
          r.Some? && entries[r.value].lastTouch <= entries[id].lastTouch
        decreases |left|
      {
        var id :| id in left;
        left := left - {id};
        if entries[id].tier == t && (r.None? || entries[id].lastTouch < entries[r.value].lastTouch) {
          r := Some(id);
        }
      }
    }

    /** Calls out. */
    method Ask() returns (a: Answer)
      modifies this`now
      ensures a == world(old(now)) && now == old(now) + 1
    {
      a := world(now);
      now := now + 1;
    }

    /** Encodes and stores a batch; a failed write may leave anything in the file. */
    method WriteSpill(path: Path, d: Data) returns (r: Result<nat>)
      modifies this`store, this`now
      ensures now == old(now) + 1 && (r.Ok? <==> world(old(now)).ok)
      ensures forall p :: p != path ==> SameFile(old(store), store, p)
      ensures r.Ok? ==> path in store && store[path] == Spilled(d) && r.value == world(old(now)).size
    {
      var a := Ask();
      if a.ok {
        store := store[path := Spilled(d)];
        return Ok(a.size);
      }
      store := Littered(store, path, a.debris);
      return Err(ExecutionError);
    }

    method ReadSpill(path: Path) returns (r: Result<Data>, size: nat)
      modifies this`now
      ensures now == old(now) + 1 && size == world(old(now)).size
      ensures r.Ok? ==> path in store && store[path] == Spilled(r.value)
      ensures r.Ok? <==> world(old(now)).ok && path in store && store[path].Spilled?
    {
      var a := Ask();
      size := a.size;
      if !a.ok || path !in store || store[path].Broken? {
        return Err(ExecutionError), size;
      }
      return Ok(store[path].data), size;
    }

    /** Deletes a file; a missing one counts as deleted, and a failed call may leave anything in it. */
    method DeleteFile(path: Path) returns (ok: bool)
      modifies this`store, this`now
      ensures now == old(now) + 1 && ok == world(old(now)).ok
      ensures ok ==> path !in store
      ensures forall p :: p != path ==> SameFile(old(store), store, p)
    {
      var a := Ask();
      ok := a.ok;
      if ok {
        store := store - {path};
      } else {
        store := Littered(store, path, a.debris);
      }
    }

    method Publish()
      requires Valid()
      modifies this`gauges
      ensures Valid() && gauges == used
    {
      ghost var ledger := Ledger();
      gauges := used;
      assert Ledger() == ledger;
    }

    // ------------------------------------------------------------- demotions

    /** One call per batch that sank and, on failure, the one more that failed. */
    ghost predicate Called(before: Entries, after: Entries, t: Tier, from: nat, to: nat, ok: bool) {
      && to == from + |Residents(before, t)| - |Residents(after, t)| + (if ok then 0 else 1)
      && from <= to && LastDecides(world, from, to, ok)
    }

    /** Writes a host batch to its file and moves it to disk; on failure nothing moved. */
    method SpillOne(v: BatchId) returns (ok: bool)
      requires Valid() && InTier(entries, Host, v)
      modifies this`entries, this`used, this`store, this`demotions, this`now
      ensures Valid() && now == old(now) + 1 && ok == world(old(now)).ok
      ensures !ok ==> entries == old(entries) && used == old(used) && demotions == old(demotions)
      ensures ok ==>
        v in entries && entries == old(entries)[v := entries[v]] && entries[v].tier == Disk
        && entries[v].lastTouch == old(entries)[v].lastTouch && entries[v].bytes == world(old(now)).size
      ensures ok ==> used.host + old(entries)[v].bytes == old(used.host) && demotions == old(demotions) + 1
      ensures used.device == old(used.device)
    {
      SoundEntry(Ledger(), v);
      var path := Path(prefix, v);
      var e := entries[v];
      var written := WriteSpill(path, e.payload.data);
      SoundFile(old(Ledger()), v, store);
      assert Ledger() == old(Ledger()).(store := store);
      if written.Err? {
        return false;
      }
      var e' := Entry(Disk, written.value, e.hostBytes, e.lastTouch, OnDisk(path));
      SoundMove(Ledger(), v, e');
      ghost var ledger := Moved(Ledger(), v, e');
      entries := entries[v := e'];
      used := used.Sub(Host, e.bytes).Add(Disk, written.value);
      demotions := demotions + 1;
      assert Ledger() == ledger;
      return true;
    }

    /** Spills the coldest host batch. An over-full tier has one: its bytes belong to someone. */
    method SpillColdest(ghost first: Entries) returns (ok: bool)
      requires Valid() && used.host > hostBudget && Evicted(first, entries, Host) && Stamped(first, clock)
      modifies this`entries, this`used, this`store, this`demotions, this`now
      ensures Valid() && used.device == old(used.device) && now == old(now) + 1 && ok == world(old(now)).ok
      ensures !ok ==> entries == old(entries) && used == old(used) && demotions == old(demotions)
      ensures ok ==> Trimmed(first, entries, Host, used.host, hostBudget)
      ensures ok ==>
        demotions == old(demotions) + 1 && |Residents(entries, Host)| == |Residents(old(entries), Host)| - 1
    {
      SomeoneThere(entries, used, nextId, Host);
      ghost var someone :| someone in entries && entries[someone].tier == Host;
      assert InTier(entries, Host, someone);
      var victim := Coldest(Host);
      ok := SpillOne(victim.value);
      if ok {
        EvictOne(first, old(entries), Host, victim.value, entries[victim.value], used.host, hostBudget, clock);
        OneLess(old(entries), Host, victim.value, entries[victim.value]);
      }
    }

    /** Spills cold host batches until the host budget holds. */
    method EnforceHost() returns (ok: bool)
      requires Valid()
      modifies this`entries, this`used, this`store, this`demotions, this`now
      ensures Valid() && used.device == old(used.device)
      ensures ok ==> used.host <= hostBudget
      ensures Called(old(entries), entries, Host, old(now), now, ok)
      ensures Trimmed(old(entries), entries, Host, used.host, hostBudget)
      ensures demotions == old(demotions) + |Residents(old(entries), Host)| - |Residents(entries, Host)|
    {
      NothingSank(entries, Host, used.host, hostBudget);
      while used.host > hostBudget
        invariant Valid() && used.device == old(used.device)
        invariant Trimmed(old(entries), entries, Host, used.host, hostBudget)
        invariant demotions == old(demotions) + |Residents(old(entries), Host)| - |Residents(entries, Host)|
        invariant Called(old(entries), entries, Host, old(now), now, true)
        decreases |Residents(entries, Host)|
      {
        OneMoreCall(world, old(now), now);
        var done := SpillColdest(old(entries));
        if !done {
          return false;
        }
      }
      return true;
    }

    /** Copies a device batch back to the host; on failure nothing moved. */
    method DemoteOne(v: BatchId) returns (ok: bool)
      requires Valid() && InTier(entries, Device, v)
      modifies this`entries, this`used, this`demotions, this`now
      ensures Valid() && now == old(now) + 1 && ok == world(old(now)).ok
      ensures !ok ==> entries == old(entries) && used == old(used) && demotions == old(demotions)
      ensures ok ==>
        v in entries && entries == old(entries)[v := entries[v]] && entries[v].tier == Host
        && entries[v].lastTouch == old(entries)[v].lastTouch
        && entries[v].bytes == entries[v].hostBytes == world(old(now)).size
      ensures ok ==> used.device + old(entries)[v].bytes == old(used.device) && demotions == old(demotions) + 1
    {
      var copied := Ask();
      if !copied.ok {
        return false;
      }
      SoundEntry(Ledger(), v);
      var e := entries[v];
      var hostBytes := copied.size;
      var e' := Entry(Host, hostBytes, hostBytes, e.lastTouch, InHost(e.payload.data));
      SoundMove(Ledger(), v, e');
      ghost var ledger := Moved(Ledger(), v, e');
      entries := entries[v := e'];
      used := used.Sub(Device, e.bytes).Add(Host, hostBytes);
      demotions := demotions + 1;
      assert Ledger() == ledger;
      return true;
    }

    method DemoteColdest(ghost first: Entries) returns (ok: bool)
      requires Valid() && used.device > deviceBudget && Evicted(first, entries, Device) && Stamped(first, clock)
      modifies this`entries, this`used, this`demotions, this`now
      ensures Valid() && now == old(now) + 1 && ok == world(old(now)).ok
      ensures !ok ==> entries == old(entries) && used == old(used) && demotions == old(demotions)
      ensures ok ==> Trimmed(first, entries, Device, used.device, deviceBudget)
      ensures ok ==>
        demotions == old(demotions) + 1 && |Residents(entries, Device)| == |Residents(old(entries), Device)| - 1
    {
      SomeoneThere(entries, used, nextId, Device);
      ghost var someone :| someone in entries && entries[someone].tier == Device;
      assert InTier(entries, Device, someone);
      var victim := Coldest(Device);
      ok := DemoteOne(victim.value);
      if ok {
        EvictOne(first, old(entries), Device, victim.value, entries[victim.value], used.device, deviceBudget, clock);
        OneLess(old(entries), Device, victim.value, entries[victim.value]);
      }
    }

    /** Demotes cold device batches until the device budget holds. */
    method EnforceDevice() returns (ok: bool)
      requires Valid()
      modifies this`entries, this`used, this`demotions, this`now
      ensures Valid()
      ensures ok ==> used.device <= deviceBudget
      ensures Called(old(entries), entries, Device, old(now), now, ok)
      ensures Trimmed(old(entries), entries, Device, used.device, deviceBudget)
      ensures demotions == old(demotions) + |Residents(old(entries), Device)| - |Residents(entries, Device)|
    {
      NothingSank(entries, Device, used.device, deviceBudget);
      while used.device > deviceBudget
        invariant Valid()
        invariant Trimmed(old(entries), entries, Device, used.device, deviceBudget)
        invariant demotions == old(demotions) + |Residents(old(entries), Device)| - |Residents(entries, Device)|
        invariant Called(old(entries), entries, Device, old(now), now, true)
        decreases |Residents(entries, Device)|
      {
        OneMoreCall(world, old(now), now);
        var done := DemoteColdest(old(entries));
        if !done {
          return false;
        }
      }
      return true;
    }

    // -------------------------------------------------------------- inserting

    /** Registers a batch under a fresh id, as the most recently touched. */
    method Register(e: Entry, ghost d: Data) returns (id: BatchId)
      requires Valid() && e.lastTouch == clock + 1 && !e.tier.Disk?
        && e.payload == (if e.tier.Device? then OnDevice(d) else InHost(d))
      modifies this`entries, this`used, this`nextId, this`clock, this`origin, this`start
      ensures Valid() && id == old(nextId) && nextId == old(nextId) + 1 && clock == old(clock) + 1
      ensures id !in old(entries) && entries == old(entries)[id := e] && origin == old(origin)[id := d]
        && used == old(used).Add(e.tier, e.bytes)
    {
      id := nextId;
      SoundInsert(Ledger(), e, d);
      ghost var ledger := Registered(Ledger(), e, d);
      nextId, clock := nextId + 1, clock + 1;
      entries, used := entries[id := e], used.Add(e.tier, e.bytes);
      origin, start := origin[id := d], start[id := e.tier];
      assert Ledger() == ledger;
    }

    /** Takes in a batch that lives on the host. */
    method InsertHost(batch: Data, bytes: nat) returns (r: Result<BatchId>, ghost held: Entries)
      requires Valid()
      modifies this
      ensures Valid() && nextId == old(nextId) + 1 && clock == old(clock) + 1
        && origin == old(origin)[old(nextId) := batch]
      ensures held == old(entries)[old(nextId) := Entry(Host, bytes, bytes, clock, InHost(batch))]
      ensures Trimmed(held, entries, Host, used.host, hostBudget) && used.device == old(used.device)
      ensures r.Ok? ==> r.value == old(nextId) && used.host <= hostBudget && gauges == used
      ensures r.Err? ==> gauges == old(gauges)
      ensures Called(held, entries, Host, old(now), now, r.Ok?)
    {
      var id := Register(Entry(Host, bytes, bytes, clock + 1, InHost(batch)), batch);
      held := entries;
      var ok := EnforceHost();
      if !ok {
        return Err(ExecutionError), held;
      }
      Publish();
      return Ok(id), held;
    }

    /** Takes in a batch that lives on the device. */
    method InsertDevice(batch: Data, bytes: nat) returns (r: Result<BatchId>, ghost held: Entries, ghost mid: Entries)
      requires Valid()
      modifies this
      ensures Valid() && nextId == old(nextId) + 1 && clock == old(clock) + 1
        && origin == old(origin)[old(nextId) := batch]
      ensures held == old(entries)[old(nextId) := Entry(Device, bytes, 0, clock, OnDevice(batch))]
      ensures Trimmed(held, mid, Device, used.device, deviceBudget)
        && Trimmed(mid, entries, Host, used.host, hostBudget)
      ensures r.Ok? ==>
        r.value == old(nextId) && used.device <= deviceBudget && used.host <= hostBudget && gauges == used
      ensures r.Err? ==> gauges == old(gauges)
      ensures old(now) <= now && LastDecides(world, old(now), now, r.Ok?)
      ensures r.Ok? ==>
        now == old(now) + |Residents(held, Device)| - |Residents(mid, Device)|
               + |Residents(mid, Host)| - |Residents(entries, Host)|
    {
      var id := Register(Entry(Device, bytes, 0, clock + 1, OnDevice(batch)), batch);
      held := entries;
      var ok := EnforceDevice();
      mid := entries;
      if !ok {
        NothingSank(entries, Host, used.host, hostBudget);
        return Err(ExecutionError), held, mid;
      }
      ok := EnforceHost();
      if !ok {
        return Err(ExecutionError), held, mid;
      }
      Publish();
      return Ok(id), held, mid;
    }

    // ------------------------------------------------------ reading, forgetting

    /** Moves a batch from disk to the host. */
    method Lift(id: BatchId, d: Data, bytes: nat)
      requires Valid() && InTier(entries, Disk, id) && id in origin && d == origin[id]
      modifies this`entries, this`used, this`promotions
      ensures Valid() && used.device == old(used.device) && promotions == old(promotions) + 1
      ensures var e := old(entries)[id];
              entries == old(entries)[id := Entry(Host, bytes, e.hostBytes, e.lastTouch, InHost(d))]
      ensures used.disk + old(entries)[id].bytes == old(used.disk)
    {
      SoundEntry(Ledger(), id);
      var e := entries[id];
      var e' := Entry(Host, bytes, e.hostBytes, e.lastTouch, InHost(d));
      SoundMove(Ledger(), id, e');
      ghost var ledger := Moved(Ledger(), id, e');
      entries := entries[id := e'];
      used := used.Sub(Disk, e.bytes).Add(Host, bytes);
      promotions := promotions + 1;
      assert Ledger() == ledger;
    }

    /** Reads a spilled batch back into host memory; on failure it stays on disk. */
    method Promote(id: BatchId) returns (r: Result<Data>)
      requires Valid() && InTier(entries, Disk, id)
      modifies this`entries, this`used, this`store, this`promotions, this`now
      ensures Valid() && used.device == old(used.device)
      ensures r.Ok? <==> world(old(now)).ok
      ensures now == old(now) + if r.Ok? then 2 else 1
      ensures r.Err? ==> entries == old(entries) && used == old(used) && promotions == old(promotions)
      ensures r.Ok? ==> id in origin && r.value == origin[id] && promotions == old(promotions) + 1
      ensures r.Ok? ==> id in entries && entries == old(entries)[id := entries[id]] && entries[id].tier == Host
      ensures r.Ok? ==> entries[id].lastTouch == old(entries)[id].lastTouch && entries[id].payload == InHost(r.value)
      ensures r.Ok? ==> used.disk + old(entries)[id].bytes == old(used.disk)
      ensures r.Ok? ==>
        entries[id].bytes == if old(entries)[id].hostBytes > 0 then old(entries)[id].hostBytes else world(old(now)).size
    {
      SoundEntry(Ledger(), id);
      var e := entries[id];
      var hostBytes;
      r, hostBytes := ReadSpill(e.payload.path);
      if r.Err? {
        return;
      }
      // A decoded batch over-reports its size, so the size it first had is reused.
      if e.hostBytes > 0 {
        hostBytes := e.hostBytes;
      }
      Lift(id, r.value, hostBytes);
      ghost var ledger := Ledger();
      // A file that cannot be deleted is only logged: the next spill overwrites it.
      var deleted := DeleteFile(e.payload.path);
      SoundFile(ledger, id, store);
      assert Ledger() == ledger.(store := store);
    }

    /** Moves the clock on and stamps the batch, if there is one. */
    method Touch(id: BatchId) returns (e: Option<Entry>)
      requires Valid()
      modifies this`clock, this`entries
      ensures Valid() && clock == old(clock) + 1
      ensures e == if id in old(entries) then Some(old(entries)[id]) else None
      ensures e.None? ==> entries == old(entries)
      ensures e.Some? ==>
        && entries == old(entries)[id := Entry(e.value.tier, e.value.bytes, e.value.hostBytes, clock, e.value.payload)]
        && id in origin && Keeps(e.value, origin[id], Path(prefix, id), store)
    {
      SoundTick(Ledger());
      if id !in entries {
        ghost var ticked := Ledger().(clock := clock + 1);
        clock := clock + 1;
        assert Ledger() == ticked;
        return None;
      }
      SoundEntry(Ledger(), id);
      SoundTouch(Ledger(), id);
      ghost var ledger := Touched(Ledger(), id);
      e := Some(entries[id]);
      clock := clock + 1;
      entries := entries[id := Entry(e.value.tier, e.value.bytes, e.value.hostBytes, clock, e.value.payload)];
      assert Ledger() == ledger;
    }

    /** Looks a batch up and marks it used; one that had been spilled is read back first. */
    method Get(id: BatchId) returns (r: Result<Data>, ghost held: Entries)
      requires Valid()
      modifies this
      ensures Valid() && clock == old(clock) + 1 && nextId == old(nextId) && origin == old(origin)
        && entries.Keys == old(entries).Keys
      ensures id !in old(entries) ==> r.Err? && entries == old(entries)
      ensures r.Ok? ==> id in origin && r.value == origin[id]
      ensures id in entries ==> entries[id].lastTouch == clock
      ensures Trimmed(held, entries, Host, used.host, hostBudget) && used.device == old(used.device)
      ensures forall i :: i in held && i != id ==> i in old(entries) && held[i] == old(entries)[i]
      ensures r.Ok? && InTier(old(entries), Disk, id) ==>
        used.host <= hostBudget && gauges == used && InTier(held, Host, id)
      ensures id in old(entries) ==> Fetched(id, old(entries)[id].tier, r, held, old(now))
      ensures id !in old(entries) ==> now == old(now)
    {
      var e := Touch(id);
      if e.None? {
        NothingSank(entries, Host, used.host, hostBudget);
        return Err(ExecutionError), entries;
      }
      r, held := Fetch(id);
    }

    /** What a lookup answers, by the tier the batch is in. */
    ghost predicate Fetched(id: BatchId, t: Tier, r: Result<Data>, held: Entries, from: nat)
      reads this
    {
      && id in origin && (r.Ok? ==> r.value == origin[id])
      && match t
         case Host => r.Ok? && now == from
         case Device => now == from + 1 && (r.Ok? <==> world(from).ok)
         case Disk => if world(from).ok then Called(held, entries, Host, from + 2, now, r.Ok?) else r.Err? && now == from + 1
    }

    /** Hands out a known batch. */
    method Fetch(id: BatchId) returns (r: Result<Data>, ghost held: Entries)
      requires Valid() && id in entries
      modifies this`entries, this`used, this`store, this`promotions, this`demotions, this`gauges, this`now
      ensures Valid() && entries.Keys == old(entries).Keys && used.device == old(used.device)
      ensures entries[id].lastTouch == old(entries)[id].lastTouch
      ensures Trimmed(held, entries, Host, used.host, hostBudget)
      ensures forall i :: i in held && i != id ==> i in old(entries) && held[i] == old(entries)[i]
      ensures r.Ok? && InTier(old(entries), Disk, id) ==>
        used.host <= hostBudget && gauges == used && InTier(held, Host, id)
      ensures Fetched(id, old(entries)[id].tier, r, held, old(now))
    {
      SoundEntry(Ledger(), id);
      NothingSank(entries, Host, used.host, hostBudget);
      held := entries;
      match entries[id].payload {
        case InHost(batch) =>
          r := Ok(batch);
        case OnDevice(batch) =>
          var copied := Ask();
          r := if copied.ok then Ok(batch) else Err(ExecutionError);
        case OnDisk(_) =>
          r, held := GetSpilled(id);
      }
    }

    /** The disk case of `Get`. */
    method GetSpilled(id: BatchId) returns (r: Result<Data>, ghost held: Entries)
      requires Valid() && InTier(entries, Disk, id)
      modifies this`entries, this`used, this`store, this`promotions, this`demotions, this`gauges, this`now
      ensures Valid() && entries.Keys == old(entries).Keys && used.device == old(used.device)
      ensures r.Ok? ==>
        id in origin && r.value == origin[id] && used.host <= hostBudget && gauges == used && InTier(held, Host, id)
      ensures id in entries && entries[id].lastTouch == old(entries)[id].lastTouch
      ensures Trimmed(held, entries, Host, used.host, hostBudget)
      ensures forall i :: i in held && i != id ==> i in old(entries) && held[i] == old(entries)[i]
      ensures if world(old(now)).ok then Called(held, entries, Host, old(now) + 2, now, r.Ok?)
              else r.Err? && now == old(now) + 1
    {
      r := Promote(id);
      held := entries;
      if r.Err? {
        NothingSank(entries, Host, used.host, hostBudget);
        return;
      }
      var ok := EnforceHost();
      TrimKeeps(held, entries, Host);
      if !ok {
        return Err(ExecutionError), held;
      }
      Publish();
    }

    /** Strikes a batch off the books. */
    method Forget(id: BatchId) returns (e: Entry)
      requires Valid() && id in entries
      modifies this`entries, this`used, this`retired
      ensures Valid() && e == old(entries)[id] && entries == old(entries) - {id}
      ensures used == old(used).Sub(e.tier, e.bytes)
      ensures e.payload.OnDisk? <==> e.tier.Disk?
      ensures e.payload.OnDisk? ==> e.payload.path == Path(prefix, id)
    {
      SoundEntry(Ledger(), id);
      SoundRemove(Ledger(), id);
      ghost var ledger := Forgotten(Ledger(), id);
      e := entries[id];
      retired := retired + LevelOf(entries, start, id);
      entries := entries - {id};
      used := used.Sub(e.tier, e.bytes);
      assert Ledger() == ledger;
    }

    /** Forgets a batch and its file; says whether it was known. */
    method Remove(id: BatchId) returns (r: Result<bool>)
      requires Valid()
      modifies this
      ensures Valid() && entries == old(entries) - {id} && origin == old(origin) && nextId == old(nextId)
        && clock == old(clock)
      ensures r.Ok? ==> r.value == (id in old(entries))
      ensures r.Ok? && r.value ==> gauges == used
      ensures r.Ok? && InTier(old(entries), Disk, id) ==> Path(prefix, id) !in store
      ensures r.Err? <==> InTier(old(entries), Disk, id) && !world(old(now)).ok
      ensures now == old(now) + if InTier(old(entries), Disk, id) then 1 else 0
      ensures id in old(entries) ==> used == old(used).Sub(old(entries)[id].tier, old(entries)[id].bytes)
    {
      if id !in entries {
        return Ok(false);
      }
      var e := Forget(id);
      ghost var ledger := Ledger();
      if e.payload.OnDisk? {
        var deleted := DeleteFile(e.payload.path);
        SoundFile(ledger, id, store);
        assert Ledger() == ledger.(store := store);
        if !deleted {
          return Err(ExecutionError);
        }
      }
      Publish();
      return Ok(true);
    }
  }

  // ------------------------------------------------------------------ whole runs

  datatype Op = PutHost(data: Data, bytes: nat) | PutDevice(data: Data, bytes: nat) | Read(id: BatchId) | Drop(id: BatchId)

  /** What a caller sees of one operation. */
  datatype Event = Stored(id: BatchId, data: Data) | Returned(id: BatchId, data: Data) | Dropped(id: BatchId) | Nothing

  /** A batch reads back as it was stored, ids are never reused, and a dropped batch never comes back. */
  ghost predicate Honest(log: seq<Event>, i: nat, j: nat)
    requires i < |log| && j < |log|
  {
    i < j ==>
      match log[i]
      case Stored(id, d) =>
        && (log[j].Returned? && log[j].id == id ==> log[j].data == d)
        && (log[j].Stored? ==> log[j].id != id)
      case Dropped(id) => log[j] == Dropped(log[i].id) || log[j].Nothing? || log[j].id != id
      case _ => true
  }

  /** What an event says about the state after it. */
  ghost predicate Remembered(e: Event, m: SpillManager)
    reads m
  {
    match e
    case Stored(id, d) => id in m.origin && m.origin[id] == d && 1 <= id < m.nextId
    case Dropped(id) => id !in m.entries && 1 <= id < m.nextId
    case _ => true
  }

  method Apply(m: SpillManager, op: Op) returns (e: Event)
    requires m.Valid()
    modifies m
    ensures m.Valid() && Remembered(e, m)
    ensures e.Returned? ==> e.id in old(m.entries) && e.id in old(m.origin) && e.data == old(m.origin)[e.id]
    ensures e.Stored? ==> e.id == old(m.nextId)
    ensures m.nextId >= old(m.nextId)
    ensures forall id :: id in old(m.origin) ==> id in m.origin && m.origin[id] == old(m.origin)[id]
    ensures forall id :: id in m.entries && id !in old(m.entries) ==> id >= old(m.nextId)
    ensures forall id :: id in old(m.entries) && id !in m.entries ==> e == Dropped(id)
    ensures e.Stored? ==> e.id in m.entries
    ensures Calm(m.world) ==> (op.PutHost? || op.PutDevice? ==> e.Stored? && e.data == op.data)
    ensures Calm(m.world) && op.Read? ==> (e.Returned? <==> op.id in old(m.entries)) && (e.Returned? ==> e.id == op.id)
    ensures op.Drop? ==> e == if op.id in old(m.entries) then Dropped(op.id) else Nothing
  {
    match op {
      case PutHost(d, bytes) =>
        SoundFresh(m.Ledger());
        var r, held := m.InsertHost(d, bytes);
        TrimKeeps(held, m.entries, Host);
        return if r.Ok? then Stored(r.value, d) else Nothing;
      case PutDevice(d, bytes) =>
        SoundFresh(m.Ledger());
        var r, held, mid := m.InsertDevice(d, bytes);
        TrimKeeps(held, mid, Device);
        TrimKeeps(mid, m.entries, Host);
        return if r.Ok? then Stored(r.value, d) else Nothing;
      case Read(id) =>
        var r, held := m.Get(id);
        return if r.Ok? then Returned(id, r.value) else Nothing;
      case Drop(id) =>
        if id in m.entries {
          SoundEntry(m.Ledger(), id);
          var r := m.Remove(id);
          return Dropped(id);
        }
        var r := m.Remove(id);
        return Nothing;
    }
  }

  ghost predicate DroppedBetween(log: seq<Event>, id: BatchId, i: nat, j: nat) {
    exists k :: i < k < j && k < |log| && log[k] == Dropped(id)
  }

  /** When nothing outside fails: what is put is stored, and what was stored and not dropped is returned. */
  ghost predicate Served(ops: seq<Op>, log: seq<Event>, i: nat, j: nat)
    requires i < |log| <= |ops| && j < |log|
  {
    && (ops[j].PutHost? || ops[j].PutDevice? ==> log[j].Stored? && log[j].data == ops[j].data)
    && (i < j && log[i].Stored? && ops[j] == Read(log[i].id) && !DroppedBetween(log, log[i].id, i, j)
        ==> log[j] == Returned(log[i].id, log[i].data))
  }

  /** A stored batch is known until it is dropped. */
  ghost predicate Alive(log: seq<Event>, i: nat, m: SpillManager)
    requires i < |log|
    reads m
  {
    log[i].Stored? && !DroppedBetween(log, log[i].id, i, |log|) ==> log[i].id in m.entries
  }

  lemma {:induction false} BetweenGrows(log: seq<Event>, e: Event, id: BatchId, i: nat)
    ensures DroppedBetween(log + [e], id, i, |log|) <==> DroppedBetween(log, id, i, |log|)
    ensures DroppedBetween(log, id, i, |log|) ==> DroppedBetween(log + [e], id, i, |log| + 1)
    ensures i < |log| && e == Dropped(id) ==> DroppedBetween(log + [e], id, i, |log| + 1)
  {
    if k :| i < k < |log| && log[k] == Dropped(id) {
      assert (log + [e])[k] == log[k];
    }
    if k :| i < k < |log| && (log + [e])[k] == Dropped(id) {
      assert log[k] == (log + [e])[k];
    }
    assert (log + [e])[|log|] == e;
  }

  lemma {:induction false} ServedGrows(ops: seq<Op>, log: seq<Event>, e: Event, i: nat, j: nat)
    requires i < |log| < |ops| && j < |log| && Served(ops, log, i, j)
    ensures Served(ops, log + [e], i, j)
  {
    var more := log + [e];
    assert more[i] == log[i] && more[j] == log[j];
    if log[i].Stored? && DroppedBetween(log, log[i].id, i, j) {
      var k :| i < k < j && log[k] == Dropped(log[i].id);
      assert more[k] == log[k];
    }
  }

  ghost predicate AllHonest(log: seq<Event>, n: nat) {
    forall i, j :: 0 <= i < n <= |log| && 0 <= j < n ==> Honest(log, i, j)
  }

  ghost predicate AllServed(ops: seq<Op>, log: seq<Event>, n: nat) {
    forall i, j :: 0 <= i < n <= |log| <= |ops| && 0 <= j < n ==> Served(ops, log, i, j)
  }

  lemma {:induction false} AllHonestGrow(log: seq<Event>, e: Event)
    requires AllHonest(log, |log|)
    ensures AllHonest(log + [e], |log|)
  {
    forall i, j | 0 <= i < |log| && 0 <= j < |log| ensures Honest(log + [e], i, j) {
      assert Honest(log, i, j);
    }
  }

  lemma {:induction false} AllServedGrow(ops: seq<Op>, log: seq<Event>, e: Event)
    requires |log| < |ops| && AllServed(ops, log, |log|)
    ensures AllServed(ops, log + [e], |log|)
  {
    forall i, j | 0 <= i < |log| && 0 <= j < |log| ensures Served(ops, log + [e], i, j) {
      ServedGrows(ops, log, e, i, j);
    }
  }

  /** Any sequence of operations, with any failures on the way. */
  method Drive(m: SpillManager, ops: seq<Op>) returns (log: seq<Event>)
    requires m.Valid()
    modifies m
    ensures m.Valid() && |log| == |ops|
    ensures AllHonest(log, |log|)
    ensures Calm(m.world) ==> AllServed(ops, log, |log|)
  {
    log := [];
    for n := 0 to |ops|
      invariant m.Valid() && |log| == n
      invariant forall i :: 0 <= i < n ==> Remembered(log[i], m)
      invariant AllHonest(log, n)
      invariant forall i :: 0 <= i < n ==> Alive(log, i, m)
      invariant Calm(m.world) ==> AllServed(ops, log, n)
    {
      ghost var before := log;
      label Prior:
      var e := Apply(m, ops[n]);
      log := log + [e];
      forall i | 0 <= i < n ensures Remembered(log[i], m) && Honest(log, i, n) {
        assert old@Prior(Remembered(before[i], m));
      }
      AllHonestGrow(before, e);
      forall i | 0 <= i < n ensures Alive(log, i, m) {
        assert old@Prior(Alive(before, i, m));
        if before[i].Stored? {
          BetweenGrows(before, e, before[i].id, i);
        }
      }
      if Calm(m.world) {
        AllServedGrow(ops, before, e);
        forall i | 0 <= i <= n ensures Served(ops, log, i, n) {
          if i < n {
            assert old@Prior(Alive(before, i, m)) && old@Prior(Remembered(before[i], m));
            if before[i].Stored? {
              BetweenGrows(before, e, before[i].id, i);
            }
          }
        }
        forall j | 0 <= j < n ensures Served(ops, log, n, j) {
          assert Served(ops, log, j, j);
        }
      }
    }
  }
}
