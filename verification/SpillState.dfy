/**
 The spill manager's books: what is registered, where it lives, and how much each
 tier holds, with the invariants every operation keeps.
 */
module SpillState {
  import opened Batches

  type Data = Batch
  type BatchId = nat

  datatype Tier = Device | Host | Disk {
    function Level(): nat {
      match this
      case Device => 0
      case Host => 1
      case Disk => 2
    }
  }

  /** Where a batch spills to. The store's key is its name, one per path. */
  datatype Path = Path(prefix: string, batch: BatchId) {
    function Render(): string {
      prefix + "/batch-" + Decimal(batch) + ".arrow"
    }
  }

  datatype Payload = OnDevice(data: Data) | InHost(data: Data) | OnDisk(path: Path)

  datatype Entry = Entry(tier: Tier, bytes: nat, hostBytes: nat, lastTouch: nat, payload: Payload)

  type Entries = map<BatchId, Entry>

  /** A spill file, or what a failed write left behind. */
  datatype File = Spilled(data: Data) | Broken

  // --------------------------------------------------------------------- paths

  function Digit(d: nat): char
    requires d < 10
  {
    ['0', '1', '2', '3', '4', '5', '6', '7', '8', '9'][d]
  }

  function Decimal(n: nat): (s: string)
    ensures |s| > 0
  {
    if n < 10 then [Digit(n)] else Decimal(n / 10) + [Digit(n % 10)]
  }

  lemma {:induction false} DecimalInjective(a: nat, b: nat)
    requires Decimal(a) == Decimal(b)
    ensures a == b
  {
    var (s, t) := (Decimal(a), Decimal(b));
    DigitInjective(a % 10, b % 10);
    if a >= 10 {
      assert s[..|s| - 1] == Decimal(a / 10) && s[|s| - 1] == Digit(a % 10);
    }
    if b >= 10 {
      assert t[..|t| - 1] == Decimal(b / 10) && t[|t| - 1] == Digit(b % 10);
    }
    if a >= 10 && b >= 10 {
      DecimalInjective(a / 10, b / 10);
    }
  }

  lemma {:induction false} DigitInjective(a: nat, b: nat)
    requires a < 10 && b < 10
    ensures Digit(a) == Digit(b) ==> a == b
  {
  }

  /** Two batches never share a spill file: equal names come from equal ids. */
  lemma {:induction false} PathInjective(prefix: string, a: BatchId, b: BatchId)
    requires Path(prefix, a).Render() == Path(prefix, b).Render()
    ensures a == b
  {
    var n := |prefix + "/batch-"|;
    var (s, t) := (Path(prefix, a).Render(), Path(prefix, b).Render());
    assert s[n..|s| - 6] == Decimal(a);
    assert t[n..|t| - 6] == Decimal(b);
    DecimalInjective(a, b);
  }

  // ---------------------------------------------------------------- the usage

  function SaturatingSub(a: nat, b: nat): nat {
    if a >= b then a - b else 0
  }

  datatype Usage = Usage(device: nat, host: nat, disk: nat) {
    function Of(t: Tier): nat {
      match t
      case Device => device
      case Host => host
      case Disk => disk
    }

    function Set(t: Tier, n: nat): Usage {
      match t
      case Device => Usage(n, host, disk)
      case Host => Usage(device, n, disk)
      case Disk => Usage(device, host, n)
    }

    function Add(t: Tier, n: nat): Usage {
      Set(t, Of(t) + n)
    }

    function Sub(t: Tier, n: nat): Usage {
      Set(t, SaturatingSub(Of(t), n))
    }
  }

  function BytesOf(m: Entries, t: Tier, id: BatchId): nat {
    if id in m && m[id].tier == t then m[id].bytes else 0
  }

  /** The bytes of tier `t` among the ids below `n`. */
  function Bytes(m: Entries, t: Tier, n: nat): nat {
    if n == 0 then 0 else Bytes(m, t, n - 1) + BytesOf(m, t, n - 1)
  }

  lemma {:induction false} BytesUpdate(m: Entries, m': Entries, t: Tier, id: BatchId, n: nat)
    requires forall i :: i != id ==> BytesOf(m, t, i) == BytesOf(m', t, i)
    ensures Bytes(m', t, n) + (if id < n then BytesOf(m, t, id) else 0) == Bytes(m, t, n) + (if id < n then BytesOf(m', t, id) else 0)
  {
    if n > 0 {
      BytesUpdate(m, m', t, id, n - 1);
    }
  }

  lemma {:induction false} BytesMember(m: Entries, t: Tier, id: BatchId, n: nat)
    requires id < n
    ensures BytesOf(m, t, id) <= Bytes(m, t, n)
  {
    if id < n - 1 {
      BytesMember(m, t, id, n - 1);
    }
  }

  /** A tier that holds bytes holds an entry. */
  lemma {:induction false} BytesWitness(m: Entries, t: Tier, n: nat)
    requires Bytes(m, t, n) > 0
    ensures exists id :: id in m && m[id].tier == t
  {
    if BytesOf(m, t, n - 1) == 0 {
      BytesWitness(m, t, n - 1);
    }
  }

  ghost predicate Balances(m: Entries, u: Usage, n: nat, t: Tier) {
    u.Of(t) == Bytes(m, t, n)
  }

  ghost predicate Issued(m: Entries, n: nat, id: BatchId) {
    id in m ==> 1 <= id < n
  }

  /** The books balance: each tier's counter is the sum of its entries. */
  ghost predicate Accounted(m: Entries, u: Usage, n: nat) {
    (forall id :: Issued(m, n, id)) && (forall t: Tier :: Balances(m, u, n, t))
  }

  lemma {:induction false} AccountInsert(m: Entries, u: Usage, n: nat, e: Entry)
    requires Accounted(m, u, n) && n >= 1
    ensures n !in m
    ensures Accounted(m[n := e], u.Add(e.tier, e.bytes), n + 1)
  {
    assert Issued(m, n, n);
    var (m', u', n') := (m[n := e], u.Add(e.tier, e.bytes), n + 1);
    forall id ensures Issued(m', n', id) {
      assert Issued(m, n, id);
    }
    forall t: Tier ensures Balances(m', u', n', t) {
      assert Balances(m, u, n, t);
      BytesUpdate(m, m', t, n, n);
    }
  }

  /** Moving an entry between tiers moves exactly its bytes; nothing saturates. */
  lemma {:induction false} AccountMove(m: Entries, u: Usage, n: nat, id: BatchId, e: Entry)
    requires Accounted(m, u, n) && id in m && m[id].tier != e.tier
    ensures u.Of(m[id].tier) >= m[id].bytes
    ensures Accounted(m[id := e], u.Sub(m[id].tier, m[id].bytes).Add(e.tier, e.bytes), n)
  {
    AccountEntry(m, u, n, id);
    var (m', u') := (m[id := e], u.Sub(m[id].tier, m[id].bytes).Add(e.tier, e.bytes));
    forall i ensures Issued(m', n, i) {
      assert Issued(m, n, i);
    }
    forall t: Tier ensures Balances(m', u', n, t) {
      assert Balances(m, u, n, t);
      BytesUpdate(m, m', t, id, n);
    }
  }

  lemma {:induction false} AccountEntry(m: Entries, u: Usage, n: nat, id: BatchId)
    requires Accounted(m, u, n) && id in m
    ensures 1 <= id < n && u.Of(m[id].tier) >= m[id].bytes
  {
    assert Issued(m, n, id) && Balances(m, u, n, m[id].tier);
    BytesMember(m, m[id].tier, id, n);
  }

  lemma {:induction false} AccountTouch(m: Entries, u: Usage, n: nat, id: BatchId, e: Entry)
    requires Accounted(m, u, n) && id in m && e.tier == m[id].tier && e.bytes == m[id].bytes
    ensures Accounted(m[id := e], u, n)
  {
    var m' := m[id := e];
    forall i ensures Issued(m', n, i) {
      assert Issued(m, n, i);
    }
    forall t: Tier ensures Balances(m', u, n, t) {
      assert Balances(m, u, n, t);
      BytesUpdate(m, m', t, id, n);
    }
  }

  lemma {:induction false} AccountRemove(m: Entries, u: Usage, n: nat, id: BatchId)
    requires Accounted(m, u, n) && id in m
    ensures u.Of(m[id].tier) >= m[id].bytes
    ensures Accounted(m - {id}, u.Sub(m[id].tier, m[id].bytes), n)
  {
    AccountEntry(m, u, n, id);
    var (m', u') := (m - {id}, u.Sub(m[id].tier, m[id].bytes));
    forall i ensures Issued(m', n, i) {
      assert Issued(m, n, i);
    }
    forall t: Tier ensures Balances(m', u', n, t) {
      assert Balances(m, u, n, t);
      BytesUpdate(m, m', t, id, n);
    }
  }

  /** An over-full tier has somebody in it. */
  lemma {:induction false} SomeoneThere(m: Entries, u: Usage, n: nat, t: Tier)
    requires Accounted(m, u, n) && u.Of(t) > 0
    ensures exists id :: id in m && m[id].tier == t
  {
    assert Balances(m, u, n, t);
    BytesWitness(m, t, n);
  }

  // ------------------------------------------------------------------ the data

  /** The entry can still give back batch `d`, and its payload is where its tier says. */
  ghost predicate Keeps(e: Entry, d: Data, path: Path, store: map<Path, File>) {
    match e.tier
    case Device => e.payload == OnDevice(d)
    case Host => e.payload == InHost(d)
    case Disk => e.payload == OnDisk(path) && path in store && store[path] == Spilled(d)
  }

  ghost predicate GivesBack(m: Entries, origin: map<BatchId, Data>, prefix: string, store: map<Path, File>,
                            id: BatchId) {
    id in m ==> id in origin && Keeps(m[id], origin[id], Path(prefix, id), store)
  }

  ghost predicate Faithful(m: Entries, origin: map<BatchId, Data>, prefix: string, store: map<Path, File>) {
    forall id :: GivesBack(m, origin, prefix, store, id)
  }

  ghost predicate SameFile(store: map<Path, File>, store': map<Path, File>, p: Path) {
    (p in store <==> p in store') && (p in store ==> store[p] == store'[p])
  }

  /** A change to one batch's file, made while the batch is not on disk, harms no batch. */
  lemma {:induction false} FileChange(m: Entries, origin: map<BatchId, Data>, prefix: string, store: map<Path, File>,
                                      store': map<Path, File>, id: BatchId)
    requires Faithful(m, origin, prefix, store) && (id in m ==> m[id].tier != Disk)
    requires forall p :: p != Path(prefix, id) ==> SameFile(store, store', p)
    ensures Faithful(m, origin, prefix, store')
  {
    forall i ensures GivesBack(m, origin, prefix, store', i) {
      assert GivesBack(m, origin, prefix, store, i);
      assert i != id ==> SameFile(store, store', Path(prefix, i));
    }
  }

  lemma {:induction false} FaithfulUpdate(m: Entries, origin: map<BatchId, Data>, prefix: string,
                                          store: map<Path, File>, id: BatchId, e: Entry, d: Data)
    requires Faithful(m, origin, prefix, store) && Keeps(e, d, Path(prefix, id), store)
    ensures Faithful(m[id := e], origin[id := d], prefix, store)
  {
    var (m', origin') := (m[id := e], origin[id := d]);
    forall i ensures GivesBack(m', origin', prefix, store, i) {
      assert GivesBack(m, origin, prefix, store, i);
    }
  }

  // ---------------------------------------------------------------- the stamps

  ghost predicate Past(m: Entries, clock: nat, id: BatchId) {
    id in m ==> m[id].lastTouch <= clock
  }

  ghost predicate Apart(m: Entries, i: BatchId, j: BatchId) {
    i in m && j in m && i != j ==> m[i].lastTouch != m[j].lastTouch
  }

  /** No stamp is in the future and no two are equal. */
  ghost predicate Stamped(m: Entries, clock: nat) {
    (forall id :: Past(m, clock, id)) && (forall i, j :: Apart(m, i, j))
  }

  lemma {:induction false} StampNow(m: Entries, clock: nat, id: BatchId, e: Entry)
    requires Stamped(m, clock) && e.lastTouch == clock + 1
    ensures Stamped(m[id := e], clock + 1)
  {
    var (m', now) := (m[id := e], clock + 1);
    forall i ensures Past(m', now, i) {
      assert Past(m, clock, i);
    }
    forall i, j ensures Apart(m', i, j) {
      assert Past(m, clock, i) && Past(m, clock, j) && Apart(m, i, j);
    }
  }

  lemma {:induction false} StampsKept(m: Entries, clock: nat, id: BatchId, e: Entry)
    requires Stamped(m, clock) && id in m && e.lastTouch == m[id].lastTouch
    ensures Stamped(m[id := e], clock)
  {
    var m' := m[id := e];
    forall i ensures Past(m', clock, i) {
      assert Past(m, clock, i);
    }
    forall i, j ensures Apart(m', i, j) {
      assert Apart(m, i, j);
    }
  }

  lemma {:induction false} StampsSubset(m: Entries, clock: nat, id: BatchId, later: nat)
    requires Stamped(m, clock) && later >= clock
    ensures Stamped(m - {id}, later) && Stamped(m, later)
  {
    var m' := m - {id};
    forall i ensures Past(m', later, i) && Past(m, later, i) {
      assert Past(m, clock, i);
    }
    forall i, j ensures Apart(m', i, j) {
      assert Apart(m, i, j);
    }
  }

  // ----------------------------------------------------------------- movements

  function LevelOf(m: Entries, start: map<BatchId, Tier>, id: BatchId): int {
    if id in m && id in start then m[id].tier.Level() - start[id].Level() else 0
  }

  /** How many levels the entries stand below where they were inserted, in total. */
  function Sunk(m: Entries, start: map<BatchId, Tier>, n: nat): int {
    if n == 0 then 0 else Sunk(m, start, n - 1) + LevelOf(m, start, n - 1)
  }

  lemma {:induction false} SunkUpdate(m: Entries, s: map<BatchId, Tier>, m': Entries, s': map<BatchId, Tier>,
                                      id: BatchId, n: nat)
    requires forall i :: i != id ==> LevelOf(m, s, i) == LevelOf(m', s', i)
    ensures Sunk(m', s', n) == Sunk(m, s, n) + if id < n then LevelOf(m', s', id) - LevelOf(m, s, id) else 0
  {
    if n > 0 {
      SunkUpdate(m, s, m', s', id, n - 1);
    }
  }

  // -------------------------------------------------------------------- the books

  /** Everything the manager knows, with what was inserted and where kept beside it. */
  datatype Books = Books(
    entries: Entries, used: Usage, nextId: nat, clock: nat,
    prefix: string, store: map<Path, File>,
    origin: map<BatchId, Data>, start: map<BatchId, Tier>, moved: int)

  ghost predicate Known(b: Books, id: BatchId) {
    && (id in b.origin <==> 1 <= id < b.nextId)
    && (id in b.start <==> id in b.origin)
  }

  /** The books balance, every batch can be given back, stamps are distinct, movements add up. */
  ghost predicate Sound(b: Books) {
    && b.nextId >= 1 && Accounted(b.entries, b.used, b.nextId)
    && Faithful(b.entries, b.origin, b.prefix, b.store) && Stamped(b.entries, b.clock)
    && (forall id :: Known(b, id))
    && b.moved == Sunk(b.entries, b.start, b.nextId)
  }

  lemma {:induction false} SoundEmpty(b: Books)
    requires b.entries == map[] && b.used == Usage(0, 0, 0) && b.nextId == 1 && b.origin == map[]
      && b.start == map[] && b.moved == 0
    ensures Sound(b)
  {
    assert Bytes(b.entries, Device, 0) == 0 && Bytes(b.entries, Host, 0) == 0 && Bytes(b.entries, Disk, 0) == 0;
    assert Sunk(b.entries, b.start, 0) == 0;
  }

  function Moved(b: Books, v: BatchId, e: Entry): Books
    requires v in b.entries
  {
    b.(entries := b.entries[v := e],
       used := b.used.Sub(b.entries[v].tier, b.entries[v].bytes).Add(e.tier, e.bytes),
       moved := b.moved + e.tier.Level() - b.entries[v].tier.Level())
  }

  /** Moving a batch to another tier, with its content where the new tier says. */
  lemma {:induction false} SoundMove(b: Books, v: BatchId, e: Entry)
    requires Sound(b) && v in b.entries && b.entries[v].tier != e.tier && b.entries[v].lastTouch == e.lastTouch
    requires v in b.origin && Keeps(e, b.origin[v], Path(b.prefix, v), b.store)
    ensures b.used.Of(b.entries[v].tier) >= b.entries[v].bytes
    ensures Sound(Moved(b, v, e))
  {
    AccountMove(b.entries, b.used, b.nextId, v, e);
    AccountEntry(b.entries, b.used, b.nextId, v);
    FaithfulUpdate(b.entries, b.origin, b.prefix, b.store, v, e, b.origin[v]);
    assert b.origin[v := b.origin[v]] == b.origin;
    StampsKept(b.entries, b.clock, v, e);
    assert Known(b, v);
    SunkUpdate(b.entries, b.start, b.entries[v := e], b.start, v, b.nextId);
    forall id ensures Known(Moved(b, v, e), id) {
      assert Known(b, id);
    }
  }

  /** A change to the file of a batch that is not on disk. */
  lemma {:induction false} SoundFile(b: Books, id: BatchId, store': map<Path, File>)
    requires Sound(b) && (id in b.entries ==> b.entries[id].tier != Disk)
    requires forall p :: p != Path(b.prefix, id) ==> SameFile(b.store, store', p)
    ensures Sound(b.(store := store'))
  {
    FileChange(b.entries, b.origin, b.prefix, b.store, store', id);
    var b' := b.(store := store');
    forall i ensures Known(b', i) {
      assert Known(b, i);
    }
  }

  function Registered(b: Books, e: Entry, d: Data): Books {
    b.(entries := b.entries[b.nextId := e], used := b.used.Add(e.tier, e.bytes), nextId := b.nextId + 1, clock := b.clock + 1,
       origin := b.origin[b.nextId := d], start := b.start[b.nextId := e.tier])
  }

  /** A new batch under the next id, touched now. */
  lemma {:induction false} SoundInsert(b: Books, e: Entry, d: Data)
    requires Sound(b) && e.lastTouch == b.clock + 1 && Keeps(e, d, Path(b.prefix, b.nextId), b.store)
    ensures b.nextId !in b.entries && Sound(Registered(b, e, d))
  {
    var n := b.nextId;
    AccountInsert(b.entries, b.used, n, e);
    FaithfulUpdate(b.entries, b.origin, b.prefix, b.store, n, e, d);
    StampNow(b.entries, b.clock, n, e);
    SunkUpdate(b.entries, b.start, b.entries[n := e], b.start[n := e.tier], n, n + 1);
    forall id ensures Known(Registered(b, e, d), id) {
      assert Known(b, id);
    }
  }

  function Touched(b: Books, id: BatchId): Books
    requires id in b.entries
  {
    var e := b.entries[id];
    b.(entries := b.entries[id := Entry(e.tier, e.bytes, e.hostBytes, b.clock + 1, e.payload)], clock := b.clock + 1)
  }

  /** Touching a batch makes it the most recent. */
  lemma {:induction false} SoundTouch(b: Books, id: BatchId)
    requires Sound(b) && id in b.entries
    ensures Sound(Touched(b, id))
  {
    var e := Touched(b, id).entries[id];
    AccountTouch(b.entries, b.used, b.nextId, id, e);
    assert GivesBack(b.entries, b.origin, b.prefix, b.store, id);
    FaithfulUpdate(b.entries, b.origin, b.prefix, b.store, id, e, b.origin[id]);
    assert b.origin[id := b.origin[id]] == b.origin;
    StampNow(b.entries, b.clock, id, e);
    SunkUpdate(b.entries, b.start, b.entries[id := e], b.start, id, b.nextId);
    forall i ensures Known(Touched(b, id), i) {
      assert Known(b, i);
    }
  }

  lemma {:induction false} SoundTick(b: Books)
    requires Sound(b)
    ensures Sound(b.(clock := b.clock + 1))
  {
    StampsSubset(b.entries, b.clock, 0, b.clock + 1);
    var b' := b.(clock := b.clock + 1);
    forall i ensures Known(b', i) {
      assert Known(b, i);
    }
  }

  function Forgotten(b: Books, id: BatchId): Books
    requires id in b.entries
  {
    b.(entries := b.entries - {id},
       used := b.used.Sub(b.entries[id].tier, b.entries[id].bytes),
       moved := b.moved - LevelOf(b.entries, b.start, id))
  }

  lemma {:induction false} SoundRemove(b: Books, id: BatchId)
    requires Sound(b) && id in b.entries
    ensures b.used.Of(b.entries[id].tier) >= b.entries[id].bytes
    ensures Sound(Forgotten(b, id))
  {
    AccountRemove(b.entries, b.used, b.nextId, id);
    AccountEntry(b.entries, b.used, b.nextId, id);
    StampsSubset(b.entries, b.clock, id, b.clock);
    SunkUpdate(b.entries, b.start, b.entries - {id}, b.start, id, b.nextId);
    var m' := b.entries - {id};
    forall i ensures GivesBack(m', b.origin, b.prefix, b.store, i) {
      assert GivesBack(b.entries, b.origin, b.prefix, b.store, i);
    }
    forall i ensures Known(Forgotten(b, id), i) {
      assert Known(b, i);
    }
  }

  lemma {:induction false} SoundFresh(b: Books)
    requires Sound(b)
    ensures b.nextId !in b.entries && b.nextId !in b.origin && b.nextId >= 1
  {
    assert Issued(b.entries, b.nextId, b.nextId) && Known(b, b.nextId);
  }

  /** What a sound entry holds. */
  lemma {:induction false} SoundEntry(b: Books, id: BatchId)
    requires Sound(b) && id in b.entries
    ensures id in b.origin && Keeps(b.entries[id], b.origin[id], Path(b.prefix, id), b.store)
    ensures 1 <= id < b.nextId && b.entries[id].lastTouch <= b.clock
  {
    assert GivesBack(b.entries, b.origin, b.prefix, b.store, id);
    assert Issued(b.entries, b.nextId, id) && Past(b.entries, b.clock, id);
  }
}
