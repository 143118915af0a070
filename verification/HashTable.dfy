/** The linear-probing table of hashtable.c: removal leaves no marker, and every lookup
    probes the whole table. */
module HashTable {
  import opened Options
  import Modular
  import Ring

  datatype Entry<K, V> = Entry(key: K, value: V)

  type Slots<K, V> = seq<Option<Entry<K, V>>>

  /** The remainder as C computes it: it has the sign of x. */
  function Remainder(x: int, n: nat): int
    requires n > 0
  {
    if x >= 0 then x % n else -(-x % n)
  }

  /** A negative remainder is moved into the table, so probing begins at the hash value modulo its size. */
  lemma FirstSlot(hash: int, n: nat)
    requires n > 0
    ensures var r := Remainder(hash, n); (if r < 0 then r + n else r) == hash % n
  {
    var x := if hash >= 0 then hash else -hash;
    var q, r := x / n, x % n;
    if hash >= 0 {
      Modular.Unique(hash, q, r, n);
    } else if r == 0 {
      assert hash == (-q) * n;
      Modular.Unique(hash, -q, 0, n);
    } else {
      assert hash == (-q - 1) * n + (n - r);
      Modular.Unique(hash, -q - 1, n - r, n);
    }
  }

  // ---- The table as a sequence of slots ----------------------------------------------

  function Holds<K(==), V>(key: K): Option<Entry<K, V>> -> bool {
    (slot: Option<Entry<K, V>>) => slot.Some? && slot.value.key == key
  }

  function Free<K, V>(): Option<Entry<K, V>> -> bool {
    (slot: Option<Entry<K, V>>) => slot.None?
  }

  /** The slot hashtable_get and hashtable_remove stop at. */
  function SlotOf<K(==), V>(slots: Slots<K, V>, hash: int, key: K): (r: Option<nat>)
    requires slots != []
    ensures r.Some? ==> r.value < |slots| && slots[r.value].Some? && slots[r.value].value.key == key
  {
    Ring.Search(slots, hash % |slots|, |slots|, Holds(key))
  }

  /** The slot hashtable_put stops at. */
  function FreeSlot<K, V>(slots: Slots<K, V>, hash: int): (r: Option<nat>)
    requires slots != []
    ensures r.Some? ==> r.value < |slots| && slots[r.value].None?
  {
    Ring.Search(slots, hash % |slots|, |slots|, Free())
  }

  function Get<K(==), V>(slots: Slots<K, V>, hash: int, key: K): Option<V>
    requires slots != []
  {
    match SlotOf(slots, hash, key)
    case None => None
    case Some(i) => Some(slots[i].value.value)
  }

  /** The new slots, and whether there was room. */
  function Put<K(==), V>(slots: Slots<K, V>, hash: int, key: K, value: V): (r: (Slots<K, V>, bool))
    requires slots != []
    ensures |r.0| == |slots|
  {
    match FreeSlot(slots, hash)
    case None => (slots, false)
    case Some(i) => (slots[i := Some(Entry(key, value))], true)
  }

  /** The new slots, and the key if it was there. */
  function Remove<K(==), V>(slots: Slots<K, V>, hash: int, key: K): (r: (Slots<K, V>, Option<K>))
    requires slots != []
    ensures |r.0| == |slots|
  {
    match SlotOf(slots, hash, key)
    case None => (slots, None)
    case Some(i) => (slots[i := None], Some(slots[i].value.key))
  }

  // ---- Where an entry goes ---------------------------------------------------------------

  /** Put fills the first free slot in probing order, which begins at the hash value. */
  lemma PutTakesFirstFree<K, V>(slots: Slots<K, V>, hash: int, key: K, value: V) returns (k: nat)
    requires slots != []
    ensures var (slots', ok) := Put(slots, hash, key, value);
            if ok then
              && k < |slots| && slots[(hash + k) % |slots|].None?
              && (forall j: nat :: j < k ==> slots[Ring.Slot(hash % |slots|, j, |slots|)].Some?)
              && slots' == slots[(hash + k) % |slots| := Some(Entry(key, value))]
            else slots' == slots && forall i :: 0 <= i < |slots| ==> slots[i].Some?
  {
    k := Ring.SearchIsFirst(slots, hash % |slots|, |slots|, Free());
    Ring.SearchFinds(slots, hash % |slots|, Free());
    Ring.SlotAt(hash, k, |slots|);
    if FreeSlot(slots, hash).Some? {
      forall j: nat | j < k ensures slots[Ring.Slot(hash % |slots|, j, |slots|)].Some? {
        assert !Free<K, V>()(slots[Ring.Slot(hash % |slots|, j, |slots|)]);
      }
    } else {
      forall i | 0 <= i < |slots| ensures slots[i].Some? { assert !Free<K, V>()(slots[i]); }
    }
  }

  /** Get and remove stop at the first slot with the key, in the same order. */
  lemma KeyIsFoundFirst<K, V>(slots: Slots<K, V>, hash: int, key: K) returns (k: nat)
    requires slots != []
    ensures match SlotOf(slots, hash, key)
            case None => NoSlotHolds(slots, key) && Get(slots, hash, key) == None
                         && Remove(slots, hash, key) == (slots, None)
            case Some(i) =>
              && k < |slots| && i == (hash + k) % |slots| && slots[i].Some? && slots[i].value.key == key
              && (forall j: nat :: j < k ==> !Holds(key)(slots[Ring.Slot(hash % |slots|, j, |slots|)]))
              && Get(slots, hash, key) == Some(slots[i].value.value)
              && Remove(slots, hash, key) == (slots[i := None], Some(key))
  {
    k := Ring.SearchIsFirst(slots, hash % |slots|, |slots|, Holds(key));
    Ring.SearchFinds(slots, hash % |slots|, Holds(key));
    Ring.SlotAt(hash, k, |slots|);
    if SlotOf(slots, hash, key).None? {
      forall i | 0 <= i < |slots| ensures !(slots[i].Some? && slots[i].value.key == key) {
        assert !Holds(key)(slots[i]);
      }
    }
  }

  predicate NoSlotHolds<K(==), V>(slots: Slots<K, V>, key: K) {
    forall i :: 0 <= i < |slots| ==> !(slots[i].Some? && slots[i].value.key == key)
  }

  // ---- The map it stands for -----------------------------------------------------------

  ghost predicate Unique<K, V>(slots: Slots<K, V>) {
    forall i, j :: 0 <= i < j < |slots| && slots[i].Some? && slots[j].Some? ==>
      slots[i].value.key != slots[j].value.key
  }

  ghost function AsMap<K, V>(slots: Slots<K, V>): map<K, V>
    requires Unique(slots)
  {
    map i | 0 <= i < |slots| && slots[i].Some? :: slots[i].value.key := slots[i].value.value
  }

  lemma Member<K, V>(slots: Slots<K, V>, i: nat)
    requires Unique(slots) && i < |slots| && slots[i].Some?
    ensures slots[i].value.key in AsMap(slots) && AsMap(slots)[slots[i].value.key] == slots[i].value.value
  {}

  lemma SlotOfFinds<K, V>(slots: Slots<K, V>, hash: int, key: K)
    requires slots != [] && Unique(slots)
    ensures SlotOf(slots, hash, key).Some? <==> key in AsMap(slots)
    ensures Get(slots, hash, key) == if key in AsMap(slots) then Some(AsMap(slots)[key]) else None
  {
    Ring.SearchFinds(slots, hash % |slots|, Holds(key));
    if key in AsMap(slots) {
      var i :| 0 <= i < |slots| && slots[i].Some? && slots[i].value.key == key;
      assert Holds(key)(slots[i]);
    }
  }

  /** A key is in the map exactly when some slot has it. */
  lemma Witness<K, V>(slots: Slots<K, V>, key: K) returns (i: nat)
    requires Unique(slots) && key in AsMap(slots)
    ensures i < |slots| && slots[i] == Some(Entry(key, AsMap(slots)[key]))
  {
    i :| i < |slots| && slots[i].Some? && slots[i].value.key == key;
    Member(slots, i);
  }

  lemma FillUnique<K, V>(slots: Slots<K, V>, i: nat, e: Entry<K, V>)
    requires Unique(slots) && i < |slots| && slots[i].None? && e.key !in AsMap(slots)
    ensures Unique(slots[i := Some(e)])
  {
    forall j: nat | j < |slots| && slots[j].Some? ensures slots[j].value.key != e.key { Member(slots, j); }
  }

  lemma FillKey<K, V>(slots: Slots<K, V>, s: Slots<K, V>, i: nat, e: Entry<K, V>, key: K)
    requires Unique(slots) && i < |slots| && slots[i].None? && e.key !in AsMap(slots)
    requires s == slots[i := Some(e)] && Unique(s)
    ensures key in AsMap(s) <==> key in AsMap(slots) || key == e.key
    ensures key in AsMap(s) ==> AsMap(s)[key] == if key == e.key then e.value else AsMap(slots)[key]
  {
    if key in AsMap(slots) {
      var j := Witness(slots, key);
      Member(s, j);
    } else if key == e.key {
      Member(s, i);
    } else if key in AsMap(s) {
      var j := Witness(s, key);
      assert false;
    }
  }

  lemma FillSlot<K, V>(slots: Slots<K, V>, i: nat, e: Entry<K, V>)
    requires Unique(slots) && i < |slots| && slots[i].None? && e.key !in AsMap(slots)
    ensures Unique(slots[i := Some(e)])
    ensures AsMap(slots[i := Some(e)]) == AsMap(slots)[e.key := e.value]
  {
    FillUnique(slots, i, e);
    forall key { FillKey(slots, slots[i := Some(e)], i, e, key); }
  }

  lemma ClearKey<K, V>(slots: Slots<K, V>, s: Slots<K, V>, i: nat, key: K)
    requires Unique(slots) && i < |slots| && slots[i].Some?
    requires s == slots[i := None] && Unique(s)
    ensures key in AsMap(s) <==> key in AsMap(slots) && key != slots[i].value.key
    ensures key in AsMap(s) ==> AsMap(s)[key] == AsMap(slots)[key]
  {
    if key in AsMap(s) {
      var j := Witness(s, key);
      Member(slots, j);
    } else if key in AsMap(slots) {
      var j := Witness(slots, key);
      if j != i { Member(s, j); }
    }
  }

  lemma ClearSlot<K, V>(slots: Slots<K, V>, i: nat)
    requires Unique(slots) && i < |slots| && slots[i].Some?
    ensures Unique(slots[i := None])
    ensures AsMap(slots[i := None]) == AsMap(slots) - {slots[i].value.key}
  {
    forall key { ClearKey(slots, slots[i := None], i, key); }
  }

  // ---- The number of entries -------------------------------------------------------------

  function Filled<K, V>(slots: Slots<K, V>): nat {
    if slots == [] then 0 else Filled(slots[..|slots|-1]) + if slots[|slots|-1].Some? then 1 else 0
  }

  lemma {:induction false} FilledUpdate<K, V>(slots: Slots<K, V>, i: nat, slot: Option<Entry<K, V>>)
    requires i < |slots|
    ensures Filled(slots[i := slot]) ==
            Filled(slots) - (if slots[i].Some? then 1 else 0) + if slot.Some? then 1 else 0
  {
    var n := |slots| - 1;
    if i == n {
      assert slots[i := slot][..n] == slots[..n];
    } else {
      FilledUpdate(slots[..n], i, slot);
      assert slots[i := slot][..n] == slots[..n][i := slot];
    }
  }

  lemma {:induction false} FullExactly<K, V>(slots: Slots<K, V>)
    ensures Filled(slots) <= |slots|
    ensures Filled(slots) == |slots| <==> forall i :: 0 <= i < |slots| ==> slots[i].Some?
  {
    if slots == [] {
    } else {
      FullExactly(slots[..|slots|-1]);
    }
  }

  lemma {:induction false} EmptyExactly<K, V>(slots: Slots<K, V>)
    requires forall i :: 0 <= i < |slots| ==> slots[i].None?
    ensures Filled(slots) == 0
  {
    if slots == [] {
    } else {
      EmptyExactly(slots[..|slots|-1]);
    }
  }

  // ---- Each operation against a map of bounded size ------------------------------------------

  /** The table stands for the map m. */
  ghost predicate StandsFor<K, V>(slots: Slots<K, V>, m: map<K, V>) {
    slots != [] && Unique(slots) && AsMap(slots) == m && Filled(slots) == |m|
  }

  lemma GetAgrees<K, V>(slots: Slots<K, V>, m: map<K, V>, hash: int, key: K)
    requires StandsFor(slots, m)
    ensures Get(slots, hash, key) == if key in m then Some(m[key]) else None
  {
    SlotOfFinds(slots, hash, key);
  }

  /** A put of an absent key fails exactly when the map is as large as the table. */
  lemma PutAgrees<K, V>(slots: Slots<K, V>, m: map<K, V>, hash: int, key: K, value: V)
    requires StandsFor(slots, m) && key !in m
    ensures var (slots', ok) := Put(slots, hash, key, value);
            && (ok <==> |m| < |slots|)
            && StandsFor(slots', if ok then m[key := value] else m)
  {
    FullExactly(slots);
    Ring.SearchFinds(slots, hash % |slots|, Free());
    if FreeSlot(slots, hash).Some? {
      var i := FreeSlot(slots, hash).value;
      FillSlot(slots, i, Entry(key, value));
      FilledUpdate(slots, i, Some(Entry(key, value)));
    } else {
      forall i | 0 <= i < |slots| ensures slots[i].Some? { assert !Free<K, V>()(slots[i]); }
    }
  }

  lemma ClearedStandsFor<K, V>(slots: Slots<K, V>, m: map<K, V>, i: nat)
    requires StandsFor(slots, m) && i < |slots| && slots[i].Some?
    ensures slots[i].value.key in m && StandsFor(slots[i := None], m - {slots[i].value.key})
  {
    Member(slots, i);
    ClearSlot(slots, i);
    FilledUpdate(slots, i, None);
  }

  /** Removing one key hides no other. */
  lemma RemoveAgrees<K, V>(slots: Slots<K, V>, m: map<K, V>, hash: int, key: K)
    requires StandsFor(slots, m)
    ensures var (slots', removed) := Remove(slots, hash, key);
            && removed == (if key in m then Some(key) else None)
            && StandsFor(slots', m - {key})
  {
    SlotOfFinds(slots, hash, key);
    if key in m {
      ClearedStandsFor(slots, m, SlotOf(slots, hash, key).value);
    } else {
      assert m - {key} == m;
    }
  }

  /** A put that finds room keeps the keys unique exactly when its key was absent. */
  lemma PutKeepsUnique<K, V>(slots: Slots<K, V>, hash: int, key: K, value: V)
    requires slots != [] && Unique(slots) && Put(slots, hash, key, value).1
    ensures Unique(Put(slots, hash, key, value).0) <==> key !in AsMap(slots)
  {
    var i := FreeSlot(slots, hash).value;
    if key in AsMap(slots) {
      var j := Witness(slots, key);
      var s := Put(slots, hash, key, value).0;
      assert s[i].value.key == s[j].value.key && i != j;
    } else {
      FillUnique(slots, i, Entry(key, value));
    }
  }

  // ---- Runs ------------------------------------------------------------------------------------

  datatype Op<K, V> = PutOp(key: K, value: V) | GetOp(key: K) | RemoveOp(key: K)
  datatype Answer<K, V> = Done(ok: bool) | Found(value: Option<V>) | Removed(key: Option<K>)

  function Apply<K(==), V>(slots: Slots<K, V>, hash: K -> int, op: Op<K, V>): (r: (Slots<K, V>, Answer<K, V>))
    requires slots != []
    ensures |r.0| == |slots|
  {
    match op
    case PutOp(key, value) => var (s, ok) := Put(slots, hash(key), key, value); (s, Done(ok))
    case GetOp(key) => (slots, Found(Get(slots, hash(key), key)))
    case RemoveOp(key) => var (s, k) := Remove(slots, hash(key), key); (s, Removed(k))
  }

  /** The same operation on a map that has room for `size` keys. */
  function ApplyMap<K(==), V>(m: map<K, V>, size: nat, op: Op<K, V>): (map<K, V>, Answer<K, V>) {
    match op
    case PutOp(key, value) => if key in m || |m| < size then (m[key := value], Done(true)) else (m, Done(false))
    case GetOp(key) => (m, Found(if key in m then Some(m[key]) else None))
    case RemoveOp(key) => (m - {key}, Removed(if key in m then Some(key) else None))
  }

  function Answers<K(==), V>(slots: Slots<K, V>, hash: K -> int, ops: seq<Op<K, V>>): seq<Answer<K, V>>
    requires slots != []
    decreases |ops|
  {
    if ops == [] then []
    else var (s, a) := Apply(slots, hash, ops[0]); [a] + Answers(s, hash, ops[1..])
  }

  function MapAnswers<K(==), V>(m: map<K, V>, size: nat, ops: seq<Op<K, V>>): seq<Answer<K, V>>
    decreases |ops|
  {
    if ops == [] then []
    else var (m', a) := ApplyMap(m, size, ops[0]); [a] + MapAnswers(m', size, ops[1..])
  }

  /** No put is made for a key that is present at the time. */
  predicate PutsAbsent<K(==), V>(m: map<K, V>, size: nat, ops: seq<Op<K, V>>)
    decreases |ops|
  {
    ops != [] ==>
      (ops[0].PutOp? ==> ops[0].key !in m) && PutsAbsent(ApplyMap(m, size, ops[0]).0, size, ops[1..])
  }

  lemma ApplyAgrees<K, V>(slots: Slots<K, V>, m: map<K, V>, hash: K -> int, op: Op<K, V>)
    requires StandsFor(slots, m) && (op.PutOp? ==> op.key !in m)
    ensures var (s, a) := Apply(slots, hash, op);
            var (m', b) := ApplyMap(m, |slots|, op);
            a == b && StandsFor(s, m')
  {
    match op
    case PutOp(key, value) => PutAgrees(slots, m, hash(key), key, value);
    case GetOp(key) => GetAgrees(slots, m, hash(key), key);
    case RemoveOp(key) => RemoveAgrees(slots, m, hash(key), key);
  }

  lemma {:induction false} RunAgrees<K, V>(slots: Slots<K, V>, m: map<K, V>, hash: K -> int, ops: seq<Op<K, V>>)
    requires StandsFor(slots, m) && PutsAbsent(m, |slots|, ops)
    ensures Answers(slots, hash, ops) == MapAnswers(m, |slots|, ops)
    decreases |ops|
  {
    if ops == [] {
    } else {
      ApplyAgrees(slots, m, hash, ops[0]);
      RunAgrees(Apply(slots, hash, ops[0]).0, ApplyMap(m, |slots|, ops[0]).0, hash, ops[1..]);
    }
  }

  /** Any run on a new table, whatever the hash function, answers as a map of bounded size
      does, as long as no put is made for a present key. */
  lemma TableIsBoundedMap<K, V>(slots: Slots<K, V>, hash: K -> int, ops: seq<Op<K, V>>)
    requires slots != [] && (forall i :: 0 <= i < |slots| ==> slots[i].None?)
    requires PutsAbsent(map[], |slots|, ops)
    ensures Answers(slots, hash, ops) == MapAnswers(map[], |slots|, ops)
  {
    EmptyExactly(slots);
    assert AsMap(slots) == map[];
    RunAgrees(slots, map[], hash, ops);
  }

  lemma PresentStays<K, V>(slots: Slots<K, V>, i: nat, j: nat, hash: int, key: K)
    requires i < |slots| && j < |slots| && i != j
    requires slots[i].Some? && slots[i].value.key == key && slots[j].Some? && slots[j].value.key == key
    ensures Get(Remove(slots, hash, key).0, hash, key).Some?
  {
    Ring.SearchFinds(slots, hash % |slots|, Holds(key));
    assert Holds(key)(slots[i]);
    var s := Remove(slots, hash, key).0;
    Ring.SearchFinds(s, hash % |s|, Holds(key));
    assert Holds<K, V>(key)(s[i]) || Holds<K, V>(key)(s[j]);
  }

  /** The condition is needed: after a put for a present key, a remove and a get tell the
      table from the map, unless the answer to the put itself does. */
  lemma PutOfPresentKeyShows<K, V>(slots: Slots<K, V>, m: map<K, V>, hash: K -> int, key: K, value: V)
    requires StandsFor(slots, m) && key in m
    ensures var (s1, a1) := Apply(slots, hash, PutOp(key, value));
            var (m1, b1) := ApplyMap(m, |slots|, PutOp(key, value));
            var (s2, a2) := Apply(s1, hash, RemoveOp(key));
            var (m2, b2) := ApplyMap(m1, |slots|, RemoveOp(key));
            a1 != b1 || Apply(s2, hash, GetOp(key)).1 != ApplyMap(m2, |slots|, GetOp(key)).1
  {
    var (s, ok) := Put(slots, hash(key), key, value);
    if ok {
      var i := FreeSlot(slots, hash(key)).value;
      var j := Witness(slots, key);
      PresentStays(s, i, j, hash(key), key);
    }
  }

  // ---- The route cache -----------------------------------------------------------------------------

  /** How miniroute.c uses its cache: an entry is put after a lookup has failed, and removed
      when it expires or its discovery has failed. */
  datatype CacheOp<K, V> = Retrieve(dest: K, entry: V) | Evict(dest: K)

  function UseCache<K(==), V>(slots: Slots<K, V>, hash: K -> int, op: CacheOp<K, V>): (s: Slots<K, V>)
    requires slots != []
    ensures |s| == |slots|
  {
    match op
    case Retrieve(dest, entry) =>
      if Get(slots, hash(dest), dest).Some? then slots else Put(slots, hash(dest), dest, entry).0
    case Evict(dest) => Remove(slots, hash(dest), dest).0
  }

  function Cache<K(==), V>(slots: Slots<K, V>, hash: K -> int, ops: seq<CacheOp<K, V>>): (s: Slots<K, V>)
    requires slots != []
    ensures |s| == |slots|
  {
    if ops == [] then slots else UseCache(Cache(slots, hash, ops[..|ops|-1]), hash, ops[|ops|-1])
  }

  lemma {:induction false} CacheStands<K, V>(slots: Slots<K, V>, hash: K -> int, ops: seq<CacheOp<K, V>>)
    returns (m: map<K, V>)
    requires StandsFor(slots, map[])
    ensures StandsFor(Cache(slots, hash, ops), m)
  {
    m := map[];
    if ops == [] {
    } else {
      m := CacheStands(slots, hash, ops[..|ops|-1]);
      var before, op := Cache(slots, hash, ops[..|ops|-1]), ops[|ops|-1];
      GetAgrees(before, m, hash(op.dest), op.dest);
      match op
      case Retrieve(dest, entry) =>
        if dest !in m {
          PutAgrees(before, m, hash(dest), dest, entry);
          m := if Put(before, hash(dest), dest, entry).1 then m[dest := entry] else m;
        }
      case Evict(dest) =>
        RemoveAgrees(before, m, hash(dest), dest);
        m := m - {dest};
    }
  }

  /** The cache never holds two entries for one destination. */
  lemma OneEntryPerDestination<K, V>(slots: Slots<K, V>, hash: K -> int, ops: seq<CacheOp<K, V>>)
    requires slots != [] && (forall i :: 0 <= i < |slots| ==> slots[i].None?)
    ensures Unique(Cache(slots, hash, ops))
  {
    EmptyExactly(slots);
    assert AsMap(slots) == map[];
    var m := CacheStands(slots, hash, ops);
  }

  // ---- The table in place ------------------------------------------------------------------------

  class Table<K(==), V> {
    const hash: K -> int
    const table: array<Option<Entry<K, V>>>
    var size: int

    ghost predicate Valid()
      reads this, table
    {
      table.Length > 0 && size == Filled(table[..])
    }

    constructor (maxSize: nat, hash: K -> int)
      requires maxSize >= 1
      ensures Valid() && fresh(table) && table.Length == maxSize && this.hash == hash
      ensures forall i :: 0 <= i < maxSize ==> table[i] == None
    {
      this.hash := hash;
      table := new Option<Entry<K, V>>[maxSize](i => None);
      size := 0;
      new;
      EmptyExactly(table[..]);
    }

    method Lookup(key: K) returns (value: Option<V>)
      requires Valid()
      ensures value == Get(table[..], hash(key), key)
    {
      var n := table.Length;
      FirstSlot(hash(key), n);
      var i, tries: nat := Remainder(hash(key), n), 0;
      if i < 0 { i := i + n; }
      ghost var slots, want := table[..], Holds<K, V>(key);
      while tries < n && !(table[i].Some? && table[i].value.key == key)
        invariant tries <= n && 0 <= i < n
        invariant Ring.Search(slots, hash(key) % n, n, want) == Ring.Search(slots, i, n - tries, want)
      {
        assert !want(slots[i]);
        Ring.Successor(i, n);
        tries := tries + 1;
        i := if i == n - 1 then 0 else i + 1;
      }
      if tries == n { return None; }
      value := Some(table[i].value.value);
    }

    method Insert(key: K, value: V) returns (ok: bool)
      requires Valid()
      modifies this, table
      ensures Valid() && (table[..], ok) == Put(old(table[..]), hash(key), key, value)
      ensures size == old(size) + if ok then 1 else 0
    {
      var n := table.Length;
      FirstSlot(hash(key), n);
      var i, tries: nat := Remainder(hash(key), n), 0;
      if i < 0 { i := i + n; }
      ghost var slots, want := table[..], Free<K, V>();
      while tries < n && table[i].Some?
        invariant tries <= n && 0 <= i < n && table[..] == slots && size == old(size)
        invariant Ring.Search(slots, hash(key) % n, n, want) == Ring.Search(slots, i, n - tries, want)
      {
        assert !want(slots[i]);
        Ring.Successor(i, n);
        tries := tries + 1;
        i := if i == n - 1 then 0 else i + 1;
      }
      if tries == n { return false; }
      FilledUpdate(slots, i, Some(Entry(key, value)));
      table[i] := Some(Entry(key, value));
      assert table[..] == slots[i := Some(Entry(key, value))];
      size := size + 1;
      ok := true;
    }

    method Delete(key: K) returns (removed: Option<K>)
      requires Valid()
      modifies this, table
      ensures Valid() && (table[..], removed) == Remove(old(table[..]), hash(key), key)
      ensures size == old(size) - if removed.Some? then 1 else 0
    {
      var n := table.Length;
      FirstSlot(hash(key), n);
      var i, tries: nat := Remainder(hash(key), n), 0;
      if i < 0 { i := i + n; }
      ghost var slots, want := table[..], Holds<K, V>(key);
      while tries < n && !(table[i].Some? && table[i].value.key == key)
        invariant tries <= n && 0 <= i < n && table[..] == slots && size == old(size)
        invariant Ring.Search(slots, hash(key) % n, n, want) == Ring.Search(slots, i, n - tries, want)
      {
        assert !want(slots[i]);
        Ring.Successor(i, n);
        tries := tries + 1;
        i := if i == n - 1 then 0 else i + 1;
      }
      if tries == n { return None; }
      removed := Some(table[i].value.key);
      FilledUpdate(slots, i, None);
      table[i] := None;
      assert table[..] == slots[i := None];
      size := size - 1;
    }
  }

  /** hashtable_init: no table for a size below one. */
  method Init<K, V>(size: int, hash: K -> int) returns (t: Option<Table<K, V>>)
    ensures t.None? <==> size < 1
    ensures t.Some? ==> fresh(t.value) && fresh(t.value.table) && t.value.Valid() && t.value.table.Length == size
    ensures t.Some? ==> forall i :: 0 <= i < size ==> t.value.table[i] == None
  {
    if size < 1 { return None; }
    var table := new Table<K, V>(size, hash);
    t := Some(table);
  }
}
