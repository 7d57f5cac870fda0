/**
 * The directory index (src/file.rs): an open-addressed table in a map from 64-bit slots to
 * entries, with non-wrapping linear probing and backward-shift deletion, for every hash.
 */
module Index {
  import opened Names

  const SLOT_MAX: nat := 0xFFFF_FFFF_FFFF_FFFF

  type Slot = k: nat | k <= SLOT_MAX

  type Table = map<Slot, Entry>

  type Hash = Name -> Slot

  predicate Matches(e: Entry, name: Name) {
    IsNamed(e, name)
  }

  // ----- the operations, as functions -----

  /** The first slot from `k` on that is empty or holds `name`; None past the last slot. */
  function Probe(t: Table, name: Name, k: Slot): Option<Slot>
    decreases SLOT_MAX - k
  {
    if k !in t || Matches(t[k], name) then Some(k)
    else if k == SLOT_MAX then None
    else Probe(t, name, k + 1)
  }

  /** The slot holding `name` on its probe chain. */
  function Find(h: Hash, t: Table, name: Name): Option<Slot> {
    match Probe(t, name, h(name))
    case Some(k) => if k in t then Some(k) else None
    case None => None
  }

  function Lookup(h: Hash, t: Table, name: Name): Option<Entry> {
    match Find(h, t, name)
    case Some(k) => if k in t then Some(t[k]) else None
    case None => None
  }

  /** None when the probe chain runs past the last slot. */
  function Upsert(h: Hash, t: Table, name: Name, e: Entry): Option<Table> {
    match Probe(t, name, h(name))
    case Some(k) => Some(t[k := e])
    case None => None
  }

  /** Where an entry found at `j` would like to be; a placeholder likes it where it is. */
  function HomeOf(h: Hash, e: Entry, j: Slot): Slot {
    if e.stored.Text? then h(e.stored.name) else j
  }

  /** Backward shift: close the hole with what follows it in its cluster. */
  function Shift(h: Hash, t: Table, hole: Slot, j: nat): Table
    requires hole < j <= SLOT_MAX + 1
    decreases SLOT_MAX + 1 - j
  {
    if j > SLOT_MAX || j !in t then t - {hole}
    else if HomeOf(h, t[j], j) <= hole then Shift(h, t[hole := t[j]], j, j + 1)
    else Shift(h, t, hole, j + 1)
  }

  function Delete(h: Hash, t: Table, name: Name): (Table, bool) {
    match Find(h, t, name)
    case Some(k) => (Shift(h, t, k, k + 1), true)
    case None => (t, false)
  }

  // ----- the invariant and the map a table stands for -----

  predicate Live(t: Table, k: Slot) {
    k in t && t[k].stored.Text?
  }

  ghost predicate Filled(t: Table, a: nat, b: nat) {
    forall i: Slot :: a <= i <= b ==> i in t
  }

  /** The slot of every name, as the live entries of the table have it; so names are unique. */
  ghost predicate Places(t: Table, at: map<Name, Slot>) {
    && (forall n :: n in at ==> at[n] in t && t[at[n]].stored == Text(n))
    && (forall k: Slot {:trigger Live(t, k)} :: Live(t, k) ==> t[k].stored.name in at && at[t[k].stored.name] == k)
  }

  /** Every name sits at or after its home, with no gap between. */
  ghost predicate Chained(h: Hash, t: Table, at: map<Name, Slot>) {
    forall n :: n in at ==> h(n) <= at[n] && Filled(t, h(n), at[n])
  }

  ghost predicate WellFormed(h: Hash, t: Table, at: map<Name, Slot>) {
    Places(t, at) && Chained(h, t, at)
  }

  /** The name-to-entry map of a table. */
  ghost function View(t: Table, at: map<Name, Slot>): map<Name, Entry> {
    map n | n in at && at[n] in t :: t[at[n]]
  }

  lemma EmptyIsWellFormed(h: Hash)
    ensures WellFormed(h, map[], map[]) && View(map[], map[]) == map[]
  {
  }

  /** A table has one view: its placement is determined by its live entries. */
  lemma PlacementIsUnique(t: Table, at: map<Name, Slot>, at': map<Name, Slot>)
    requires Places(t, at) && Places(t, at')
    ensures at == at'
  {
    forall n | n in at ensures n in at' && at'[n] == at[n] {
      assert Live(t, at[n]);
    }
    forall n | n in at' ensures n in at {
      assert Live(t, at'[n]);
    }
  }

  // ----- probing -----

  /** `k` ends the probe for `name` from `home`. */
  ghost predicate Stops(t: Table, name: Name, home: Slot, k: Slot) {
    && home <= k && (k !in t || Matches(t[k], name))
    && forall i: Slot :: home <= i < k ==> i in t && !Matches(t[i], name)
  }

  lemma {:induction false} ProbeStops(t: Table, name: Name, k: Slot)
    ensures match Probe(t, name, k)
      case Some(j) => Stops(t, name, k, j)
      case None => forall i: Slot :: k <= i ==> i in t && !Matches(t[i], name)
    decreases SLOT_MAX - k
  {
    if k in t && !Matches(t[k], name) && k != SLOT_MAX {
      ProbeStops(t, name, k + 1);
    }
  }

  /** The probe finds exactly the placed names, each at its place. */
  lemma FindIsPlace(h: Hash, t: Table, at: map<Name, Slot>, name: Name)
    requires WellFormed(h, t, at)
    ensures Find(h, t, name) == Get(at, name)
  {
    ProbeStops(t, name, h(name));
    if name in at {
      assert Matches(t[at[name]], name);
    }
    if Find(h, t, name).Some? {
      assert Live(t, Find(h, t, name).value);
    }
  }

  /** Lookup answers as the map does. */
  lemma LookupIsView(h: Hash, t: Table, at: map<Name, Slot>, name: Name)
    requires WellFormed(h, t, at)
    ensures Lookup(h, t, name) == Get(View(t, at), name)
  {
    FindIsPlace(h, t, at, name);
  }

  /** Upsert fails exactly when the name is new and its chain is full up to the last slot. */
  lemma UpsertFailsWhenFull(h: Hash, t: Table, at: map<Name, Slot>, name: Name, e: Entry)
    requires WellFormed(h, t, at)
    ensures Upsert(h, t, name, e).None? <==> name !in at && Filled(t, h(name), SLOT_MAX)
    ensures Upsert(h, t, name, e).None? <==> name !in at && forall k: nat :: h(name) <= k <= 0xFFFF_FFFF_FFFF_FFFF ==> k in t
  {
    ProbeStops(t, name, h(name));
    FindIsPlace(h, t, at, name);
  }

  ghost function PlaceAfterUpsert(h: Hash, t: Table, at: map<Name, Slot>, name: Name): map<Name, Slot> {
    match Probe(t, name, h(name))
    case Some(k) => at[name := k]
    case None => at
  }

  /** Otherwise it writes the map, whatever the hash and whatever else shares the chain. */
  lemma UpsertIsUpdate(h: Hash, t: Table, at: map<Name, Slot>, name: Name, e: Entry)
    requires WellFormed(h, t, at) && IsNamed(e, name) && Upsert(h, t, name, e).Some?
    ensures var u, at' := Upsert(h, t, name, e).value, PlaceAfterUpsert(h, t, at, name);
      WellFormed(h, u, at') && View(u, at') == View(t, at)[name := e]
  {
    ProbeStops(t, name, h(name));
    var k := Probe(t, name, h(name)).value;
    OthersElsewhere(h, t, at, name, k);
    UpsertPlaces(t, at, name, e, k);
    assert Chained(h, t[k := e], at[name := k]) by {
      assert forall n :: n in at && n != name ==> Filled(t, h(n), at[n]);
    }
  }

  lemma OthersElsewhere(h: Hash, t: Table, at: map<Name, Slot>, name: Name, k: Slot)
    requires WellFormed(h, t, at) && Stops(t, name, h(name), k)
    ensures forall n :: n in at ==> (n == name <==> at[n] == k)
  {
    forall n | n in at ensures n == name <==> at[n] == k {
      assert k in t ==> Live(t, k);
      assert n == name ==> Matches(t[at[n]], name) && Filled(t, h(n), at[n]);
    }
  }

  lemma UpsertPlaces(t: Table, at: map<Name, Slot>, name: Name, e: Entry, k: Slot)
    requires Places(t, at) && IsNamed(e, name)
    requires forall n :: n in at ==> (n == name <==> at[n] == k)
    ensures Places(t[k := e], at[name := k]) && View(t[k := e], at[name := k]) == View(t, at)[name := e]
  {
    var u, at' := t[k := e], at[name := k];
    forall i: Slot | Live(u, i) ensures u[i].stored.name in at' && at'[u[i].stored.name] == i {
      assert i != k ==> Live(t, i);
    }
  }

  // ----- backward shift -----

  /**
   * The table mid-shift: `hole` belongs to nobody and is to be emptied, the slots up to `j` are
   * filled, names before `j` do not need the hole, names from `j` on may still probe through it.
   */
  ghost predicate MidShift(h: Hash, t: Table, at: map<Name, Slot>, hole: Slot, j: nat) {
    && hole < j <= SLOT_MAX + 1 && hole in t && Filled(t, hole, j - 1)
    && Places(t - {hole}, at)
    && forall n :: n in at ==> h(n) <= at[n] && Filled(t, h(n), at[n]) && (at[n] < j ==> !(h(n) <= hole <= at[n]))
  }

  ghost function PlaceAfterShift(h: Hash, t: Table, at: map<Name, Slot>, hole: Slot, j: nat): map<Name, Slot>
    requires hole < j <= SLOT_MAX + 1
    decreases SLOT_MAX + 1 - j
  {
    if j > SLOT_MAX || j !in t then at
    else if HomeOf(h, t[j], j) <= hole && t[j].stored.Text? then
      PlaceAfterShift(h, t[hole := t[j]], at[t[j].stored.name := hole], j, j + 1)
    else PlaceAfterShift(h, t, at, hole, j + 1)
  }

  lemma ShiftEnds(h: Hash, t: Table, at: map<Name, Slot>, hole: Slot, j: nat)
    requires MidShift(h, t, at, hole, j) && (j > SLOT_MAX || j !in t)
    ensures WellFormed(h, t - {hole}, at)
  {
    forall n | n in at ensures Filled(t - {hole}, h(n), at[n]) {
      if at[n] >= j {
        var gap: Slot := j;
        assert gap !in t;
      }
    }
  }

  lemma ShiftMoves(h: Hash, t: Table, at: map<Name, Slot>, hole: Slot, j: Slot)
    requires MidShift(h, t, at, hole, j) && j in t && HomeOf(h, t[j], j) <= hole
    ensures t[j].stored.Text?
    ensures var u, at' := t[hole := t[j]], at[t[j].stored.name := hole];
      MidShift(h, u, at', j, j + 1) && View(u - {j}, at') == View(t - {hole}, at)
  {
    assert Live(t - {hole}, j);
    var name := t[j].stored.name;
    var u, at' := t[hole := t[j]], at[name := hole];
    forall n | n in at && n != name ensures at[n] != j && at[n] != hole {
    }
    forall k: Slot | Live(u - {j}, k) ensures u[k].stored.name in at' && at'[u[k].stored.name] == k {
      assert k != hole ==> Live(t - {hole}, k);
    }
  }

  lemma ShiftSkips(h: Hash, t: Table, at: map<Name, Slot>, hole: Slot, j: Slot)
    requires MidShift(h, t, at, hole, j) && j in t && HomeOf(h, t[j], j) > hole
    ensures MidShift(h, t, at, hole, j + 1)
  {
    forall n | n in at && at[n] == j ensures h(n) > hole {
      assert t[j].stored == Text(n);
    }
  }

  lemma {:induction false} ShiftRepairs(h: Hash, t: Table, at: map<Name, Slot>, hole: Slot, j: nat)
    requires MidShift(h, t, at, hole, j)
    ensures WellFormed(h, Shift(h, t, hole, j), PlaceAfterShift(h, t, at, hole, j))
    decreases SLOT_MAX + 1 - j
  {
    if j > SLOT_MAX || j !in t {
      ShiftEnds(h, t, at, hole, j);
    } else if HomeOf(h, t[j], j) <= hole {
      ShiftMoves(h, t, at, hole, j);
      ShiftRepairs(h, t[hole := t[j]], at[t[j].stored.name := hole], j, j + 1);
    } else {
      ShiftSkips(h, t, at, hole, j);
      ShiftRepairs(h, t, at, hole, j + 1);
    }
  }

  lemma {:induction false} ShiftKeepsView(h: Hash, t: Table, at: map<Name, Slot>, hole: Slot, j: nat)
    requires MidShift(h, t, at, hole, j)
    ensures View(Shift(h, t, hole, j), PlaceAfterShift(h, t, at, hole, j)) == View(t - {hole}, at)
    decreases SLOT_MAX + 1 - j
  {
    if j <= SLOT_MAX && j in t {
      if HomeOf(h, t[j], j) <= hole {
        ShiftMoves(h, t, at, hole, j);
        ShiftKeepsView(h, t[hole := t[j]], at[t[j].stored.name := hole], j, j + 1);
      } else {
        ShiftSkips(h, t, at, hole, j);
        ShiftKeepsView(h, t, at, hole, j + 1);
      }
    }
  }

  ghost function PlaceAfterDelete(h: Hash, t: Table, at: map<Name, Slot>, name: Name): map<Name, Slot> {
    match Find(h, t, name)
    case Some(k) => PlaceAfterShift(h, t, at - {name}, k, k + 1)
    case None => at
  }

  /** Taking a name's slot away, before any repair. */
  lemma DeleteOpens(h: Hash, t: Table, at: map<Name, Slot>, name: Name)
    requires WellFormed(h, t, at) && name in at
    ensures MidShift(h, t, at - {name}, at[name], at[name] as nat + 1)
    ensures View(t - {at[name]}, at - {name}) == View(t, at) - {name}
  {
    var k := at[name];
    assert forall n :: n in at && n != name ==> at[n] != k;
    forall i: Slot | Live(t - {k}, i) ensures t[i].stored.name in at - {name} && at[t[i].stored.name] == i {
      assert Live(t, i);
    }
  }

  lemma DeletePresent(h: Hash, t: Table, at: map<Name, Slot>, name: Name)
    requires WellFormed(h, t, at) && name in at
    ensures var k := at[name];
      WellFormed(h, Shift(h, t, k, k as nat + 1), PlaceAfterShift(h, t, at - {name}, k, k as nat + 1))
  {
    DeleteOpens(h, t, at, name);
    ShiftRepairs(h, t, at - {name}, at[name], at[name] as nat + 1);
  }

  lemma DeletePresentView(h: Hash, t: Table, at: map<Name, Slot>, name: Name)
    requires WellFormed(h, t, at) && name in at
    ensures var k := at[name];
      View(Shift(h, t, k, k as nat + 1), PlaceAfterShift(h, t, at - {name}, k, k as nat + 1)) == View(t, at) - {name}
  {
    DeleteOpens(h, t, at, name);
    ShiftKeepsView(h, t, at - {name}, at[name], at[name] as nat + 1);
  }

  /** Deletion removes exactly the name, repairs every chain, and says whether it was there. */
  lemma DeleteIsRemoval(h: Hash, t: Table, at: map<Name, Slot>, name: Name)
    requires WellFormed(h, t, at)
    ensures var u, at' := Delete(h, t, name).0, PlaceAfterDelete(h, t, at, name);
      WellFormed(h, u, at') && View(u, at') == View(t, at) - {name}
    ensures Delete(h, t, name).1 <==> name in View(t, at)
  {
    FindIsPlace(h, t, at, name);
    if name in at {
      DeletePresent(h, t, at, name);
      DeletePresentView(h, t, at, name);
    } else {
      assert View(t, at) - {name} == View(t, at);
    }
  }
}
