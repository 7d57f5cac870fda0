/** A directory handle's in-memory index and the loops of src/file.rs that change it. */
module DirIndexes {
  import opened Names
  import opened Index

  /** One batch of classified scatters, keyed by name. */
  datatype Changes = Changes(
    upserts: map<Name, Entry>,
    deletes: map<Name, Uuid>,
    predeletes: map<Name, Uuid>)
  {
    /** Every name is classified once, and every entry carries its own name. */
    ghost predicate Valid() {
      && upserts.Keys !! deletes.Keys !! predeletes.Keys
      && forall n :: n in upserts ==> IsNamed(upserts[n], n)
    }
  }

  /** The batch laid over a name map; scatters win. */
  function Overlay(m: map<Name, Entry>, c: Changes): map<Name, Entry> {
    (m + c.upserts) - c.deletes.Keys - c.predeletes.Keys
  }

  /** The sequence lists the set, each element once. */
  ghost predicate Enumerates(s: seq<Name>, names: set<Name>) {
    && (forall i, j :: 0 <= i < j < |s| ==> s[i] != s[j])
    && (forall n :: n in s <==> n in names)
  }

  lemma UpsertOne(m: map<Name, Entry>, batch: map<Name, Entry>, todo: set<Name>, n: Name)
    requires n in todo && todo <= batch.Keys
    ensures (m + (batch - todo))[n := batch[n]] == m + (batch - (todo - {n}))
  {
  }

  lemma DeleteOne(m: map<Name, Entry>, names: set<Name>, todo: set<Name>, n: Name)
    requires n in todo && todo <= names
    ensures m - (names - todo) - {n} == m - (names - (todo - {n}))
    ensures (names - (todo - {n})) * m.Keys == (names - todo) * m.Keys + (if n in m then {n} else {})
  {
  }

  /** Upserts and deletes of other names take nothing from what is there to delete. */
  lemma StillThere(m: map<Name, Entry>, upserted: map<Name, Entry>, c: Changes)
    requires c.Valid() && upserted == m + c.upserts
    ensures c.deletes.Keys * upserted.Keys == c.deletes.Keys * m.Keys
    ensures c.predeletes.Keys * (upserted - c.deletes.Keys).Keys == c.predeletes.Keys * m.Keys
  {
  }

  datatype RenameOutcome = Renamed | NoSource | Exhausted

  // ----- the B-tree's ordered access -----

  /** The least key at or after `n`. */
  function SeekKey(t: Table, n: Slot): (r: Option<Slot>)
    ensures r.Some? ==> n <= r.value && r.value in t && forall i: Slot :: n <= i < r.value ==> i !in t
    ensures r.None? ==> forall i: Slot :: n <= i ==> i !in t
    decreases SLOT_MAX - n
  {
    if n in t then Some(n) else if n == SLOT_MAX then None else SeekKey(t, n + 1)
  }

  class DirIndex {
    const hash: Hash
    var bmap: Table
    ghost var at: map<Name, Slot>

    /** The name map this table stands for. */
    ghost var contents: map<Name, Entry>

    ghost predicate Valid()
      reads this
    {
      WellFormed(hash, bmap, at) && contents == View(bmap, at)
    }

    constructor (hash: Hash)
      ensures this.hash == hash && Valid() && contents == map[]
    {
      this.hash := hash;
      bmap := map[];
      at := map[];
      contents := map[];
    }

    method ProbeLookup(name: Name) returns (slot: Option<Slot>)
      ensures slot == Find(hash, bmap, name)
      ensures Valid() ==> (slot.Some? <==> name in contents)
      ensures Valid() && slot.Some? ==> slot.value in bmap && bmap[slot.value] == contents[name]
    {
      if Valid() {
        FindIsPlace(hash, bmap, at, name);
      }
      var k: Slot := hash(name);
      while true
        invariant Probe(bmap, name, hash(name)) == Probe(bmap, name, k)
        decreases SLOT_MAX - k
      {
        if k !in bmap {
          return None;
        }
        if Matches(bmap[k], name) {
          return Some(k);
        }
        if k == SLOT_MAX {
          return None;
        }
        k := k + 1;
      }
    }

    /** Writes the name's slot, or the first empty one on its chain; false when there is none. */
    method ProbeUpsert(name: Name, e: Entry) returns (ok: bool)
      modifies this
      ensures Upsert(hash, old(bmap), name, e) == if ok then Some(bmap) else None
      ensures !ok ==> bmap == old(bmap) && at == old(at) && contents == old(contents)
      ensures old(Valid()) && IsNamed(e, name) ==> Valid()
      ensures old(Valid()) && IsNamed(e, name) && ok ==> contents == old(contents)[name := e]
      ensures old(Valid()) ==> (ok <==> name in old(contents) || !Filled(old(bmap), hash(name), SLOT_MAX))
    {
      ghost var t, place := bmap, at;
      if Valid() {
        UpsertFailsWhenFull(hash, bmap, at, name, e);
        if IsNamed(e, name) && Upsert(hash, bmap, name, e).Some? {
          UpsertIsUpdate(hash, bmap, at, name, e);
        }
      }
      var k: Slot := hash(name);
      while k in bmap && !Matches(bmap[k], name)
        invariant bmap == t && at == place && contents == old(contents)
        invariant Probe(t, name, hash(name)) == Probe(t, name, k)
        decreases SLOT_MAX - k
      {
        if k == SLOT_MAX {
          return false;
        }
        k := k + 1;
      }
      at := PlaceAfterUpsert(hash, bmap, at, name);
      bmap := bmap[k := e];
      contents := View(bmap, at);
      return true;
    }

    /** Removes the name, shifting later entries of its cluster back over the hole. */
    method ProbeDelete(name: Name) returns (found: bool)
      modifies this
      ensures (bmap, found) == Delete(hash, old(bmap), name)
      ensures old(Valid()) ==> Valid() && contents == old(contents) - {name}
      ensures old(Valid()) ==> (found <==> name in old(contents))
    {
      ghost var t, place := bmap, PlaceAfterDelete(hash, bmap, at, name);
      if Valid() {
        DeleteIsRemoval(hash, bmap, at, name);
      }
      var s := ProbeLookup(name);
      if s.None? {
        return false;
      }
      var slot: Slot := s.value;
      var hole: Slot := slot;
      var j: Slot := if slot == SLOT_MAX then slot else slot + 1;
      ghost var seen: nat := slot as nat + 1;
      while j != slot
        invariant hole < seen <= SLOT_MAX + 1 && slot < seen
        invariant j != slot ==> j == seen
        invariant j == slot ==> seen == SLOT_MAX + 1
        invariant hole in bmap
        invariant Shift(hash, t, slot, slot as nat + 1) == Shift(hash, bmap, hole, seen)
        decreases SLOT_MAX + 1 - seen
      {
        if j !in bmap {
          break;
        }
        if HomeOf(hash, bmap[j], j) <= hole {
          bmap := bmap[hole := bmap[j]];
          hole := j;
        }
        seen := j as nat + 1;
        if j == SLOT_MAX {
          break;
        }
        j := j + 1;
      }
      bmap := bmap - {hole};
      at := place;
      contents := View(bmap, at);
      return true;
    }

    /** Moves an entry to another name, replacing what was there; one name map edit. */
    method RenameWithin(source: Name, target: Name) returns (r: RenameOutcome)
      requires Valid()
      modifies this
      ensures (r == Renamed && source != target && !Storable(target)) || Valid()
      ensures source == target ==> r == Renamed && contents == old(contents)
      ensures source != target ==> (r == NoSource <==> source !in old(contents))
      ensures r == NoSource ==> contents == old(contents)
      ensures source != target && r == Renamed && Storable(target) ==>
        var e := old(contents)[source];
        contents == (old(contents) - {source})[target := Entry(e.inode, e.uuid, Text(target))]
      ensures r == Exhausted ==>
        target !in old(contents) && contents == old(contents) - {source} && Filled(bmap, hash(target), SLOT_MAX)
    {
      if source == target {
        return Renamed;
      }
      var s := ProbeLookup(source);
      if s.None? {
        return NoSource;
      }
      var e := bmap[s.value];
      var moved := EntryFor(e.inode, e.uuid, target);
      NameReadsBack(e.inode, e.uuid, target);
      var _ := ProbeDelete(source);
      var ok := ProbeUpsert(target, moved);
      return if ok then Renamed else Exhausted;
    }

    /** Live entries in key order, from the first key to the last. */
    method WalkBmap() returns (out: seq<Entry>, ghost slots: seq<Slot>)
      ensures |slots| == |out|
      ensures forall i, j :: 0 <= i < j < |slots| ==> slots[i] < slots[j]
      ensures forall i :: 0 <= i < |slots| ==> Live(bmap, slots[i]) && out[i] == bmap[slots[i]]
      ensures forall k: Slot :: Live(bmap, k) ==> k in slots
      ensures forall e :: e in out <==> exists k: Slot :: Live(bmap, k) && bmap[k] == e
    {
      out, slots := [], [];
      var n: Slot := 0;
      while true
        invariant |slots| == |out|
        invariant forall i, j :: 0 <= i < j < |slots| ==> slots[i] < slots[j]
        invariant forall i :: 0 <= i < |slots| ==>
          slots[i] < n && Live(bmap, slots[i]) && out[i] == bmap[slots[i]]
        invariant forall k: Slot :: Live(bmap, k) && k < n ==> k in slots
        invariant forall e :: e in out <==> exists k: Slot :: k < n && Live(bmap, k) && bmap[k] == e
        decreases SLOT_MAX - n
      {
        var r := SeekKey(bmap, n);
        if r.None? {
          return;
        }
        var key := r.value;
        if bmap[key].stored.Text? {
          out, slots := out + [bmap[key]], slots + [key];
        }
        if key == SLOT_MAX {
          return;
        }
        n := key + 1;
      }
    }

    /** The walked entries, keyed by their names. */
    method WalkView() returns (view: map<Name, Entry>)
      requires Valid()
      ensures view == contents
    {
      var entries, slots := WalkBmap();
      view := map[];
      for i := 0 to |entries|
        invariant forall n :: n in view ==> n in at && view[n] == bmap[at[n]]
        invariant forall k :: 0 <= k < i ==> entries[k].stored.name in view
      {
        assert Live(bmap, slots[i]);
        view := view[entries[i].stored.name := entries[i]];
      }
      forall n | n in at ensures n in view {
        assert Live(bmap, at[n]);
        var i :| 0 <= i < |slots| && slots[i] == at[n];
        assert entries[i].stored.name == n;
      }
    }

    /** read_dir's merge: the walked entries by name, then the batch over them. */
    method MergedView(c: Changes) returns (view: map<Name, Entry>)
      requires Valid() && c.Valid()
      ensures view == Overlay(contents, c)
    {
      view := WalkView();
      view := view + c.upserts;
      view := view - c.deletes.Keys;
      view := view - c.predeletes.Keys;
    }

    /** Every name of `names` removed, in whatever order; `gone` are those that were there. */
    method DeleteAll(names: set<Name>) returns (gone: seq<Name>)
      requires Valid()
      modifies this
      ensures Valid() && contents == old(contents) - names
      ensures Enumerates(gone, names * old(contents).Keys)
    {
      gone := [];
      var todo := names;
      while todo != {}
        invariant Valid() && todo <= names
        invariant contents == old(contents) - (names - todo)
        invariant Enumerates(gone, (names - todo) * old(contents).Keys)
        decreases todo
      {
        var n :| n in todo;
        DeleteOne(old(contents), names, todo, n);
        var found := ProbeDelete(n);
        if found {
          gone := gone + [n];
        }
        todo := todo - {n};
      }
      assert names - todo == names;
    }

    /** Every entry of `batch` written, in whatever order; false when a chain is exhausted. */
    method UpsertAll(batch: map<Name, Entry>) returns (ok: bool)
      requires Valid() && forall n :: n in batch ==> IsNamed(batch[n], n)
      modifies this
      ensures Valid()
      ensures ok ==> contents == old(contents) + batch
      ensures batch.Keys <= old(contents).Keys ==> ok
      ensures !ok ==> exists n :: n in batch && n !in contents && Filled(bmap, hash(n), SLOT_MAX)
    {
      var todo := batch.Keys;
      while todo != {}
        invariant Valid() && todo <= batch.Keys
        invariant contents == old(contents) + (batch - todo)
        decreases todo
      {
        var n :| n in todo;
        UpsertOne(old(contents), batch, todo, n);
        ok := ProbeUpsert(n, batch[n]);
        if !ok {
          return false;
        }
        todo := todo - {n};
      }
      assert batch - todo == batch;
      return true;
    }

    /**
     * The fold of compact_inner. Whatever order the batch is iterated in, the outcome is the
     * batch laid over the old map, and the names reported removed are those the map had.
     */
    method Fold(c: Changes) returns (ok: bool, removed: seq<Name>, predeleted: seq<Name>)
      requires Valid() && c.Valid()
      modifies this
      ensures Valid()
      ensures ok ==> contents == Overlay(old(contents), c)
      ensures ok ==> Enumerates(removed, c.deletes.Keys * old(contents).Keys)
      ensures ok ==> Enumerates(predeleted, c.predeletes.Keys * old(contents).Keys)
      ensures c.upserts.Keys <= old(contents).Keys ==> ok
      ensures !ok ==> exists n :: n in c.upserts && n !in contents && Filled(bmap, hash(n), SLOT_MAX)
    {
      ok := UpsertAll(c.upserts);
      if !ok {
        return false, [], [];
      }
      ghost var upserted := contents;
      removed := DeleteAll(c.deletes.Keys);
      predeleted := DeleteAll(c.predeletes.Keys);
      StillThere(old(contents), upserted, c);
    }
  }
}
