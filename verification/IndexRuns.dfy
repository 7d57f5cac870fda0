/** Whole runs of the index: any hash function is as good as a plain map. */
module IndexRuns {
  import opened Names
  import opened Index

  datatype Op = Put(name: Name, inode: Inode, uuid: Uuid) | Drop(name: Name)

  ghost predicate StorableNames(ops: seq<Op>) {
    forall i :: 0 <= i < |ops| ==> Storable(ops[i].name)
  }

  /** One operation; an exhausted upsert reports an error and leaves the table alone. */
  function Apply(h: Hash, t: Table, op: Op): (Table, bool) {
    match op
    case Put(name, inode, uuid) =>
      (match Upsert(h, t, name, EntryFor(inode, uuid, name))
       case Some(u) => (u, true)
       case None => (t, false))
    case Drop(name) => (Delete(h, t, name).0, true)
  }

  function RunTable(h: Hash, ops: seq<Op>): Table {
    if ops == [] then map[] else Apply(h, RunTable(h, ops[..|ops| - 1]), ops[|ops| - 1]).0
  }

  /** The same operations on a plain map, leaving out those the table refused. */
  function RunMap(h: Hash, ops: seq<Op>): map<Name, Entry> {
    if ops == [] then map[] else
      var before, op := ops[..|ops| - 1], ops[|ops| - 1];
      if Apply(h, RunTable(h, before), op).1 then ApplyPlain(RunMap(h, before), op) else RunMap(h, before)
  }

  function ApplyPlain(m: map<Name, Entry>, op: Op): map<Name, Entry> {
    match op
    case Put(name, inode, uuid) => m[name := Entry(inode, uuid, Text(name))]
    case Drop(name) => m - {name}
  }

  function RunPlain(ops: seq<Op>): map<Name, Entry> {
    if ops == [] then map[] else ApplyPlain(RunPlain(ops[..|ops| - 1]), ops[|ops| - 1])
  }

  ghost function RunPlace(h: Hash, ops: seq<Op>): map<Name, Slot> {
    if ops == [] then map[] else
      var before, op := ops[..|ops| - 1], ops[|ops| - 1];
      var t, at := RunTable(h, before), RunPlace(h, before);
      match op
      case Put(name, _, _) => if Apply(h, t, op).1 then PlaceAfterUpsert(h, t, at, name) else at
      case Drop(name) => PlaceAfterDelete(h, t, at, name)
  }

  lemma {:induction false} RunIsWellFormed(h: Hash, ops: seq<Op>)
    requires StorableNames(ops)
    ensures WellFormed(h, RunTable(h, ops), RunPlace(h, ops))
    ensures View(RunTable(h, ops), RunPlace(h, ops)) == RunMap(h, ops)
  {
    if ops == [] {
      EmptyIsWellFormed(h);
    } else {
      var before, op := ops[..|ops| - 1], ops[|ops| - 1];
      RunIsWellFormed(h, before);
      StepIsWellFormed(h, RunTable(h, before), RunPlace(h, before), op);
    }
  }

  lemma StepIsWellFormed(h: Hash, t: Table, at: map<Name, Slot>, op: Op)
    requires WellFormed(h, t, at) && Storable(op.name)
    ensures match op
      case Put(name, inode, uuid) =>
        Apply(h, t, op).1 ==>
          WellFormed(h, Apply(h, t, op).0, PlaceAfterUpsert(h, t, at, name))
          && View(Apply(h, t, op).0, PlaceAfterUpsert(h, t, at, name)) == ApplyPlain(View(t, at), op)
      case Drop(name) =>
        WellFormed(h, Apply(h, t, op).0, PlaceAfterDelete(h, t, at, name))
        && View(Apply(h, t, op).0, PlaceAfterDelete(h, t, at, name)) == ApplyPlain(View(t, at), op)
  {
    match op
    case Put(name, inode, uuid) =>
      NameReadsBack(inode, uuid, name);
      if Apply(h, t, op).1 {
        UpsertIsUpdate(h, t, at, name, EntryFor(inode, uuid, name));
      }
    case Drop(name) =>
      DeleteIsRemoval(h, t, at, name);
  }

  /** From the empty table, through any operations, lookups answer as the plain map. */
  lemma RunAnswersAsMap(h: Hash, ops: seq<Op>, n: Name)
    requires StorableNames(ops)
    ensures Lookup(h, RunTable(h, ops), n) == Get(RunMap(h, ops), n)
  {
    RunIsWellFormed(h, ops);
    LookupIsView(h, RunTable(h, ops), RunPlace(h, ops), n);
  }

  /** What was put last under a name, and not dropped since, is found with just its inode and child. */
  lemma PutIsFound(h: Hash, ops: seq<Op>, name: Name, inode: Inode, uuid: Uuid)
    requires StorableNames(ops) && Storable(name) && Apply(h, RunTable(h, ops), Put(name, inode, uuid)).1
    ensures Lookup(h, Apply(h, RunTable(h, ops), Put(name, inode, uuid)).0, name) == Some(Entry(inode, uuid, Text(name)))
    ensures forall n :: n != name ==>
      Lookup(h, Apply(h, RunTable(h, ops), Put(name, inode, uuid)).0, n) == Lookup(h, RunTable(h, ops), n)
  {
    var all := ops + [Put(name, inode, uuid)];
    assert all[..|ops|] == ops;
    assert RunTable(h, all) == Apply(h, RunTable(h, ops), Put(name, inode, uuid)).0;
    assert RunMap(h, all) == RunMap(h, ops)[name := Entry(inode, uuid, Text(name))];
    forall n ensures Lookup(h, RunTable(h, all), n) == Get(RunMap(h, all), n) && Lookup(h, RunTable(h, ops), n) == Get(RunMap(h, ops), n) {
      RunAnswersAsMap(h, all, n);
      RunAnswersAsMap(h, ops, n);
    }
  }

  /** No operation of the run met an exhausted chain. */
  ghost predicate Roomy(h: Hash, ops: seq<Op>) {
    forall i :: 0 <= i < |ops| ==> Apply(h, RunTable(h, ops[..i]), ops[i]).1
  }

  lemma {:induction false} RoomyRunIsPlain(h: Hash, ops: seq<Op>)
    requires Roomy(h, ops)
    ensures RunMap(h, ops) == RunPlain(ops)
  {
    if ops != [] {
      var before := ops[..|ops| - 1];
      forall i | 0 <= i < |before| ensures Apply(h, RunTable(h, before[..i]), before[i]).1 {
        assert before[..i] == ops[..i];
      }
      RoomyRunIsPlain(h, before);
    }
  }

  /** Two hash functions, however differently they collide, give the same answers. */
  lemma HashDoesNotMatter(h: Hash, g: Hash, ops: seq<Op>, n: Name)
    requires StorableNames(ops) && Roomy(h, ops) && Roomy(g, ops)
    ensures Lookup(h, RunTable(h, ops), n) == Lookup(g, RunTable(g, ops), n) == Get(RunPlain(ops), n)
  {
    RunAnswersAsMap(h, ops, n);
    RunAnswersAsMap(g, ops, n);
    RoomyRunIsPlain(h, ops);
    RoomyRunIsPlain(g, ops);
  }

  /** What is written under a name is found under it exactly when the name survives storage. */
  lemma UpsertReadsBackIff(h: Hash, t: Table, at: map<Name, Slot>, name: Name, inode: Inode, uuid: Uuid)
    requires WellFormed(h, t, at) && Upsert(h, t, name, EntryFor(inode, uuid, name)).Some?
    ensures Lookup(h, Upsert(h, t, name, EntryFor(inode, uuid, name)).value, name) == Some(EntryFor(inode, uuid, name))
      <==> Storable(name)
  {
    var e := EntryFor(inode, uuid, name);
    var u := Upsert(h, t, name, e).value;
    NameReadsBack(inode, uuid, name);
    if Storable(name) {
      UpsertIsUpdate(h, t, at, name, e);
      LookupIsView(h, u, PlaceAfterUpsert(h, t, at, name), name);
    } else {
      ProbeStops(u, name, h(name));
    }
  }
}
