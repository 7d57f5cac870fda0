/**
 * A directory as the link protocol sees it: under every name an index entry and a queue of
 * changes emitted and not yet folded. Every step of the scatter protocol is a move of that
 * abstraction.
 */
module ScatterQueue {
  import opened Names
  import opened ScatterStore
  import opened ScatterProtocol
  import opened ScatterInvariant
  import opened ScatterTheorems

  /** The pending scatters of the name that are newer than the one folded last. */
  ghost function Unfolded(s: State, n: Name): set<Scatter> {
    set x | x in s.store.scatters && x.name == n && !(n in s.folded && x.stamp <= s.folded[n].stamp)
  }

  /** The scatters of the name, oldest first. */
  ghost function InOrder(u: set<Scatter>, n: Name): seq<Scatter>
    decreases u
  {
    if Pending(u, n) then var x := LatestOf(u, n); InOrder(u - {x}, n) + [x] else []
  }

  ghost function Queue(s: State, n: Name): seq<Scatter> {
    InOrder(Unfolded(s, n), n)
  }

  lemma InOrderAppend(u: set<Scatter>, n: Name, x: Scatter)
    requires x !in u && x.name == n && forall k :: k in u && k.name == n ==> k.stamp < x.stamp
    ensures InOrder(u + {x}, n) == InOrder(u, n) + [x]
  {
    assert x in u + {x};
    assert LatestOf(u + {x}, n) == x;
    assert (u + {x}) - {x} == u;
  }

  ghost function NewerThan(u: set<Scatter>, t: nat): set<Scatter> {
    set x | x in u && x.stamp > t
  }

  /** Keeping what is newer than `c` drops the queue up to and including `c`. */
  lemma {:induction false} NewerIsSuffix(u: set<Scatter>, n: Name, c: Scatter) returns (k: nat)
    requires Ranked(u) && c in u && c.name == n
    ensures 0 < k <= |InOrder(u, n)| && InOrder(u, n)[k - 1] == c
    ensures InOrder(NewerThan(u, c.stamp), n) == InOrder(u, n)[k..]
    decreases u
  {
    var m := LatestOf(u, n);
    var rest, up := u - {m}, NewerThan(u, c.stamp);
    if m == c {
      assert !Pending(up, n);
      k := |InOrder(u, n)|;
    } else {
      k := NewerIsSuffix(rest, n, c);
      assert up == NewerThan(rest, c.stamp) + {m};
      InOrderAppend(NewerThan(rest, c.stamp), n, m);
    }
  }

  /** The tombstone kept for collection: folded last under its name, and still there. */
  ghost function Kept(s: State, n: Name): Option<Uuid> {
    if n in s.folded && s.folded[n] in s.store.scatters && s.folded[n].op.Delete? then Some(s.folded[n].entry.uuid) else None
  }

  // ----- moves -----

  ghost predicate SameEntry(s: State, s': State, n: Name) {
    Get(s'.store.index, n) == Get(s.store.index, n) && Queue(s', n) == Queue(s, n)
  }

  ghost predicate Stays(s: State, s': State, n: Name) {
    SameEntry(s, s', n) && Kept(s', n) == Kept(s, n)
  }

  ghost predicate Appends(s: State, s': State, n: Name, x: Scatter) {
    Get(s'.store.index, n) == Get(s.store.index, n) && Queue(s', n) == Queue(s, n) + [x] && Kept(s', n) == Kept(s, n)
  }

  /** The `k` oldest changes are consumed, and the last of them decides the index entry. */
  ghost predicate Consumes(s: State, s': State, n: Name, k: nat) {
    && 0 < k <= |Queue(s, n)|
    && Get(s'.store.index, n) == Effect(Queue(s, n)[k - 1])
    && Queue(s', n) == Queue(s, n)[k..]
  }

  /** The tombstone a change leaves behind. */
  function TombstoneOf(x: Scatter): Option<Uuid> {
    if x.op.Delete? then Some(x.entry.uuid) else None
  }

  /** Folding: a tombstone consumed last is kept. */
  ghost predicate Folds(s: State, s': State, n: Name, k: nat) {
    Consumes(s, s', n, k) && Kept(s', n) == TombstoneOf(Queue(s, n)[k - 1])
  }

  /** Collecting a tombstone that was never folded: consumed and gone. */
  ghost predicate FoldsAway(s: State, s': State, n: Name, k: nat) {
    Consumes(s, s', n, k) && Queue(s, n)[k - 1].op.Delete? && Kept(s', n) == None
  }

  /** Collecting a kept tombstone. */
  ghost predicate Collects(s: State, s': State, n: Name) {
    SameEntry(s, s', n) && Kept(s, n).Some? && Kept(s', n) == None
  }

  ghost predicate Edits(s: State, s': State, n: Name, e: Option<Entry>) {
    Queue(s, n) == [] && Queue(s', n) == [] && Get(s'.store.index, n) == e && Kept(s', n) == Kept(s, n)
  }

  lemma EmitMoves(s: State, s': State, x: Scatter, procs: map<Pid, Process>, n: Name)
    requires StoreOk(s) && Emitted(s, s', x, procs)
    ensures if n == x.name then Appends(s, s', n, x) else Stays(s, s', n)
  {
    if n == x.name {
      assert Unfolded(s', n) == Unfolded(s, n) + {x};
      InOrderAppend(Unfolded(s, n), n, x);
    } else {
      assert Unfolded(s', n) == Unfolded(s, n);
    }
  }

  /** The flush committed `x` under its name; it is not older than what was folded before. */
  ghost predicate FoldsTo(s: State, s': State, x: Scatter) {
    && s'.store.scatters == s.store.scatters && x in s.history && !Above(s, x)
    && Get(s'.folded, x.name) == Some(x) && Get(s'.store.index, x.name) == Effect(x)
    && (x in s.store.scatters || Get(s.store.index, x.name) == Effect(x))
  }

  lemma FlushFoldsTo(s: State, s': State, p: Pid, n: Name)
    requires Inv(s) && FlushedBy(s, s', p)
    ensures var got := s.procs[p].got;
      && (Touched(got, None, n) ==> FoldsTo(s, s', Change(got, None, n)))
      && (!Touched(got, None, n) ==>
            && s'.store.scatters == s.store.scatters && Get(s'.folded, n) == Get(s.folded, n)
            && Get(s'.store.index, n) == Get(s.store.index, n))
  {
    assert ProcessOk(s, s.procs[p]);
    FlushAt(s, s', p, n);
  }

  lemma FoldsToMoves(s: State, s': State, x: Scatter) returns (k: nat)
    requires StoreOk(s) && FoldsTo(s, s', x)
    ensures Stays(s, s', x.name) || Folds(s, s', x.name, k)
    ensures Get(s'.store.index, x.name) != Get(s.store.index, x.name) ==> Folds(s, s', x.name, k) && Queue(s, x.name)[k - 1] == x
  {
    k := 0;
    var n := x.name;
    if x in Unfolded(s, n) {
      k := NewerIsSuffix(Unfolded(s, n), n, x);
      assert Unfolded(s', n) == NewerThan(Unfolded(s, n), x.stamp);
    } else {
      RefoldStays(s, s', x);
    }
  }

  /** Folding what is already folded, or already gone, changes nothing. */
  lemma RefoldStays(s: State, s': State, x: Scatter)
    requires StoreOk(s) && FoldsTo(s, s', x) && x !in Unfolded(s, x.name)
    ensures Get(s'.store.index, x.name) == Get(s.store.index, x.name)
    ensures Unfolded(s', x.name) == Unfolded(s, x.name)
  {
    var n := x.name;
    if x in s.store.scatters {
      assert s.folded[n].stamp == x.stamp;
    } else {
      forall y | y in s.store.scatters && y.name == n ensures y.stamp > x.stamp {
        assert y.stamp < x.stamp ==> x in s.store.scatters;
      }
    }
  }

  lemma OwedToMarker(s: State, s': State, p: Pid, n: Name)
    requires Inv(s) && FlushedBy(s, s', p) && Fold(s'.store.version, n) in s'.procs[p].owed
    ensures var got := s.procs[p].got;
      && Touched(got, None, n) && Get(s'.store.index, n) != Get(s.store.index, n)
      && n in s.store.index && Effect(Change(got, None, n)) == None
      && s'.procs[p].owed[Fold(s'.store.version, n)] ==
           Debt(Change(got, None, n).entry.uuid, Change(got, None, n).op.PreDelete?)
  {
    DroppedMeansRemoved(s, s', p, n);
  }

  lemma UntouchedStays(s: State, s': State, n: Name)
    requires s'.store.scatters == s.store.scatters && Get(s'.folded, n) == Get(s.folded, n)
    requires Get(s'.store.index, n) == Get(s.store.index, n)
    ensures Stays(s, s', n)
  {
    assert Unfolded(s', n) == Unfolded(s, n);
  }

  /** A flush consumes queues up to what it listed last. */
  lemma FlushMoves(s: State, s': State, p: Pid, n: Name) returns (k: nat)
    requires Inv(s) && FlushedBy(s, s', p)
    ensures Stays(s, s', n) || Folds(s, s', n, k)
    ensures Touched(s.procs[p].got, None, n) && Get(s'.store.index, n) != Get(s.store.index, n) ==>
      Folds(s, s', n, k) && Queue(s, n)[k - 1] == Change(s.procs[p].got, None, n)
  {
    k := 0;
    FlushFoldsTo(s, s', p, n);
    if Touched(s.procs[p].got, None, n) {
      k := FoldsToMoves(s, s', Change(s.procs[p].got, None, n));
    } else {
      UntouchedStays(s, s', n);
    }
  }

  /** A decrement it owes goes to the child that the folded marker names. */
  lemma FlushOwes(s: State, s': State, p: Pid, n: Name) returns (k: nat)
    requires Inv(s) && FlushedBy(s, s', p) && Fold(s'.store.version, n) in s'.procs[p].owed
    ensures Folds(s, s', n, k) && n in s.store.index
    ensures var x := Queue(s, n)[k - 1];
      Effect(x) == None && s'.procs[p].owed[Fold(s'.store.version, n)] == Debt(x.entry.uuid, x.op.PreDelete?)
  {
    OwedToMarker(s, s', p, n);
    k := FlushMoves(s, s', p, n);
  }

  lemma RemoveMoves(s: State, s': State, p: Pid, x: Scatter, n: Name)
    requires Inv(s) && Remove(s, s', p, x)
    ensures Stays(s, s', n)
  {
    assert ProcessOk(s, s.procs[p]);
    assert Consumed(s, x);
    assert Unfolded(s', n) == Unfolded(s, n);
  }

  /** A collection takes a kept tombstone away, or one never folded, or one already superseded. */
  lemma SweepMoves(s: State, s': State, g: Pid, x: Scatter) returns (k: nat)
    requires Inv(s) && SweepRemove(s, s', g, x)
    ensures Stays(s, s', x.name) || Collects(s, s', x.name) || FoldsAway(s, s', x.name, k)
  {
    k := 0;
    var n := x.name;
    assert ProcessOk(s, s.procs[g]);
    assert ClearedOk(s, x);
    if x in Unfolded(s, n) {
      k := NewerIsSuffix(Unfolded(s, n), n, x);
      SweepUnfolded(s, s', x);
    } else {
      assert Unfolded(s', n) == Unfolded(s, n);
    }
  }

  lemma SweepUnfolded(s: State, s': State, x: Scatter)
    requires StoreOk(s) && ClearedOk(s, x) && x in Unfolded(s, x.name)
    requires s'.store == s.store.(scatters := s.store.scatters - {x}) && s'.folded == s.folded
    ensures Unfolded(s', x.name) == NewerThan(Unfolded(s, x.name), x.stamp)
    ensures Kept(s', x.name) == None && Get(s'.store.index, x.name) == Effect(x) && x.op.Delete?
  {
    assert x.name in s.folded ==> s.folded[x.name] !in s.store.scatters;
  }

  lemma SweepElsewhere(s: State, s': State, g: Pid, x: Scatter, n: Name)
    requires StoreOk(s) && SweepRemove(s, s', g, x) && n != x.name
    ensures Stays(s, s', n)
  {
    assert Unfolded(s', n) == Unfolded(s, n);
  }

  lemma EditMoves(s: State, s': State, edits: map<Name, Option<Entry>>, n: Name)
    requires Inv(s) && Edit(s, s', edits)
    ensures n !in edits ==> Stays(s, s', n)
    ensures n in edits && Queue(s, n) == [] ==> Edits(s, s', n, edits[n])
    ensures n in edits && Queue(s, n) != [] ==> Folds(s, s', n, |Queue(s, n)|) && Get(s'.store.index, n) == edits[n]
  {
    EditAt(s, s', edits, n);
    if n !in edits {
      EditElsewhere(s, s', edits, n);
    } else if Queue(s, n) == [] {
      EditEmpties(s, s', edits, n);
      EditedKept(s, s', edits, n);
    } else {
      EditConsumes(s, s', edits, n);
    }
  }

  lemma EditElsewhere(s: State, s': State, edits: map<Name, Option<Entry>>, n: Name)
    requires Edit(s, s', edits) && n !in edits
    ensures Stays(s, s', n)
  {
    EditAt(s, s', edits, n);
    assert Unfolded(s', n) == Unfolded(s, n);
  }

  lemma EditConsumes(s: State, s': State, edits: map<Name, Option<Entry>>, n: Name)
    requires Inv(s) && Edit(s, s', edits) && n in edits && Queue(s, n) != []
    ensures Folds(s, s', n, |Queue(s, n)|)
  {
    EditAt(s, s', edits, n);
    EditEmpties(s, s', edits, n);
    EditedQueue(s, n);
    EditKeeps(s, s', edits, n);
  }

  lemma EditEmpties(s: State, s': State, edits: map<Name, Option<Entry>>, n: Name)
    requires Inv(s) && Edit(s, s', edits) && n in edits
    ensures Queue(s', n) == []
  {
    forall x | x in s.store.scatters && x.name == n ensures x !in Unfolded(s', n) {
      EditSettles(s, s', edits, x);
    }
    assert !Pending(Unfolded(s', n), n);
  }

  lemma EditKeeps(s: State, s': State, edits: map<Name, Option<Entry>>, n: Name)
    requires Edit(s, s', edits) && n in edits && Pending(s.store.scatters, n)
    ensures Kept(s', n) == TombstoneOf(LatestOf(s.store.scatters, n))
    ensures edits[n] == Effect(LatestOf(s.store.scatters, n))
  {
    assert Lands(s.store, n, edits[n]);
  }

  /** With nothing unfolded, the latest pending scatter is the one folded last. */
  lemma FoldedIsLatest(s: State, n: Name)
    requires StoreOk(s) && Queue(s, n) == [] && Pending(s.store.scatters, n)
    ensures Get(s.folded, n) == Some(LatestOf(s.store.scatters, n))
  {
    var y := LatestOf(s.store.scatters, n);
    assert y !in Unfolded(s, n);
    assert s.folded[n].stamp == y.stamp;
  }

  lemma EditedKept(s: State, s': State, edits: map<Name, Option<Entry>>, n: Name)
    requires StoreOk(s) && Edit(s, s', edits) && n in edits && Queue(s, n) == []
    ensures Kept(s', n) == Kept(s, n)
  {
    if Pending(s.store.scatters, n) {
      FoldedIsLatest(s, n);
      EditKeeps(s, s', edits, n);
    } else {
      assert n in s.folded ==> s.folded[n] !in s.store.scatters;
    }
  }

  /** The queue, if there is one, ends with the latest pending scatter. */
  lemma EditedQueue(s: State, n: Name)
    requires Basic(s) && Queue(s, n) != []
    ensures Pending(s.store.scatters, n) && Queue(s, n)[|Queue(s, n)| - 1] == LatestOf(s.store.scatters, n)
  {
    var u := Unfolded(s, n);
    var x := LatestOf(u, n);
    assert x in s.store.scatters && IsLatest(s.store.scatters, n, x);
  }

  /** What a step of the protocol may do to one name's entry, queue and kept tombstone. */
  ghost predicate QueueMove(s: State, s': State, step: Step, n: Name) {
    || Stays(s, s', n)
    || ((step.EmitStep? || step.TombstoneStep?) && step.x.name == n && Appends(s, s', n, step.x))
    || ((step.FlushStep? || step.EditStep?) && exists k :: Folds(s, s', n, k))
    || (step.SweepRemoveStep? && (Collects(s, s', n) || exists k :: FoldsAway(s, s', n, k)))
    || (step.EditStep? && n in step.edits && Edits(s, s', n, step.edits[n]))
  }

  lemma QuietStays(s: State, s': State, n: Name)
    requires s'.store == s.store && s'.folded == s.folded
    ensures Stays(s, s', n)
  {
    assert Unfolded(s', n) == Unfolded(s, n);
  }

  /**
   * The scatter protocol moves the queues: emissions append, flushes consume from the front and
   * keep a tombstone consumed last, collections take a tombstone away, folded or not, direct
   * edits replace the entry under an empty queue or consume a queue that says the same, and
   * nothing else is felt.
   */
  lemma StepMovesQueue(s: State, s': State, step: Step, n: Name)
    requires Inv(s) && Next(s, s', step)
    ensures QueueMove(s, s', step, n)
  {
    match step
    case EmitStep(x) => EmitMoves(s, s', x, s.procs, n);
    case TombstoneStep(p, f, x) => EmitMoves(s, s', x, s'.procs, n);
    case FlushStep(p) =>
      if s.procs[p].version == s.store.version {
        var k := FlushMoves(s, s', p, n);
      } else {
        QuietStays(s, s', n);
      }
    case RemoveStep(p, x) => RemoveMoves(s, s', p, x, n);
    case SweepRemoveStep(p, x) =>
      if n == x.name {
        var k := SweepMoves(s, s', p, x);
      } else {
        SweepElsewhere(s, s', p, x, n);
      }
    case EditStep(edits) => EditMoves(s, s', edits, n);
    case _ => QuietStays(s, s', n);
  }

  /** A kept tombstone has no entry under it. */
  lemma KeptIsBare(s: State, n: Name)
    requires StoreOk(s) && Kept(s, n).Some?
    ensures n !in s.store.index
  {
    assert Get(s.store.index, n) == Effect(s.folded[n]);
  }

  /** Readers see the end of the queue, or the index when there is none. */
  lemma QueueShows(s: State, n: Name)
    requires Inv(s)
    ensures Visible(s.store, n) == if Queue(s, n) == [] then Get(s.store.index, n) else Effect(Queue(s, n)[|Queue(s, n)| - 1])
  {
    var u := Unfolded(s, n);
    if Pending(u, n) {
      var x := LatestOf(u, n);
      assert IsLatest(s.store.scatters, n, x);
      VisibleOfLatest(s.store, x);
    } else if Pending(s.store.scatters, n) {
      var y := LatestOf(s.store.scatters, n);
      assert y !in u;
      assert s.folded[n].stamp == y.stamp;
    }
  }
}
