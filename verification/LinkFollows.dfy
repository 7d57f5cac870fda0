/** The link steps that a scatter step is keep the two views alike; and there always are such steps. */
module LinkFollows {
  import opened Names
  import SS = ScatterStore
  import SP = ScatterProtocol
  import SI = ScatterInvariant
  import ST = ScatterTheorems
  import Q = ScatterQueue
  import opened LinkProtocol
  import opened LinkInvariant
  import opened LinkSimulation

  // ----- flushes -----

  /** The name has had its fold among the first `j` moves. */
  ghost predicate Done(mvs: seq<Step>, dir: Uuid, j: nat, n: Name) {
    exists i :: 0 <= i < j && i < |mvs| && mvs[i].Compacts? && mvs[i].c.Fold? && mvs[i].c.l == Loc(dir, n)
  }

  /** Moves that each fold a name of their own. */
  ghost predicate Separate(s: SP.State, s': SP.State, dir: Uuid, v: nat, mvs: seq<Step>) {
    && (forall j :: 0 <= j < |mvs| ==> IsFoldOf(s, s', dir, v, mvs[j]))
    && (forall i, j :: 0 <= i < j < |mvs| ==> mvs[i].c.l != mvs[j].c.l)
  }

  ghost predicate NamesSoFar(e: State, s: SP.State, s': SP.State, dir: Uuid, mvs: seq<Step>, j: nat) {
    forall n :: MirrorsSoFar(e, s, s', dir, mvs, j, n)
  }

  ghost predicate MirrorsSoFar(e: State, s: SP.State, s': SP.State, dir: Uuid, mvs: seq<Step>, j: nat, n: Name) {
    Mirrors(e, if Done(mvs, dir, j, n) then s' else s, dir, n)
  }

  ghost predicate DebtsSoFar(d: State, e: State, s: SP.State, dir: Uuid, v: nat, mvs: seq<Step>, j: nat)
    requires j <= |mvs| && forall i :: 0 <= i < |mvs| ==> mvs[i].Compacts? && mvs[i].c.Fold?
  {
    && (forall f: DebtId :: f.version != v || f.loc.dir != dir ==> Get(e.debts, f) == Get(d.debts, f))
    && (forall i :: 0 <= i < j && TakesOut(s, mvs[i].c.l.name, mvs[i].c.k) ==>
          Get(e.debts, mvs[i].c.f) == Some(DebtOf(s, mvs[i].c.l.name, mvs[i].c.k)))
  }

  lemma DoneNext(mvs: seq<Step>, dir: Uuid, j: nat, n: Name)
    requires j < |mvs| && mvs[j].Compacts? && mvs[j].c.Fold?
    ensures Done(mvs, dir, j + 1, n) <==> Done(mvs, dir, j, n) || mvs[j].c.l == Loc(dir, n)
  {
    if Done(mvs, dir, j, n) {
      var i :| 0 <= i < j && i < |mvs| && mvs[i].Compacts? && mvs[i].c.Fold? && mvs[i].c.l == Loc(dir, n);
      assert i < j + 1;
    }
  }

  lemma NotDone(s: SP.State, s': SP.State, dir: Uuid, v: nat, mvs: seq<Step>, j: nat)
    requires Separate(s, s', dir, v, mvs) && j < |mvs|
    ensures !Done(mvs, dir, j, mvs[j].c.l.name) && mvs[j].c.l == Loc(dir, mvs[j].c.l.name)
  {
  }

  lemma FoldOne(e: State, e': State, s: SP.State, s': SP.State, dir: Uuid, v: nat, mv: Step)
    requires IsFoldOf(s, s', dir, v, mv) && Mirrors(e, s, dir, mv.c.l.name) && NextAny(e, e', mv)
    ensures Mirrors(e', s', dir, mv.c.l.name) && forall l :: l != mv.c.l ==> SameAt(e, e', l)
    ensures var n, k := mv.c.l.name, mv.c.k;
      e'.debts == if TakesOut(s, n, k) then e.debts[mv.c.f := DebtOf(s, n, k)] else e.debts
    ensures mv.c.f !in e.debts
  {
    assert mv.c.l == Loc(dir, mv.c.l.name);
    FoldMirrors(e, e', s, s', dir, mv.c.l.name, mv.c.k, mv.c.f);
  }

  lemma NamesNext(e: State, e': State, s: SP.State, s': SP.State, dir: Uuid, v: nat, mvs: seq<Step>, j: nat)
    requires Separate(s, s', dir, v, mvs) && j < |mvs| && NamesSoFar(e, s, s', dir, mvs, j) && NextAny(e, e', mvs[j])
    ensures NamesSoFar(e', s, s', dir, mvs, j + 1)
  {
    var mv := mvs[j];
    NotDone(s, s', dir, v, mvs, j);
    assert MirrorsSoFar(e, s, s', dir, mvs, j, mv.c.l.name);
    FoldOne(e, e', s, s', dir, v, mv);
    var i := j + 1;
    forall n ensures MirrorsSoFar(e', s, s', dir, mvs, i, n) {
      DoneNext(mvs, dir, j, n);
      if n != mv.c.l.name {
        assert SameAt(e, e', Loc(dir, n));
        assert MirrorsSoFar(e, s, s', dir, mvs, j, n);
      }
    }
  }

  lemma DebtsNext(d: State, e: State, e': State, s: SP.State, s': SP.State, dir: Uuid, v: nat, mvs: seq<Step>, j: nat)
    requires Separate(s, s', dir, v, mvs) && j < |mvs| && DebtsSoFar(d, e, s, dir, v, mvs, j)
    requires mvs[j].c.f !in e.debts
    requires var n, k := mvs[j].c.l.name, mvs[j].c.k;
      e'.debts == if TakesOut(s, n, k) then e.debts[mvs[j].c.f := DebtOf(s, n, k)] else e.debts
    ensures DebtsSoFar(d, e', s, dir, v, mvs, j + 1)
  {
    forall i | 0 <= i < j + 1 && TakesOut(s, mvs[i].c.l.name, mvs[i].c.k)
      ensures Get(e'.debts, mvs[i].c.f) == Some(DebtOf(s, mvs[i].c.l.name, mvs[i].c.k))
    {
      assert IsFoldOf(s, s', dir, v, mvs[i]) && IsFoldOf(s, s', dir, v, mvs[j]);
      if i < j {
        assert mvs[i].c.l != mvs[j].c.l;
      }
    }
  }

  lemma FoldNext(d: State, e: State, e': State, s: SP.State, s': SP.State, dir: Uuid, v: nat, mvs: seq<Step>, j: nat)
    requires Separate(s, s', dir, v, mvs) && j < |mvs| && NextAny(e, e', mvs[j])
    requires NamesSoFar(e, s, s', dir, mvs, j) && DebtsSoFar(d, e, s, dir, v, mvs, j)
    ensures NamesSoFar(e', s, s', dir, mvs, j + 1) && DebtsSoFar(d, e', s, dir, v, mvs, j + 1)
  {
    NotDone(s, s', dir, v, mvs, j);
    assert MirrorsSoFar(e, s, s', dir, mvs, j, mvs[j].c.l.name);
    FoldOne(e, e', s, s', dir, v, mvs[j]);
    NamesNext(e, e', s, s', dir, v, mvs, j);
    DebtsNext(d, e, e', s, s', dir, v, mvs, j);
  }

  lemma {:induction false} FoldsSoFar(d: State, s: SP.State, s': SP.State, dir: Uuid, v: nat, via: seq<State>, mvs: seq<Step>, j: nat)
    requires AllMirror(d, s, dir) && Separate(s, s', dir, v, mvs) && Path(via, mvs) && via[0] == d && j <= |mvs|
    ensures NamesSoFar(via[j], s, s', dir, mvs, j) && DebtsSoFar(d, via[j], s, dir, v, mvs, j)
  {
    if j == 0 {
      forall n ensures MirrorsSoFar(d, s, s', dir, mvs, 0, n) {
        assert Mirrors(d, s, dir, n);
      }
    } else {
      FoldsSoFar(d, s, s', dir, v, via, mvs, j - 1);
      assert NextAny(via[j - 1], via[j], mvs[j - 1]);
      FoldNext(d, via[j - 1], via[j], s, s', dir, v, mvs, j - 1);
    }
  }

  lemma FlushedNames(e: State, s: SP.State, s': SP.State, dir: Uuid, v: nat, mvs: seq<Step>)
    requires FoldsOf(s, s', dir, v, mvs) && NamesSoFar(e, s, s', dir, mvs, |mvs|)
    ensures AllMirror(e, s', dir)
  {
    forall n ensures Mirrors(e, s', dir, n) {
      assert MirrorsSoFar(e, s, s', dir, mvs, |mvs|, n);
      StaysOrDone(s, s', dir, v, mvs, n);
      if !Done(mvs, dir, |mvs|, n) {
        SameMirrors(e, e, s, s', dir, n);
      }
    }
  }

  lemma StaysOrDone(s: SP.State, s': SP.State, dir: Uuid, v: nat, mvs: seq<Step>, n: Name)
    requires FoldsOf(s, s', dir, v, mvs)
    ensures Q.Stays(s, s', n) || Done(mvs, dir, |mvs|, n)
  {
    if j :| 0 <= j < |mvs| && mvs[j].c.l == Loc(dir, n) {
      assert IsFoldOf(s, s', dir, v, mvs[j]);
      assert Done(mvs, dir, |mvs|, n);
    }
  }

  /** What a flush owes, seen from the queue of its name. */
  lemma OwedFold(s: SP.State, s': SP.State, p: SP.Pid, f: SP.Fold) returns (k: nat)
    requires SI.Inv(s) && SI.FlushedBy(s, s', p) && f in s'.procs[p].owed
    ensures f == SP.Fold(s'.store.version, f.name)
    ensures Q.Folds(s, s', f.name, k) && TakesOut(s, f.name, k)
    ensures var x := Q.Queue(s, f.name)[k - 1];
      s'.procs[p].owed[f] == SP.Debt(x.entry.uuid, x.op.PreDelete?) && (x.op.Delete? <==> !x.op.PreDelete?)
  {
    OwedVersion(s, s', p, f);
    k := Q.FlushOwes(s, s', p, f.name);
  }

  lemma OwedVersion(s: SP.State, s': SP.State, p: SP.Pid, f: SP.Fold)
    requires SI.FlushedBy(s, s', p) && f in s'.procs[p].owed
    ensures f == SP.Fold(s'.store.version, f.name)
  {
    ST.DebtsMirrorDrops(s'.store.version, s.procs[p].base, s.procs[p].got);
  }

  /** A name is folded by one number of changes only. */
  lemma FoldsOnce(s: SP.State, s': SP.State, n: Name, k: nat, m: nat)
    requires Q.Folds(s, s', n, k) && Q.Folds(s, s', n, m)
    ensures k == m
  {
    assert |Q.Queue(s', n)| == |Q.Queue(s, n)| - k == |Q.Queue(s, n)| - m;
  }

  lemma FoldedDebt(d: State, e: State, s: SP.State, s': SP.State, dir: Uuid, v: nat, mvs: seq<Step>, n: Name, k: nat)
    requires FoldsOf(s, s', dir, v, mvs) && DebtsSoFar(d, e, s, dir, v, mvs, |mvs|)
    requires Q.Folds(s, s', n, k) && TakesOut(s, n, k)
    ensures Get(e.debts, DebtId(Loc(dir, n), v)) == Some(DebtOf(s, n, k))
  {
    assert |Q.Queue(s', n)| < |Q.Queue(s, n)|;
    assert !Q.Stays(s, s', n);
    var j :| 0 <= j < |mvs| && mvs[j].c.l == Loc(dir, n);
    assert IsFoldOf(s, s', dir, v, mvs[j]);
    FoldsOnce(s, s', n, k, mvs[j].c.k);
  }

  lemma OwedDebt(d: State, e: State, s: SP.State, s': SP.State, dir: Uuid, mvs: seq<Step>, p: SP.Pid, f: SP.Fold)
    requires SI.Inv(s) && SI.FlushedBy(s, s', p) && f in s'.procs[p].owed
    requires FoldsOf(s, s', dir, s'.store.version, mvs) && DebtsSoFar(d, e, s, dir, s'.store.version, mvs, |mvs|)
    ensures DebtMirrored(e, dir, f, s'.procs[p].owed[f])
  {
    var k := OwedFold(s, s', p, f);
    FoldedDebt(d, e, s, s', dir, s'.store.version, mvs, f.name, k);
  }

  /** The other compactors' debts carry older versions. */
  lemma OtherDebt(d: State, e: State, s: SP.State, dir: Uuid, v: nat, mvs: seq<Step>, q: SP.Pid, f: SP.Fold)
    requires Separateable(mvs) && DebtsSoFar(d, e, s, dir, v, mvs, |mvs|) && DebtsMirrored(d, s, dir) && v > s.store.version
    requires q in s.procs && s.procs[q].Flushed? && f in s.procs[q].owed
    ensures DebtMirrored(e, dir, f, s.procs[q].owed[f])
  {
    assert DebtMirrored(d, dir, f, s.procs[q].owed[f]);
    assert IdOf(dir, f).version != v;
  }

  ghost predicate Separateable(mvs: seq<Step>) {
    forall i :: 0 <= i < |mvs| ==> mvs[i].Compacts? && mvs[i].c.Fold?
  }

  lemma FlushFacts(s: SP.State, s': SP.State, p: SP.Pid)
    requires SI.Inv(s) && SI.FlushedBy(s, s', p)
    ensures s'.store.version == s.store.version + 1 && p in s'.procs
    ensures forall q :: q in s'.procs && q != p ==> q in s.procs && s'.procs[q] == s.procs[q]
  {
  }

  lemma FlushMirrors(d: State, s: SP.State, s': SP.State, dir: Uuid, p: SP.Pid, via: seq<State>, mvs: seq<Step>)
    requires Sim(d, s, dir) && SI.Inv(s) && SI.FlushedBy(s, s', p)
    requires FoldsOf(s, s', dir, s'.store.version, mvs) && Path(via, mvs) && via[0] == d
    ensures Sim(via[|mvs|], s', dir)
  {
    var v, e := s'.store.version, via[|mvs|];
    FlushFacts(s, s', p);
    FoldsSoFar(d, s, s', dir, v, via, mvs, |mvs|);
    FlushedNames(e, s, s', dir, v, mvs);
    forall q, f | q in s'.procs && s'.procs[q].Flushed? && f in s'.procs[q].owed
      ensures DebtMirrored(e, dir, f, s'.procs[q].owed[f])
    {
      if q == p {
        OwedDebt(d, e, s, s', dir, mvs, p, f);
      } else {
        OtherDebt(d, e, s, dir, v, mvs, q, f);
      }
    }
    forall f | f in e.debts && f.loc.dir == dir ensures f.version <= v {
      assert f.version != v ==> Get(e.debts, f) == Get(d.debts, f);
    }
  }

  // ----- every step -----

  lemma QuietMirrors(d: State, s: SP.State, s': SP.State, dir: Uuid)
    requires Sim(d, s, dir) && s'.store == s.store && s'.folded == s.folded && OwesNothingNew(s, s')
    ensures Sim(d, s', dir)
  {
    forall n ensures Q.Stays(s, s', n) { Q.QuietStays(s, s', n); }
    RestStays(d, d, s, s', dir, {});
    QuietDebts(d, d, s, s', dir);
  }

  lemma RemovalMirrors(d: State, s: SP.State, s': SP.State, dir: Uuid, p: SP.Pid, x: SS.Scatter)
    requires Sim(d, s, dir) && SI.Inv(s) && SP.Remove(s, s', p, x)
    ensures Sim(d, s', dir)
  {
    forall n ensures Q.Stays(s, s', n) { Q.RemoveMoves(s, s', p, x, n); }
    RestStays(d, d, s, s', dir, {});
    QuietDebts(d, d, s, s', dir);
  }

  /** Steps that are nothing in the link protocol. */
  predicate IsQuiet(step: SP.Step) {
    || step.ReloadStep? || step.ListStep? || step.FetchStep? || step.StopStep? || step.ReadListStep? || step.ReadFetchStep?
    || step.ReadIndexStep? || step.SweepListStep? || step.SweepCheckStep?
  }

  lemma QuietFacts(s: SP.State, s': SP.State, step: SP.Step)
    requires SP.Next(s, s', step) && IsQuiet(step)
    ensures s'.store == s.store && s'.folded == s.folded && OwesNothingNew(s, s')
  {
    match step
    case ReloadStep(p) =>
    case ListStep(p) =>
    case FetchStep(p, x) =>
    case StopStep(p) =>
    case ReadListStep(p, scope) =>
    case ReadFetchStep(p, x) =>
    case ReadIndexStep(p) =>
    case SweepListStep(p) =>
    case SweepCheckStep(p, x) =>
    case _ =>
  }

  lemma StaleFlushFacts(s: SP.State, s': SP.State, p: SP.Pid)
    requires SP.Flush(s, s', p) && !SI.FlushedBy(s, s', p)
    ensures s'.store == s.store && s'.folded == s.folded && OwesNothingNew(s, s')
  {
  }

  /**
   * The two views stay alike: from views alike, when the scatter protocol takes a step and the
   * link protocol takes just the steps that one is, in whatever order they may come, the views
   * are alike again, debts included.
   */
  lemma StepMirrors(d: State, s: SP.State, s': SP.State, step: SP.Step, dir: Uuid, via: seq<State>, mvs: seq<Step>)
    requires Sim(d, s, dir) && SI.Inv(s) && ST.DebtsOk(s) && SP.Next(s, s', step)
    requires MovesOf(d, s, s', step, dir, mvs) && Path(via, mvs) && via[0] == d
    ensures Sim(via[|mvs|], s', dir)
  {
    if IsQuiet(step) {
      QuietFacts(s, s', step);
      QuietMirrors(d, s, s', dir);
    } else {
      BusyMirrors(d, s, s', step, dir, via, mvs);
    }
  }

  lemma BusyMirrors(d: State, s: SP.State, s': SP.State, step: SP.Step, dir: Uuid, via: seq<State>, mvs: seq<Step>)
    requires Sim(d, s, dir) && SI.Inv(s) && ST.DebtsOk(s) && SP.Next(s, s', step) && !IsQuiet(step)
    requires MovesOf(d, s, s', step, dir, mvs) && Path(via, mvs) && via[0] == d
    ensures Sim(via[|mvs|], s', dir)
  {
    assert |mvs| > 0 ==> NextAny(via[0], via[1], mvs[0]);
    match step
    case EmitStep(x) => EmitMirrors(d, via[1], s, s', dir, x);
    case FlushStep(p) =>
      if SI.FlushedBy(s, s', p) {
        FlushMirrors(d, s, s', dir, p, via, mvs);
      } else {
        StaleFlushFacts(s, s', p);
        QuietMirrors(d, s, s', dir);
      }
    case RemoveStep(p, x) => RemovalMirrors(d, s, s', dir, p, x);
    case TombstoneStep(p, f, x) => TombstoneMirrors(d, via[1], s, s', dir, p, f, x);
    case DecrementStep(p, f) => DecrementMirrors(d, via[1], s, s', dir, p, f);
    case EditStep(edits) => EditMirrors(d, via[1], s, s', dir, edits, mvs[0]);
    case SweepRemoveStep(g, x) => SweepMirrors(d, s, s', dir, g, x, via, mvs);
  }

  // ----- there are always such steps -----

  /** What the link protocol asks of an emission, of phase 2 and of an edit. */
  ghost predicate Enabled(d: State, s: SP.State, step: SP.Step, dir: Uuid) {
    match step
    case EmitStep(x) => x.op.Create? ==> x.entry.uuid !in d.files
    case TombstoneStep(p, f, _) =>
      p in s.procs && s.procs[p].Flushed? && f in s.procs[p].owed ==> IsLive(d, s.procs[p].owed[f].uuid)
    case EditStep(edits) => edits != map[] && exists mv, d' :: NextAny(d, d', mv) && EditsBy(d, mv, dir) == Uuids(edits)
    case _ => true
  }

  ghost predicate Followed(d: State, s: SP.State, s': SP.State, step: SP.Step, dir: Uuid) {
    exists via, mvs :: MovesOf(d, s, s', step, dir, mvs) && Path(via, mvs) && via[0] == d
  }

  lemma OneStep(d: State, d': State, mv: Step)
    requires NextAny(d, d', mv)
    ensures Path([d, d'], [mv])
  {
  }

  lemma Extended(via: seq<State>, mvs: seq<Step>, d': State, mv: Step)
    requires Path(via, mvs) && NextAny(via[|mvs|], d', mv)
    ensures Path(via + [d'], mvs + [mv])
  {
    var w, m := via + [d'], mvs + [mv];
    forall j | 0 <= j < |m| ensures NextAny(w[j], w[j + 1], m[j]) {
      if j < |mvs| {
        assert m[j] == mvs[j] && w[j] == via[j] && w[j + 1] == via[j + 1];
      }
    }
  }

  lemma EmitFollowed(d: State, s: SP.State, s': SP.State, x: SS.Scatter, dir: Uuid)
    requires x.op.Create? ==> x.entry.uuid !in d.files
    ensures Followed(d, s, s', SP.EmitStep(x), dir)
  {
    var l, u := Loc(dir, x.name), x.entry.uuid;
    var d1 := d.(todo := Appended(d, l, ToChange(x)));
    var d' := if x.op.Create? then d1.(files := d.files[u := Unwritten]) else d1;
    var mv := Emits(Announced(dir, x));
    assert EmitNext(d, d', Announced(dir, x));
    OneStep(d, d', mv);
    assert MovesOf(d, s, s', SP.EmitStep(x), dir, [mv]) && [d, d'][0] == d;
  }

  lemma TombstoneFollowed(d: State, s: SP.State, s': SP.State, p: SP.Pid, f: SP.Fold, x: SS.Scatter, dir: Uuid)
    requires Sim(d, s, dir) && SP.Tombstone(s, s', p, f, x) && IsLive(d, s.procs[p].owed[f].uuid)
    ensures Followed(d, s, s', SP.TombstoneStep(p, f, x), dir)
  {
    assert DebtMirrored(d, dir, f, s.procs[p].owed[f]);
    var id := IdOf(dir, f);
    var b := d.debts[id];
    var d' := d.(debts := d.debts[id := b.(buried := true)], todo := Appended(d, id.loc, Down(b.uuid, true)), buried := d.buried + {b.uuid});
    assert Buries(d, d', id);
    OneStep(d, d', Compacts(Bury(id)));
    assert MovesOf(d, s, s', SP.TombstoneStep(p, f, x), dir, [Compacts(Bury(id))]) && [d, d'][0] == d;
  }

  lemma DecrementFollowed(d: State, s: SP.State, s': SP.State, p: SP.Pid, f: SP.Fold, dir: Uuid)
    requires Sim(d, s, dir) && SP.Decrement(s, s', p, f)
    ensures Followed(d, s, s', SP.DecrementStep(p, f), dir)
  {
    assert DebtMirrored(d, dir, f, s.procs[p].owed[f]);
    var id := IdOf(dir, f);
    var d' := d.(debts := Without(d.debts, id), files := Adjusted(d, d.debts[id].uuid, -1));
    assert CompactNext(d, d', Pay(id));
    OneStep(d, d', Compacts(Pay(id)));
    assert MovesOf(d, s, s', SP.DecrementStep(p, f), dir, [Compacts(Pay(id))]) && [d, d'][0] == d;
  }

  /** A fold that the mirrored queue allows. */
  lemma FoldPossible(e: State, s: SP.State, s': SP.State, dir: Uuid, n: Name, k: nat, f: DebtId) returns (e': State)
    requires Mirrors(e, s, dir, n) && Q.Consumes(s, s', n, k) && f !in e.debts && f.loc == Loc(dir, n)
    ensures Folds(e, e', Loc(dir, n), k, f)
  {
    var l := Loc(dir, n);
    assert |Todo(e, l)| == |Q.Queue(s, n)|;
    var c := Todo(e, l)[k - 1];
    e' := e.(index := if c.Up? then e.index[l := c.uuid] else Without(e.index, l),
             todo := e.todo[l := Todo(e, l)[k..]],
             kept := if c.Down? && c.tombstone then e.kept[l := c.uuid] else Without(e.kept, l),
             debts := DebtsAfter(e, l, c, f));
  }

  ghost predicate FoldsAll(s: SP.State, s': SP.State, dir: Uuid, names: set<Name>, mvs: seq<Step>) {
    && (forall n :: n in names ==> exists j :: 0 <= j < |mvs| && mvs[j].Compacts? && mvs[j].c.Fold? && mvs[j].c.l == Loc(dir, n))
    && (forall j :: 0 <= j < |mvs| && mvs[j].Compacts? && mvs[j].c.Fold? ==> mvs[j].c.l.name in names)
  }

  ghost predicate Unused(d: State, dir: Uuid, v: nat) {
    forall f :: f in d.debts && f.loc.dir == dir ==> f.version != v
  }

  lemma {:induction false} FoldNames(d: State, s: SP.State, s': SP.State, dir: Uuid, v: nat, names: set<Name>)
    returns (via: seq<State>, mvs: seq<Step>)
    requires AllMirror(d, s, dir) && Unused(d, dir, v) && forall n :: n in names ==> exists k :: Q.Folds(s, s', n, k)
    ensures Path(via, mvs) && via[0] == d && Separate(s, s', dir, v, mvs) && FoldsAll(s, s', dir, names, mvs)
    decreases names
  {
    if names == {} {
      via, mvs := [d], [];
    } else {
      var n :| n in names;
      var rest := names - {n};
      via, mvs := FoldNames(d, s, s', dir, v, rest);
      via, mvs := FoldOneMore(d, s, s', dir, v, rest, n, via, mvs);
      assert rest + {n} == names;
    }
  }

  lemma FoldOneMore(d: State, s: SP.State, s': SP.State, dir: Uuid, v: nat, rest: set<Name>, n: Name, via: seq<State>, mvs: seq<Step>)
    returns (w: seq<State>, m: seq<Step>)
    requires AllMirror(d, s, dir) && Unused(d, dir, v) && n !in rest && exists k :: Q.Folds(s, s', n, k)
    requires Path(via, mvs) && via[0] == d && Separate(s, s', dir, v, mvs) && FoldsAll(s, s', dir, rest, mvs)
    ensures Path(w, m) && w[0] == d && Separate(s, s', dir, v, m) && FoldsAll(s, s', dir, rest + {n}, m)
  {
    var k :| Q.Folds(s, s', n, k);
    var l, e := Loc(dir, n), via[|mvs|];
    FoldsSoFar(d, s, s', dir, v, via, mvs, |mvs|);
    NotYet(d, e, s, s', dir, v, rest, via, mvs, n);
    var e' := FoldPossible(e, s, s', dir, n, k, DebtId(l, v));
    var mv := Compacts(Fold(l, k, DebtId(l, v)));
    Extended(via, mvs, e', mv);
    MoreFolds(s, s', dir, v, rest, n, mvs, mv);
    w, m := via + [e'], mvs + [mv];
  }

  lemma MoreFolds(s: SP.State, s': SP.State, dir: Uuid, v: nat, rest: set<Name>, n: Name, mvs: seq<Step>, mv: Step)
    requires Separate(s, s', dir, v, mvs) && FoldsAll(s, s', dir, rest, mvs) && n !in rest
    requires IsFoldOf(s, s', dir, v, mv) && mv.c.l == Loc(dir, n)
    ensures Separate(s, s', dir, v, mvs + [mv]) && FoldsAll(s, s', dir, rest + {n}, mvs + [mv])
  {
    var all := mvs + [mv];
    forall m | m in rest + {n} ensures exists j :: 0 <= j < |all| && all[j].Compacts? && all[j].c.Fold? && all[j].c.l == Loc(dir, m) {
      if m == n {
        assert all[|mvs|] == mv;
      } else {
        var j :| 0 <= j < |mvs| && mvs[j].Compacts? && mvs[j].c.Fold? && mvs[j].c.l == Loc(dir, m);
        assert all[j] == mvs[j];
      }
    }
    forall j | 0 <= j < |mvs| ensures mvs[j].c.l != mv.c.l {
      assert IsFoldOf(s, s', dir, v, mvs[j]);
    }
  }

  /** A name not folded yet is as it was, and its key is free. */
  lemma NotYet(d: State, e: State, s: SP.State, s': SP.State, dir: Uuid, v: nat, rest: set<Name>, via: seq<State>, mvs: seq<Step>, n: Name)
    requires FoldsAll(s, s', dir, rest, mvs) && n !in rest && Separate(s, s', dir, v, mvs) && Unused(d, dir, v)
    requires Path(via, mvs) && via[0] == d && e == via[|mvs|] && NamesSoFar(e, s, s', dir, mvs, |mvs|)
    ensures Mirrors(e, s, dir, n) && DebtId(Loc(dir, n), v) !in e.debts
  {
    assert MirrorsSoFar(e, s, s', dir, mvs, |mvs|, n);
    assert !Done(mvs, dir, |mvs|, n);
    KeyFree(d, s, s', dir, v, via, mvs, n, |mvs|);
  }

  lemma {:induction false} KeyFree(d: State, s: SP.State, s': SP.State, dir: Uuid, v: nat, via: seq<State>, mvs: seq<Step>, n: Name, j: nat)
    requires Unused(d, dir, v) && Separate(s, s', dir, v, mvs) && Path(via, mvs) && via[0] == d && j <= |mvs|
    requires forall i :: 0 <= i < |mvs| ==> mvs[i].c.l != Loc(dir, n)
    ensures DebtId(Loc(dir, n), v) !in via[j].debts
  {
    if j > 0 {
      KeyFree(d, s, s', dir, v, via, mvs, n, j - 1);
      assert NextAny(via[j - 1], via[j], mvs[j - 1]);
      assert IsFoldOf(s, s', dir, v, mvs[j - 1]);
    }
  }

  /** The names a flush consumes from are among those it listed. */
  lemma ConsumedAreListed(s: SP.State, s': SP.State, p: SP.Pid, n: Name)
    requires SI.Inv(s) && SI.FlushedBy(s, s', p)
    ensures Q.Stays(s, s', n) || (n in Listed(s, p) && exists k :: Q.Folds(s, s', n, k))
  {
    if n in Listed(s, p) {
      var k := Q.FlushMoves(s, s', p, n);
    } else {
      Q.FlushFoldsTo(s, s', p, n);
      Q.UntouchedStays(s, s', n);
    }
  }

  ghost function Listed(s: SP.State, p: SP.Pid): set<Name> {
    if p in s.procs && s.procs[p].Folding? then set x | x in s.procs[p].got.listed :: x.name else {}
  }

  lemma FlushFollowed(d: State, s: SP.State, s': SP.State, p: SP.Pid, dir: Uuid)
    requires Sim(d, s, dir) && SI.Inv(s) && SI.FlushedBy(s, s', p)
    ensures Followed(d, s, s', SP.FlushStep(p), dir)
  {
    var v := s'.store.version;
    FlushFacts(s, s', p);
    var names := set n | n in Listed(s, p) && !Q.Stays(s, s', n);
    forall n ensures Q.Stays(s, s', n) || (n in names && exists k :: Q.Folds(s, s', n, k)) { ConsumedAreListed(s, s', p, n); }
    var via, mvs := FoldNames(d, s, s', dir, v, names);
    AllFolded(s, s', dir, v, names, mvs);
    assert MovesOf(d, s, s', SP.FlushStep(p), dir, mvs);
  }

  lemma AllFolded(s: SP.State, s': SP.State, dir: Uuid, v: nat, names: set<Name>, mvs: seq<Step>)
    requires Separate(s, s', dir, v, mvs) && FoldsAll(s, s', dir, names, mvs) && forall n :: Q.Stays(s, s', n) || n in names
    ensures FoldsOf(s, s', dir, v, mvs)
  {
  }

  lemma SweepFollowed(d: State, s: SP.State, s': SP.State, g: SP.Pid, x: SS.Scatter, dir: Uuid)
    requires Sim(d, s, dir) && SI.Inv(s) && SP.SweepRemove(s, s', g, x)
    ensures Followed(d, s, s', SP.SweepRemoveStep(g, x), dir)
  {
    var n, l := x.name, Loc(dir, x.name);
    var k := Q.SweepMoves(s, s', g, x);
    assert Mirrors(d, s, dir, n);
    var via, mvs := [d], [];
    if Q.Stays(s, s', n) {
    } else if Q.Collects(s, s', n) {
      via, mvs := CollectSteps(d, l);
    } else {
      via, mvs := FoldAwaySteps(d, s, s', dir, n, k);
    }
    assert MovesOf(d, s, s', SP.SweepRemoveStep(g, x), dir, mvs) && Path(via, mvs) && via[0] == d;
  }

  lemma CollectSteps(d: State, l: Loc) returns (via: seq<State>, mvs: seq<Step>)
    requires l in d.kept
    ensures Path(via, mvs) && via[0] == d && mvs == [Compacts(Collect(l))]
  {
    var d' := d.(kept := Without(d.kept, l));
    assert CompactNext(d, d', Collect(l));
    OneStep(d, d', Compacts(Collect(l)));
    via, mvs := [d, d'], [Compacts(Collect(l))];
  }

  lemma FoldAwaySteps(d: State, s: SP.State, s': SP.State, dir: Uuid, n: Name, k: nat) returns (via: seq<State>, mvs: seq<Step>)
    requires Sim(d, s, dir) && Q.FoldsAway(s, s', n, k)
    ensures Path(via, mvs) && via[0] == d
    ensures var l := Loc(dir, n); mvs == [Compacts(Fold(l, k, DebtId(l, s.store.version + 1))), Compacts(Collect(l))]
  {
    var l, f := Loc(dir, n), DebtId(Loc(dir, n), s.store.version + 1);
    assert Mirrors(d, s, dir, n);
    var e := FoldPossible(d, s, s', dir, n, k, f);
    FoldMirrors(d, e, s, s', dir, n, k, f);
    var e' := e.(kept := Without(e.kept, l));
    assert CompactNext(e, e', Collect(l));
    OneStep(d, e, Compacts(Fold(l, k, f)));
    Extended([d, e], [Compacts(Fold(l, k, f))], e', Compacts(Collect(l)));
    via, mvs := [d, e] + [e'], [Compacts(Fold(l, k, f))] + [Compacts(Collect(l))];
  }

  lemma EditFollowed(d: State, s: SP.State, s': SP.State, edits: map<Name, Option<Entry>>, dir: Uuid)
    requires Enabled(d, s, SP.EditStep(edits), dir)
    ensures Followed(d, s, s', SP.EditStep(edits), dir)
  {
    var mv, d' :| NextAny(d, d', mv) && EditsBy(d, mv, dir) == Uuids(edits);
    OneStep(d, d', mv);
    assert MovesOf(d, s, s', SP.EditStep(edits), dir, [mv]) && [d, d'][0] == d;
  }

  lemma NothingToFollow(d: State, s: SP.State, s': SP.State, step: SP.Step, dir: Uuid)
    requires MovesOf(d, s, s', step, dir, [])
    ensures Followed(d, s, s', step, dir)
  {
    var via: seq<State>, mvs: seq<Step> := [d], [];
    assert MovesOf(d, s, s', step, dir, mvs) && Path(via, mvs) && via[0] == d;
  }

  /** From views alike, whatever step the scatter protocol takes, the link protocol can take the steps that one is. */
  lemma StepIsFollowed(d: State, s: SP.State, s': SP.State, step: SP.Step, dir: Uuid)
    requires Sim(d, s, dir) && SI.Inv(s) && SP.Next(s, s', step) && Enabled(d, s, step, dir)
    ensures Followed(d, s, s', step, dir)
  {
    match step
    case EmitStep(x) => EmitFollowed(d, s, s', x, dir);
    case TombstoneStep(p, f, x) => TombstoneFollowed(d, s, s', p, f, x, dir);
    case DecrementStep(p, f) => DecrementFollowed(d, s, s', p, f, dir);
    case FlushStep(p) =>
      if SI.FlushedBy(s, s', p) {
        FlushFollowed(d, s, s', p, dir);
      } else {
        NothingToFollow(d, s, s', step, dir);
      }
    case SweepRemoveStep(g, x) => SweepFollowed(d, s, s', g, x, dir);
    case EditStep(edits) => EditFollowed(d, s, s', edits, dir);
    case _ => NothingToFollow(d, s, s', step, dir);
  }
}
