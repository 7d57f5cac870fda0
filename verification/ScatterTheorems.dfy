/** What the scatter protocol promises, over every run. */
module ScatterTheorems {
  import opened Names
  import opened Counting
  import opened ScatterStore
  import opened ScatterProtocol
  import opened ScatterInvariant

  lemma StepKeeps(s: State, s': State, step: Step)
    requires Inv(s) && Next(s, s', step)
    ensures Inv(s')
  {
    match step
    case EmitStep(x) => EmittedKeeps(s, s', x, s.procs);
    case ReloadStep(p) => ReloadKeeps(s, s', p);
    case ListStep(p) => ListKeeps(s, s', p);
    case FetchStep(p, x) => FetchKeeps(s, s', p, x);
    case FlushStep(p) =>
      if s.procs[p].version == s.store.version {
        FlushKeeps(s, s', p);
      } else {
        StopKeeps(s, s', p);
      }
    case RemoveStep(p, x) =>
      RemoveIsSettled(s, s', p, x);
      RemovedKeeps(s, s', x);
    case TombstoneStep(p, f, x) => EmittedKeeps(s, s', x, s'.procs);
    case DecrementStep(p, f) => DecrementKeeps(s, s', p, f);
    case StopStep(p) => StopKeeps(s, s', p);
    case EditStep(edits) => EditKeeps(s, s', edits);
    case ReadListStep(p, scope) => ReadListKeeps(s, s', p, scope);
    case ReadFetchStep(p, x) => ReadFetchKeeps(s, s', p, x);
    case ReadIndexStep(p) => ReadIndexKeeps(s, s', p);
    case SweepListStep(p) => SweepListKeeps(s, s', p);
    case SweepCheckStep(p, x) => SweepCheckKeeps(s, s', p, x);
    case SweepRemoveStep(p, x) => SweepRemoveKeeps(s, s', p, x);
  }

  lemma {:induction false} RunKeeps(run: seq<State>, steps: seq<Step>, i: nat)
    requires IsRun(run, steps) && i < |run|
    ensures Inv(run[i])
  {
    if i == 0 {
      InitKeeps(run[0]);
    } else {
      RunKeeps(run, steps, i - 1);
      StepKeeps(run[i - 1], run[i], steps[i - 1]);
    }
  }

  // ----- refinement of an atomic map -----

  /** What a step does to the atomic name map: emissions and edits write, all else is invisible. */
  function Spec(step: Step, n: Name, v: Option<Entry>): Option<Entry> {
    match step
    case EmitStep(x) => if n == x.name then Effect(x) else v
    case EditStep(edits) => if n in edits then edits[n] else v
    case _ => v
  }

  function SpecRun(steps: seq<Step>, n: Name, v: Option<Entry>): Option<Entry> {
    if steps == [] then v else Spec(steps[|steps| - 1], n, SpecRun(steps[..|steps| - 1], n, v))
  }

  lemma EmittedShows(s: State, s': State, x: Scatter, procs: map<Pid, Process>, n: Name)
    requires StoreOk(s) && Emitted(s, s', x, procs)
    ensures Visible(s'.store, n) == if n == x.name then Effect(x) else Visible(s.store, n)
  {
    EmitStore(s, s', x, procs);
    if n == x.name {
      assert IsLatest(s'.store.scatters, n, x);
      VisibleOfLatest(s'.store, x);
    } else if Pending(s.store.scatters, n) {
      var y := LatestOf(s.store.scatters, n);
      assert IsLatest(s'.store.scatters, n, y);
      VisibleOfLatest(s'.store, y);
    } else {
      assert !Pending(s'.store.scatters, n);
    }
  }

  lemma StepRefines(s: State, s': State, step: Step, n: Name)
    requires Inv(s) && Next(s, s', step)
    ensures Visible(s'.store, n) == Spec(step, n, Visible(s.store, n))
  {
    match step
    case EmitStep(x) => EmittedShows(s, s', x, s.procs, n);
    case FlushStep(p) =>
      if s.procs[p].version == s.store.version {
        FlushStutters(s, s', p, n);
      }
    case RemoveStep(p, x) =>
      RemoveIsSettled(s, s', p, x);
      RemovedStutters(s, s', x, n);
    case TombstoneStep(p, f, x) => EmittedShows(s, s', x, s'.procs, n);
    case EditStep(edits) => EditAt(s, s', edits, n);
    case SweepRemoveStep(p, x) =>
      if x in s.store.scatters {
        SweepRemoveIsSettled(s, s', p, x);
        RemovedStutters(s, s', x, n);
      } else {
        assert s.store.scatters - {x} == s.store.scatters;
      }
    case _ =>
  }

  /** Every run of the protocol shows, name by name, what the atomic map would hold. */
  lemma {:induction false} RunRefines(run: seq<State>, steps: seq<Step>, i: nat, n: Name)
    requires IsRun(run, steps) && i < |run|
    ensures Visible(run[i].store, n) == SpecRun(steps[..i], n, Visible(run[0].store, n))
  {
    if i > 0 {
      RunKeeps(run, steps, i - 1);
      RunRefines(run, steps, i - 1, n);
      StepRefines(run[i - 1], run[i], steps[i - 1], n);
      assert steps[..i][..i - 1] == steps[..i - 1];
    }
  }

  /** The step announces or edits the name. */
  ghost predicate Writes(step: Step, n: Name) {
    || (step.EmitStep? && step.x.name == n)
    || (step.EditStep? && n in step.edits)
  }

  /** What an announcement or edit of the name gives it. */
  ghost function Written(step: Step, n: Name): Option<Entry>
    requires Writes(step, n)
  {
    if step.EmitStep? then Effect(step.x) else step.edits[n]
  }

  ghost predicate ShowLink(s: State, s': State, step: Step, n: Name) {
    Visible(s'.store, n) == if Writes(step, n) then Written(step, n) else Visible(s.store, n)
  }

  ghost predicate ShowLinks(run: seq<State>, steps: seq<Step>, n: Name) {
    |run| == |steps| + 1 && forall i :: 0 <= i < |steps| ==> ShowLink(run[i], run[i + 1], steps[i], n)
  }

  lemma RunShows(run: seq<State>, steps: seq<Step>, n: Name)
    requires IsRun(run, steps)
    ensures ShowLinks(run, steps, n)
  {
    forall i | 0 <= i < |steps| ensures ShowLink(run[i], run[i + 1], steps[i], n) {
      RunKeeps(run, steps, i);
      StepRefines(run[i], run[i + 1], steps[i], n);
    }
  }

  lemma {:induction false} LastWriter(run: seq<State>, steps: seq<Step>, j: nat, i: nat, n: Name) returns (k: nat)
    requires ShowLinks(run, steps, n) && j < i < |run| && Visible(run[j].store, n) != Visible(run[i].store, n)
    ensures j <= k < i && Writes(steps[k], n) && Written(steps[k], n) == Visible(run[i].store, n)
  {
    k := i - 1;
    assert ShowLink(run[k], run[k + 1], steps[k], n);
    if !Writes(steps[k], n) {
      k := LastWriter(run, steps, j, k, n);
    }
  }

  /**
   * Nothing comes back by itself: a name that shows something else than before was announced
   * or edited in between, to just that. Compactors, collectors and crashes never do it, so a
   * collected tombstone, in whatever state its collection stopped, resurrects nothing.
   */
  lemma NothingResurrects(run: seq<State>, steps: seq<Step>, j: nat, i: nat, n: Name) returns (k: nat)
    requires IsRun(run, steps) && j < i < |run| && Visible(run[j].store, n) != Visible(run[i].store, n)
    ensures j <= k < i && Writes(steps[k], n) && Written(steps[k], n) == Visible(run[i].store, n)
  {
    RunShows(run, steps, n);
    k := LastWriter(run, steps, j, i, n);
  }

  /**
   * Flushes fold forward: what a flush commits under a name is the effect of a scatter no older
   * than the one folded last, folding that one again changes nothing, and a name without an
   * applied scatter keeps its entry. So a name's changes are folded in the order of emission,
   * each at most once, some skipped over.
   */
  lemma FlushFoldsForward(s: State, s': State, p: Pid, n: Name)
    requires Inv(s) && FlushedBy(s, s', p)
    ensures var got := s.procs[p].got;
      if Touched(got, None, n) then
        var x := Change(got, None, n);
        && Get(s'.store.index, n) == Effect(x)
        && (n in s.folded ==> s.folded[n].stamp <= x.stamp)
        && (n in s.folded && s.folded[n].stamp == x.stamp ==> Get(s'.store.index, n) == Get(s.store.index, n))
      else Get(s'.store.index, n) == Get(s.store.index, n)
  {
    var c := s.procs[p];
    assert ProcessOk(s, c);
    FlushAt(s, s', p, n);
    if Touched(c.got, None, n) {
      var x := Change(c.got, None, n);
      assert !Above(s, x) && x in s.history;
    }
  }

  // ----- reads are linearizable, name by name -----

  /** What one step means for the log and for the read `r`. */
  ghost predicate ReadLink(s: State, s': State, step: Step, r: Pid) {
    && s'.log == s.log + [s'.store]
    && (r in s'.procs && s'.procs[r].Reading? ==>
          var c := s'.procs[r];
          || (step == ReadListStep(r, c.scope) && c.start == |s.log|)
          || (r in s.procs && s.procs[r].Reading? && s.procs[r].start == c.start && s.procs[r].scope == c.scope))
    && (r in s'.procs && s'.procs[r].ReadDone? ==>
          var c := s'.procs[r];
          || (r in s.procs && s.procs[r] == c)
          || (step == ReadIndexStep(r) && c.finish == |s.log| && r in s.procs
              && s.procs[r].Reading? && s.procs[r].start == c.start && s.procs[r].scope == c.scope))
  }

  lemma StepReads(s: State, s': State, step: Step, r: Pid)
    requires Next(s, s', step)
    ensures ReadLink(s, s', step, r)
  {
  }

  ghost predicate ReadLinks(run: seq<State>, steps: seq<Step>, r: Pid) {
    && |run| == |steps| + 1 && run[0].log == [run[0].store] && r !in run[0].procs
    && forall i :: 0 <= i < |steps| ==> ReadLink(run[i], run[i + 1], steps[i], r)
  }

  lemma RunReads(run: seq<State>, steps: seq<Step>, r: Pid)
    requires IsRun(run, steps)
    ensures ReadLinks(run, steps, r)
  {
    forall i | 0 <= i < |steps| ensures ReadLink(run[i], run[i + 1], steps[i], r) {
      StepReads(run[i], run[i + 1], steps[i], r);
    }
  }

  lemma {:induction false} LogIsRun(run: seq<State>, steps: seq<Step>, r: Pid, i: nat)
    requires ReadLinks(run, steps, r) && i < |run|
    ensures |run[i].log| == i + 1
    ensures forall t :: 0 <= t <= i ==> run[i].log[t] == run[t].store
  {
    if i > 0 {
      LogIsRun(run, steps, r, i - 1);
      assert ReadLink(run[i - 1], run[i], steps[i - 1], r);
    }
  }

  /** A read in progress began with its own LIST, at the step before `start`. */
  lemma {:induction false} ReadBegan(run: seq<State>, steps: seq<Step>, i: nat, r: Pid)
    requires ReadLinks(run, steps, r) && i < |run| && r in run[i].procs && run[i].procs[r].Reading?
    ensures var c := run[i].procs[r]; 0 < c.start <= i && steps[c.start - 1] == ReadListStep(r, c.scope)
    decreases i
  {
    LogIsRun(run, steps, r, i - 1);
    assert ReadLink(run[i - 1], run[i], steps[i - 1], r);
    if r in run[i - 1].procs && run[i - 1].procs[r].Reading? {
      ReadBegan(run, steps, i - 1, r);
    }
  }

  lemma {:induction false} ReadEnded(run: seq<State>, steps: seq<Step>, i: nat, r: Pid)
    requires ReadLinks(run, steps, r) && i < |run| && r in run[i].procs && run[i].procs[r].ReadDone?
    ensures var c := run[i].procs[r];
      && 0 < c.start < c.finish <= i
      && steps[c.start - 1] == ReadListStep(r, c.scope) && steps[c.finish - 1] == ReadIndexStep(r)
    decreases i
  {
    LogIsRun(run, steps, r, i - 1);
    assert ReadLink(run[i - 1], run[i], steps[i - 1], r);
    if r in run[i - 1].procs && run[i - 1].procs[r].Reading? {
      ReadBegan(run, steps, i - 1, r);
    } else {
      ReadEnded(run, steps, i - 1, r);
    }
  }

  /**
   * A finished read_dir (scope None) or single-name resolve (scope Some) answers, for every
   * name in its scope, what the merged view held at some instant between its LIST and its
   * index load -- whatever was emitted, folded, removed or vanished meanwhile.
   */
  lemma ReadIsLinearizable(run: seq<State>, steps: seq<Step>, i: nat, r: Pid, n: Name)
    requires IsRun(run, steps) && i < |run| && r in run[i].procs && run[i].procs[r].ReadDone?
    requires InRange(run[i].procs[r].scope, n)
    ensures var c := run[i].procs[r];
      && 0 < c.start < c.finish <= i
      && steps[c.start - 1] == ReadListStep(r, c.scope) && steps[c.finish - 1] == ReadIndexStep(r)
      && exists t :: c.start <= t <= c.finish && Visible(run[t].store, n) == Get(c.view, n)
  {
    RunKeeps(run, steps, i);
    RunReads(run, steps, r);
    LinkedReadIsLinearizable(run, steps, i, r, n);
  }

  lemma LinkedReadIsLinearizable(run: seq<State>, steps: seq<Step>, i: nat, r: Pid, n: Name)
    requires ReadLinks(run, steps, r) && i < |run| && Inv(run[i])
    requires r in run[i].procs && run[i].procs[r].ReadDone? && InRange(run[i].procs[r].scope, n)
    ensures var c := run[i].procs[r];
      && 0 < c.start < c.finish <= i
      && steps[c.start - 1] == ReadListStep(r, c.scope) && steps[c.finish - 1] == ReadIndexStep(r)
      && exists t :: c.start <= t <= c.finish && Visible(run[t].store, n) == Get(c.view, n)
  {
    var c := run[i].procs[r];
    LogIsRun(run, steps, r, i);
    ReadEnded(run, steps, i, r);
    assert ProcessOk(run[i], c);
    var t :| c.start <= t < c.finish + 1 && Visible(run[i].log[..c.finish + 1][t], n) == Get(c.view, n);
    assert run[i].log[..c.finish + 1][t] == run[t].store;
  }

  /** The listing of a store nobody else touches: every body asked for is there. */
  ghost function Undisturbed(st: Store, scope: Option<Name>): Listing {
    Listing(InScope(st.scatters, scope), InScope(st.scatters, scope), {})
  }

  /** At rest, the single-name resolve, read_dir and the merged view agree. */
  lemma FastPathAgrees(st: Store, n: Name)
    requires Ranked(st.scatters)
    ensures Get(Overlaid(st.index, Undisturbed(st, Some(n)), Some(n)), n) == Visible(st, n)
    ensures Get(Overlaid(st.index, Undisturbed(st, None), None), n) == Visible(st, n)
  {
    forall scope: Option<Name> | scope == None || scope == Some(n)
      ensures Get(Overlaid(st.index, Undisturbed(st, scope), scope), n) == Visible(st, n)
    {
      var got := Undisturbed(st, scope);
      OverlaidGet(st.index, got, scope, n);
      if Pending(st.scatters, n) {
        var x := LatestOf(st.scatters, n);
        assert Applied(got, scope, x);
        assert Change(got, scope, n) == x;
      }
    }
  }

  // ----- where the order of removal and the timing of a tombstone matter -----

  /** Some scatter of the name outranks `x`. */
  ghost predicate Superseded(st: Store, x: Scatter) {
    exists y :: y in st.scatters && y.name == x.name && x.stamp < y.stamp
  }

  /**
   * Removing a scatter, in any order, leaves the merged view alone exactly when it is
   * superseded, or what lies right beneath it (an older scatter, else the index) has its effect.
   */
  lemma RemovalStuttersIff(st: Store, x: Scatter)
    requires Ranked(st.scatters) && x in st.scatters
    ensures (forall n :: Visible(st.(scatters := st.scatters - {x}), n) == Visible(st, n)) <==>
      || Superseded(st, x)
      || (exists d :: Adjacent(st.scatters, d, x) && Effect(d) == Effect(x))
      || (IsOldest(st.scatters, x) && Get(st.index, x.name) == Effect(x))
  {
    var after := st.(scatters := st.scatters - {x});
    forall n | n != x.name ensures Visible(after, n) == Visible(st, n) {
      RemovalElsewhere(st, x, n);
    }
    if Superseded(st, x) {
      var y := LatestOf(st.scatters, x.name);
      assert IsLatest(after.scatters, x.name, y);
      VisibleOfLatest(st, y);
      VisibleOfLatest(after, y);
    } else {
      assert IsLatest(st.scatters, x.name, x);
      VisibleOfLatest(st, x);
      if Pending(after.scatters, x.name) {
        var d := LatestOf(after.scatters, x.name);
        assert Adjacent(st.scatters, d, x);
        VisibleOfLatest(after, d);
        assert forall e :: Adjacent(st.scatters, e, x) ==> e == d;
      }
    }
  }

  lemma RemovalElsewhere(st: Store, x: Scatter, n: Name)
    requires Ranked(st.scatters) && x in st.scatters && n != x.name
    ensures Visible(st.(scatters := st.scatters - {x}), n) == Visible(st, n)
  {
    var after := st.(scatters := st.scatters - {x});
    if Pending(st.scatters, n) {
      var y := LatestOf(st.scatters, n);
      assert IsLatest(after.scatters, n, y);
      VisibleOfLatest(st, y);
      VisibleOfLatest(after, y);
    } else {
      assert !Pending(after.scatters, n);
    }
  }

  /** Newest first is wrong: a folded update removed before the create it replaced brings that back. */
  lemma NewestFirstRegresses(n: Name, before: Entry, after: Entry)
    requires before != after
    ensures var c, u := Scatter(n, 0, Create, before), Scatter(n, 1, Update, after);
      var st := Store(1, map[n := after], {c, u});
      && Visible(st, n) == Some(after)
      && Visible(st.(scatters := st.scatters - {u}), n) == Some(before)
      && Visible(st.(scatters := st.scatters - {c}), n) == Some(after)
  {
    var c, u := Scatter(n, 0, Create, before), Scatter(n, 1, Update, after);
    var st := Store(1, map[n := after], {c, u});
    VisibleOfLatest(st, u);
    VisibleOfLatest(st.(scatters := st.scatters - {u}), c);
    VisibleOfLatest(st.(scatters := st.scatters - {c}), u);
  }

  /**
   * The fold guard of fs_gc alone does not prevent a resurrection. The name is folded out of
   * the index; a handle still open on the child announces an update `e`; phase 2 then writes
   * the tombstone over it. The guard passes, and removing the tombstone shows the child.
   */
  lemma GuardAloneResurrects(version: nat, index: map<Name, Entry>, n: Name, e: Entry, stamp: nat)
    requires n !in index
    ensures var u, d := Scatter(n, stamp, Update, e), Scatter(n, stamp + 1, Delete, e);
      var st := Store(version, index, {u, d});
      && (n in st.index ==> st.index[n].uuid != d.entry.uuid) && Visible(st, n) == None
      && Visible(st.(scatters := st.scatters - {d}), n) == Some(e)
  {
    var u, d := Scatter(n, stamp, Update, e), Scatter(n, stamp + 1, Delete, e);
    var st := Store(version, index, {u, d});
    VisibleOfLatest(st, d);
    VisibleOfLatest(st.(scatters := st.scatters - {d}), u);
  }

  /** A phase-2 tombstone is invisible exactly when its name shows nothing as it lands. */
  lemma TombstoneStuttersIff(s: State, s': State, x: Scatter)
    requires Inv(s) && Fresh(s, x) && x.op.Delete?
    requires s'.store == s.store.(scatters := s.store.scatters + {x})
    ensures (forall n :: Visible(s'.store, n) == Visible(s.store, n)) <==> Visible(s.store, x.name) == None
  {
    assert IsLatest(s'.store.scatters, x.name, x);
    assert Ranked(s'.store.scatters);
    VisibleOfLatest(s'.store, x);
    forall n | n != x.name ensures Visible(s'.store, n) == Visible(s.store, n) {
      assert s'.store.scatters - {x} == s.store.scatters;
      assert s'.store.(scatters := s'.store.scatters - {x}) == s.store;
      RemovalElsewhere(s'.store, x, n);
    }
  }

  // ----- decrements happen once per committed removal -----

  ghost predicate DebtsOk(s: State) {
    && (forall f :: f in s.dropped ==> f.version <= s.store.version)
    && s.decremented.Keys <= s.dropped.Keys
    && (forall p, f :: p in s.procs && s.procs[p].Flushed? && f in s.procs[p].owed ==>
          f in s.dropped && f !in s.decremented)
    && (forall p, q, f :: p in s.procs && q in s.procs && s.procs[p].Flushed? && s.procs[q].Flushed? ==>
          f in s.procs[p].owed && f in s.procs[q].owed ==> p == q)
  }

  /** A step that commits no removal, issues no decrement and gives no process a new debt. */
  ghost predicate DebtFree(s: State, s': State) {
    && s'.dropped == s.dropped && s'.decremented == s.decremented && s.store.version <= s'.store.version
    && forall p :: p in s'.procs && s'.procs[p].Flushed? ==>
         p in s.procs && s.procs[p].Flushed? && s'.procs[p].owed.Keys <= s.procs[p].owed.Keys
         && forall f :: f in s'.procs[p].owed ==> s'.procs[p].owed[f].uuid == s.procs[p].owed[f].uuid
  }

  lemma MostStepsAreDebtFree(s: State, s': State, step: Step)
    requires Next(s, s', step) && !step.DecrementStep?
    requires step.FlushStep? ==> s.procs[step.p].version != s.store.version
    ensures DebtFree(s, s')
  {
  }

  lemma DebtsMirrorDrops(version: nat, base: map<Name, Entry>, got: Listing)
    ensures DebtsOf(version, base, got).Keys == DropsOf(version, base, got).Keys
    ensures forall f :: f in DebtsOf(version, base, got) ==> f.version == version
  {
  }

  lemma DebtsFlush(s: State, s': State, p: Pid)
    requires DebtsOk(s) && FlushedBy(s, s', p)
    ensures DebtsOk(s')
  {
    var c, v := s.procs[p], s.procs[p].version + 1;
    DebtsMirrorDrops(v, c.base, c.got);
    assert s'.procs[p].owed.Keys <= s'.dropped.Keys;
    forall q, f | q in s'.procs && s'.procs[q].Flushed? && f in s'.procs[q].owed
      ensures f in s'.dropped && f !in s'.decremented && (q == p <==> f.version == v)
    {
    }
  }

  lemma DebtsStep(s: State, s': State, step: Step)
    requires Inv(s) && DebtsOk(s) && Next(s, s', step)
    ensures DebtsOk(s')
  {
    if step.FlushStep? && s.procs[step.p].version == s.store.version {
      DebtsFlush(s, s', step.p);
    } else if !step.DecrementStep? {
      MostStepsAreDebtFree(s, s', step);
    }
  }

  lemma {:induction false} DebtsRun(run: seq<State>, steps: seq<Step>, i: nat)
    requires IsRun(run, steps) && i < |run|
    ensures DebtsOk(run[i])
  {
    if i > 0 {
      RunKeeps(run, steps, i - 1);
      DebtsRun(run, steps, i - 1);
      DebtsStep(run[i - 1], run[i], steps[i - 1]);
    }
  }

  /** A flush records exactly the names its commit takes out of the index, with their children. */
  lemma DroppedMeansRemoved(s: State, s': State, p: Pid, n: Name)
    requires Commits(s, s', p)
    ensures Fold(s'.store.version, n) in s'.dropped && Fold(s'.store.version, n) !in s.dropped ==>
      n in s.store.index && n !in s'.store.index && s'.dropped[Fold(s'.store.version, n)] == s.store.index[n].uuid
    ensures n in s.store.index && n !in s'.store.index ==> Fold(s'.store.version, n) in s'.dropped
    ensures Fold(s'.store.version, n) in s'.procs[p].owed <==> n in s.store.index && n !in s'.store.index
  {
    RemovedIff(s, s', p, n);
    RecordedIff(s'.store.version, s.store.index, s.procs[p].got, n);
  }

  /** The names a fold records are those it removes. */
  lemma RecordedIff(version: nat, base: map<Name, Entry>, got: Listing, n: Name)
    ensures Fold(version, n) in DebtsOf(version, base, got) <==> Removes(base, got, n)
    ensures Get(DropsOf(version, base, got), Fold(version, n)) ==
      if Removes(base, got, n) then Some(base[n].uuid) else None
  {
  }

  lemma RemovedIff(s: State, s': State, p: Pid, n: Name)
    requires Commits(s, s', p)
    ensures s.procs[p].base == s.store.index
    ensures Removes(s.store.index, s.procs[p].got, n) <==> n in s.store.index && n !in s'.store.index
  {
    FlushAt(s, s', p, n);
  }

  /** Every delete marker a flush folds carries the uuid its name then maps to. */
  ghost predicate MarkersMatch(s: State, step: Step) {
    step.FlushStep? && step.p in s.procs && s.procs[step.p].Folding? ==>
      var c := s.procs[step.p];
      forall n :: Removes(c.base, c.got, n) ==> Change(c.got, None, n).entry.uuid == c.base[n].uuid
  }

  /** No process is stopped while it still owes a decrement. */
  ghost predicate Lossless(s: State, step: Step) {
    step.StopStep? && step.p in s.procs && s.procs[step.p].Flushed? ==> s.procs[step.p].owed == map[]
  }

  ghost predicate Owed(s: State, f: Fold) {
    exists p :: p in s.procs && s.procs[p].Flushed? && f in s.procs[p].owed
  }

  ghost predicate Matching(run: seq<State>, steps: seq<Step>) {
    forall j :: 0 <= j < |steps| && j < |run| ==> MarkersMatch(run[j], steps[j])
  }

  ghost predicate LosslessRun(run: seq<State>, steps: seq<Step>) {
    forall j :: 0 <= j < |steps| && j < |run| ==> Lossless(run[j], steps[j])
  }

  ghost predicate UuidsAgree(s: State) {
    && (forall f :: f in s.decremented && f in s.dropped ==> s.decremented[f] == s.dropped[f])
    && (forall p, f :: p in s.procs && s.procs[p].Flushed? && f in s.procs[p].owed && f in s.dropped ==>
          s.procs[p].owed[f].uuid == s.dropped[f])
  }

  lemma UuidsFlush(s: State, s': State, p: Pid)
    requires DebtsOk(s) && UuidsAgree(s) && FlushedBy(s, s', p) && MarkersMatch(s, FlushStep(p))
    ensures UuidsAgree(s')
  {
    var c := s.procs[p];
    forall f | f in s'.procs[p].owed ensures s'.procs[p].owed[f].uuid == s'.dropped[f] {
      assert Removes(c.base, c.got, f.name);
    }
    forall f | f in s.dropped ensures f in s'.dropped && s'.dropped[f] == s.dropped[f] {
      assert f.version != s'.store.version;
    }
  }

  lemma UuidsStep(s: State, s': State, step: Step)
    requires Inv(s) && DebtsOk(s) && UuidsAgree(s) && Next(s, s', step) && MarkersMatch(s, step)
    ensures UuidsAgree(s')
  {
    if step.FlushStep? && s.procs[step.p].version == s.store.version {
      UuidsFlush(s, s', step.p);
    } else if !step.DecrementStep? {
      MostStepsAreDebtFree(s, s', step);
    }
  }

  lemma {:induction false} UuidsRun(run: seq<State>, steps: seq<Step>, i: nat)
    requires IsRun(run, steps) && i < |run|
    requires Matching(run, steps)
    ensures UuidsAgree(run[i])
  {
    if i > 0 {
      RunKeeps(run, steps, i - 1);
      DebtsRun(run, steps, i - 1);
      UuidsRun(run, steps, i - 1);
      UuidsStep(run[i - 1], run[i], steps[i - 1]);
    }
  }

  /** A recorded removal is owed when committed, and stays owed until it is paid. */
  lemma DebtStays(s: State, s': State, step: Step, f: Fold)
    requires Next(s, s', step) && Lossless(s, step) && Accounted(s, f)
    ensures Accounted(s', f)
  {
    if f in s'.dropped && f !in s.dropped {
      assert step.FlushStep?;
      DebtsMirrorDrops(s.procs[step.p].version + 1, s.procs[step.p].base, s.procs[step.p].got);
      assert f in s'.procs[step.p].owed;
    } else if f in s.dropped && f !in s.decremented {
      var p :| p in s.procs && s.procs[p].Flushed? && f in s.procs[p].owed;
      OwedStays(s, s', step, p, f);
    }
  }

  lemma OwedStays(s: State, s': State, step: Step, p: Pid, f: Fold)
    requires Next(s, s', step) && Lossless(s, step) && p in s.procs && s.procs[p].Flushed? && f in s.procs[p].owed
    ensures f in s'.decremented || (p in s'.procs && s'.procs[p].Flushed? && f in s'.procs[p].owed)
  {
  }

  ghost predicate Accounted(s: State, f: Fold) {
    f in s.dropped ==> f in s.decremented || Owed(s, f)
  }

  lemma {:induction false} DebtsComplete(run: seq<State>, steps: seq<Step>, i: nat, f: Fold)
    requires IsRun(run, steps) && i < |run| && LosslessRun(run, steps)
    ensures Accounted(run[i], f)
  {
    if i > 0 {
      DebtsComplete(run, steps, i - 1, f);
      DebtStays(run[i - 1], run[i], steps[i - 1], f);
    }
  }

  ghost function Count(m: map<Fold, Uuid>, u: Uuid): nat {
    |set f | f in m && m[f] == u|
  }

  /**
   * Exactly-once decrements: a decrement always answers its own committed removal; a child is
   * never decremented more often than it was removed; and without lost work, as often.
   */
  lemma DecrementsAreExactlyOnce(run: seq<State>, steps: seq<Step>, i: nat, u: Uuid)
    requires IsRun(run, steps) && i < |run|
    ensures run[i].decremented.Keys <= run[i].dropped.Keys
    ensures Matching(run, steps) ==>
      Count(run[i].decremented, u) <= Count(run[i].dropped, u)
    ensures Matching(run, steps) && LosslessRun(run, steps) ==>
      (forall f :: !Owed(run[i], f)) ==>
      Count(run[i].decremented, u) == Count(run[i].dropped, u)
  {
    DebtsRun(run, steps, i);
    if Matching(run, steps) {
      UuidsRun(run, steps, i);
      var a := set f | f in run[i].decremented && run[i].decremented[f] == u;
      var b := set f | f in run[i].dropped && run[i].dropped[f] == u;
      assert a <= b;
      SubsetCount(a, b);
      if LosslessRun(run, steps) && (forall f :: !Owed(run[i], f)) {
        forall f | f in b ensures f in a {
          DebtsComplete(run, steps, i, f);
        }
        assert a == b;
      }
    }
  }
}
