/** Where the scatter protocol's assumptions matter: exact conditions, and runs that break without them. */
module ScatterLimits {
  import opened Names
  import opened ScatterStore
  import opened ScatterProtocol
  import opened ScatterInvariant
  import opened ScatterTheorems

  // ----- direct edits under pending scatters -----

  /** An edit shows if and only if it lands; otherwise the name goes on showing what it did. */
  lemma EditShowsIff(st: Store, edits: map<Name, Option<Entry>>, n: Name)
    requires n in edits
    ensures Visible(EditedStore(st, edits), n) == edits[n] <==> Lands(st, n, edits[n])
    ensures !Lands(st, n, edits[n]) ==> Visible(EditedStore(st, edits), n) == Visible(st, n)
  {
  }

  /** The same compactor, some GETs later. */
  ghost predicate Fetched(s: State, s': State, p: Pid) {
    && p in s.procs && s.procs[p].Folding? && p in s'.procs && s'.procs[p].Folding?
    && s'.store == s.store
    && s'.procs[p].version == s.procs[p].version && s'.procs[p].base == s.procs[p].base
    && s'.procs[p].got.listed == s.procs[p].got.listed
  }

  /**
   * A hard link or rename onto a name with a kept tombstone commits and is not seen, and the
   * next compaction, folding the tombstone again, takes the entry out of the index and charges
   * the child the tombstone names. `s1` to `s5` are the store edited, a compactor's reload,
   * its LIST, its GETs and its flush.
   */
  lemma TombstoneUndoesEdit(st: Store, d: Scatter, e: Entry, s1: State, s2: State, s3: State, s4: State, s5: State, p: Pid)
    requires Ranked(st.scatters) && IsLatest(st.scatters, d.name, d) && d.op.Delete?
    requires s1.store == EditedStore(st, map[d.name := Some(e)])
    requires Reload(s1, s2, p) && List(s2, s3, p) && Fetched(s3, s4, p) && Flush(s4, s5, p)
    ensures Get(s1.store.index, d.name) == Some(e) && Visible(s1.store, d.name) == None
    ensures d.name !in s5.store.index
    ensures p in s5.procs && s5.procs[p].Flushed?
    ensures Get(s5.procs[p].owed, Fold(s5.store.version, d.name)) == Some(Debt(d.entry.uuid, false))
  {
    EditIsHidden(st, d, e);
    ListedCopy(s1, s2, s3, p);
    FlushTakesOut(s4, s5, p, d);
  }

  lemma EditIsHidden(st: Store, d: Scatter, e: Entry)
    requires Ranked(st.scatters) && IsLatest(st.scatters, d.name, d) && d.op.Delete?
    ensures var after := EditedStore(st, map[d.name := Some(e)]);
      Get(after.index, d.name) == Some(e) && Visible(after, d.name) == None
  {
    VisibleOfLatest(EditedStore(st, map[d.name := Some(e)]), d);
  }

  lemma ListedCopy(s1: State, s2: State, s3: State, p: Pid)
    requires Reload(s1, s2, p) && List(s2, s3, p)
    ensures s3.store == s1.store && p in s3.procs
    ensures s3.procs[p] == Folding(s1.store.version, s1.store.index, Listing(s1.store.scatters, {}, {}))
  {
  }

  /** Folding a latest Delete takes its name out, if it is there, and charges the child it names. */
  lemma FlushTakesOut(s: State, s': State, p: Pid, d: Scatter)
    requires FlushedBy(s, s', p) && d.op.Delete? && d.name in s.procs[p].base
    requires Ranked(s.procs[p].got.listed) && IsLatest(s.procs[p].got.listed, d.name, d)
    ensures d.name !in s'.store.index
    ensures Get(s'.procs[p].owed, Fold(s'.store.version, d.name)) == Some(Debt(d.entry.uuid, false))
  {
    var n, c := d.name, s.procs[p];
    assert Applied(c.got, None, d);
    assert Change(c.got, None, n) == d;
    OverlaidGet(c.base, c.got, None, n);
    assert Removes(c.base, c.got, n);
  }

  // ----- emissions out of rank -----

  /** A scatter shows as it lands if and only if none pending outranks it, or the latest says the same. */
  lemma EmissionShowsIff(st: Store, x: Scatter)
    requires Ranked(st.scatters + {x}) && x !in st.scatters
    ensures Visible(st.(scatters := st.scatters + {x}), x.name) == Effect(x) <==>
      !Superseded(st, x) || Effect(LatestOf(st.scatters, x.name)) == Effect(x)
  {
    var after := st.(scatters := st.scatters + {x});
    if Superseded(st, x) {
      var y := LatestOf(st.scatters, x.name);
      assert IsLatest(after.scatters, x.name, y);
      VisibleOfLatest(after, y);
    } else {
      assert IsLatest(after.scatters, x.name, x);
      VisibleOfLatest(after, x);
    }
  }

  // ----- whose link a fold charges -----

  /** A flush charges every child it removes, and no other, if and only if each marker carries the removed uuid. */
  lemma DebtsMatchIff(version: nat, base: map<Name, Entry>, got: Listing)
    ensures DebtsOf(version, base, got).Keys == DropsOf(version, base, got).Keys
    ensures (forall f :: f in DebtsOf(version, base, got) ==>
               DebtsOf(version, base, got)[f].uuid == DropsOf(version, base, got)[f])
      <==> (forall n :: Removes(base, got, n) ==> Change(got, None, n).entry.uuid == base[n].uuid)
  {
    var debts, drops := DebtsOf(version, base, got), DropsOf(version, base, got);
    DebtsMirrorDrops(version, base, got);
    if forall f :: f in debts ==> debts[f].uuid == drops[f] {
      forall n | Removes(base, got, n) ensures Change(got, None, n).entry.uuid == base[n].uuid {
        assert Fold(version, n) in debts;
      }
    }
  }

  /** An emitted marker names the child its name then shows, or a name that shows nothing. */
  ghost predicate StepFits(s: State, step: Step) {
    step.EmitStep? && Effect(step.x).None? ==> MarkerFits(s.store, step.x)
  }

  ghost predicate FittingRun(run: seq<State>, steps: seq<Step>) {
    IsRun(run, steps) && forall j :: 0 <= j < |steps| ==> StepFits(run[j], steps[j])
  }

  lemma Extend(run: seq<State>, steps: seq<Step>, s: State, step: Step)
    requires FittingRun(run, steps) && Next(run[|run| - 1], s, step) && StepFits(run[|run| - 1], step)
    ensures FittingRun(run + [s], steps + [step])
  {
    var r, t := run + [s], steps + [step];
    forall i | 0 <= i < |t| ensures Next(r[i], r[i + 1], t[i]) && StepFits(r[i], t[i]) {
      if i < |steps| {
        assert r[i] == run[i] && r[i + 1] == run[i + 1] && t[i] == steps[i];
      }
    }
  }

  // A name is unlinked, created anew and unlinked again before one compaction.

  function First(n: Name, a: Entry): Scatter { Scatter(n, 0, PreDelete, a) }
  function Again(n: Name, b: Entry): Scatter { Scatter(n, 1, Create, b) }
  function Second(n: Name, b: Entry): Scatter { Scatter(n, 2, PreDelete, b) }

  function All(n: Name, a: Entry, b: Entry): set<Scatter> {
    {First(n, a), Again(n, b), Second(n, b)}
  }

  /** What folding the three amounts to: the name goes, `a` is dropped, `b` is charged. */
  lemma RecreatedFold(n: Name, a: Entry, b: Entry)
    ensures var got := Listing(All(n, a, b), {Second(n, b)}, {});
      && Complete(got, None) && Stripped(got) == All(n, a, b)
      && Overlaid(map[n := a], got, None) == map[]
      && DebtsOf(1, map[n := a], got) == map[Fold(1, n) := Debt(b.uuid, true)]
      && DropsOf(1, map[n := a], got) == map[Fold(1, n) := a.uuid]
  {
    var got := Listing(All(n, a, b), {Second(n, b)}, {});
    var base := map[n := a];
    assert Applied(got, None, Second(n, b));
    assert Change(got, None, n) == Second(n, b);
    assert Removes(base, got, n);
    forall m ensures m !in Overlaid(base, got, None) { OverlaidGet(base, got, None, m); }
    DebtsMirrorDrops(1, base, got);
    assert Fold(1, n) in DebtsOf(1, base, got) && Fold(1, n) in DropsOf(1, base, got);
    assert forall f :: f in DebtsOf(1, base, got) ==> f == Fold(1, n);
  }

  /** Three emissions. */
  lemma RecreatedEmitted(n: Name, a: Entry, b: Entry) returns (run: seq<State>, steps: seq<Step>)
    ensures FittingRun(run, steps)
    ensures var s := run[|run| - 1];
      && s.store == Store(0, map[n := a], All(n, a, b)) && s.history == All(n, a, b) && s.folded == map[]
      && s.procs == map[] && s.dropped == map[] && s.decremented == map[]
  {
    var st := Store(0, map[n := a], {});
    var s := State(st, {}, map[], [st], map[], map[], map[]);
    run, steps := [s], [];
    run, steps, s := Emitting(run, steps, First(n, a));
    run, steps, s := Emitting(run, steps, Again(n, b));
    assert IsLatest(s.store.scatters, n, Again(n, b));
    VisibleOfLatest(s.store, Again(n, b));
    run, steps, s := Emitting(run, steps, Second(n, b));
    assert s.store.scatters == All(n, a, b) && s.history == All(n, a, b);
  }

  /** And a compactor that has listed them and fetched the last body. */
  lemma RecreatedListed(n: Name, a: Entry, b: Entry) returns (run: seq<State>, steps: seq<Step>)
    ensures FittingRun(run, steps)
    ensures var s := run[|run| - 1];
      && s.store == Store(0, map[n := a], All(n, a, b)) && s.history == All(n, a, b) && s.folded == map[]
      && s.procs == map[0 := Folding(0, map[n := a], Listing(All(n, a, b), {Second(n, b)}, {}))]
      && s.dropped == map[] && s.decremented == map[]
  {
    run, steps := RecreatedEmitted(n, a, b);
    var s := run[|run| - 1];
    var s1 := s.(log := s.log + [s.store], procs := map[0 := Loaded(0, map[n := a])]);
    Extend(run, steps, s1, ReloadStep(0));
    run, steps := run + [s1], steps + [ReloadStep(0)];
    var s2 := s1.(log := s1.log + [s.store], procs := map[0 := Folding(0, map[n := a], Listing(All(n, a, b), {}, {}))]);
    Extend(run, steps, s2, ListStep(0));
    run, steps := run + [s2], steps + [ListStep(0)];
    var got := Listing(All(n, a, b), {Second(n, b)}, {});
    assert AfterGet(s2.procs[0].got, s.store.scatters, Second(n, b)) == got;
    var s3 := s2.(log := s2.log + [s.store], procs := map[0 := Folding(0, map[n := a], got)]);
    assert Fetch(s2, s3, 0, Second(n, b));
    Extend(run, steps, s3, FetchStep(0, Second(n, b)));
    run, steps := run + [s3], steps + [FetchStep(0, Second(n, b))];
  }

  /** One emission that is no Delete, appended to a run. */
  lemma Emitting(run: seq<State>, steps: seq<Step>, x: Scatter) returns (r: seq<State>, t: seq<Step>, s': State)
    requires FittingRun(run, steps) && Fresh(run[|run| - 1], x) && !x.op.Delete? && StepFits(run[|run| - 1], EmitStep(x))
    ensures FittingRun(r, t) && s' == r[|r| - 1]
    ensures var s := run[|run| - 1];
      && s'.store == s.store.(scatters := s.store.scatters + {x}) && s'.history == s.history + {x}
      && s'.folded == s.folded && s'.procs == s.procs && s'.dropped == s.dropped && s'.decremented == s.decremented
  {
    var s := run[|run| - 1];
    var store := s.store.(scatters := s.store.scatters + {x});
    s' := s.(store := store, history := s.history + {x}, log := s.log + [store]);
    Extend(run, steps, s', EmitStep(x));
    r, t := run + [s'], steps + [EmitStep(x)];
  }

  /** The flush. */
  lemma RecreatedFlush(n: Name, a: Entry, b: Entry) returns (run: seq<State>, steps: seq<Step>)
    ensures FittingRun(run, steps)
    ensures var s := run[|run| - 1];
      && s.store == Store(1, map[], All(n, a, b)) && s.history == All(n, a, b)
      && s.procs == map[0 := Flushed(All(n, a, b), map[Fold(1, n) := Debt(b.uuid, true)])]
      && s.dropped == map[Fold(1, n) := a.uuid] && s.decremented == map[]
  {
    run, steps := RecreatedListed(n, a, b);
    var s := run[|run| - 1];
    var s1 := RecreatedFlushStep(n, a, b, s);
    Extend(run, steps, s1, FlushStep(0));
    run, steps := run + [s1], steps + [FlushStep(0)];
  }

  lemma RecreatedFlushStep(n: Name, a: Entry, b: Entry, s: State) returns (s': State)
    requires s.store == Store(0, map[n := a], All(n, a, b)) && s.dropped == map[]
    requires s.procs == map[0 := Folding(0, map[n := a], Listing(All(n, a, b), {Second(n, b)}, {}))]
    ensures Flush(s, s', 0) && s' == AfterFlush(s, 0)
    ensures s'.store == Store(1, map[], All(n, a, b)) && s'.history == s.history && s'.decremented == s.decremented
    ensures s'.procs == map[0 := Flushed(All(n, a, b), map[Fold(1, n) := Debt(b.uuid, true)])]
    ensures s'.dropped == map[Fold(1, n) := a.uuid]
  {
    RecreatedFold(n, a, b);
    s' := AfterFlush(s, 0);
    assert First(n, a) in s.procs[0].got.listed;
    Overwritten(s.procs, s.procs[0], s'.procs[0]);
    EmptyPlus(DropsOf(1, map[n := a], s.procs[0].got));
  }

  lemma Overwritten(m: map<Pid, Process>, c: Process, d: Process)
    requires m == map[0 := c]
    ensures m[0 := d] == map[0 := d]
  {
  }

  lemma EmptyPlus(m: map<Fold, Uuid>)
    ensures map[] + m == m
  {
  }

  /** And the removal of all it folded, oldest first. */
  lemma RecreatedFlushed(n: Name, a: Entry, b: Entry) returns (run: seq<State>, steps: seq<Step>)
    ensures FittingRun(run, steps)
    ensures var s := run[|run| - 1];
      && s.store == Store(1, map[], {}) && s.history == All(n, a, b)
      && s.procs == map[0 := Flushed(All(n, a, b), map[Fold(1, n) := Debt(b.uuid, true)])]
      && s.dropped == map[Fold(1, n) := a.uuid] && s.decremented == map[]
  {
    run, steps := RecreatedFlush(n, a, b);
    run, steps := Removing(run, steps, First(n, a));
    assert run[|run| - 1].store.scatters == {Again(n, b), Second(n, b)};
    run, steps := Removing(run, steps, Again(n, b));
    assert run[|run| - 1].store.scatters == {Second(n, b)};
    run, steps := Removing(run, steps, Second(n, b));
    assert run[|run| - 1].store.scatters == {};
  }

  lemma Removing(run: seq<State>, steps: seq<Step>, x: Scatter) returns (r: seq<State>, t: seq<Step>)
    requires FittingRun(run, steps) && 0 in run[|run| - 1].procs && run[|run| - 1].procs[0].Flushed?
    requires x in run[|run| - 1].procs[0].drop && IsOldest(run[|run| - 1].store.scatters, x)
    ensures FittingRun(r, t)
    ensures var s, s' := run[|run| - 1], r[|r| - 1];
      && s'.store == s.store.(scatters := s.store.scatters - {x}) && s'.history == s.history
      && s'.procs == s.procs && s'.dropped == s.dropped && s'.decremented == s.decremented
  {
    var s := run[|run| - 1];
    var store := s.store.(scatters := s.store.scatters - {x});
    var s' := s.(store := store, log := s.log + [store]);
    Extend(run, steps, s', RemoveStep(0, x));
    r, t := run + [s'], steps + [RemoveStep(0, x)];
  }

  /**
   * A run of the code, every marker naming the child its name then shows: the child that was
   * in the index is removed and never charged, and the one that never was is charged.
   */
  lemma RecreatedChildIsCharged(n: Name, a: Entry, b: Entry) returns (run: seq<State>, steps: seq<Step>)
    requires a.uuid != b.uuid
    ensures IsRun(run, steps)
    ensures forall j :: 0 <= j < |steps| && steps[j].EmitStep? && Effect(steps[j].x).None? ==> MarkerFits(run[j].store, steps[j].x)
    ensures var s := run[|run| - 1];
      && Count(s.dropped, a.uuid) == 1 && Count(s.decremented, a.uuid) == 0
      && Count(s.dropped, b.uuid) == 0 && Count(s.decremented, b.uuid) == 1
  {
    run, steps := RecreatedFlushed(n, a, b);
    var s, f := run[|run| - 1], Fold(1, n);
    var x := Scatter(n, 3, Delete, b);
    var store := s.store.(scatters := s.store.scatters + {x});
    var s1 := s.(store := store, history := s.history + {x}, log := s.log + [store],
                 procs := map[0 := Flushed(All(n, a, b), map[f := Debt(b.uuid, false)])]);
    assert Visible(s.store, n) == None;
    assert s.procs[0].owed[f := Debt(b.uuid, false)] == map[f := Debt(b.uuid, false)];
    assert Tombstone(s, s1, 0, f, x);
    Extend(run, steps, s1, TombstoneStep(0, f, x));
    run, steps := run + [s1], steps + [TombstoneStep(0, f, x)];
    var s2 := s1.(procs := map[0 := Flushed(All(n, a, b), map[])], decremented := map[f := b.uuid], log := s1.log + [store]);
    assert s1.procs[0].owed - {f} == map[];
    assert Decrement(s1, s2, 0, f);
    Extend(run, steps, s2, DecrementStep(0, f));
    run, steps := run + [s2], steps + [DecrementStep(0, f)];
    OneCounted(f, a.uuid, b.uuid);
    OneCounted(f, b.uuid, a.uuid);
    forall j | 0 <= j < |steps| && steps[j].EmitStep? && Effect(steps[j].x).None? ensures MarkerFits(run[j].store, steps[j].x) {
      assert StepFits(run[j], steps[j]);
    }
  }

  lemma OneCounted(f: Fold, u: Uuid, w: Uuid)
    requires u != w
    ensures Count(map[f := u], u) == 1 && Count(map[f := u], w) == 0
  {
    var m := map[f := u];
    assert (set g | g in m && m[g] == u) == {f};
    assert (set g | g in m && m[g] == w) == {};
  }
}
