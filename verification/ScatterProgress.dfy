/** What a pass over one directory achieves when nobody gets in its way, from any state of any run. */
module ScatterProgress {
  import opened Names
  import opened Counting
  import opened ScatterStore
  import opened ScatterProtocol
  import opened ScatterInvariant
  import opened ScatterTheorems

  /** The step is process `p`'s own. */
  predicate Own(step: Step, p: Pid) {
    !step.EmitStep? && !step.EditStep? && step.p == p
  }

  /** `p` alone takes `s` to `t`. */
  ghost predicate Leads(s: State, t: State, p: Pid, steps: seq<Step>)
    decreases |steps|
  {
    if steps == [] then t == s
    else
      var m := |steps| - 1;
      Own(steps[m], p) && exists u :: Leads(s, u, p, steps[..m]) && Next(u, t, steps[m])
  }

  lemma OneMore(s: State, t: State, t': State, p: Pid, steps: seq<Step>, step: Step) returns (more: seq<Step>)
    requires Leads(s, t, p, steps) && Own(step, p) && Next(t, t', step)
    ensures Leads(s, t', p, more)
  {
    more := steps + [step];
    assert more[..|steps|] == steps;
  }

  lemma {:induction false} Joined(s: State, t: State, u: State, p: Pid, a: seq<Step>, b: seq<Step>) returns (all: seq<Step>)
    requires Leads(s, t, p, a) && Leads(t, u, p, b)
    ensures Leads(s, u, p, all)
    decreases |b|
  {
    if b == [] {
      all := a;
    } else {
      var m := |b| - 1;
      var v :| Leads(t, v, p, b[..m]) && Next(v, u, b[m]);
      all := Joined(s, t, v, p, a, b[..m]);
      all := OneMore(s, v, u, p, all, b[m]);
    }
  }

  lemma {:induction false} LeadsKeeps(s: State, t: State, p: Pid, steps: seq<Step>)
    requires Inv(s) && Leads(s, t, p, steps)
    ensures Inv(t)
    decreases |steps|
  {
    if steps != [] {
      var m := |steps| - 1;
      var u :| Leads(s, u, p, steps[..m]) && Next(u, t, steps[m]);
      LeadsKeeps(s, u, p, steps[..m]);
      StepKeeps(u, t, steps[m]);
    }
  }

  /** A run that reaches `s` goes on to `t`. */
  lemma {:induction false} LeadsIsRun(run: seq<State>, before: seq<Step>, t: State, p: Pid, steps: seq<Step>)
    returns (longer: seq<State>)
    requires IsRun(run, before) && Leads(run[|run| - 1], t, p, steps)
    ensures IsRun(longer, before + steps) && longer[|longer| - 1] == t && run <= longer
    decreases |steps|
  {
    if steps == [] {
      longer := run;
      assert before + steps == before;
    } else {
      var m := |steps| - 1;
      var u :| Leads(run[|run| - 1], u, p, steps[..m]) && Next(u, t, steps[m]);
      var most := LeadsIsRun(run, before, u, p, steps[..m]);
      GoesOn(most, before + steps[..m], t, steps[m]);
      longer := most + [t];
      assert before + steps[..m] + [steps[m]] == before + steps;
    }
  }

  lemma GoesOn(run: seq<State>, steps: seq<Step>, t: State, step: Step)
    requires IsRun(run, steps) && Next(run[|run| - 1], t, step)
    ensures IsRun(run + [t], steps + [step])
  {
    var r, all := run + [t], steps + [step];
    forall i | 0 <= i < |all| ensures Next(r[i], r[i + 1], all[i]) {
      if i < |steps| {
        assert r[i] == run[i] && r[i + 1] == run[i + 1] && all[i] == steps[i];
      }
    }
  }

  // ----- a compaction -----

  /** The bodies a compaction reads. */
  ghost function Needed(listed: set<Scatter>): set<Scatter> {
    set x | x in listed && IsLatest(listed, x.name, x) && NeedsBody(None, x)
  }

  /** `t` differs from `s` in what process `p` holds. */
  ghost predicate OnlyHolds(s: State, t: State, p: Pid, c: Process) {
    t == s.(log := t.log, procs := s.procs[p := c])
  }

  lemma {:induction false} FetchAll(s: State, p: Pid, some: set<Scatter>) returns (t: State, steps: seq<Step>)
    requires p in s.procs && s.procs[p].Folding? && s.procs[p].got == Listing(s.store.scatters, {}, {})
    requires some <= Needed(s.store.scatters)
    ensures Leads(s, t, p, steps)
    ensures OnlyHolds(s, t, p, Folding(s.procs[p].version, s.procs[p].base, Listing(s.store.scatters, some, {})))
    decreases some
  {
    if some == {} {
      t, steps := s, [];
    } else {
      var x :| x in some;
      var u, most := FetchAll(s, p, some - {x});
      var c := u.procs[p];
      var got := AfterGet(c.got, u.store.scatters, x);
      assert got.fetched == some;
      t := u.(log := u.log + [u.store], procs := u.procs[p := Folding(c.version, c.base, got)]);
      assert Fetch(u, t, p, x);
      steps := OneMore(s, u, t, p, most, FetchStep(p, x));
    }
  }

  /** Reload, list, fetch: everything pending is at hand. */
  lemma Gathers(s: State, p: Pid) returns (t: State, steps: seq<Step>)
    requires p !in s.procs
    ensures Leads(s, t, p, steps)
    ensures OnlyHolds(s, t, p, Folding(s.store.version, s.store.index, FullListing(s.store)))
  {
    var s1 := s.(log := s.log + [s.store], procs := s.procs[p := Loaded(s.store.version, s.store.index)]);
    var got := Listing(s.store.scatters, {}, {});
    var s2 := s1.(log := s1.log + [s.store], procs := s1.procs[p := Folding(s.store.version, s.store.index, got)]);
    assert Reload(s, s1, p) && List(s1, s2, p);
    assert Leads(s, s, p, []);
    steps := OneMore(s, s, s1, p, [], ReloadStep(p));
    steps := OneMore(s, s1, s2, p, steps, ListStep(p));
    var rest;
    t, rest := FetchAll(s2, p, Needed(s.store.scatters));
    steps := Joined(s, s2, t, p, steps, rest);
  }

  /** What the gathered listing says of a name is what its latest scatter does. */
  lemma GatheredAt(st: Store, scope: Option<Name>, got: Listing, n: Name)
    requires Ranked(st.scatters) && got.listed == InScope(st.scatters, scope) && (scope == None || scope == Some(n))
    requires forall x: Scatter :: IsLatest(got.listed, x.name, x) && NeedsBody(scope, x) ==> x in got.fetched
    ensures Touched(got, scope, n) <==> Pending(st.scatters, n)
    ensures Touched(got, scope, n) ==> Change(got, scope, n) == LatestOf(st.scatters, n)
    ensures OverlaidAt(st.index, got, scope, n) == Visible(st, n)
  {
    if Pending(st.scatters, n) {
      var x := LatestOf(st.scatters, n);
      assert IsLatest(got.listed, n, x);
      assert Applied(got, scope, x);
    }
  }

  /** The latest Delete of a name, kept until collected. */
  ghost predicate IsKept(st: Store, x: Scatter) {
    IsLatest(st.scatters, x.name, x) && x.op == Delete
  }

  /** What a name owes once its latest scatter has taken it out of the index. */
  ghost predicate Owes(st: Store, f: Fold, owed: map<Fold, Debt>) {
    && (f in owed <==> f.version == st.version + 1 && f.name in st.index && Visible(st, f.name) == None)
    && (f in owed ==> Pending(st.scatters, f.name) && owed[f] == DebtOf(LatestOf(st.scatters, f.name)))
  }

  function DebtOf(x: Scatter): Debt {
    Debt(x.entry.uuid, x.op == PreDelete)
  }

  /** A flush of all that is pending: the merged view, all but the kept tombstones to remove, and the debts. */
  ghost predicate Outcome(st: Store, index: map<Name, Entry>, drop: set<Scatter>, owed: map<Fold, Debt>) {
    && (forall n :: Get(index, n) == Visible(st, n))
    && (forall x :: x in drop <==> x in st.scatters && !IsKept(st, x))
    && forall f :: Owes(st, f, owed)
  }

  /** `t` is `s` after process `p` flushed `index`. */
  ghost predicate FlushedTo(s: State, t: State, p: Pid, index: map<Name, Entry>, c: Process) {
    && t.store == Store(s.store.version + 1, index, s.store.scatters)
    && t.history == s.history && t.decremented == s.decremented && t.procs == s.procs[p := c]
  }

  lemma FlushAll(s: State, p: Pid)
    returns (t: State, steps: seq<Step>, index: map<Name, Entry>, drop: set<Scatter>, owed: map<Fold, Debt>)
    requires Inv(s) && p !in s.procs && s.store.scatters != {}
    ensures Leads(s, t, p, steps) && FlushedTo(s, t, p, index, Flushed(drop, owed)) && Outcome(s.store, index, drop, owed)
  {
    var u, most := Gathers(s, p);
    var got, v := FullListing(s.store), s.store.version + 1;
    index, drop, owed := Overlaid(s.store.index, got, None), Stripped(got), DebtsOf(v, s.store.index, got);
    t := AfterFlush(u, p);
    FlushGoes(u, p);
    FlushFields(u, p, Folding(s.store.version, s.store.index, got), v);
    FlushedFrom(s, u, t, p, Folding(s.store.version, s.store.index, got), index, Flushed(drop, owed));
    steps := OneMore(s, u, t, p, most, FlushStep(p));
    OutcomeHolds(s.store, v);
  }

  /** Everything pending, with every body a compaction reads. */
  ghost function FullListing(st: Store): Listing {
    Listing(st.scatters, Needed(st.scatters), {})
  }

  lemma FlushFields(u: State, p: Pid, c: Process, v: nat)
    requires p in u.procs && u.procs[p] == c && c.Folding? && c.version == u.store.version && v == u.store.version + 1
    ensures FlushedTo(u, AfterFlush(u, p), p, Overlaid(c.base, c.got, None), Flushed(Stripped(c.got), DebtsOf(v, c.base, c.got)))
  {
    FlushStore(u, p);
    FlushProcess(u, p, v);
  }

  lemma FlushStore(u: State, p: Pid)
    requires p in u.procs && u.procs[p].Folding?
    ensures var c, t := u.procs[p], AfterFlush(u, p);
      && t.store == Store(c.version + 1, Overlaid(c.base, c.got, None), u.store.scatters)
      && t.history == u.history && t.decremented == u.decremented
  {
  }

  lemma FlushProcess(u: State, p: Pid, v: nat)
    requires p in u.procs && u.procs[p].Folding? && v == u.procs[p].version + 1
    ensures var c := u.procs[p]; AfterFlush(u, p).procs == u.procs[p := Flushed(Stripped(c.got), DebtsOf(v, c.base, c.got))]
  {
  }

  lemma FlushedFrom(s: State, u: State, t: State, p: Pid, c: Process, index: map<Name, Entry>, d: Process)
    requires OnlyHolds(s, u, p, c) && FlushedTo(u, t, p, index, d)
    ensures FlushedTo(s, t, p, index, d)
  {
    assert s.procs[p := c][p := d] == s.procs[p := d];
  }

  lemma OutcomeHolds(st: Store, v: nat)
    requires Ranked(st.scatters) && v == st.version + 1
    ensures var got := FullListing(st); Outcome(st, Overlaid(st.index, got, None), Stripped(got), DebtsOf(v, st.index, got))
  {
    var got := FullListing(st);
    var owed := DebtsOf(v, st.index, got);
    forall n ensures Get(Overlaid(st.index, got, None), n) == Visible(st, n) { GatheredShows(st, got, n); }
    forall f ensures Owes(st, f, owed) { GatheredOwes(st, got, v, f); }
    forall x ensures x in Stripped(got) <==> x in st.scatters && !IsKept(st, x) { StrippedIff(st, x); }
  }

  lemma StrippedIff(st: Store, x: Scatter)
    ensures x in Stripped(FullListing(st)) <==> x in st.scatters && !IsKept(st, x)
  {
  }

  lemma FlushGoes(u: State, p: Pid)
    requires p in u.procs && u.procs[p] == Folding(u.store.version, u.store.index, FullListing(u.store)) && u.store.scatters != {}
    ensures Next(u, AfterFlush(u, p), FlushStep(p))
  {
    assert Complete(FullListing(u.store), None);
    assert Flush(u, AfterFlush(u, p), p);
  }

  lemma GatheredShows(st: Store, got: Listing, n: Name)
    requires Ranked(st.scatters) && got == FullListing(st)
    ensures Get(Overlaid(st.index, got, None), n) == Visible(st, n)
  {
    assert InScope(st.scatters, None) == st.scatters;
    GatheredAt(st, None, got, n);
    OverlaidGet(st.index, got, None, n);
  }

  lemma GatheredOwes(st: Store, got: Listing, v: nat, f: Fold)
    requires Ranked(st.scatters) && got == FullListing(st) && v == st.version + 1
    ensures Owes(st, f, DebtsOf(v, st.index, got))
  {
    DebtsAt(v, st.index, got, f);
    GatheredRemoves(st, got, f.name);
  }

  lemma DebtsAt(v: nat, base: map<Name, Entry>, got: Listing, f: Fold)
    ensures f in DebtsOf(v, base, got) <==> f.version == v && Removes(base, got, f.name)
    ensures f in DebtsOf(v, base, got) ==> DebtsOf(v, base, got)[f] == DebtOf(Change(got, None, f.name))
  {
  }

  lemma GatheredRemoves(st: Store, got: Listing, n: Name)
    requires Ranked(st.scatters) && got == FullListing(st)
    ensures Removes(st.index, got, n) <==> n in st.index && Visible(st, n) == None
    ensures Removes(st.index, got, n) ==> Pending(st.scatters, n) && Change(got, None, n) == LatestOf(st.scatters, n)
  {
    assert InScope(st.scatters, None) == st.scatters;
    GatheredAt(st, None, got, n);
  }

  /**
   * The GET of a listed scatter decides its name for the pass: an object still there counts with
   * its effect, and one that has gone since leaves the name to the index the pass lays it over.
   */
  lemma GetDecides(s: State, s': State, step: Step, base: map<Name, Entry>)
    requires Inv(s) && Next(s, s', step) && (step.FetchStep? || step.ReadFetchStep?)
    ensures var scope := if step.FetchStep? then None else s.procs[step.p].scope;
      OverlaidAt(base, s'.procs[step.p].got, scope, step.x.name) ==
        if step.x in s.store.scatters then Effect(step.x) else Get(base, step.x.name)
  {
    var x, got := step.x, s'.procs[step.p].got;
    var scope := if step.FetchStep? then None else s.procs[step.p].scope;
    assert ProcessOk(s, s.procs[step.p]);
    assert IsLatest(got.listed, x.name, x) && Ranked(got.listed);
    assert x in s.store.scatters ==> Applied(got, scope, x);
    assert forall y: Scatter :: y.name == x.name && Applied(got, scope, y) ==> y == x;
  }

  // ----- removing what was folded -----

  ghost predicate DownClosed(scatters: set<Scatter>, gone: set<Scatter>) {
    gone <= scatters && forall x, k :: x in gone && k in scatters && k.name == x.name && k.stamp <= x.stamp ==> k in gone
  }

  /** Any set of folded scatters with all older ones of their names can be removed, oldest first. */
  lemma {:induction false} RemoveAll(s: State, p: Pid, gone: set<Scatter>) returns (t: State, steps: seq<Step>)
    requires p in s.procs && s.procs[p].Flushed? && gone <= s.procs[p].drop
    requires Ranked(s.store.scatters) && DownClosed(s.store.scatters, gone)
    ensures Leads(s, t, p, steps)
    ensures t == s.(log := t.log, store := s.store.(scatters := s.store.scatters - gone))
    decreases gone
  {
    if gone == {} {
      t, steps := s, [];
      assert s.store.scatters - gone == s.store.scatters;
    } else {
      var y :| y in gone;
      assert Pending(gone, y.name);
      var x := LatestOf(gone, y.name);
      var rest := gone - {x};
      assert DownClosed(s.store.scatters, rest) by {
        forall z, k | z in rest && k in s.store.scatters && k.name == z.name && k.stamp <= z.stamp ensures k in rest {
          assert k in gone;
          assert k == x ==> z.stamp == x.stamp;
        }
      }
      var u, most := RemoveAll(s, p, rest);
      assert u.store.scatters - {x} == s.store.scatters - gone;
      var store := u.store.(scatters := u.store.scatters - {x});
      t := u.(store := store, log := u.log + [store]);
      assert IsOldest(u.store.scatters, x) by {
        forall k | k in u.store.scatters && k.name == x.name ensures x.stamp <= k.stamp {
          assert k !in rest;
        }
      }
      assert Remove(u, t, p, x);
      steps := OneMore(s, u, t, p, most, RemoveStep(p, x));
    }
  }

  // ----- the second phase of a delete -----

  lemma FreshStamp(history: set<Scatter>) returns (stamp: nat)
    ensures forall k :: k in history ==> k.stamp < stamp
  {
    var stamps := set k | k in history :: k.stamp;
    stamp := FreshNat(stamps);
    assert forall k :: k in history ==> k.stamp in stamps;
  }

  ghost predicate Due(c: Process, f: Fold) {
    c.Flushed? && f in c.owed && c.owed[f].tombstoneDue
  }

  /** The debt's child has a tombstone under the debt's name. */
  ghost predicate Entombed(st: Store, owed: map<Fold, Debt>, f: Fold) {
    f in owed && exists x :: x in st.scatters && x.op == Delete && x.name == f.name && x.entry.uuid == owed[f].uuid
  }

  /** The debts once `some` of them have their tombstones. */
  ghost function Discharged(owed: map<Fold, Debt>, some: set<Fold>): map<Fold, Debt> {
    map f | f in owed :: if f in some then Debt(owed[f].uuid, false) else owed[f]
  }

  /** `t` is `s` after tombstones for `some` debts of `p`; the merged view is the same. */
  ghost predicate Buried(s: State, t: State, p: Pid, c: Process, some: set<Fold>) {
    && c.Flushed? && t.procs == s.procs[p := Flushed(c.drop, Discharged(c.owed, some))]
    && t.store == s.store.(scatters := t.store.scatters) && t.decremented == s.decremented
    && s.store.scatters <= t.store.scatters && s.history <= t.history
    && (forall x :: x in t.store.scatters && x !in s.store.scatters ==> x.op == Delete && x !in s.history)
    && (forall n :: Visible(t.store, n) == Visible(s.store, n))
    && forall f :: f in some ==> Entombed(t.store, c.owed, f)
  }

  lemma OneTombstone(s: State, p: Pid, f: Fold) returns (t: State, x: Scatter)
    requires Inv(s) && p in s.procs && Due(s.procs[p], f) && s.procs[p].drop !! s.store.scatters
    requires Visible(s.store, f.name) == None
    ensures Next(s, t, TombstoneStep(p, f, x)) && Inv(t)
    ensures x !in s.history && x.op == Delete
    ensures Buried(s, t, p, s.procs[p], {f}) && t.store.scatters == s.store.scatters + {x} && t.history == s.history + {x}
  {
    var c := s.procs[p];
    var stamp := FreshStamp(s.history);
    x := Scatter(f.name, stamp, Delete, Entry(0, c.owed[f].uuid, Text(f.name)));
    var procs := s.procs[p := c.(owed := c.owed[f := Debt(c.owed[f].uuid, false)])];
    var store := s.store.(scatters := s.store.scatters + {x});
    t := s.(store := store, history := s.history + {x}, procs := procs, log := s.log + [store]);
    assert Fresh(s, x) && Emitted(s, t, x, procs);
    StepKeeps(s, t, TombstoneStep(p, f, x));
    TombstoneStuttersIff(s, t, x);
    assert c.owed[f := Debt(c.owed[f].uuid, false)] == Discharged(c.owed, {f});
    assert x in t.store.scatters;
  }

  lemma BuryOneMore(s: State, u: State, t: State, p: Pid, c: Process, some: set<Fold>, f: Fold, x: Scatter)
    requires c.Flushed? && some <= c.owed.Keys && f in some && Buried(s, u, p, c, some - {f})
    requires Buried(u, t, p, u.procs[p], {f}) && t.store.scatters == u.store.scatters + {x} && x.op == Delete && x !in u.history
    ensures Buried(s, t, p, c, some)
  {
    var owed := u.procs[p].owed;
    assert Discharged(owed, {f}) == Discharged(c.owed, some);
    forall g | g in some ensures Entombed(t.store, c.owed, g) {
      if g == f {
        assert Entombed(t.store, owed, f);
        var y :| y in t.store.scatters && y.op == Delete && y.name == f.name && y.entry.uuid == owed[f].uuid;
      } else {
        assert Entombed(u.store, c.owed, g);
        var y :| y in u.store.scatters && y.op == Delete && y.name == g.name && y.entry.uuid == c.owed[g].uuid;
        assert y in t.store.scatters;
      }
    }
  }

  /** Tombstones of folded PreDeletes are written one by one. */
  lemma {:induction false} BuryAll(s: State, p: Pid, some: set<Fold>) returns (t: State, steps: seq<Step>)
    requires Inv(s) && p in s.procs && s.procs[p].Flushed? && s.procs[p].drop !! s.store.scatters
    requires forall f :: f in some ==> Due(s.procs[p], f) && Visible(s.store, f.name) == None
    ensures Leads(s, t, p, steps) && Inv(t) && Buried(s, t, p, s.procs[p], some)
    decreases some
  {
    var c := s.procs[p];
    if some == {} {
      t, steps := s, [];
      assert Discharged(c.owed, {}) == c.owed;
    } else {
      var f :| f in some;
      var u, most := BuryAll(s, p, some - {f});
      StillDue(s, u, p, c, some, f);
      var x;
      t, x := OneTombstone(u, p, f);
      BuryOneMore(s, u, t, p, c, some, f, x);
      steps := OneMore(s, u, t, p, most, TombstoneStep(p, f, x));
    }
  }

  lemma StillDue(s: State, u: State, p: Pid, c: Process, some: set<Fold>, f: Fold)
    requires Inv(s) && p in s.procs && s.procs[p] == c && c.Flushed? && Buried(s, u, p, c, some - {f})
    requires f in some && Due(c, f) && c.drop !! s.store.scatters
    ensures p in u.procs && Due(u.procs[p], f) && u.procs[p].drop == c.drop && c.drop !! u.store.scatters
  {
    assert ProcessOk(s, c);
    forall x | x in u.store.scatters ensures x !in c.drop {
    }
  }

  // ----- paying -----

  ghost function Charged(paid: map<Fold, Uuid>, owed: map<Fold, Debt>, some: set<Fold>): map<Fold, Uuid> {
    map f | f in paid.Keys + some && (f in some ==> f in owed) :: if f in some then owed[f].uuid else paid[f]
  }

  lemma OneCharge(paid: map<Fold, Uuid>, owed: map<Fold, Debt>, some: set<Fold>, f: Fold)
    requires f in some && some <= owed.Keys
    ensures owed - (some - {f}) - {f} == owed - some
    ensures Charged(paid, owed, some - {f})[f := owed[f].uuid] == Charged(paid, owed, some)
  {
  }

  lemma {:induction false} PayAll(s: State, p: Pid, some: set<Fold>) returns (t: State, steps: seq<Step>)
    requires p in s.procs && s.procs[p].Flushed? && some <= s.procs[p].owed.Keys
    requires forall f :: f in some ==> !s.procs[p].owed[f].tombstoneDue
    ensures Leads(s, t, p, steps) && t.store == s.store && t.history == s.history
    ensures t.procs == s.procs[p := Flushed(s.procs[p].drop, s.procs[p].owed - some)]
    ensures t.decremented == Charged(s.decremented, s.procs[p].owed, some)
    decreases some
  {
    var c := s.procs[p];
    if some == {} {
      t, steps := s, [];
      assert Charged(s.decremented, c.owed, {}) == s.decremented;
      assert c.owed - some == c.owed;
    } else {
      var f :| f in some;
      var u, most := PayAll(s, p, some - {f});
      OneCharge(s.decremented, c.owed, some, f);
      t := PayOne(u, p, f);
      steps := OneMore(s, u, t, p, most, DecrementStep(p, f));
    }
  }

  lemma PayOne(s: State, p: Pid, f: Fold) returns (t: State)
    requires p in s.procs && s.procs[p].Flushed? && f in s.procs[p].owed && !s.procs[p].owed[f].tombstoneDue
    ensures Next(s, t, DecrementStep(p, f)) && t.store == s.store && t.history == s.history
    ensures t.procs == s.procs[p := Flushed(s.procs[p].drop, s.procs[p].owed - {f})]
    ensures t.decremented == s.decremented[f := s.procs[p].owed[f].uuid]
  {
    var c := s.procs[p];
    t := s.(procs := s.procs[p := c.(owed := c.owed - {f})],
            decremented := s.decremented[f := c.owed[f].uuid],
            log := s.log + [s.store]);
    assert Decrement(s, t, p, f);
  }

  // ----- the whole pass -----

  lemma {:induction false} LeadsShows(s: State, t: State, p: Pid, steps: seq<Step>, n: Name)
    requires Inv(s) && Leads(s, t, p, steps)
    ensures Visible(t.store, n) == Visible(s.store, n)
    decreases |steps|
  {
    if steps != [] {
      var m := |steps| - 1;
      var u :| Leads(s, u, p, steps[..m]) && Next(u, t, steps[m]);
      LeadsShows(s, u, p, steps[..m], n);
      LeadsKeeps(s, u, p, steps[..m]);
      StepRefines(u, t, steps[m], n);
    }
  }

  /** Exactly the latest Deletes are left of what was pending. */
  lemma FoldAll(s: State, p: Pid) returns (t: State, steps: seq<Step>, index: map<Name, Entry>, owed: map<Fold, Debt>)
    requires Inv(s) && p !in s.procs && s.store.scatters != {}
    ensures Leads(s, t, p, steps) && Inv(t)
    ensures p in t.procs && t.procs == s.procs[p := t.procs[p]] && t.procs[p].Flushed? && t.procs[p].drop !! t.store.scatters
    ensures t.procs[p].owed == owed && t.store == Store(s.store.version + 1, index, t.store.scatters)
    ensures t.history == s.history && t.decremented == s.decremented
    ensures forall n :: Get(index, n) == Visible(s.store, n)
    ensures forall x :: x in t.store.scatters <==> IsKept(s.store, x)
    ensures forall f :: Owes(s.store, f, owed)
  {
    var u, a, drop;
    u, a, index, drop, owed := FlushAll(s, p);
    KeptIsLast(s.store, index, drop, owed);
    var b;
    t, b := RemoveAll(u, p, drop);
    steps := Joined(s, u, t, p, a, b);
    LeadsKeeps(s, t, p, steps);
  }

  lemma KeptIsLast(st: Store, index: map<Name, Entry>, drop: set<Scatter>, owed: map<Fold, Debt>)
    requires Ranked(st.scatters) && Outcome(st, index, drop, owed)
    ensures DownClosed(st.scatters, drop)
  {
    forall x, k | x in drop && k in st.scatters && k.name == x.name && k.stamp <= x.stamp ensures k in drop {
      assert IsKept(st, k) ==> x.stamp == k.stamp;
    }
  }

  /** How a name is settled: its child is charged once, and a two-phase delete has its tombstone. */
  ghost predicate Charges(s: State, t: State, n: Name) {
    var f := Fold(s.store.version + 1, n);
    if n in s.store.index && Visible(s.store, n) == None then
      exists x :: IsLatest(s.store.scatters, n, x) && Get(t.decremented, f) == Some(x.entry.uuid) && Settles(t.store, x)
    else Get(t.decremented, f) == None
  }

  ghost predicate Settles(st: Store, x: Scatter) {
    x.op == PreDelete ==> exists y :: y in st.scatters && y.op == Delete && y.name == x.name && y.entry.uuid == x.entry.uuid
  }

  /** Debts that have their tombstones are paid, and the process ends. */
  lemma PayAndStop(s: State, v: State, p: Pid) returns (t: State, steps: seq<Step>)
    requires p !in s.procs && p in v.procs && v.procs == s.procs[p := v.procs[p]] && v.procs[p].Flushed?
    requires forall f :: f in v.procs[p].owed ==> !v.procs[p].owed[f].tombstoneDue
    ensures Leads(v, t, p, steps) && t.procs == s.procs && t.store == v.store
    ensures t.decremented == Charged(v.decremented, v.procs[p].owed, v.procs[p].owed.Keys)
  {
    var w, b := PayAll(v, p, v.procs[p].owed.Keys);
    t := w.(procs := w.procs - {p}, log := w.log + [w.store]);
    assert w.procs - {p} == s.procs;
    assert Stop(w, t, p);
    steps := OneMore(v, w, t, p, b, StopStep(p));
  }

  lemma SameCharges(paid: map<Fold, Uuid>, owed: map<Fold, Debt>, some: set<Fold>)
    ensures Discharged(owed, some).Keys == owed.Keys
    ensures Charged(paid, Discharged(owed, some), owed.Keys) == Charged(paid, owed, owed.Keys)
  {
  }

  lemma PayBuried(s: State, u: State, v: State, p: Pid, due: set<Fold>) returns (t: State, steps: seq<Step>)
    requires p !in s.procs && p in u.procs && u.procs == s.procs[p := u.procs[p]] && u.procs[p].Flushed?
    requires forall f :: f in u.procs[p].owed && u.procs[p].owed[f].tombstoneDue ==> f in due
    requires Buried(u, v, p, u.procs[p], due)
    ensures Leads(v, t, p, steps) && t.procs == s.procs && t.store == v.store
    ensures t.decremented == Charged(u.decremented, u.procs[p].owed, u.procs[p].owed.Keys)
  {
    SameCharges(u.decremented, u.procs[p].owed, due);
    assert v.procs == s.procs[p := v.procs[p]];
    t, steps := PayAndStop(s, v, p);
  }

  /** What a fold still owes is written and paid. */
  lemma PaysOff(s: State, u: State, p: Pid) returns (t: State, steps: seq<Step>)
    requires Inv(u) && p !in s.procs && p in u.procs && u.procs == s.procs[p := u.procs[p]] && u.procs[p].Flushed?
    requires u.procs[p].drop !! u.store.scatters && forall f :: f in u.procs[p].owed ==> Visible(u.store, f.name) == None
    ensures Leads(u, t, p, steps) && t.procs == s.procs
    ensures t.store == u.store.(scatters := t.store.scatters) && u.store.scatters <= t.store.scatters
    ensures forall x :: x in t.store.scatters && x !in u.store.scatters ==> x.op == Delete && x !in u.history
    ensures t.decremented == Charged(u.decremented, u.procs[p].owed, u.procs[p].owed.Keys)
    ensures forall f :: Due(u.procs[p], f) ==> Entombed(t.store, u.procs[p].owed, f)
  {
    var owed := u.procs[p].owed;
    var due := set f | f in owed && owed[f].tombstoneDue;
    var v, a := BuryAll(u, p, due);
    var b;
    t, b := PayBuried(s, u, v, p, due);
    steps := Joined(u, v, t, p, a, b);
  }

  /**
   * From any reachable state, a compaction left alone runs to its end: the index holds the
   * merged view, of what was pending exactly the latest Deletes are left, readers see no
   * change, and every name taken out has its child charged once, by its marker, with a
   * tombstone in place of a PreDelete.
   */
  lemma CompactionCompletes(s: State, p: Pid) returns (t: State, steps: seq<Step>)
    requires Inv(s) && DebtsOk(s) && p !in s.procs && s.store.scatters != {}
    ensures Leads(s, t, p, steps) && t.procs == s.procs && t.store.version == s.store.version + 1
    ensures forall n :: Get(t.store.index, n) == Visible(s.store, n) == Visible(t.store, n)
    ensures forall x :: x in t.store.scatters && x in s.history <==> IsKept(s.store, x)
    ensures forall x :: x in t.store.scatters ==> x.op == Delete
    ensures forall n :: Charges(s, t, n)
  {
    var u, a, index, owed := FoldAll(s, p);
    forall n ensures Visible(u.store, n) == Visible(s.store, n) { LeadsShows(s, u, p, a, n); }
    assert forall f :: f in owed ==> Owes(s.store, f, owed);
    var b;
    t, b := PaysOff(s, u, p);
    steps := Joined(s, u, t, p, a, b);
    forall n ensures Visible(t.store, n) == Visible(s.store, n) { LeadsShows(s, t, p, steps, n); }
    forall n ensures Charges(s, t, n) { ChargesAt(s, t, u.procs[p], n); }
  }

  lemma ChargesAt(s: State, t: State, c: Process, n: Name)
    requires DebtsOk(s) && c.Flushed? && Owes(s.store, Fold(s.store.version + 1, n), c.owed)
    requires t.decremented == Charged(s.decremented, c.owed, c.owed.Keys)
    requires forall f :: Due(c, f) ==> Entombed(t.store, c.owed, f)
    ensures Charges(s, t, n)
  {
    var f := Fold(s.store.version + 1, n);
    if f in c.owed {
      var x := LatestOf(s.store.scatters, n);
      assert x.op == PreDelete ==> Due(c, f);
      assert Settles(t.store, x);
    }
  }

  // ----- a read and a collection -----

  lemma {:induction false} ReadAll(s: State, r: Pid, some: set<Scatter>) returns (t: State, steps: seq<Step>)
    requires r in s.procs && s.procs[r].Reading? && s.procs[r].got.fetched == s.procs[r].got.missing == {}
    requires s.procs[r].got.listed <= s.store.scatters
    requires forall x :: x in some ==> IsLatest(s.procs[r].got.listed, x.name, x) && NeedsBody(s.procs[r].scope, x)
    ensures Leads(s, t, r, steps)
    ensures var c := s.procs[r]; OnlyHolds(s, t, r, Reading(c.start, c.scope, c.known, Listing(c.got.listed, some, {})))
    decreases some
  {
    if some == {} {
      t, steps := s, [];
    } else {
      var x :| x in some;
      var u, most := ReadAll(s, r, some - {x});
      var c := u.procs[r];
      var got := AfterGet(c.got, u.store.scatters, x);
      assert got.fetched == some;
      t := u.(log := u.log + [u.store], procs := u.procs[r := Reading(c.start, c.scope, c.known, got)]);
      assert ReadFetch(u, t, r, x);
      steps := OneMore(s, u, t, r, most, ReadFetchStep(r, x));
    }
  }

  /** The listing of a read with every body it asks for. */
  ghost function ReadListing(st: Store, scope: Option<Name>): Listing {
    var listed := InScope(st.scatters, scope);
    Listing(listed, set x | x in listed && IsLatest(listed, x.name, x) && NeedsBody(scope, x), {})
  }

  lemma ReadGathers(s: State, r: Pid, scope: Option<Name>) returns (t: State, steps: seq<Step>)
    requires r !in s.procs
    ensures Leads(s, t, r, steps) && OnlyHolds(s, t, r, Reading(|s.log|, scope, s.history, ReadListing(s.store, scope)))
  {
    var c := Reading(|s.log|, scope, s.history, Listing(InScope(s.store.scatters, scope), {}, {}));
    var s1 := s.(log := s.log + [s.store], procs := s.procs[r := c]);
    assert ReadList(s, s1, r, scope);
    assert Leads(s, s, r, []);
    steps := OneMore(s, s, s1, r, [], ReadListStep(r, scope));
    var rest;
    t, rest := ReadAll(s1, r, ReadListing(s.store, scope).fetched);
    steps := Joined(s, s1, t, r, steps, rest);
  }

  /** A read left alone ends, and answers every name in its scope with the merged view. */
  lemma ReadCompletes(s: State, r: Pid, scope: Option<Name>) returns (t: State, steps: seq<Step>)
    requires Inv(s) && r !in s.procs
    ensures Leads(s, t, r, steps) && t.store == s.store && r in t.procs && t.procs[r].ReadDone?
    ensures t.procs == s.procs[r := t.procs[r]]
    ensures forall n :: InRange(scope, n) ==> Get(t.procs[r].view, n) == Visible(s.store, n)
  {
    var u, most := ReadGathers(s, r, scope);
    var got := ReadListing(s.store, scope);
    assert Complete(got, scope);
    var view := Overlaid(u.store.index, got, scope);
    t := u.(log := u.log + [u.store], procs := u.procs[r := ReadDone(|s.log|, |u.log|, scope, view)]);
    assert ReadIndex(u, t, r);
    steps := OneMore(s, u, t, r, most, ReadIndexStep(r));
    forall n | InRange(scope, n) ensures Get(view, n) == Visible(s.store, n) {
      OverlaidGet(s.store.index, got, scope, n);
      GatheredAt(s.store, scope, got, n);
    }
  }

  lemma SweepLists(s: State, g: Pid) returns (t: State)
    requires g !in s.procs
    ensures Next(s, t, SweepListStep(g)) && OnlyHolds(s, t, g, Sweeping(set y | y in s.store.scatters && y.op.Delete?, {}))
  {
    var found := set y | y in s.store.scatters && y.op.Delete?;
    t := s.(log := s.log + [s.store], procs := s.procs[g := Sweeping(found, {})]);
    assert SweepList(s, t, g);
  }

  lemma SweepClears(s: State, g: Pid, x: Scatter) returns (t: State)
    requires g in s.procs && s.procs[g].Sweeping? && x in s.procs[g].found && IsOldest(s.store.scatters, x)
    requires x.name in s.store.index ==> s.store.index[x.name].uuid != x.entry.uuid
    ensures Next(s, t, SweepCheckStep(g, x)) && OnlyHolds(s, t, g, Sweeping(s.procs[g].found, s.procs[g].cleared + {x}))
  {
    var c := s.procs[g];
    t := s.(log := s.log + [s.store], procs := s.procs[g := c.(cleared := c.cleared + {x})]);
    assert SweepCheck(s, t, g, x);
  }

  lemma SweepChecks(s: State, g: Pid, x: Scatter) returns (t: State, steps: seq<Step>)
    requires g !in s.procs && IsOldest(s.store.scatters, x) && x.op == Delete
    requires x.name in s.store.index ==> s.store.index[x.name].uuid != x.entry.uuid
    ensures Leads(s, t, g, steps) && g in t.procs && t.procs[g].Sweeping? && x in t.procs[g].cleared
    ensures OnlyHolds(s, t, g, t.procs[g])
  {
    var u := SweepLists(s, g);
    t := SweepClears(u, g, x);
    steps := OneMore(s, s, u, g, [], SweepListStep(g));
    steps := OneMore(s, u, t, g, steps, SweepCheckStep(g, x));
  }

  /** A collection left alone removes a tombstone with nothing older under it and its child out of the index. */
  lemma SweepCompletes(s: State, g: Pid, x: Scatter) returns (t: State, steps: seq<Step>)
    requires g !in s.procs && IsOldest(s.store.scatters, x) && x.op == Delete
    requires x.name in s.store.index ==> s.store.index[x.name].uuid != x.entry.uuid
    ensures Leads(s, t, g, steps) && t.procs == s.procs && t.store == s.store.(scatters := s.store.scatters - {x})
  {
    var u, most := SweepChecks(s, g, x);
    var store := s.store.(scatters := s.store.scatters - {x});
    var v := u.(store := store, log := u.log + [store]);
    assert SweepRemove(u, v, g, x);
    steps := OneMore(s, u, v, g, most, SweepRemoveStep(g, x));
    t := v.(procs := v.procs - {g}, log := v.log + [store]);
    assert t.procs == s.procs;
    assert Stop(v, t, g);
    steps := OneMore(s, v, t, g, steps, StopStep(g));
  }
}
