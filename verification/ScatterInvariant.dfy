/** The invariant of the scatter protocol and its preservation by every step. */
module ScatterInvariant {
  import opened Names
  import opened ScatterStore
  import opened ScatterProtocol

  // ----- the invariant -----

  ghost predicate Basic(s: State) {
    && |s.log| > 0 && s.log[|s.log| - 1] == s.store
    && s.store.scatters <= s.history && Ranked(s.history)
  }

  /** Removal is oldest first: what is emitted after a present scatter of its name is present. */
  ghost predicate Suffix(s: State) {
    forall k, x :: k in s.store.scatters && x in s.history && x.name == k.name && k.stamp < x.stamp
      ==> x in s.store.scatters
  }

  ghost predicate FoldedOk(s: State) {
    forall n :: n in s.folded ==>
      s.folded[n] in s.history && s.folded[n].name == n && Get(s.store.index, n) == Effect(s.folded[n])
  }

  /** The index already reflects a scatter newer than `x`. */
  ghost predicate Above(s: State, x: Scatter) {
    x.name in s.folded && x.stamp < s.folded[x.name].stamp
  }

  /** Nothing is lost when `x` goes: the index holds its effect, or that of a newer scatter. */
  ghost predicate Settled(s: State, x: Scatter) {
    Get(s.store.index, x.name) == Effect(x) || Above(s, x)
  }

  ghost predicate Adjacent(scatters: set<Scatter>, d: Scatter, x: Scatter) {
    && d in scatters && x in scatters && d.name == x.name && d.stamp < x.stamp
    && forall k :: k in scatters && k.name == x.name ==> k.stamp <= d.stamp || x.stamp <= k.stamp
  }

  /** A tombstone is about the child the index has under its name, if it has any. */
  ghost predicate MarkersOk(s: State) {
    && (forall x :: IsOldest(s.store.scatters, x) && x.op.Delete? ==>
          x.name !in s.store.index || s.store.index[x.name].uuid == x.entry.uuid || Above(s, x))
    && (forall d, x :: Adjacent(s.store.scatters, d, x) && x.op.Delete? ==>
          Effect(d) == None || d.entry.uuid == x.entry.uuid)
  }

  ghost predicate CopyOk(s: State, version: nat, base: map<Name, Entry>) {
    version <= s.store.version && (version == s.store.version ==> base == s.store.index)
  }

  ghost predicate GotOk(s: State, got: Listing) {
    got.listed <= s.history && got.missing <= got.listed && got.missing !! s.store.scatters
  }

  /** What lets a compactor whose version is still current flush: no listed scatter is outdated. */
  ghost predicate CurrentOk(s: State, got: Listing) {
    forall x: Scatter :: IsLatest(got.listed, x.name, x) ==>
      (x in s.store.scatters || Get(s.store.index, x.name) == Effect(x)) && !Above(s, x)
  }

  ghost predicate DropOk(s: State, drop: set<Scatter>) {
    forall x :: x in drop && x in s.store.scatters ==> Consumed(s, x)
  }

  /** Folded, and if it is a tombstone, by something newer. */
  ghost predicate Consumed(s: State, x: Scatter) {
    && x.name in s.folded && x.stamp <= s.folded[x.name].stamp
    && (x.op.Delete? ==> x.stamp < s.folded[x.name].stamp)
  }

  ghost predicate InRange(scope: Option<Name>, n: Name) {
    scope.Some? ==> n == scope.value
  }

  /** `v` was what `n` resolved to at some logged instant from `start` on. */
  ghost predicate Seen(log: seq<Store>, start: nat, n: Name, v: Option<Entry>) {
    exists t :: start <= t < |log| && Visible(log[t], n) == v
  }

  ghost predicate StillListed(s: State, got: Listing, n: Name) {
    exists x :: IsLatest(got.listed, n, x) && x in s.store.scatters
  }

  ghost predicate ReadingOk(s: State, c: Process)
    requires c.Reading?
  {
    && c.start < |s.log| && GotOk(s, c.got) && c.known <= s.history
    && (forall x :: x in c.got.listed ==> InRange(c.scope, x.name))
    && (forall x :: x in c.known && x in s.store.scatters && InRange(c.scope, x.name) ==> x in c.got.listed)
    && (forall x :: x in s.history && x !in c.known ==> Seen(s.log, c.start, x.name, Effect(x)))
    && (forall x: Scatter :: IsLatest(c.got.listed, x.name, x) ==>
          && Seen(s.log, c.start, x.name, Effect(x))
          && forall k :: k in c.known && k.name == x.name ==> k.stamp <= x.stamp)
    && (forall n :: InRange(c.scope, n) ==>
          StillListed(s, c.got, n) || Seen(s.log, c.start, n, Get(s.store.index, n)))
  }

  ghost predicate ReadDoneOk(s: State, c: Process)
    requires c.ReadDone?
  {
    && c.start <= c.finish < |s.log|
    && forall n :: InRange(c.scope, n) ==> Seen(s.log[..c.finish + 1], c.start, n, Get(c.view, n))
  }

  ghost predicate ClearedOk(s: State, x: Scatter) {
    && x.op.Delete?
    && (x in s.store.scatters ==> IsOldest(s.store.scatters, x) && Settled(s, x))
  }

  ghost predicate ProcessOk(s: State, c: Process) {
    match c
    case Loaded(version, base) => CopyOk(s, version, base)
    case Folding(version, base, got) =>
      CopyOk(s, version, base) && GotOk(s, got) && (version == s.store.version ==> CurrentOk(s, got))
    case Flushed(drop, _) => drop <= s.history && DropOk(s, drop)
    case Reading(_, _, _, _) => ReadingOk(s, c)
    case ReadDone(_, _, _, _) => ReadDoneOk(s, c)
    case Sweeping(found, cleared) =>
      && cleared <= found <= s.history
      && (forall x :: x in found ==> x.op.Delete?)
      && forall x :: x in cleared ==> ClearedOk(s, x)
  }

  ghost predicate ProcessesOk(s: State) {
    forall p :: p in s.procs ==> ProcessOk(s, s.procs[p])
  }

  ghost predicate StoreOk(s: State) {
    Basic(s) && Suffix(s) && FoldedOk(s) && MarkersOk(s)
  }

  ghost predicate Inv(s: State) {
    StoreOk(s) && ProcessesOk(s)
  }

  lemma InitKeeps(s: State)
    requires Init(s)
    ensures Inv(s)
  {
  }

  // ----- facts about the log -----

  lemma SeenGrows(log: seq<Store>, x: Store, start: nat, n: Name, v: Option<Entry>)
    requires Seen(log, start, n, v)
    ensures Seen(log + [x], start, n, v)
  {
    var t :| start <= t < |log| && Visible(log[t], n) == v;
    assert (log + [x])[t] == log[t];
  }

  lemma SeenLast(log: seq<Store>, x: Store, start: nat, n: Name)
    requires start <= |log|
    ensures Seen(log + [x], start, n, Visible(x, n))
  {
    assert (log + [x])[|log|] == x;
  }

  lemma SeenAll(s: State, s': State)
    requires exists x :: s'.log == s.log + [x]
    ensures forall start: nat, n, v :: Seen(s.log, start, n, v) ==> Seen(s'.log, start, n, v)
  {
    var x :| s'.log == s.log + [x];
    forall start: nat, n, v | Seen(s.log, start, n, v) ensures Seen(s'.log, start, n, v) {
      SeenGrows(s.log, x, start, n, v);
    }
  }

  lemma ReadDoneKeeps(s: State, s': State, c: Process)
    requires c.ReadDone? && ReadDoneOk(s, c) && exists x :: s'.log == s.log + [x]
    ensures ReadDoneOk(s', c)
  {
    assert s'.log[..c.finish + 1] == s.log[..c.finish + 1];
  }

  // ----- steps that leave the store alone -----

  ghost predicate Quiet(s: State, s': State) {
    && s'.store == s.store && s'.history == s.history && s'.folded == s.folded
    && s'.log == s.log + [s.store]
  }

  lemma QuietProcess(s: State, s': State, c: Process)
    requires Quiet(s, s') && ProcessOk(s, c)
    ensures ProcessOk(s', c)
  {
    if c.Reading? {
      SeenAll(s, s');
      forall n | InRange(c.scope, n)
        ensures StillListed(s', c.got, n) || Seen(s'.log, c.start, n, Get(s'.store.index, n))
      {
        assert StillListed(s, c.got, n) ==> StillListed(s', c.got, n);
      }
    } else if c.ReadDone? {
      ReadDoneKeeps(s, s', c);
    } else if c.Sweeping? {
      forall x | x in c.cleared ensures ClearedOk(s', x) {
        assert ClearedOk(s, x);
      }
    }
  }

  /** A quiet step that changes at most process `p`, to one that meets its conditions. */
  lemma QuietKeeps(s: State, s': State, p: Pid)
    requires Inv(s) && Quiet(s, s')
    requires forall q :: q in s'.procs && q != p ==> q in s.procs && s'.procs[q] == s.procs[q]
    requires p in s'.procs ==> ProcessOk(s', s'.procs[p])
    ensures Inv(s')
  {
    forall q | q in s'.procs && q != p ensures ProcessOk(s', s'.procs[q]) {
      QuietProcess(s, s', s.procs[q]);
    }
    assert MarkersOk(s') by {
      assert forall x :: Above(s', x) == Above(s, x);
    }
  }

  lemma ReloadKeeps(s: State, s': State, p: Pid)
    requires Inv(s) && Reload(s, s', p)
    ensures Inv(s')
  {
    QuietKeeps(s, s', p);
  }

  /** Nothing newer than a listed latest scatter is folded, as it would have been listed too. */
  lemma ListKeeps(s: State, s': State, p: Pid)
    requires Inv(s) && List(s, s', p)
    ensures Inv(s')
  {
    var c := s'.procs[p];
    assert ProcessOk(s, s.procs[p]);
    forall x: Scatter | IsLatest(c.got.listed, x.name, x)
      ensures x in s'.store.scatters && !Above(s', x)
    {
      assert x.name in s.folded ==> s.folded[x.name] in s.store.scatters || s.folded[x.name].stamp <= x.stamp;
    }
    QuietKeeps(s, s', p);
  }

  lemma FetchKeeps(s: State, s': State, p: Pid, x: Scatter)
    requires Inv(s) && Fetch(s, s', p, x)
    ensures Inv(s')
  {
    var c := s.procs[p];
    QuietProcess(s, s', c);
    assert s'.procs[p].got.listed == c.got.listed;
    QuietKeeps(s, s', p);
  }

  lemma StopKeeps(s: State, s': State, p: Pid)
    requires Inv(s) && p in s.procs && Moves(s, s', s.store, s.procs - {p})
    ensures Inv(s')
  {
    QuietKeeps(s, s', p);
  }

  lemma DecrementKeeps(s: State, s': State, p: Pid, f: Fold)
    requires Inv(s) && Decrement(s, s', p, f)
    ensures Inv(s')
  {
    QuietProcess(s, s', s.procs[p]);
    QuietKeeps(s, s', p);
  }

  lemma ReadListKeeps(s: State, s': State, r: Pid, scope: Option<Name>)
    requires Inv(s) && ReadList(s, s', r, scope)
    ensures Inv(s')
  {
    var c := s'.procs[r];
    forall x: Scatter | IsLatest(c.got.listed, x.name, x)
      ensures Seen(s'.log, c.start, x.name, Effect(x))
      ensures forall k :: k in c.known && k.name == x.name ==> k.stamp <= x.stamp
    {
      assert IsLatest(s.store.scatters, x.name, x);
      VisibleOfLatest(s.store, x);
      SeenLast(s.log, s.store, c.start, x.name);
    }
    forall n | InRange(scope, n)
      ensures StillListed(s', c.got, n) || Seen(s'.log, c.start, n, Get(s'.store.index, n))
    {
      SeenLast(s.log, s.store, c.start, n);
      if Pending(s.store.scatters, n) {
        var x := LatestOf(s.store.scatters, n);
        assert IsLatest(c.got.listed, n, x);
      }
    }
    QuietKeeps(s, s', r);
  }

  lemma ReadFetchProcess(s: State, c: Process, x: Scatter)
    requires c.Reading? && ReadingOk(s, c) && x in c.got.listed
    ensures ReadingOk(s, Reading(c.start, c.scope, c.known, AfterGet(c.got, s.store.scatters, x)))
  {
    var got := AfterGet(c.got, s.store.scatters, x);
    assert got.listed == c.got.listed;
    forall n | InRange(c.scope, n)
      ensures StillListed(s, got, n) || Seen(s.log, c.start, n, Get(s.store.index, n))
    {
      assert StillListed(s, c.got, n) ==> StillListed(s, got, n);
    }
  }

  lemma ReadFetchKeeps(s: State, s': State, r: Pid, x: Scatter)
    requires Inv(s) && ReadFetch(s, s', r, x)
    ensures Inv(s')
  {
    QuietProcess(s, s', s.procs[r]);
    ReadFetchProcess(s', s.procs[r], x);
    QuietKeeps(s, s', r);
  }

  /** A name takes its value from the listing, or from an index that is itself of the right age. */
  lemma ReadValueSeen(s: State, c: Process, n: Name)
    requires Basic(s) && c.Reading? && ReadingOk(s, c) && Complete(c.got, c.scope) && InRange(c.scope, n)
    ensures Seen(s.log, c.start, n, OverlaidAt(s.store.index, c.got, c.scope, n))
  {
    if StillListed(s, c.got, n) {
      var x :| IsLatest(c.got.listed, n, x) && x in s.store.scatters;
      assert Applied(c.got, c.scope, x);
    }
  }

  lemma OverlaidGet(base: map<Name, Entry>, got: Listing, scope: Option<Name>, n: Name)
    ensures Get(Overlaid(base, got, scope), n) == OverlaidAt(base, got, scope, n)
  {
    if Touched(got, scope, n) {
      assert Change(got, scope, n) in got.listed;
    }
  }

  lemma ReadIndexKeeps(s: State, s': State, r: Pid)
    requires Inv(s) && ReadIndex(s, s', r)
    ensures Inv(s')
  {
    var c, c' := s.procs[r], s'.procs[r];
    forall n | InRange(c'.scope, n) ensures Seen(s'.log[..c'.finish + 1], c'.start, n, Get(c'.view, n)) {
      ReadValueSeen(s, c, n);
      OverlaidGet(s.store.index, c.got, c.scope, n);
      SeenGrows(s.log, s.store, c.start, n, Get(c'.view, n));
      assert s'.log[..c'.finish + 1] == s'.log;
    }
    QuietKeeps(s, s', r);
  }

  lemma SweepListKeeps(s: State, s': State, g: Pid)
    requires Inv(s) && SweepList(s, s', g)
    ensures Inv(s')
  {
    QuietKeeps(s, s', g);
  }

  lemma SweepCheckKeeps(s: State, s': State, g: Pid, x: Scatter)
    requires Inv(s) && SweepCheck(s, s', g, x)
    ensures Inv(s')
  {
    var c := s.procs[g];
    QuietProcess(s, s', c);
    assert ClearedOk(s', x) by {
      assert Settled(s, x);
    }
    QuietKeeps(s, s', g);
  }

  // ----- emission -----

  lemma EmitStore(s: State, s': State, x: Scatter, procs: map<Pid, Process>)
    requires StoreOk(s) && Emitted(s, s', x, procs)
    ensures StoreOk(s')
  {
    forall d, y | Adjacent(s'.store.scatters, d, y) && y.op.Delete?
      ensures Effect(d) == None || d.entry.uuid == y.entry.uuid
    {
      if y == x {
        assert IsLatest(s.store.scatters, x.name, d);
        VisibleOfLatest(s.store, d);
      } else {
        assert Adjacent(s.store.scatters, d, y);
      }
    }
    forall y | IsOldest(s'.store.scatters, y) && y.op.Delete?
      ensures y.name !in s'.store.index || s'.store.index[y.name].uuid == y.entry.uuid || Above(s', y)
    {
      if y == x {
        assert !Pending(s.store.scatters, x.name);
      } else {
        assert IsOldest(s.store.scatters, y);
        assert Above(s, y) ==> Above(s', y);
      }
    }
  }

  lemma EmitSeen(s: State, s': State, x: Scatter, procs: map<Pid, Process>, start: nat)
    requires StoreOk(s) && Emitted(s, s', x, procs) && start <= |s.log|
    ensures Seen(s'.log, start, x.name, Effect(x))
  {
    EmitStore(s, s', x, procs);
    assert IsLatest(s'.store.scatters, x.name, x);
    VisibleOfLatest(s'.store, x);
    SeenLast(s.log, s'.store, start, x.name);
  }

  lemma EmitProcess(s: State, s': State, x: Scatter, procs: map<Pid, Process>, c: Process)
    requires StoreOk(s) && Emitted(s, s', x, procs) && ProcessOk(s, c)
    ensures ProcessOk(s', c)
  {
    if c.Reading? {
      SeenAll(s, s');
      EmitSeen(s, s', x, procs, c.start);
      forall n | InRange(c.scope, n)
        ensures StillListed(s', c.got, n) || Seen(s'.log, c.start, n, Get(s'.store.index, n))
      {
        assert StillListed(s, c.got, n) ==> StillListed(s', c.got, n);
      }
    } else if c.ReadDone? {
      ReadDoneKeeps(s, s', c);
    } else if c.Sweeping? {
      forall y | y in c.cleared ensures ClearedOk(s', y) {
        assert ClearedOk(s, y);
      }
    } else if c.Folding? {
      assert forall y :: Above(s', y) == Above(s, y);
    }
  }

  lemma EmittedKeeps(s: State, s': State, x: Scatter, procs: map<Pid, Process>)
    requires Inv(s) && Emitted(s, s', x, procs) && procs.Keys == s.procs.Keys
    requires forall p :: p in procs ==>
      procs[p] == s.procs[p] || (s.procs[p].Flushed? && procs[p].Flushed? && procs[p].drop == s.procs[p].drop)
    ensures Inv(s')
  {
    EmitStore(s, s', x, procs);
    forall p | p in procs ensures ProcessOk(s', procs[p]) {
      EmitProcess(s, s', x, procs, s.procs[p]);
    }
  }

  // ----- removal of a settled scatter, oldest first -----

  ghost predicate Removed(s: State, s': State, x: Scatter) {
    && IsOldest(s.store.scatters, x) && Settled(s, x)
    && Moves(s, s', s.store.(scatters := s.store.scatters - {x}), s.procs)
  }

  lemma RemovedStore(s: State, s': State, x: Scatter)
    requires StoreOk(s) && Removed(s, s', x)
    ensures StoreOk(s')
  {
    var now := s'.store.scatters;
    forall d, y | Adjacent(now, d, y) && y.op.Delete?
      ensures Effect(d) == None || d.entry.uuid == y.entry.uuid
    {
      assert Adjacent(s.store.scatters, d, y);
    }
    forall y | IsOldest(now, y) && y.op.Delete?
      ensures y.name !in s'.store.index || s'.store.index[y.name].uuid == y.entry.uuid || Above(s', y)
    {
      if y.name != x.name {
        assert IsOldest(s.store.scatters, y);
        assert Above(s, y) ==> Above(s', y);
      } else {
        assert x.stamp != y.stamp;
        assert Adjacent(s.store.scatters, x, y);
      }
    }
  }

  lemma RemovedStutters(s: State, s': State, x: Scatter, n: Name)
    requires StoreOk(s) && Removed(s, s', x)
    ensures Visible(s'.store, n) == Visible(s.store, n)
  {
    var was, now := s.store.scatters, s'.store.scatters;
    RemovedStore(s, s', x);
    if Pending(now, n) {
      var y := LatestOf(now, n);
      assert IsLatest(was, n, y);
      VisibleOfLatest(s.store, y);
    } else if n == x.name {
      assert IsLatest(was, n, x);
      VisibleOfLatest(s.store, x);
      assert n in s.folded ==> s.folded[n] in now || s.folded[n].stamp <= x.stamp;
    } else {
      assert !Pending(was, n) by {
        assert forall k :: k in was && k != x ==> k in now;
      }
    }
  }

  lemma RemovedReader(s: State, s': State, x: Scatter, c: Process)
    requires StoreOk(s) && Removed(s, s', x) && c.Reading? && ReadingOk(s, c)
    ensures ReadingOk(s', c)
  {
    SeenAll(s, s');
    forall n | InRange(c.scope, n)
      ensures StillListed(s', c.got, n) || Seen(s'.log, c.start, n, Get(s'.store.index, n))
    {
      if StillListed(s, c.got, n) {
        var l :| IsLatest(c.got.listed, n, l) && l in s.store.scatters;
        if l != x {
          assert StillListed(s', c.got, n);
        } else if Above(s, x) {
          assert s.folded[n] !in c.known;
        }
      }
    }
  }

  lemma RemovedProcess(s: State, s': State, x: Scatter, c: Process)
    requires StoreOk(s) && Removed(s, s', x) && ProcessOk(s, c)
    ensures ProcessOk(s', c)
  {
    assert forall y :: Above(s', y) == Above(s, y);
    if c.Reading? {
      RemovedReader(s, s', x, c);
    } else if c.ReadDone? {
      ReadDoneKeeps(s, s', c);
    } else if c.Sweeping? {
      forall y | y in c.cleared ensures ClearedOk(s', y) {
        assert ClearedOk(s, y);
      }
    }
  }

  lemma RemovedKeeps(s: State, s': State, x: Scatter)
    requires Inv(s) && Removed(s, s', x)
    ensures Inv(s')
  {
    RemovedStore(s, s', x);
    forall p | p in s'.procs ensures ProcessOk(s', s'.procs[p]) {
      RemovedProcess(s, s', x, s.procs[p]);
    }
  }

  lemma RemoveIsSettled(s: State, s': State, p: Pid, x: Scatter)
    requires Inv(s) && Remove(s, s', p, x)
    ensures Removed(s, s', x)
  {
    assert ProcessOk(s, s.procs[p]);
  }

  lemma SweepRemoveIsSettled(s: State, s': State, g: Pid, x: Scatter)
    requires Inv(s) && SweepRemove(s, s', g, x) && x in s.store.scatters
    ensures Removed(s, s', x)
  {
    assert ProcessOk(s, s.procs[g]);
  }

  lemma SweepRemoveKeeps(s: State, s': State, g: Pid, x: Scatter)
    requires Inv(s) && SweepRemove(s, s', g, x)
    ensures Inv(s')
  {
    if x in s.store.scatters {
      SweepRemoveIsSettled(s, s', g, x);
      RemovedKeeps(s, s', x);
    } else {
      assert s.store.scatters - {x} == s.store.scatters;
      QuietProcess(s, s', s.procs[g]);
      QuietKeeps(s, s', g);
    }
  }

  // ----- a successful flush -----

  ghost predicate FlushedBy(s: State, s': State, p: Pid) {
    Flush(s, s', p) && s.procs[p].version == s.store.version
  }

  /** A successful flush by a compactor that meets its conditions. */
  ghost predicate Commits(s: State, s': State, p: Pid) {
    FlushedBy(s, s', p) && StoreOk(s) && ProcessOk(s, s.procs[p])
  }

  /** The fold of a name, read off the committed index. */
  lemma FlushAt(s: State, s': State, p: Pid, n: Name)
    requires Commits(s, s', p)
    ensures Get(s'.store.index, n) == OverlaidAt(s.store.index, s.procs[p].got, None, n)
    ensures n in s'.folded <==> n in s.folded || Touched(s.procs[p].got, None, n)
    ensures n in s'.folded ==>
      s'.folded[n] == (if Touched(s.procs[p].got, None, n) then Change(s.procs[p].got, None, n) else s.folded[n])
  {
    var c := s.procs[p];
    OverlaidGet(c.base, c.got, None, n);
    if Touched(c.got, None, n) {
      assert Change(c.got, None, n) in c.got.listed;
    }
  }

  /** Folding changes the index under a name only while the folded scatter is still present. */
  lemma FlushOnlyUnderPending(s: State, s': State, p: Pid, n: Name)
    requires Commits(s, s', p)
    ensures (Touched(s.procs[p].got, None, n) && Change(s.procs[p].got, None, n) in s.store.scatters)
      || Get(s'.store.index, n) == Get(s.store.index, n)
  {
    FlushAt(s, s', p, n);
    assert ProcessOk(s, s.procs[p]);
  }

  lemma FlushStutters(s: State, s': State, p: Pid, n: Name)
    requires Commits(s, s', p)
    ensures Visible(s'.store, n) == Visible(s.store, n)
  {
    FlushOnlyUnderPending(s, s', p, n);
  }

  lemma FlushFolded(s: State, s': State, p: Pid)
    requires Commits(s, s', p)
    ensures Basic(s') && Suffix(s') && FoldedOk(s')
  {
    var c := s.procs[p];
    forall n | n in s'.folded
      ensures s'.folded[n] in s'.history && s'.folded[n].name == n
      ensures Get(s'.store.index, n) == Effect(s'.folded[n])
    {
      FlushAt(s, s', p, n);
    }
  }

  /** Under a name whose oldest pending scatter is `x`, only `x` or something newer changes the index. */
  lemma FlushOverOldest(s: State, s': State, p: Pid, x: Scatter)
    requires Commits(s, s', p) && IsOldest(s.store.scatters, x)
    ensures || (Get(s'.store.index, x.name) == Get(s.store.index, x.name) && (Above(s, x) ==> Above(s', x)))
            || (x.name in s'.folded && x.stamp <= s'.folded[x.name].stamp)
  {
    var got := s.procs[p].got;
    FlushAt(s, s', p, x.name);
    if Touched(got, None, x.name) {
      var l := Change(got, None, x.name);
      assert !Above(s, l);
      assert l in s.store.scatters || l.stamp <= x.stamp;
    }
  }

  /** A tombstone with nothing older pending stays about the indexed child, and stays settled. */
  lemma FlushKeepsSettled(s: State, s': State, p: Pid, x: Scatter)
    requires Commits(s, s', p) && IsOldest(s.store.scatters, x) && x.op.Delete?
    ensures Settled(s, x) ==> Settled(s', x)
    ensures x.name !in s'.store.index || Get(s'.store.index, x.name) == Get(s.store.index, x.name) || Above(s', x)
    ensures Above(s, x) ==> Settled(s', x)
  {
    FlushOverOldest(s, s', p, x);
    FlushFolded(s, s', p);
  }

  lemma FlushMarkers(s: State, s': State, p: Pid)
    requires Commits(s, s', p)
    ensures MarkersOk(s')
  {
    forall x | IsOldest(s'.store.scatters, x) && x.op.Delete?
      ensures x.name !in s'.store.index || s'.store.index[x.name].uuid == x.entry.uuid || Above(s', x)
    {
      FlushKeepsSettled(s, s', p, x);
    }
    forall d, x | Adjacent(s'.store.scatters, d, x) && x.op.Delete?
      ensures Effect(d) == None || d.entry.uuid == x.entry.uuid
    {
      assert Adjacent(s.store.scatters, d, x);
    }
  }

  lemma FlushReader(s: State, s': State, p: Pid, c: Process)
    requires Commits(s, s', p) && c.Reading? && ReadingOk(s, c)
    ensures ReadingOk(s', c)
  {
    SeenAll(s, s');
    var got := s.procs[p].got;
    forall n | InRange(c.scope, n)
      ensures StillListed(s', c.got, n) || Seen(s'.log, c.start, n, Get(s'.store.index, n))
    {
      FlushAt(s, s', p, n);
      FlushOnlyUnderPending(s, s', p, n);
      if Touched(got, None, n) && Change(got, None, n) in c.known * s.store.scatters {
        var l, k := Change(got, None, n), LatestOf(c.got.listed, n);
        assert k in s.store.scatters || k.stamp <= l.stamp;
        assert k.stamp == l.stamp ==> k == l;
        assert StillListed(s, c.got, n);
      }
      if StillListed(s, c.got, n) {
        assert StillListed(s', c.got, n);
      }
    }
  }

  /** What another compactor has yet to remove stays covered by the newly folded scatters. */
  lemma ConsumedStays(s: State, s': State, p: Pid, x: Scatter)
    requires Commits(s, s', p) && Consumed(s, x)
    ensures Consumed(s', x)
  {
    var got := s.procs[p].got;
    FlushAt(s, s', p, x.name);
    if Touched(got, None, x.name) {
      assert !Above(s, Change(got, None, x.name));
    }
  }

  lemma FlushDrop(s: State, s': State, p: Pid, drop: set<Scatter>)
    requires Commits(s, s', p) && DropOk(s, drop)
    ensures DropOk(s', drop)
  {
    forall x | x in drop && x in s'.store.scatters ensures Consumed(s', x) {
      ConsumedStays(s, s', p, x);
    }
  }

  lemma FlushOwnDrop(s: State, s': State, p: Pid)
    requires Commits(s, s', p)
    ensures ProcessOk(s', s'.procs[p])
  {
    var c := s.procs[p];
    forall x | x in s'.procs[p].drop && x in s'.store.scatters ensures Consumed(s', x) {
      FlushAt(s, s', p, x.name);
      var l := LatestOf(c.got.listed, x.name);
      assert l in s.store.scatters || x == l;
      assert Applied(c.got, None, l);
    }
  }

  lemma FlushProcess(s: State, s': State, p: Pid, q: Pid)
    requires Inv(s) && FlushedBy(s, s', p) && q in s.procs && q != p
    ensures ProcessOk(s', s.procs[q])
  {
    var c := s.procs[q];
    assert ProcessOk(s, c);
    if c.Reading? {
      FlushReader(s, s', p, c);
    } else if c.ReadDone? {
      ReadDoneKeeps(s, s', c);
    } else if c.Flushed? {
      FlushDrop(s, s', p, s.procs[q].drop);
    } else if c.Sweeping? {
      forall x | x in c.cleared ensures ClearedOk(s', x) {
        assert ClearedOk(s, x);
        if x in s.store.scatters {
          FlushKeepsSettled(s, s', p, x);
        }
      }
    }
  }

  lemma FlushKeeps(s: State, s': State, p: Pid)
    requires Inv(s) && FlushedBy(s, s', p)
    ensures Inv(s')
  {
    FlushFolded(s, s', p);
    FlushMarkers(s, s', p);
    FlushOwnDrop(s, s', p);
    forall q | q in s'.procs ensures ProcessOk(s', s'.procs[q]) {
      if q != p {
        FlushProcess(s, s', p, q);
      }
    }
  }

  // ----- direct index edits -----

  lemma EditAt(s: State, s': State, edits: map<Name, Option<Entry>>, n: Name)
    requires Edit(s, s', edits)
    ensures Get(s'.store.index, n) == if n in edits then edits[n] else Get(s.store.index, n)
    ensures Visible(s'.store, n) == if n in edits then edits[n] else Visible(s.store, n)
  {
  }

  lemma EditStore(s: State, s': State, edits: map<Name, Option<Entry>>)
    requires StoreOk(s) && Edit(s, s', edits)
    ensures StoreOk(s')
  {
    forall n | n in s'.folded
      ensures s'.folded[n] in s'.history && s'.folded[n].name == n && Get(s'.store.index, n) == Effect(s'.folded[n])
    {
      EditAt(s, s', edits, n);
      assert n in edits ==> Lands(s.store, n, edits[n]);
    }
    forall x | IsOldest(s'.store.scatters, x) && x.op.Delete?
      ensures x.name !in s'.store.index || s'.store.index[x.name].uuid == x.entry.uuid || Above(s', x)
    {
      EditAt(s, s', edits, x.name);
      EditSettles(s, s', edits, x);
    }
    forall d, x | Adjacent(s'.store.scatters, d, x) && x.op.Delete?
      ensures Effect(d) == None || d.entry.uuid == x.entry.uuid
    {
      assert Adjacent(s.store.scatters, d, x);
    }
  }

  /** Under an edited name every pending scatter is settled by the edit. */
  lemma EditSettles(s: State, s': State, edits: map<Name, Option<Entry>>, x: Scatter)
    requires Basic(s) && Edit(s, s', edits) && x in s.store.scatters
    ensures x.name in edits ==>
      && x.name in s'.folded && x.stamp <= s'.folded[x.name].stamp
      && (Above(s', x) || Get(s'.store.index, x.name) == Effect(x))
    ensures x.name !in edits ==> Get(s'.folded, x.name) == Get(s.folded, x.name)
  {
    if x.name in edits {
      assert Lands(s.store, x.name, edits[x.name]);
      var y := LatestOf(s.store.scatters, x.name);
      assert x.stamp == y.stamp ==> x == y;
    }
  }

  lemma EditProcess(s: State, s': State, edits: map<Name, Option<Entry>>, c: Process)
    requires StoreOk(s) && Edit(s, s', edits) && ProcessOk(s, c)
    ensures ProcessOk(s', c)
  {
    if c.Reading? {
      SeenAll(s, s');
      forall n | InRange(c.scope, n)
        ensures StillListed(s', c.got, n) || Seen(s'.log, c.start, n, Get(s'.store.index, n))
      {
        EditAt(s, s', edits, n);
        if n in edits {
          SeenLast(s.log, s'.store, c.start, n);
        } else {
          assert StillListed(s, c.got, n) ==> StillListed(s', c.got, n);
        }
      }
    } else if c.ReadDone? {
      ReadDoneKeeps(s, s', c);
    } else if c.Sweeping? {
      forall x | x in c.cleared ensures ClearedOk(s', x) {
        assert ClearedOk(s, x);
        if x in s.store.scatters {
          EditSettles(s, s', edits, x);
          EditAt(s, s', edits, x.name);
        }
      }
    } else if c.Flushed? {
      forall x | x in c.drop && x in s'.store.scatters ensures Consumed(s', x) {
        EditSettles(s, s', edits, x);
        assert Consumed(s, x);
      }
    }
  }

  lemma EditKeeps(s: State, s': State, edits: map<Name, Option<Entry>>)
    requires Inv(s) && Edit(s, s', edits)
    ensures Inv(s')
  {
    EditStore(s, s', edits);
    forall p | p in s'.procs ensures ProcessOk(s', s'.procs[p]) {
      EditProcess(s, s', edits, s.procs[p]);
    }
  }
}
