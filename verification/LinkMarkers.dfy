/** Runs in which every step is safe because callers look before they act, and runs that go wrong. */
module LinkMarkers {
  import opened Names
  import opened LinkProtocol
  import opened LinkWeights
  import opened LinkInvariant

  // ----- looking before acting -----

  /** Every showing of another child is followed by one of `v`: it is the child shown last, if any is. */
  ghost predicate ShownLast(c: seq<Option<Uuid>>, v: Uuid) {
    forall i :: 0 <= i < |c| && c[i].Some? && c[i] != Some(v) ==> exists j :: i < j < |c| && c[j] == Some(v)
  }

  /** A marker fits when it names the child its name showed last, and no rename is taking that out. */
  ghost predicate Fits(s: State, l: Loc, u: Uuid) {
    ShownLast(Chain(s, l), u) && !Leaving(s, l, u)
  }

  ghost predicate AttentiveLink(s: State, p: Pid, c: Call) {
    && (c.Insert? && p in s.links && s.links[p].Bumped? ==> s.links[p].loc !in s.kept)
    && (c.Bump? && p in s.links ==> !Condemned(s, s.links[p].uuid))
  }

  /** Nothing is renamed onto a kept tombstone, and the source is still there when the destination is added. */
  ghost predicate AttentiveRename(s: State, r: Renaming) {
    && (r.Within? ==> r.b !in s.kept && SourceFree(s, r.a))
    && (r.Add? && r.p in s.moves ==>
          var m := s.moves[r.p];
          && m.dst !in s.kept && Todo(s, m.src) == []
          && (Holds(s, m.dst, m.uuid) || (!m.added && Weight(s, m.src, m.uuid) > 0)))
  }

  /** What callers see to: markers fit, updates concern what is shown, edits spare kept tombstones. */
  ghost predicate Attentive(s: State, step: Step) {
    match step
    case Emits(e) => (e.Unlink? ==> Fits(s, e.l, e.u)) && (e.Update? ==> Latest(s, e.l) == Some(e.u))
    case Compacts(c) => c.Bury? && c.f in s.debts ==> Fits(s, c.f.loc, s.debts[c.f].uuid)
    case Links(p, call) => AttentiveLink(s, p, call)
    case Renames(r) => AttentiveRename(s, r)
    case Collects(_) => true
  }

  // ----- what that keeps -----

  ghost predicate MarkerOk(s: State, l: Loc, m: nat)
    requires m < |Todo(s, l)|
  {
    Todo(s, l)[m].Down? ==> ShownLast(Chain(s, l)[..m + 1], Todo(s, l)[m].uuid) && !Leaving(s, l, Todo(s, l)[m].uuid)
  }

  ghost predicate MarkersOk(s: State) {
    forall l, m: nat :: m < |Todo(s, l)| ==> MarkerOk(s, l, m)
  }

  /** A kept tombstone has nothing under it. */
  ghost predicate KeptOk(s: State) {
    forall l :: l in s.kept ==> l !in s.index
  }

  lemma SuffixShownLast(c: seq<Option<Uuid>>, k: nat, v: Uuid)
    requires k <= |c| && ShownLast(c, v)
    ensures ShownLast(c[k..], v)
  {
    var d := c[k..];
    forall i | 0 <= i < |d| && d[i].Some? && d[i] != Some(v) ensures exists j :: i < j < |d| && d[j] == Some(v) {
      assert c[i + k] == d[i];
      var j :| i + k < j < |c| && c[j] == Some(v);
      assert d[j - k] == Some(v);
    }
  }

  lemma MarkersFoldAt(s: State, s': State, l: Loc, k: nat, f: DebtId, m: nat)
    requires MarkersOk(s) && Folds(s, s', l, k, f) && m < |Todo(s', l)|
    ensures MarkerOk(s', l, m)
  {
    ChainFolded(s, s', l, k, f);
    assert MarkerOk(s, l, m + k);
    assert Chain(s', l)[..m + 1] == Chain(s, l)[..m + k + 1][k..];
    if Todo(s', l)[m].Down? {
      SuffixShownLast(Chain(s, l)[..m + k + 1], k, Todo(s', l)[m].uuid);
    }
  }

  lemma MarkersFold(s: State, s': State, l: Loc, k: nat, f: DebtId)
    requires MarkersOk(s) && Folds(s, s', l, k, f)
    ensures MarkersOk(s')
  {
    forall n, m: nat | m < |Todo(s', n)| ensures MarkerOk(s', n, m) {
      if n == l {
        MarkersFoldAt(s, s', l, k, f, m);
      } else {
        assert MarkerOk(s, n, m);
        ChainSame(s, s', n);
      }
    }
  }

  lemma FoldIsSafe(s: State, l: Loc, k: nat)
    requires MarkersOk(s)
    ensures FoldSafe(s, l, k)
  {
    if 0 < k <= |Todo(s, l)| && Todo(s, l)[k - 1].Down? && l in s.index {
      assert MarkerOk(s, l, k - 1);
      assert Chain(s, l)[..k][0] == Some(s.index[l]);
    }
  }

  lemma MarkersAppend(s: State, s': State, l: Loc, c: Change)
    requires MarkersOk(s) && s'.todo == Appended(s, l, c) && s'.index == s.index && s'.moves == s.moves
    requires c.Down? ==> Fits(s, l, c.uuid)
    ensures MarkersOk(s')
  {
    ChainAppended(s, s', l, c);
    forall n, m: nat | m < |Todo(s', n)| ensures MarkerOk(s', n, m) {
      if n != l {
        assert MarkerOk(s, n, m);
      } else if m < |Todo(s, l)| {
        assert MarkerOk(s, l, m);
        assert Chain(s', l)[..m + 1] == Chain(s, l)[..m + 1];
      } else {
        assert Chain(s', l)[..m + 1] == Chain(s, l);
      }
    }
  }

  /** Names with something pending keep their entry, their queue and their renames. */
  lemma MarkersElsewhere(s: State, s': State)
    requires MarkersOk(s) && s'.todo == s.todo
    requires forall l :: Todo(s, l) != [] ==> Get(s'.index, l) == Get(s.index, l)
    requires forall l, u :: Todo(s, l) != [] && Leaving(s', l, u) ==> Leaving(s, l, u)
    ensures MarkersOk(s')
  {
    forall l, m: nat | m < |Todo(s', l)| ensures MarkerOk(s', l, m) {
      assert MarkerOk(s, l, m);
      ChainSame(s, s', l);
    }
  }

  lemma EmitAttentive(s: State, s': State, e: Emission)
    requires MarkersOk(s) && KeptOk(s) && EmitNext(s, s', e) && Attentive(s, Emits(e))
    ensures EmitSafe(s, e) && MarkersOk(s') && KeptOk(s')
  {
    EmitFrame(s, s', e);
    match e
    case Create(l, u) => MarkersAppend(s, s', l, Up(u));
    case WriteInode(u) => MarkersElsewhere(s, s');
    case Update(l, u) => MarkersAppend(s, s', l, Up(u));
    case Unlink(l, u, tombstone) => MarkersAppend(s, s', l, Down(u, tombstone));
  }

  lemma RefoldAttentive(s: State, s': State, l: Loc, f: DebtId)
    requires MarkersOk(s) && KeptOk(s) && Refolds(s, s', l, f)
    ensures RefoldSafe(s, l) && MarkersOk(s') && KeptOk(s')
  {
    MarkersElsewhere(s, s');
  }

  lemma CompactAttentive(s: State, s': State, c: Compaction)
    requires MarkersOk(s) && KeptOk(s) && CompactNext(s, s', c) && Attentive(s, Compacts(c))
    ensures CompactSafe(s, c) && MarkersOk(s') && KeptOk(s')
  {
    match c
    case Fold(l, k, f) =>
      FoldIsSafe(s, l, k);
      MarkersFold(s, s', l, k, f);
    case Refold(l, f) => RefoldAttentive(s, s', l, f);
    case Collect(l) => MarkersElsewhere(s, s');
    case Bury(f) => MarkersAppend(s, s', f.loc, Down(s.debts[f].uuid, true));
    case Pay(f) => MarkersElsewhere(s, s');
    case Forget(f) => MarkersElsewhere(s, s');
  }

  /** A link call changes no entry with anything pending, and covers no kept tombstone. */
  lemma LinkEntries(s: State, s': State, p: Pid, c: Call)
    requires LinkNext(s, s', p, c) && AttentiveLink(s, p, c)
    ensures forall l :: Todo(s, l) != [] || l in s.kept ==> Get(s'.index, l) == Get(s.index, l)
  {
    match c
    case Start(l, u) =>
    case Bump => BumpFrame(s, s', p);
    case Insert(conflict) => InsertEntries(s, s', p, conflict);
    case Rollback(failed) =>
    case Crash =>
  }

  lemma InsertEntries(s: State, s': State, p: Pid, conflict: bool)
    requires Inserts(s, s', p, conflict) && s.links[p].loc !in s.kept
    ensures forall l :: Todo(s, l) != [] || l in s.kept ==> Get(s'.index, l) == Get(s.index, l)
  {
    if s.links[p].loc in s.index || conflict {
      assert s'.index == s.index;
    } else {
      assert s'.index == s.index[s.links[p].loc := s.links[p].uuid];
    }
  }

  lemma EntriesKeep(s: State, s': State)
    requires KeptOk(s) && s'.kept == s.kept
    requires forall l :: l in s.kept ==> Get(s'.index, l) == Get(s.index, l)
    ensures KeptOk(s')
  {
    forall l | l in s'.kept ensures l !in s'.index {
      assert Get(s'.index, l) == Get(s.index, l) == None;
    }
  }

  lemma LinkAttentive(s: State, s': State, p: Pid, c: Call)
    requires MarkersOk(s) && KeptOk(s) && LinkNext(s, s', p, c) && AttentiveLink(s, p, c)
    ensures MarkersOk(s') && KeptOk(s')
  {
    LinkFrame(s, s', p, c);
    LinkEntries(s, s', p, c);
    EntriesKeep(s, s');
    MarkersElsewhere(s, s');
  }

  lemma AddAttentive(s: State, s': State, p: Pid)
    requires MarkersOk(s) && KeptOk(s) && RenameNext(s, s', Add(p)) && AttentiveRename(s, Add(p))
    ensures AddSafe(s, p) && MarkersOk(s') && KeptOk(s')
  {
    forall l, u | Todo(s, l) != [] && Leaving(s', l, u) ensures Leaving(s, l, u) { AddLeaves(s, s', p, l, u); }
    MarkersElsewhere(s, s');
    EntriesKeep(s, s');
  }

  lemma OtherRenames(s: State, s': State, r: Renaming)
    requires RenameNext(s, s', r) && AttentiveRename(s, r) && !r.Add?
    ensures forall l :: Todo(s, l) != [] || (l in s.kept && l !in s.index) ==> Get(s'.index, l) == Get(s.index, l)
    ensures forall l, u :: Leaving(s', l, u) ==> Leaving(s, l, u)
  {
    forall l, u | Leaving(s', l, u) ensures Leaving(s, l, u) {
      var q :| q in s'.moves && s'.moves[q].added && s'.moves[q].src == l && s'.moves[q].uuid == u;
      assert q in s.moves && s.moves[q] == s'.moves[q];
    }
  }

  lemma RenameAttentive(s: State, s': State, r: Renaming)
    requires MarkersOk(s) && KeptOk(s) && RenameNext(s, s', r) && AttentiveRename(s, r)
    ensures RenameSafe(s, r) && MarkersOk(s') && KeptOk(s')
  {
    if r.Add? {
      AddAttentive(s, s', r.p);
    } else {
      RenameFrame(s, s', r);
      OtherRenames(s, s', r);
      EntriesKeep(s, s');
      MarkersElsewhere(s, s');
    }
  }

  /** A step whose caller looks first is safe, and leaves the next caller the same. */
  lemma AttentiveStep(s: State, s': State, step: Step)
    requires MarkersOk(s) && KeptOk(s) && NextAny(s, s', step) && Attentive(s, step)
    ensures Next(s, s', step) && MarkersOk(s') && KeptOk(s')
  {
    match step
    case Emits(e) => EmitAttentive(s, s', e);
    case Compacts(c) => CompactAttentive(s, s', c);
    case Links(p, call) => LinkAttentive(s, s', p, call);
    case Renames(r) => RenameAttentive(s, s', r);
    case Collects(g) =>
      GcFrame(s, s', g);
      MarkersElsewhere(s, s');
  }

  /** A run in which nothing is asked of the counts. */
  ghost predicate IsAnyRun(run: seq<State>, steps: seq<Step>) {
    && |run| == |steps| + 1 && Init(run[0])
    && forall j {:trigger steps[j]} :: 0 <= j < |steps| ==> NextAny(run[j], run[j + 1], steps[j])
  }

  ghost predicate AttentiveRun(run: seq<State>, steps: seq<Step>) {
    forall j {:trigger steps[j]} :: 0 <= j < |steps| && j < |run| ==> Attentive(run[j], steps[j])
  }

  lemma {:induction false} AttentiveMarkers(run: seq<State>, steps: seq<Step>, i: nat)
    requires IsAnyRun(run, steps) && AttentiveRun(run, steps) && i < |run|
    ensures MarkersOk(run[i]) && KeptOk(run[i])
  {
    if i > 0 {
      AttentiveMarkers(run, steps, i - 1);
      AttentiveStep(run[i - 1], run[i], steps[i - 1]);
    }
  }

  /**
   * Every step is safe, and so everything proved of runs holds, in every run whose callers look
   * first: unlink, create anew, unlink, compact once included.
   */
  lemma AttentiveRunsAreSafe(run: seq<State>, steps: seq<Step>)
    requires IsAnyRun(run, steps) && AttentiveRun(run, steps)
    ensures IsRun(run, steps)
  {
    forall j | 0 <= j < |steps| ensures Next(run[j], run[j + 1], steps[j]) {
      AttentiveMarkers(run, steps, j);
      AttentiveStep(run[j], run[j + 1], steps[j]);
    }
  }

  // ----- what goes wrong otherwise -----

  /** Two files, each with one name and one link counted. */
  ghost function Two(l: Loc, w: Uuid, m: Loc, v: Uuid): State {
    State(map[l := w, m := v], map[], map[], map[v := Live(1), w := Live(1)], map[], map[], {}, map[], map[])
  }

  /** One file with one name and one link counted. */
  ghost function One(l: Loc, u: Uuid): State {
    State(map[l := u], map[], map[], map[u := Live(1)], map[], map[], {}, map[], map[])
  }

  /** The index names `u` under `l` and no link of it is counted. */
  ghost predicate Undercounted(s: State, l: Loc, u: Uuid) {
    Get(s.index, l) == Some(u) && Nlink(s, u) == 0 && !Covered(s)
  }

  lemma UncountedName(s: State, l: Loc, u: Uuid)
    requires Get(s.index, l) == Some(u) && Nlink(s, u) == 0 && !Leaving(s, l, u)
    ensures Undercounted(s, l, u)
  {
    assert Chain(s, l)[0] == Some(u);
    WeightPositive(s, l, u);
    NamesCount(s, u, {l});
    assert Claims(s, u) > Nlink(s, u);
  }

  /** A marker for `v` under a name bound to `w`, folded, buried and paid, leaves `v` uncounted under `m`. */
  lemma StaleMarkerUndercounts(l: Loc, v: Uuid, m: Loc, w: Uuid, s1: State, s2: State, s3: State, s4: State)
    requires l != m && v != w
    requires EmitNext(Two(l, w, m, v), s1, Unlink(l, v, false))
    requires Folds(s1, s2, l, 1, DebtId(l, 0)) && Buries(s2, s3, DebtId(l, 0)) && CompactNext(s3, s4, Pay(DebtId(l, 0)))
    ensures Undercounted(s4, m, v)
  {
    assert s2.debts == map[DebtId(l, 0) := Debt(v, false)];
    UncountedName(s4, m, v);
  }

  /** An update announced after the unlink brings the name back with its link paid off. */
  lemma LateUpdateUndercounts(l: Loc, u: Uuid, s1: State, s2: State, s3: State, s4: State, s5: State, s6: State)
    requires EmitNext(One(l, u), s1, Unlink(l, u, false)) && EmitNext(s1, s2, Update(l, u))
    requires Folds(s2, s3, l, 1, DebtId(l, 0)) && Buries(s3, s4, DebtId(l, 0)) && CompactNext(s4, s5, Pay(DebtId(l, 0)))
    requires Folds(s5, s6, l, 1, DebtId(l, 1))
    ensures Undercounted(s6, l, u)
  {
    assert Todo(s2, l) == [Down(u, false), Up(u)];
    assert s3.debts == map[DebtId(l, 0) := Debt(u, false)];
    assert Todo(s5, l) == [Up(u), Down(u, true)];
    UncountedName(s6, l, u);
  }

  /** A link made over a kept tombstone is taken out by the next compaction, at the cost of the tombstone's child. */
  lemma LinkOverTombstoneUndercounts(l: Loc, v: Uuid, m: Loc, w: Uuid, s0: State, s1: State, s2: State)
    requires l != m && v != w && s0 == Two(l, w, m, v).(kept := map[l := v])
    requires Refolds(s0, s1, l, DebtId(l, 0)) && CompactNext(s1, s2, Pay(DebtId(l, 0)))
    ensures Undercounted(s2, m, v)
  {
    assert s1.debts == map[DebtId(l, 0) := Debt(v, true)];
    UncountedName(s2, m, v);
  }

  /** A source unlinked, folded and paid after the recheck leaves the destination, once added, uncounted. */
  lemma SourceUnlinkedBeforeAdd(a: Loc, b: Loc, u: Uuid, s1: State, s2: State, s3: State, s4: State, s5: State, s6: State)
    requires a != b && RenameNext(One(a, u), s1, Recheck(0, a, b)) && EmitNext(s1, s2, Unlink(a, u, false))
    requires Folds(s2, s3, a, 1, DebtId(a, 0)) && Buries(s3, s4, DebtId(a, 0)) && CompactNext(s4, s5, Pay(DebtId(a, 0)))
    requires RenameNext(s5, s6, Add(0))
    ensures Undercounted(s6, b, u)
  {
    assert s1.moves == map[0 := Move(a, b, u, false)];
    assert s3.debts == map[DebtId(a, 0) := Debt(u, false)];
    assert s6.moves == map[0 := Move(a, b, u, true)];
    UncountedName(s6, b, u);
  }

  /** And so does one unlinked, folded and paid between the two halves of the rename. */
  lemma SourceUnlinkedMidMove(a: Loc, b: Loc, u: Uuid, s0: State, s1: State, s2: State, s3: State, s4: State)
    requires a != b && s0 == One(a, u).(index := map[a := u, b := u], moves := map[0 := Move(a, b, u, true)])
    requires EmitNext(s0, s1, Unlink(a, u, false))
    requires Folds(s1, s2, a, 1, DebtId(a, 0)) && Buries(s2, s3, DebtId(a, 0)) && CompactNext(s3, s4, Pay(DebtId(a, 0)))
    ensures Undercounted(s4, b, u)
  {
    assert s2.debts == map[DebtId(a, 0) := Debt(u, false)];
    UncountedName(s4, b, u);
  }
}
