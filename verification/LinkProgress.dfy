/** What a hard link, an unlink and a rename achieve when nobody gets in their way. */
module LinkProgress {
  import opened Names
  import opened LinkProtocol
  import opened LinkWeights
  import opened LinkInvariant

  lemma ThreeSteps(s: State, s1: State, s2: State, s3: State, a: Step, b: Step, c: Step)
    requires Next(s, s1, a) && Next(s1, s2, b) && Next(s2, s3, c)
    ensures Follows([s, s1, s2, s3], [a, b, c])
  {
  }

  // ----- hard links -----

  lemma LinkBumps(s: State, p: Pid, l: Loc, u: Uuid) returns (s1: State, s2: State)
    requires p !in s.links && l !in s.index && IsLive(s, u) && !Condemned(s, u)
    ensures Next(s, s1, Links(p, Start(l, u))) && Next(s1, s2, Links(p, Bump))
    ensures s2 == s.(files := s.files[u := Live(s.files[u].nlink + 1)], links := s.links[p := Bumped(l, u, 0)])
  {
    s1 := s.(links := s.links[p := Checked(l, u)]);
    s2 := s1.(files := s1.files[u := Live(s.files[u].nlink + 1)], links := s1.links[p := Bumped(l, u, 0)]);
    assert Condemned(s1, u) ==> Condemned(s, u);
    assert Bumps(s1, s2, p);
    assert s1.links[p := Bumped(l, u, 0)] == s.links[p := Bumped(l, u, 0)];
  }

  /**
   * A link to a free name of a file that is there commits: the name is bound and counted, and
   * nothing else changes. Readers see it unless a tombstone of the name is still to be collected.
   */
  lemma LinkCompletes(s: State, p: Pid, l: Loc, u: Uuid) returns (run: seq<State>, steps: seq<Step>)
    requires p !in s.links && l !in s.index && Todo(s, l) == [] && IsLive(s, u) && !Condemned(s, u)
    ensures Follows(run, steps) && run[0] == s
    ensures run[|run| - 1] == s.(index := s.index[l := u], files := s.files[u := Live(s.files[u].nlink + 1)])
    ensures Shows(run[|run| - 1], l) == if l in s.kept then None else Some(u)
  {
    var s1, s2 := LinkBumps(s, p, l, u);
    var s3 := s.(index := s.index[l := u], files := s2.files);
    assert Without(s2.links, p) == s.links;
    assert Inserts(s2, s3, p, false);
    run, steps := [s, s1, s2, s3], [Links(p, Start(l, u)), Links(p, Bump), Links(p, Insert(false))];
    ThreeSteps(s, s1, s2, s3, steps[0], steps[1], steps[2]);
  }

  /** A link that finds its name taken undoes its bump. */
  lemma RefusedLinkUndoes(s: State, p: Pid) returns (run: seq<State>, steps: seq<Step>)
    requires p in s.links && s.links[p].Bumped? && s.links[p].loc in s.index
    requires IsLive(s, s.links[p].uuid) && s.files[s.links[p].uuid].nlink > 0
    ensures Follows(run, steps) && run[0] == s
    ensures var u := s.links[p].uuid;
      run[|run| - 1] == s.(links := Without(s.links, p), files := s.files[u := Live(s.files[u].nlink - 1)])
  {
    var u := s.links[p].uuid;
    var s1 := s.(links := s.links[p := RollingBack(u)]);
    var s2 := s.(links := Without(s.links, p), files := s.files[u := Live(s.files[u].nlink - 1)]);
    assert Without(s1.links, p) == Without(s.links, p);
    run, steps := [s, s1, s2], [Links(p, Insert(false)), Links(p, Rollback(false))];
    assert Next(s, s1, steps[0]) && Next(s1, s2, steps[1]);
  }

  /** A link under way began on a name that was free. */
  lemma {:induction false} LinkBeganFree(run: seq<State>, steps: seq<Step>, i: nat, p: Pid) returns (j: nat)
    requires IsRun(run, steps) && i < |run| && p in run[i].links && !run[i].links[p].RollingBack?
    ensures j < i && steps[j] == Links(p, Start(run[i].links[p].loc, run[i].links[p].uuid))
    ensures run[i].links[p].loc !in run[j].index
  {
    var s, s', step := run[i - 1], run[i], steps[i - 1];
    assert Next(s, s', step);
    if step.Links? && step.p == p && step.call.Start? {
      j := i - 1;
    } else {
      SameLink(s, s', step, p);
      j := LinkBeganFree(run, steps, i - 1, p);
    }
  }

  lemma SameLink(s: State, s': State, step: Step, p: Pid)
    requires NextAny(s, s', step) && !(step.Links? && step.p == p && step.call.Start?)
    requires p in s'.links && !s'.links[p].RollingBack?
    ensures p in s.links && !s.links[p].RollingBack?
    ensures s.links[p].loc == s'.links[p].loc && s.links[p].uuid == s'.links[p].uuid
  {
    if !step.Links? {
      OthersLeaveLinks(s, s', step);
    } else if step.p != p {
      OtherCallsLeave(s, s', step.p, step.call, p);
    } else {
      match step.call
      case Bump => assert Bumps(s, s', p);
      case Insert(conflict) => assert Inserts(s, s', p, conflict);
      case Rollback(_) =>
      case Crash =>
    }
  }

  /** The insert meets a flush of somebody else's on its directory. */
  ghost predicate Loses(s: State, step: Step, p: Pid) {
    step == Links(p, Insert(true)) && p in s.links && s.links[p].Bumped? && s.links[p].loc !in s.index
  }

  /** How often it has since its bump. */
  ghost function Losses(run: seq<State>, steps: seq<Step>, i: nat, p: Pid): nat
    requires i <= |steps| && i <= |run|
  {
    if i == 0 || steps[i - 1] == Links(p, Bump) then 0
    else Losses(run, steps, i - 1, p) + if Loses(run[i - 1], steps[i - 1], p) then 1 else 0
  }

  ghost predicate Inserting(s: State, p: Pid) {
    p in s.links && s.links[p].Bumped?
  }

  lemma OthersLeaveLinks(s: State, s': State, step: Step)
    requires NextAny(s, s', step) && !step.Links?
    ensures s'.links == s.links
  {
    match step
    case Emits(e) => EmitFrame(s, s', e);
    case Compacts(c) => CompactFrame(s, s', c);
    case Renames(r) => RenameFrame(s, s', r);
    case Collects(g) => GcFrame(s, s', g);
  }

  lemma AttemptStep(s: State, s': State, step: Step, p: Pid)
    requires NextAny(s, s', step) && Inserting(s', p)
    ensures if step == Links(p, Bump) then s'.links[p].attempt == 0
      else Inserting(s, p) && s'.links[p].attempt == s.links[p].attempt + if Loses(s, step, p) then 1 else 0
  {
    if !step.Links? {
      OthersLeaveLinks(s, s', step);
    } else if step.p != p {
      OtherCallsLeave(s, s', step.p, step.call, p);
    } else {
      OwnCallAttempts(s, s', step.call, p);
    }
  }

  lemma OtherCallsLeave(s: State, s': State, q: Pid, call: Call, p: Pid)
    requires LinkNext(s, s', q, call) && q != p && p in s'.links
    ensures p in s.links && s'.links[p] == s.links[p]
  {
    match call
    case Start(_, _) =>
    case Bump => assert Bumps(s, s', q);
    case Insert(conflict) => assert Inserts(s, s', q, conflict);
    case Rollback(_) =>
    case Crash =>
  }

  lemma OwnCallAttempts(s: State, s': State, call: Call, p: Pid)
    requires LinkNext(s, s', p, call) && Inserting(s', p)
    ensures if call == Bump then s'.links[p].attempt == 0
      else Inserting(s, p) && s'.links[p].attempt == s.links[p].attempt + 1 && Loses(s, Links(p, call), p)
  {
    match call
    case Start(_, _) =>
    case Bump => assert Bumps(s, s', p);
    case Insert(conflict) => InsertAttempts(s, s', conflict, p);
    case Rollback(_) =>
    case Crash =>
  }

  lemma InsertAttempts(s: State, s': State, conflict: bool, p: Pid)
    requires Inserts(s, s', p, conflict) && Inserting(s', p)
    ensures Inserting(s, p) && s'.links[p].attempt == s.links[p].attempt + 1 && s.links[p].loc !in s.index && conflict
  {
  }

  lemma {:induction false} AttemptsAreLosses(run: seq<State>, steps: seq<Step>, i: nat, p: Pid)
    requires IsRun(run, steps) && i < |run| && Inserting(run[i], p)
    ensures run[i].links[p].attempt == Losses(run, steps, i, p)
  {
    if i > 0 {
      assert Next(run[i - 1], run[i], steps[i - 1]);
      AttemptStep(run[i - 1], run[i], steps[i - 1], p);
      if steps[i - 1] != Links(p, Bump) {
        AttemptsAreLosses(run, steps, i - 1, p);
      }
    }
  }

  /** A link whose insert loses tries again, until it has lost five times; then it rolls back. */
  lemma RollsBackAfterFive(run: seq<State>, steps: seq<Step>, i: nat, p: Pid)
    requires IsRun(run, steps) && i < |steps| && Loses(run[i], steps[i], p)
    ensures p in run[i + 1].links && run[i + 1].files == run[i].files && run[i + 1].index == run[i].index
    ensures if Losses(run, steps, i, p) + 1 < 5 then run[i + 1].links[p].Bumped? else run[i + 1].links[p] == RollingBack(run[i].links[p].uuid)
  {
    AttemptsAreLosses(run, steps, i, p);
    assert Next(run[i], run[i + 1], steps[i]);
  }

  // ----- unlink, compaction, collection -----

  /** A PreDelete of a file's name, folded: the name is out and the debt recorded. */
  lemma UnlinkFolds(s: State, l: Loc, u: Uuid, f: DebtId) returns (run: seq<State>, steps: seq<Step>)
    requires Get(s.index, l) == Some(u) && Todo(s, l) == [] && l !in s.kept && !Leaving(s, l, u)
    requires f !in s.debts && f.loc == l
    ensures Follows(run, steps) && run[0] == s
    ensures run[|run| - 1] == s.(index := Without(s.index, l), todo := s.todo[l := []], debts := s.debts[f := Debt(u, false)])
  {
    var s1 := s.(todo := s.todo[l := [Down(u, false)]]);
    var s2 := s.(index := Without(s.index, l), todo := s.todo[l := []], debts := s.debts[f := Debt(u, false)]);
    run, steps := [s, s1, s2], [Emits(Unlink(l, u, false)), Compacts(Fold(l, 1, f))];
    assert [] + [Down(u, false)] == [Down(u, false)];
    assert Next(s, s1, steps[0]);
    assert Todo(s1, l) == [Down(u, false)] && Todo(s1, l)[1..] == [];
    assert s1.todo[l := []] == s2.todo && Without(s.kept, l) == s.kept;
    assert Folds(s1, s2, l, 1, f);
    assert FoldSafe(s1, l, 1) by {
      assert Chain(s1, l)[..1][0] == Some(u);
      assert Leaving(s1, l, u) ==> Leaving(s, l, u);
    }
    assert Next(s1, s2, steps[1]);
  }

  /** Phase 2, its tombstone folded and collected, and the debt paid: the file counts one link less. */
  lemma DebtSettles(s: State, f: DebtId, f': DebtId) returns (run: seq<State>, steps: seq<Step>)
    requires f in s.debts && s.debts[f] == Debt(s.debts[f].uuid, false) && f' !in s.debts && f'.loc == f.loc
    requires f.loc !in s.index && f.loc in s.todo && s.todo[f.loc] == [] && f.loc !in s.kept
    requires IsLive(s, s.debts[f].uuid) && s.files[s.debts[f].uuid].nlink > 0
    ensures Follows(run, steps) && run[0] == s
    ensures var u := s.debts[f].uuid;
      run[|run| - 1] == s.(debts := Without(s.debts, f), buried := s.buried + {u}, files := s.files[u := Live(s.files[u].nlink - 1)])
  {
    var l, u := f.loc, s.debts[f].uuid;
    var s1 := s.(debts := s.debts[f := Debt(u, true)], todo := s.todo[l := [Down(u, true)]], buried := s.buried + {u});
    var s2 := s1.(todo := s.todo, kept := s.kept[l := u]);
    var s3 := s2.(debts := Without(s.debts, f), files := s.files[u := Live(s.files[u].nlink - 1)]);
    var s4 := s3.(kept := s.kept);
    assert [] + [Down(u, true)] == [Down(u, true)];
    assert Buries(s, s1, f);
    assert Todo(s1, l) == [Down(u, true)] && Todo(s1, l)[1..] == [] && s1.todo[l := []] == s.todo;
    assert Without(s1.index, l) == s.index;
    assert Folds(s1, s2, l, 1, f');
    assert Without(s2.debts, f) == s3.debts && Without(s3.kept, l) == s.kept;
    var a, b, c, d := Compacts(Bury(f)), Compacts(Fold(l, 1, f')), Compacts(Pay(f)), Compacts(Collect(l));
    assert Next(s, s1, a) && Next(s1, s2, b) && Next(s2, s3, c) && Next(s3, s4, d);
    run, steps := [s, s1, s2, s3, s4], [a, b, c, d];
  }

  /** A buried file that counts no link, or whose inode is gone, is collected. */
  lemma CollectionCompletes(s: State, g: Pid, u: Uuid) returns (run: seq<State>, steps: seq<Step>)
    requires g !in s.sweeps && u in s.buried && (IsLive(s, u) ==> s.files[u].nlink == 0)
    ensures Follows(run, steps) && run[0] == s
    ensures run[|run| - 1] == s.(files := s.files[u := Reclaimed])
  {
    var s1 := s.(sweeps := s.sweeps[g := u]);
    var s2 := s.(files := s.files[u := Reclaimed]);
    assert Without(s1.sweeps, g) == s.sweeps;
    var a, b := Collects(Sweep(g, u)), Collects(Reclaim(g));
    assert Next(s, s1, a) && Next(s1, s2, b);
    run, steps := [s, s1, s2], [a, b];
  }

  lemma Chained(run: seq<State>, steps: seq<Step>, run': seq<State>, steps': seq<Step>)
    requires Follows(run, steps) && Follows(run', steps') && run[|run| - 1] == run'[0]
    ensures Follows(run + run'[1..], steps + steps')
  {
    var all, more := run + run'[1..], steps + steps';
    forall j | 0 <= j < |more| ensures Next(all[j], all[j + 1], more[j]) {
      if j < |steps| {
        assert all[j] == run[j] && all[j + 1] == run[j + 1] && more[j] == steps[j];
      } else {
        var k := j - |steps|;
        assert all[j] == run'[k] && all[j + 1] == run'[k + 1] && more[j] == steps'[k];
      }
    }
  }

  lemma UnlinkSettles(s: State, l: Loc, u: Uuid) returns (run: seq<State>, steps: seq<Step>)
    requires Get(s.index, l) == Some(u) && Todo(s, l) == [] && l !in s.kept && !Leaving(s, l, u)
    requires IsLive(s, u) && s.files[u].nlink > 0 && forall f :: f in s.debts ==> f.loc != l
    ensures Follows(run, steps) && run[0] == s
    ensures run[|run| - 1] == s.(index := Without(s.index, l), todo := s.todo[l := []], buried := s.buried + {u},
      files := s.files[u := Live(s.files[u].nlink - 1)])
  {
    var f, f' := DebtId(l, 0), DebtId(l, 1);
    run, steps := UnlinkFolds(s, l, u, f);
    var m := run[|run| - 1];
    var run1, steps1 := DebtSettles(m, f, f');
    Chained(run, steps, run1, steps1);
    assert Without(m.debts, f) == s.debts;
    run, steps := run + run1[1..], steps + steps1;
    assert run[|run| - 1] == run1[|run1| - 1];
  }

  /**
   * From the unlink to the end: the name is out of the index, nothing of it is left to fold, to
   * collect or to pay, and the file counts one link less, or is reclaimed if that was its last.
   */
  lemma UnlinkCompletes(s: State, l: Loc, u: Uuid, g: Pid) returns (run: seq<State>, steps: seq<Step>)
    requires Get(s.index, l) == Some(u) && Todo(s, l) == [] && l !in s.kept && !Leaving(s, l, u)
    requires IsLive(s, u) && s.files[u].nlink > 0 && g !in s.sweeps
    requires forall f :: f in s.debts ==> f.loc != l
    ensures Follows(run, steps) && run[0] == s
    ensures run[|run| - 1] == s.(index := Without(s.index, l), todo := s.todo[l := []], buried := s.buried + {u},
      files := s.files[u := if s.files[u].nlink == 1 then Reclaimed else Live(s.files[u].nlink - 1)])
  {
    run, steps := UnlinkSettles(s, l, u);
    var e := run[|run| - 1];
    if s.files[u].nlink == 1 {
      var run2, steps2 := CollectionCompletes(e, g, u);
      Chained(run, steps, run2, steps2);
      run, steps := run + run2[1..], steps + steps2;
      assert run[|run| - 1] == run2[|run2| - 1];
    }
  }

  // ----- renames -----

  /** A rename across directories moves the binding, and only that. */
  lemma RenameCompletes(s: State, p: Pid, a: Loc, b: Loc) returns (run: seq<State>, steps: seq<Step>)
    requires p !in s.moves && a in s.index && a != b && SourceFree(s, a) && Todo(s, a) == [] && Todo(s, b) == []
    ensures Follows(run, steps) && run[0] == s
    ensures run[|run| - 1] == s.(index := Without(s.index, a)[b := s.index[a]])
  {
    var u := s.index[a];
    var s1 := s.(moves := s.moves[p := Move(a, b, u, false)]);
    var s2 := s.(index := s.index[b := u], moves := s.moves[p := Move(a, b, u, true)]);
    var s3 := s.(index := Without(s.index, a)[b := u]);
    AddFollows(s, s1, s2, p, a, b);
    RemoveFollows(s, s2, s3, p, a, b);
    var x, y, z := Renames(Recheck(p, a, b)), Renames(Add(p)), Renames(Remove(p));
    run, steps := [s, s1, s2, s3], [x, y, z];
    ThreeSteps(s, s1, s2, s3, x, y, z);
  }

  lemma RemoveFollows(s: State, s2: State, s3: State, p: Pid, a: Loc, b: Loc)
    requires p !in s.moves && a in s.index && a != b && Todo(s, a) == []
    requires s2 == s.(index := s.index[b := s.index[a]], moves := s.moves[p := Move(a, b, s.index[a], true)])
    requires s3 == s.(index := Without(s.index, a)[b := s.index[a]])
    ensures Next(s2, s3, Renames(Remove(p)))
  {
    WithoutOther(s.index, a, b, s.index[a]);
    WithoutAdded(s.moves, p, s2.moves[p]);
    assert RenameNext(s2, s3, Remove(p));
  }

  lemma WithoutAdded<K, V>(m: map<K, V>, k: K, v: V)
    requires k !in m
    ensures Without(m[k := v], k) == m
  {
  }

  lemma WithoutOther<K, V>(m: map<K, V>, a: K, b: K, v: V)
    requires a != b
    ensures Without(m[b := v], a) == Without(m, a)[b := v]
  {
  }

  lemma AddFollows(s: State, s1: State, s2: State, p: Pid, a: Loc, b: Loc)
    requires p !in s.moves && a in s.index && a != b && SourceFree(s, a) && Todo(s, a) == [] && Todo(s, b) == []
    requires s1 == s.(moves := s.moves[p := Move(a, b, s.index[a], false)])
    requires s2 == s.(index := s.index[b := s.index[a]], moves := s.moves[p := Move(a, b, s.index[a], true)])
    ensures Next(s, s1, Renames(Recheck(p, a, b))) && Next(s1, s2, Renames(Add(p)))
  {
    var u := s.index[a];
    WeightOfEntry(s1, a, u);
    assert !Leaving(s1, a, u);
    assert s1.moves[p := Move(a, b, u, true)] == s2.moves;
    assert RenameNext(s1, s2, Add(p)) && AddSafe(s1, p);
  }
}
