/** Move-once: what holds in every run of the rename protocol, and exactly when recovery is safe. */
module RenameTheorems {
  import opened Names
  import opened Counting
  import opened RenameProtocol

  lemma {:induction false} FollowsKeeps(m: Move, run: seq<State>, steps: seq<Step>, i: nat)
    requires Follows(m, run, steps) && i < |run| && Inv(m, run[0])
    ensures Inv(m, run[i])
  {
    if i > 0 {
      FollowsKeeps(m, run, steps, i - 1);
      StepKeeps(m, run[i - 1], run[i], steps[i - 1]);
    }
  }

  lemma StepOnlyGrows(m: Move, s: State, s': State, step: Step)
    requires Next(m, s, s', step)
    ensures s.committed <= s'.committed && s.landed <= s'.landed
  {
  }

  lemma {:induction false} RunOnlyGrows(m: Move, run: seq<State>, steps: seq<Step>, j: nat, k: nat)
    requires Follows(m, run, steps) && j <= k < |run|
    ensures run[j].committed <= run[k].committed && run[j].landed <= run[k].landed
  {
    if j < k {
      RunOnlyGrows(m, run, steps, j, k - 1);
      StepOnlyGrows(m, run[k - 1], run[k], steps[k - 1]);
    }
  }

  ghost predicate NamesChild(m: Move, s: State, l: Loc) {
    Get(s.names, l) == Some(m.child)
  }

  ghost predicate OnlyName(m: Move, s: State, l: Loc) {
    NamesChild(m, s, l) && forall k :: NamesChild(m, s, k) ==> k == l
  }

  /** In every state of every run without an intent, at most one location names the child. */
  lemma OneNameAtRest(m: Move, run: seq<State>, steps: seq<Step>, i: nat, k: Loc, l: Loc)
    requires IsRun(m, run, steps) && i < |run| && run[i].intent == None
    requires NamesChild(m, run[i], k) && NamesChild(m, run[i], l)
    ensures k == l
  {
    FollowsKeeps(m, run, steps, i);
    if m.src in run[i].names {
      assert run[i].landed == {};
    }
  }

  /** Nobody else writes over a location while it names the child. */
  ghost predicate LeftAlone(m: Move, run: seq<State>, steps: seq<Step>) {
    forall j {:trigger steps[j]} :: 0 <= j < |steps| && j < |run| && steps[j].ElsewhereStep? ==>
      !NamesChild(m, run[j], steps[j].l)
  }

  ghost predicate LandedHolds(m: Move, s: State) {
    forall l :: l in s.landed ==> NamesChild(m, s, l)
  }

  lemma StepHolds(m: Move, s: State, s': State, step: Step)
    requires Inv(m, s) && LandedHolds(m, s) && Next(m, s, s', step)
    requires step.ElsewhereStep? ==> !NamesChild(m, s, step.l)
    ensures LandedHolds(m, s')
  {
    forall l | l in s'.landed ensures NamesChild(m, s', l) {
      if l in s.landed {
        assert l != m.src;
      }
    }
  }

  lemma {:induction false} RunHolds(m: Move, run: seq<State>, steps: seq<Step>, i: nat)
    requires IsRun(m, run, steps) && i < |run| && LeftAlone(m, run, steps)
    ensures LandedHolds(m, run[i])
  {
    if i > 0 {
      RunHolds(m, run, steps, i - 1);
      FollowsKeeps(m, run, steps, i - 1);
      StepHolds(m, run[i - 1], run[i], steps[i - 1]);
    }
  }

  /**
   * In every state of every run that leaves the landed child alone, the child has a name, and
   * just one whenever no intent is left.
   */
  lemma NeverUnreachable(m: Move, run: seq<State>, steps: seq<Step>, i: nat)
    requires IsRun(m, run, steps) && i < |run| && LeftAlone(m, run, steps)
    ensures exists l :: NamesChild(m, run[i], l)
    ensures run[i].intent == None ==> exists l :: OnlyName(m, run[i], l)
  {
    FollowsKeeps(m, run, steps, i);
    RunHolds(m, run, steps, i);
    var s := run[i];
    if m.src in s.names {
      assert NamesChild(m, s, m.src);
      assert s.intent == None ==> OnlyName(m, s, m.src);
    } else {
      var l :| l in s.landed;
      assert OnlyName(m, s, l);
    }
  }

  /** Over a whole run, at most one location besides the source ever names the child. */
  lemma MoveOnce(m: Move, run: seq<State>, steps: seq<Step>, j: nat, k: nat, a: Loc, b: Loc)
    requires IsRun(m, run, steps) && j < |run| && k < |run|
    requires NamesChild(m, run[j], a) && NamesChild(m, run[k], b) && a != m.src && b != m.src
    ensures a == b
  {
    var last := |run| - 1;
    FollowsKeeps(m, run, steps, j);
    FollowsKeeps(m, run, steps, k);
    FollowsKeeps(m, run, steps, last);
    RunOnlyGrows(m, run, steps, j, last);
    RunOnlyGrows(m, run, steps, k, last);
  }

  /** The rename call `p` is past its recheck and applying its own intent. */
  ghost predicate Won(s: State, p: Pid) {
    && p in s.procs && (s.procs[p].Adding? || s.procs[p].Removing?)
    && s.procs[p].intent.claim == p
  }

  /** Over a whole run, at most one rename call gets past its recheck; the others fail. */
  lemma OneWinner(m: Move, run: seq<State>, steps: seq<Step>, j: nat, k: nat, p: Pid, q: Pid)
    requires IsRun(m, run, steps) && j < |run| && k < |run|
    requires Won(run[j], p) && Won(run[k], q)
    ensures p == q
  {
    var last := |run| - 1;
    FollowsKeeps(m, run, steps, j);
    FollowsKeeps(m, run, steps, k);
    FollowsKeeps(m, run, steps, last);
    RunOnlyGrows(m, run, steps, j, last);
    RunOnlyGrows(m, run, steps, k, last);
    assert ProcessOk(m, run[j], p, run[j].procs[p]) && ProcessOk(m, run[k], q, run[k].procs[q]);
  }

  /** The protocol's own steps rebind nothing but the source and the child's one destination. */
  lemma OthersUntouched(m: Move, s: State, s': State, step: Step, l: Loc)
    requires Inv(m, s) && Next(m, s, s', step) && !step.ElsewhereStep?
    requires Get(s'.names, l) != Get(s.names, l)
    ensures l == m.src || (NamesChild(m, s', l) && forall d :: d in s.landed ==> d == l)
  {
    StepKeeps(m, s, s', step);
  }

  // ----- a rename goes through -----

  /** In every run, removing the source removes it, and an intent is deleted only once that is done or its claim withdrawn. */
  lemma SourceIsRemoved(m: Move, run: seq<State>, steps: seq<Step>, j: nat)
    requires IsRun(m, run, steps) && j < |steps|
    ensures steps[j].RemoveSourceStep? ==> m.src !in run[j + 1].names
    ensures steps[j].DeleteIntentStep? ==> run[j + 1].intent == None
    ensures steps[j].DeleteIntentStep? && m.src in run[j].names ==>
      steps[j].p in run[j].procs && run[j].procs[steps[j].p].Withdrawing?
  {
    FollowsKeeps(m, run, steps, j);
    assert Next(m, run[j], run[j + 1], steps[j]);
  }

  /** The part of a rename after its recheck, or of a recovery after it has read the intent. */
  lemma ApplyGoesThrough(m: Move, s: State, p: Pid, i: Intent) returns (run: seq<State>, steps: seq<Step>)
    requires p in s.procs && s.procs[p] == Adding(i) && i.child == m.child && i.dst != m.src
    ensures Follows(m, run, steps) && run[0] == s
    ensures var t := run[|run| - 1];
      && t.names == Without(s.names, m.src)[i.dst := m.child]
      && t.intent == None && t.procs == Without(s.procs, p)
  {
    var s1 := s.(names := s.names[i.dst := i.child], procs := s.procs[p := Removing(i)], landed := s.landed + {i.dst});
    var s2 := s1.(names := Without(s1.names, m.src), procs := s1.procs[p := Releasing]);
    var s3 := s2.(intent := None, procs := Without(s2.procs, p));
    run, steps := [s, s1, s2, s3], [AddDestinationStep(p), RemoveSourceStep(p), DeleteIntentStep(p)];
    assert AddDestination(m, s, s1, p) && RemoveSource(m, s1, s2, p) && DeleteIntent(s2, s3, p);
    assert s3.procs == Without(s.procs, p);
    assert s3.names == Without(s.names, m.src)[i.dst := m.child];
  }

  /**
   * With the key free and the source bound, a rename left alone goes through: the child is at
   * the destination, the source and the intent are gone, and every other name is as it was.
   */
  lemma RenameGoesThrough(m: Move, s: State, q: Pid, d: Loc) returns (run: seq<State>, steps: seq<Step>)
    requires s.intent == None && Get(s.names, m.src) == Some(m.child) && q !in s.used && q !in s.procs && d != m.src
    ensures Follows(m, run, steps) && run[0] == s
    ensures var t := run[|run| - 1];
      t.names == Without(s.names, m.src)[d := m.child] && t.intent == None && t.procs == s.procs
  {
    var k := Intent(q, m.child, d);
    var s1 := s.(procs := s.procs[q := Seeking(d, 0)], used := s.used + {q});
    var s2 := s1.(procs := s1.procs[q := Ready(d, m.child, 0)]);
    var s3 := s2.(intent := Some(k), procs := s2.procs[q := Claimed(k)]);
    var s4 := s3.(procs := s3.procs[q := Adding(k)], committed := s3.committed + {k});
    assert Start(m, s, s1, q, d) && ReadSource(m, s1, s2, q) && Claim(s2, s3, q) && Recheck(m, s3, s4, q, false);
    run, steps := ApplyGoesThrough(m, s4, q, k);
    assert Without(s4.procs, q) == s.procs;
    Prepend(m, s3, RecheckStep(q, false), run, steps);
    run, steps := [s3] + run, [RecheckStep(q, false)] + steps;
    Prepend(m, s2, ClaimStep(q), run, steps);
    run, steps := [s2] + run, [ClaimStep(q)] + steps;
    Prepend(m, s1, ReadSourceStep(q), run, steps);
    run, steps := [s1] + run, [ReadSourceStep(q)] + steps;
    Prepend(m, s, StartStep(q, d), run, steps);
    run, steps := [s] + run, [StartStep(q, d)] + steps;
  }

  /** Whatever crashed, a recoverer left alone finishes the rename of a recoverable intent. */
  lemma RecoveryGoesThrough(m: Move, s: State, r: Pid) returns (run: seq<State>, steps: seq<Step>)
    requires Inv(m, s) && Recoverable(m, s) && r !in s.used
    ensures Follows(m, run, steps) && run[0] == s
    ensures var t := run[|run| - 1];
      t.names == Without(s.names, m.src)[s.intent.value.dst := m.child] && t.intent == None && t.procs == s.procs
  {
    var i := s.intent.value;
    var s1 := s.(procs := s.procs[r := Adding(i)], used := s.used + {r},
                 committed := if m.src in s.names && i.claim !in s.procs then s.committed + {i} else s.committed);
    assert TakeUp(m, s, s1, r);
    run, steps := ApplyGoesThrough(m, s1, r, i);
    assert Without(s1.procs, r) == s.procs;
    Prepend(m, s, RecoverStep(r), run, steps);
    run, steps := [s] + run, [RecoverStep(r)] + steps;
  }

  /** Wherever a rename crashes between its claim and the removal of its source, a recoverer finishes it. */
  lemma CrashedRenameRecovers(m: Move, s: State, p: Pid, r: Pid) returns (run: seq<State>, steps: seq<Step>)
    requires Inv(m, s) && m.src in s.names && s.intent.Some? && s.intent.value.claim == p && p in s.procs && r !in s.used
    ensures Follows(m, run, steps) && run[0] == s && |steps| > 0 && steps[0] == CrashStep(p)
    ensures var t := run[|run| - 1];
      t.names == Without(s.names, m.src)[s.intent.value.dst := m.child] && t.intent == None && t.procs == Without(s.procs, p)
  {
    var c := s.(procs := Without(s.procs, p));
    assert Crash(s, c, p);
    StepKeeps(m, s, c, CrashStep(p));
    run, steps := RecoveryGoesThrough(m, c, r);
    Prepend(m, s, CrashStep(p), run, steps);
    run, steps := [s] + run, [CrashStep(p)] + steps;
  }

  // ----- what a call leaves behind, and when it gives up -----

  /** An intent's claimant is still at work on it, unless it crashed or somebody else finished the rename. */
  lemma {:induction false} LeftoverMeansCrash(m: Move, run: seq<State>, steps: seq<Step>, i: nat)
    requires IsRun(m, run, steps) && i < |run| && run[i].intent.Some?
    ensures var c := run[i].intent.value.claim;
      c in run[i].procs || exists j :: 0 <= j < i && steps[j] == CrashStep(c)
  {
    if i > 0 {
      var s, s' := run[i - 1], run[i];
      var c := s'.intent.value.claim;
      assert Next(m, s, s', steps[i - 1]);
      FollowsKeeps(m, run, steps, i - 1);
      if s.intent == s'.intent {
        LeftoverMeansCrash(m, run, steps, i - 1);
        if c in s.procs {
          ClaimantStays(m, s, s', steps[i - 1]);
        }
      } else {
        ClaimIsOwn(m, s, s', steps[i - 1]);
      }
    }
  }

  lemma ClaimIsOwn(m: Move, s: State, s': State, step: Step)
    requires Next(m, s, s', step) && s'.intent.Some? && s'.intent != s.intent
    ensures s'.intent.value.claim in s'.procs
  {
  }

  lemma ClaimantStays(m: Move, s: State, s': State, step: Step)
    requires Inv(m, s) && Next(m, s, s', step) && s.intent.Some? && s'.intent == s.intent && s.intent.value.claim in s.procs
    ensures s.intent.value.claim in s'.procs || step == CrashStep(s.intent.value.claim)
  {
    assert ProcessOk(m, s, s.intent.value.claim, s.procs[s.intent.value.claim]);
  }

  /** The claim meets another rename's intent. */
  ghost predicate Loses(s: State, step: Step, p: Pid) {
    step == ClaimStep(p) && p in s.procs && s.procs[p].Ready? && s.intent.Some?
  }

  /** How often the rename has met one. Pids are not used twice. */
  ghost function Losses(run: seq<State>, steps: seq<Step>, i: nat, p: Pid): nat
    requires i <= |steps| && i <= |run|
  {
    if i == 0 then 0 else Losses(run, steps, i - 1, p) + if Loses(run[i - 1], steps[i - 1], p) then 1 else 0
  }

  ghost predicate Trying(s: State, p: Pid) {
    p in s.procs && (s.procs[p].Seeking? || s.procs[p].Ready?)
  }

  lemma AttemptStep(m: Move, s: State, s': State, step: Step, p: Pid)
    requires Next(m, s, s', step) && Trying(s', p)
    requires s.procs.Keys <= s.used
    ensures Trying(s, p) || (p !in s.used && s'.procs[p].attempt == 0)
    ensures Trying(s, p) ==> s'.procs[p].attempt == s.procs[p].attempt + if Loses(s, step, p) then 1 else 0
  {
  }

  lemma {:induction false} UnusedNeverTried(m: Move, run: seq<State>, steps: seq<Step>, i: nat, p: Pid)
    requires IsRun(m, run, steps) && i < |run| && p !in run[i].used
    ensures Losses(run, steps, i, p) == 0
  {
    if i > 0 {
      FollowsKeeps(m, run, steps, i - 1);
      UsedGrows(m, run[i - 1], run[i], steps[i - 1]);
      UnusedNeverTried(m, run, steps, i - 1, p);
    }
  }

  lemma UsedGrows(m: Move, s: State, s': State, step: Step)
    requires Next(m, s, s', step)
    ensures s.used <= s'.used
  {
  }

  lemma {:induction false} AttemptsAreLosses(m: Move, run: seq<State>, steps: seq<Step>, i: nat, p: Pid)
    requires IsRun(m, run, steps) && i < |run| && Trying(run[i], p)
    ensures run[i].procs[p].attempt == Losses(run, steps, i, p)
  {
    if i > 0 {
      FollowsKeeps(m, run, steps, i - 1);
      AttemptStep(m, run[i - 1], run[i], steps[i - 1], p);
      if Trying(run[i - 1], p) {
        AttemptsAreLosses(m, run, steps, i - 1, p);
      } else {
        UnusedNeverTried(m, run, steps, i - 1, p);
      }
    }
  }

  /** A rename whose claim loses reads its source again, until it has lost eight times. */
  lemma GivesUpAfterEight(m: Move, run: seq<State>, steps: seq<Step>, i: nat, p: Pid)
    requires IsRun(m, run, steps) && i < |steps| && Loses(run[i], steps[i], p)
    ensures Trying(run[i + 1], p) <==> Losses(run, steps, i, p) + 1 < 8
    ensures p !in run[i + 1].procs <==> Losses(run, steps, i, p) + 1 >= 8
    ensures run[i + 1].names == run[i].names && run[i + 1].intent == run[i].intent
  {
    AttemptsAreLosses(m, run, steps, i, p);
    assert Next(m, run[i], run[i + 1], steps[i]);
  }

  /** A rename that finds its source gone ends there and then, with nothing written. */
  lemma AbsentSourceEnds(m: Move, run: seq<State>, steps: seq<Step>, i: nat, p: Pid)
    requires IsRun(m, run, steps) && i < |steps| && steps[i] == ReadSourceStep(p)
    ensures p in run[i + 1].procs <==> m.src in run[i].names
    ensures run[i + 1].names == run[i].names && run[i + 1].intent == run[i].intent
  {
    assert Next(m, run[i], run[i + 1], steps[i]);
  }

  // ----- exactly when taking up an intent is safe -----

  /** The child has been put under two destinations. */
  ghost predicate Doubled(s: State) {
    exists a, b :: a in s.landed && b in s.landed && a != b
  }

  /** A run in which, first of all, some recoverer takes up the intent of `s`. */
  ghost predicate RecoveryRun(m: Move, s: State, run: seq<State>, steps: seq<Step>) {
    Follows(m, run, steps) && exists r :: TakeUp(m, s, run[0], r)
  }

  ghost predicate CanDouble(m: Move, s: State) {
    exists run, steps :: RecoveryRun(m, s, run, steps) && Doubled(run[|run| - 1])
  }

  /**
   * Taking up an intent is harmless if and only if it is recoverable: past its recheck,
   * or its claimant gone with the source still bound, or aimed where the child already is.
   */
  lemma RecoveryIsSafeIff(m: Move, s: State)
    requires Inv(m, s) && s.intent.Some?
    ensures Recoverable(m, s) <==> !CanDouble(m, s)
  {
    if Recoverable(m, s) {
      forall run, steps | RecoveryRun(m, s, run, steps) ensures !Doubled(run[|run| - 1]) {
        var r :| TakeUp(m, s, run[0], r);
        RecoverKeeps(m, s, run[0], r);
        FollowsKeeps(m, run, steps, |run| - 1);
      }
    } else if m.src in s.names {
      LiveClaimantDoubles(m, s);
    } else {
      MovedSourceDoubles(m, s);
    }
  }

  /** An intent claimed after the source was moved away: its recovery gives a second name. */
  lemma MovedSourceDoubles(m: Move, s: State)
    requires Inv(m, s) && s.intent.Some? && !Recoverable(m, s) && m.src !in s.names
    ensures CanDouble(m, s)
  {
    var r := FreshNat(s.used);
    var i := s.intent.value;
    var s0 := s.(procs := s.procs[r := Adding(i)], used := s.used + {r});
    assert TakeUp(m, s, s0, r);
    var s1 := s0.(names := s0.names[i.dst := i.child], procs := s0.procs[r := Removing(i)], landed := s0.landed + {i.dst});
    var run, steps := [s0, s1], [AddDestinationStep(r)];
    assert run[0] == s0;
    assert RecoveryRun(m, s, run, steps);
    var d :| d in s.landed;
    assert d in s1.landed && i.dst in s1.landed && d != i.dst;
  }

  lemma Prepend(m: Move, s: State, step: Step, run: seq<State>, steps: seq<Step>)
    requires Follows(m, run, steps) && Next(m, s, run[0], step)
    ensures Follows(m, [s] + run, [step] + steps)
  {
    var all := [s] + run;
    forall j | 0 <= j < |steps| + 1 ensures Next(m, all[j], all[j + 1], ([step] + steps)[j]) {
      if j > 0 {
        assert all[j] == run[j - 1] && all[j + 1] == run[j] && ([step] + steps)[j] == steps[j - 1];
      }
    }
  }

  /** With the key free and the source bound, a new rename lands wherever it likes. */
  lemma RenameLands(m: Move, s: State, q: Pid, d: Loc) returns (run: seq<State>, steps: seq<Step>)
    requires s.intent == None && Get(s.names, m.src) == Some(m.child) && q !in s.used && d != m.src
    ensures Follows(m, run, steps) && run[0] == s && run[|run| - 1].landed == s.landed + {d}
  {
    var k := Intent(q, m.child, d);
    var s1 := s.(procs := s.procs[q := Seeking(d, 0)], used := s.used + {q});
    var s2 := s1.(procs := s1.procs[q := Ready(d, m.child, 0)]);
    var s3 := s2.(intent := Some(k), procs := s2.procs[q := Claimed(k)]);
    var s4 := s3.(procs := s3.procs[q := Adding(k)], committed := s3.committed + {k});
    var s5 := s4.(names := s4.names[d := m.child], procs := s4.procs[q := Removing(k)], landed := s4.landed + {d});
    assert Start(m, s, s1, q, d) && ReadSource(m, s1, s2, q) && Claim(s2, s3, q);
    run := [s, s1, s2, s3, s4, s5];
    steps := [StartStep(q, d), ReadSourceStep(q), ClaimStep(q), RecheckStep(q, false), AddDestinationStep(q)];
  }

  /** The claimant gives its claim up over a read error: recovery and a second rename both land. */
  lemma LiveClaimantDoubles(m: Move, s: State)
    requires Inv(m, s) && s.intent.Some? && !Recoverable(m, s) && m.src in s.names
    ensures CanDouble(m, s)
  {
    var r := FreshNat(s.used);
    var i := s.intent.value;
    var p := i.claim;
    var d := Loc(0, m.src.name + i.dst.name + [0]);
    assert d.name != m.src.name && d.name != i.dst.name;
    var s0 := s.(procs := s.procs[r := Adding(i)], used := s.used + {r});
    var s1 := s0.(names := s0.names[i.dst := i.child], procs := s0.procs[r := Removing(i)], landed := s0.landed + {i.dst});
    var s2 := s1.(procs := s1.procs[p := Withdrawing(i)]);
    var s3 := s2.(intent := None, procs := Without(s2.procs, p));
    var run, steps := RenameLands(m, s3, r + 1, d);
    assert Doubled(run[|run| - 1]) by {
      assert i.dst in s3.landed && d != i.dst;
    }
    Prepend(m, s2, DeleteIntentStep(p), run, steps);
    run, steps := [s2] + run, [DeleteIntentStep(p)] + steps;
    if s.procs[p].Claimed? {
      Prepend(m, s1, RecheckStep(p, true), run, steps);
      run, steps := [s1] + run, [RecheckStep(p, true)] + steps;
    } else {
      assert s2.procs == s1.procs;
    }
    Prepend(m, s0, AddDestinationStep(r), run, steps);
    run, steps := [s0] + run, [AddDestinationStep(r)] + steps;
    assert TakeUp(m, s, s0, r) && run[0] == s0;
    assert RecoveryRun(m, s, run, steps);
  }
}
