/**
 * The optimistic update of one file's link count: any number of concurrent callers, each a
 * load of the inode, a local change and a flush conditional on the version loaded.
 */
module NlinkUpdates {
  import opened Names

  type Pid = nat

  /** Attempts at a load-change-flush round. */
  const NLINK_RETRIES := 5

  datatype Process =
    | Adjusting(delta: int, attempt: nat)
    | Loaded(delta: int, attempt: nat, version: nat, nlink: nat)

  /** `acts` is an auxiliary: the deltas committed so far, in order, with what each caller was told. */
  datatype Act = Act(delta: int, result: nat)

  datatype State = State(version: nat, nlink: nat, procs: map<Pid, Process>, acts: seq<Act>)

  /** The count saturates at zero. */
  function Adjust(n: nat, delta: int): nat {
    if n + delta < 0 then 0 else n + delta
  }

  ghost predicate Start(s: State, s': State, p: Pid, delta: int) {
    p !in s.procs && s' == s.(procs := s.procs[p := Adjusting(delta, 0)])
  }

  ghost predicate Load(s: State, s': State, p: Pid) {
    && p in s.procs && s.procs[p].Adjusting?
    && var c := s.procs[p];
       s' == s.(procs := s.procs[p := Loaded(c.delta, c.attempt, s.version, s.nlink)])
  }

  ghost predicate Flush(s: State, s': State, p: Pid) {
    && p in s.procs && s.procs[p].Loaded?
    && var c := s.procs[p];
       if c.version == s.version then
         var n := Adjust(c.nlink, c.delta);
         s' == State(s.version + 1, n, s.procs - {p}, s.acts + [Act(c.delta, n)])
       else if c.attempt + 1 < NLINK_RETRIES then
         s' == s.(procs := s.procs[p := Adjusting(c.delta, c.attempt + 1)])
       else s' == s.(procs := s.procs - {p})
  }

  /** Some other write of the inode that leaves the count alone. */
  ghost predicate Touch(s: State, s': State) {
    s' == s.(version := s.version + 1)
  }

  ghost predicate Crash(s: State, s': State, p: Pid) {
    p in s.procs && s' == s.(procs := s.procs - {p})
  }

  datatype Step = StartStep(p: Pid, delta: int) | LoadStep(p: Pid) | FlushStep(p: Pid) | TouchStep | CrashStep(p: Pid)

  ghost predicate Next(s: State, s': State, step: Step) {
    match step
    case StartStep(p, delta) => Start(s, s', p, delta)
    case LoadStep(p) => Load(s, s', p)
    case FlushStep(p) => Flush(s, s', p)
    case TouchStep => Touch(s, s')
    case CrashStep(p) => Crash(s, s', p)
  }

  ghost predicate IsRun(run: seq<State>, steps: seq<Step>) {
    && |run| == |steps| + 1 && run[0].procs == map[] && run[0].acts == []
    && forall j {:trigger steps[j]} :: 0 <= j < |steps| ==> Next(run[j], run[j + 1], steps[j])
  }

  /** `n` is `m` with the delta added, or zero if that is below it. */
  ghost predicate AddsUp(m: nat, delta: int, n: nat) {
    (m + delta >= 0 && n == m + delta) || (m + delta < 0 && n == 0)
  }

  /** The committed adjustments made one by one, each telling its caller the count it made. */
  ghost predicate Replays(start: nat, acts: seq<Act>, n: nat) {
    if acts == [] then n == start
    else
      var last := acts[|acts| - 1];
      last.result == n && exists m: nat :: Replays(start, acts[..|acts| - 1], m) && AddsUp(m, last.delta, n)
  }

  ghost predicate Inv(start: nat, s: State) {
    && Replays(start, s.acts, s.nlink)
    && forall p :: p in s.procs && s.procs[p].Loaded? ==>
         s.procs[p].version <= s.version && (s.procs[p].version == s.version ==> s.procs[p].nlink == s.nlink)
  }

  lemma StepKeeps(start: nat, s: State, s': State, step: Step)
    requires Inv(start, s) && Next(s, s', step)
    ensures Inv(start, s')
  {
    if s'.acts != s.acts {
      var last := s'.acts[|s.acts|];
      assert s'.acts[..|s.acts|] == s.acts;
      assert Replays(start, s.acts, s.nlink) && AddsUp(s.nlink, last.delta, s'.nlink);
    }
  }

  /** In every state of every run the count is what the committed adjustments give one after the other. */
  lemma {:induction false} AdjustsAreAtomic(run: seq<State>, steps: seq<Step>, i: nat)
    requires IsRun(run, steps) && i < |run|
    ensures Inv(run[0].nlink, run[i])
  {
    if i > 0 {
      AdjustsAreAtomic(run, steps, i - 1);
      StepKeeps(run[0].nlink, run[i - 1], run[i], steps[i - 1]);
    }
  }

  function Sum(acts: seq<Act>): int {
    if acts == [] then 0 else Sum(acts[..|acts| - 1]) + acts[|acts| - 1].delta
  }

  /** Adjustments that never reach below zero add up, in whatever order they commit. */
  lemma {:induction false} UnsaturatedAddsUp(start: nat, acts: seq<Act>, n: nat)
    requires Replays(start, acts, n)
    requires forall k :: 0 <= k <= |acts| ==> start + Sum(acts[..k]) >= 0
    ensures n == start + Sum(acts)
  {
    if acts != [] {
      var m := |acts| - 1;
      var before: nat :| Replays(start, acts[..m], before) && AddsUp(before, acts[m].delta, n);
      forall k | 0 <= k <= m ensures start + Sum(acts[..m][..k]) >= 0 {
        assert acts[..m][..k] == acts[..k];
      }
      UnsaturatedAddsUp(start, acts[..m], before);
      assert acts[..|acts|] == acts;
    }
  }

  // ----- how long a caller goes on -----

  /** A caller left alone adds its delta, stopping at zero, and is told the count. */
  lemma AdjustCompletes(s: State, p: Pid, delta: int) returns (s1: State, s2: State, s3: State)
    requires p !in s.procs
    ensures Next(s, s1, StartStep(p, delta)) && Next(s1, s2, LoadStep(p)) && Next(s2, s3, FlushStep(p))
    ensures s3.procs == s.procs && s3.version == s.version + 1 && AddsUp(s.nlink, delta, s3.nlink)
    ensures s3.acts == s.acts + [Act(delta, s3.nlink)]
  {
    s1 := s.(procs := s.procs[p := Adjusting(delta, 0)]);
    s2 := s1.(procs := s1.procs[p := Loaded(delta, 0, s.version, s.nlink)]);
    var n := Adjust(s.nlink, delta);
    s3 := State(s.version + 1, n, s2.procs - {p}, s.acts + [Act(delta, n)]);
    assert s3.procs == s.procs;
  }

  /** The flush finds that the inode has changed since the load. */
  ghost predicate Loses(s: State, step: Step, p: Pid) {
    step == FlushStep(p) && p in s.procs && s.procs[p].Loaded? && s.procs[p].version != s.version
  }

  /** How often the call has lost since it began. */
  ghost function Losses(run: seq<State>, steps: seq<Step>, i: nat, p: Pid): nat
    requires i <= |steps| && i <= |run|
  {
    if i == 0 || (steps[i - 1].StartStep? && steps[i - 1].p == p) then 0
    else Losses(run, steps, i - 1, p) + if Loses(run[i - 1], steps[i - 1], p) then 1 else 0
  }

  lemma AttemptStep(s: State, s': State, step: Step, p: Pid)
    requires Next(s, s', step) && p in s'.procs
    ensures if step.StartStep? && step.p == p then s'.procs[p].attempt == 0
      else p in s.procs && s'.procs[p].attempt == s.procs[p].attempt + if Loses(s, step, p) then 1 else 0
  {
  }

  lemma {:induction false} AttemptsAreLosses(run: seq<State>, steps: seq<Step>, i: nat, p: Pid)
    requires IsRun(run, steps) && i < |run| && p in run[i].procs
    ensures run[i].procs[p].attempt == Losses(run, steps, i, p)
  {
    if i > 0 {
      AttemptStep(run[i - 1], run[i], steps[i - 1], p);
      if p in run[i - 1].procs {
        AttemptsAreLosses(run, steps, i - 1, p);
      }
    }
  }

  /** A caller that loses goes on, until it has lost five times; the count stays. */
  lemma GivesUpAfterFive(run: seq<State>, steps: seq<Step>, i: nat, p: Pid)
    requires IsRun(run, steps) && i < |steps| && Loses(run[i], steps[i], p)
    ensures p in run[i + 1].procs <==> Losses(run, steps, i, p) + 1 < 5
    ensures run[i + 1].nlink == run[i].nlink && run[i + 1].acts == run[i].acts
  {
    AttemptsAreLosses(run, steps, i, p);
    assert Next(run[i], run[i + 1], steps[i]);
  }
}
