/**
 * A directory at work in the whole namespace: runs in which the scatter protocol moves one
 * directory and the link protocol follows it, while everything else goes on as the link
 * protocol allows. The counting theorems hold of what readers of that directory see.
 */
module JointRuns {
  import opened Names
  import SS = ScatterStore
  import SP = ScatterProtocol
  import SI = ScatterInvariant
  import ST = ScatterTheorems
  import opened LinkProtocol
  import opened LinkInvariant
  import opened LinkTheorems
  import opened LinkMarkers
  import opened LinkSimulation
  import opened LinkFollows

  datatype Joint = Joint(dir: SP.State, link: State)

  /** A step of the directory with the link steps it is, or a link step elsewhere. */
  datatype JointStep = Together(step: SP.Step, via: seq<State>, mvs: seq<Step>) | Apart(mv: Step)

  /** Nothing of the directory changes: no name, no tombstone, no debt. */
  ghost predicate Untouched(d: State, d': State, at: Uuid) {
    && (forall n :: SameAt(d, d', Loc(at, n)))
    && (forall f: DebtId :: f.loc.dir == at ==> Get(d'.debts, f) == Get(d.debts, f))
  }

  ghost predicate JointNext(at: Uuid, j: Joint, j': Joint, t: JointStep) {
    match t
    case Together(step, via, mvs) =>
      && SP.Next(j.dir, j'.dir, step) && MovesOf(j.link, j.dir, j'.dir, step, at, mvs)
      && Path(via, mvs) && via[0] == j.link && via[|mvs|] == j'.link
    case Apart(mv) =>
      j'.dir == j.dir && NextAny(j.link, j'.link, mv) && Untouched(j.link, j'.link, at)
  }

  /** Callers look before they act (LinkMarkers). */
  ghost predicate JointAttentive(j: Joint, t: JointStep) {
    match t
    case Together(_, via, mvs) => |via| == |mvs| + 1 && forall i {:trigger mvs[i]} :: 0 <= i < |mvs| ==> Attentive(via[i], mvs[i])
    case Apart(mv) => Attentive(j.link, mv)
  }

  /** From rest: the directory with nothing pending, the namespace well counted, the two views alike. */
  ghost predicate JointRun(at: Uuid, run: seq<Joint>, steps: seq<JointStep>) {
    && |run| == |steps| + 1 && SP.Init(run[0].dir) && Init(run[0].link) && AllMirror(run[0].link, run[0].dir, at)
    && forall i {:trigger steps[i]} :: 0 <= i < |steps| ==> JointNext(at, run[i], run[i + 1], steps[i]) && JointAttentive(run[i], steps[i])
  }

  // ----- what every joint run keeps -----

  ghost predicate Counted(d: State) {
    Inv(d) && MarkersOk(d) && KeptOk(d)
  }

  ghost predicate JointOk(at: Uuid, j: Joint) {
    SI.Inv(j.dir) && ST.DebtsOk(j.dir) && Sim(j.link, j.dir, at) && Counted(j.link)
  }

  lemma CountedStep(d: State, d': State, mv: Step)
    requires Counted(d) && NextAny(d, d', mv) && Attentive(d, mv)
    ensures Counted(d')
  {
    AttentiveStep(d, d', mv);
    StepKeeps(d, d', mv);
  }

  lemma {:induction false} CountedPath(via: seq<State>, mvs: seq<Step>, i: nat)
    requires Path(via, mvs) && i <= |mvs| && Counted(via[0])
    requires forall j {:trigger mvs[j]} :: 0 <= j < |mvs| ==> Attentive(via[j], mvs[j])
    ensures Counted(via[i])
  {
    if i > 0 {
      CountedPath(via, mvs, i - 1);
      assert NextAny(via[i - 1], via[i], mvs[i - 1]) && Attentive(via[i - 1], mvs[i - 1]);
      CountedStep(via[i - 1], via[i], mvs[i - 1]);
    }
  }

  lemma UntouchedSim(d: State, d': State, s: SP.State, at: Uuid)
    requires Sim(d, s, at) && Untouched(d, d', at)
    ensures Sim(d', s, at)
  {
    forall n ensures Mirrors(d', s, at, n) {
      assert SameAt(d, d', Loc(at, n)) && Mirrors(d, s, at, n);
    }
    QuietDebts(d, d', s, s, at);
  }

  lemma JointStepKeeps(at: Uuid, j: Joint, j': Joint, t: JointStep)
    requires JointOk(at, j) && JointNext(at, j, j', t) && JointAttentive(j, t)
    ensures JointOk(at, j')
  {
    match t
    case Together(step, via, mvs) =>
      ST.StepKeeps(j.dir, j'.dir, step);
      ST.DebtsStep(j.dir, j'.dir, step);
      StepMirrors(j.link, j.dir, j'.dir, step, at, via, mvs);
      CountedPath(via, mvs, |mvs|);
    case Apart(mv) =>
      UntouchedSim(j.link, j'.link, j.dir, at);
      CountedStep(j.link, j'.link, mv);
  }

  lemma JointInit(at: Uuid, j: Joint)
    requires SP.Init(j.dir) && Init(j.link) && AllMirror(j.link, j.dir, at)
    ensures JointOk(at, j)
  {
    SI.InitKeeps(j.dir);
  }

  lemma {:induction false} JointRunKeeps(at: Uuid, run: seq<Joint>, steps: seq<JointStep>, i: nat)
    requires JointRun(at, run, steps) && i < |run|
    ensures JointOk(at, run[i])
  {
    if i == 0 {
      JointInit(at, run[0]);
    } else {
      JointRunKeeps(at, run, steps, i - 1);
      JointStepKeeps(at, run[i - 1], run[i], steps[i - 1]);
    }
  }

  // ----- what readers of the directory see -----

  /** A name of the directory, as its readers see it, is for `u`. */
  ghost predicate ReadersSee(j: Joint, n: Name, u: Uuid) {
    UuidOf(SS.Visible(j.dir.store, n)) == Some(u)
  }

  lemma SeenIsNamed(at: Uuid, j: Joint, n: Name, u: Uuid)
    requires JointOk(at, j) && ReadersSee(j, n, u)
    ensures Loc(at, n) in NamesOf(j.link, u) && Holds(j.link, Loc(at, n), u)
  {
    var l := Loc(at, n);
    assert Mirrors(j.link, j.dir, at, n);
    MirrorsShow(j.link, j.dir, at, n);
    ShownIsHeld(j.link, l, u);
    assert l in j.link.index.Keys + j.link.todo.Keys || Chain(j.link, l) == [None];
  }

  /**
   * Never under-count, for the directory's readers: whatever interleaving of emitters,
   * compactors, readers, collectors, links and renames led here, every name they see for a file
   * is one of that file's names, and those do not outnumber its link count, but for renames
   * between adding their destination and removing their source.
   */
  lemma ReadersNeverOutnumberLinks(at: Uuid, run: seq<Joint>, steps: seq<JointStep>, i: nat, u: Uuid)
    requires JointRun(at, run, steps) && i < |run|
    ensures forall n :: ReadersSee(run[i], n, u) ==> Loc(at, n) in NamesOf(run[i].link, u)
    ensures |NamesOf(run[i].link, u)| <= Nlink(run[i].link, u) + |Moving(run[i].link, u)|
  {
    JointRunKeeps(at, run, steps, i);
    forall n | ReadersSee(run[i], n, u) ensures Loc(at, n) in NamesOf(run[i].link, u) {
      SeenIsNamed(at, run[i], n, u);
    }
    StateNeverUndercounts(run[i].link, u);
  }

  /** No reader of the directory sees a reclaimed child, but under a source a rename is about to remove. */
  lemma ReadersSeeNothingReclaimed(at: Uuid, run: seq<Joint>, steps: seq<JointStep>, i: nat, n: Name, u: Uuid)
    requires JointRun(at, run, steps) && i < |run| && IsReclaimed(run[i].link, u) && ReadersSee(run[i], n, u)
    ensures Leaving(run[i].link, Loc(at, n), u)
  {
    JointRunKeeps(at, run, steps, i);
    SeenIsNamed(at, run[i], n, u);
    UncountedIsUnnamed(run[i].link, u);
  }

  /** And no scatter step stops a joint run, if the link protocol allows its emission, burial or edit. */
  lemma JointRunsGoOn(at: Uuid, run: seq<Joint>, steps: seq<JointStep>, s': SP.State, step: SP.Step) returns (via: seq<State>, mvs: seq<Step>)
    requires JointRun(at, run, steps)
    requires var j := run[|run| - 1]; SP.Next(j.dir, s', step) && Enabled(j.link, j.dir, step, at)
    ensures var j := run[|run| - 1];
      |via| == |mvs| + 1 && JointNext(at, j, Joint(s', via[|mvs|]), Together(step, via, mvs))
  {
    var j := run[|run| - 1];
    JointRunKeeps(at, run, steps, |run| - 1);
    StepIsFollowed(j.link, j.dir, s', step, at);
    via, mvs :| MovesOf(j.link, j.dir, s', step, at, mvs) && Path(via, mvs) && via[0] == j.link;
  }
}
