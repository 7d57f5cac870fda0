/** What holds of link counts in every run, and exactly when a bump is safe. */
module LinkTheorems {
  import opened Names
  import opened Counting
  import opened LinkProtocol
  import opened LinkWeights
  import opened LinkInvariant

  lemma {:induction false} FollowsKeeps(run: seq<State>, steps: seq<Step>, i: nat)
    requires Follows(run, steps) && i < |run| && Inv(run[0])
    ensures Inv(run[i])
  {
    if i > 0 {
      FollowsKeeps(run, steps, i - 1);
      StepKeeps(run[i - 1], run[i], steps[i - 1]);
    }
  }

  lemma RunKeeps(run: seq<State>, steps: seq<Step>, i: nat)
    requires IsRun(run, steps) && i < |run|
    ensures Inv(run[i])
  {
    FollowsKeeps(run, steps, i);
  }

  // ----- names are counted -----

  function IndexNames(s: State, u: Uuid): set<Loc> {
    set l | l in s.index && s.index[l] == u
  }

  /** The renames of `u` between adding their destination and removing their source. */
  function Moving(s: State, u: Uuid): set<Pid> {
    set p | p in s.moves && s.moves[p].added && s.moves[p].uuid == u
  }

  ghost function SourceOf(s: State): map<Pid, Loc> {
    map p | p in s.moves :: s.moves[p].src
  }

  ghost function Sources(s: State, u: Uuid): set<Loc> {
    Image(Moving(s, u), SourceOf(s))
  }

  lemma LeavingIsSource(s: State, l: Loc, u: Uuid)
    requires Leaving(s, l, u)
    ensures l in Sources(s, u)
  {
    var p :| p in s.moves && s.moves[p].added && s.moves[p].src == l && s.moves[p].uuid == u;
    assert p in Moving(s, u) && SourceOf(s)[p] == l;
  }

  /** Names are links taken up, or sources of renames under way. */
  lemma NamesBound(s: State, u: Uuid, names: set<Loc>)
    requires Covered(s) && forall l :: l in names ==> Holds(s, l, u)
    ensures |names| <= Nlink(s, u) + |Moving(s, u)|
  {
    assert Claims(s, u) <= Nlink(s, u);
    forall l | l in names - Sources(s, u) ensures Weight(s, l, u) > 0 { UnlessSource(s, l, u); }
    NamesCount(s, u, names - Sources(s, u));
    SplitCount(names, Sources(s, u));
    ImageCount(Moving(s, u), SourceOf(s));
  }

  lemma UnlessSource(s: State, l: Loc, u: Uuid)
    requires Holds(s, l, u) && l !in Sources(s, u)
    ensures Weight(s, l, u) > 0
  {
    WeightPositive(s, l, u);
    if Leaving(s, l, u) { LeavingIsSource(s, l, u); }
  }

  lemma ShownIsHeld(s: State, l: Loc, u: Uuid)
    requires Shows(s, l) == Some(u)
    ensures Holds(s, l, u)
  {
  }

  /**
   * Never under-count: neither the names readers see nor those in the index outnumber nlink,
   * but for the renames that have added their destination and not yet removed their source.
   */
  lemma NeverUndercounts(run: seq<State>, steps: seq<Step>, i: nat, u: Uuid)
    requires IsRun(run, steps) && i < |run|
    ensures |NamesOf(run[i], u)| <= Nlink(run[i], u) + |Moving(run[i], u)|
    ensures |IndexNames(run[i], u)| <= Nlink(run[i], u) + |Moving(run[i], u)|
  {
    RunKeeps(run, steps, i);
    StateNeverUndercounts(run[i], u);
  }

  lemma StateNeverUndercounts(s: State, u: Uuid)
    requires Covered(s)
    ensures |NamesOf(s, u)| <= Nlink(s, u) + |Moving(s, u)|
    ensures |IndexNames(s, u)| <= Nlink(s, u) + |Moving(s, u)|
  {
    forall l | l in IndexNames(s, u) ensures Holds(s, l, u) {
      assert Chain(s, l)[0] == Some(u);
    }
    forall l | l in NamesOf(s, u) ensures Holds(s, l, u) { ShownIsHeld(s, l, u); }
    NamesBound(s, u, NamesOf(s, u));
    NamesBound(s, u, IndexNames(s, u));
  }

  // ----- collection -----

  lemma UncountedIsUnnamed(s: State, u: Uuid)
    requires Covered(s) && Nlink(s, u) == 0
    ensures forall l :: Holds(s, l, u) ==> Leaving(s, l, u)
  {
    assert Claims(s, u) <= Nlink(s, u);
    forall l | Holds(s, l, u) ensures Leaving(s, l, u) {
      WeightPositive(s, l, u);
      if !Leaving(s, l, u) { NamesCount(s, u, {l}); }
    }
  }

  ghost predicate IsReclaimed(s: State, u: Uuid) {
    u in s.files && s.files[u].Reclaimed?
  }

  lemma ReclaimedStays(s: State, s': State, step: Step, u: Uuid)
    requires NextAny(s, s', step) && IsReclaimed(s, u)
    ensures IsReclaimed(s', u)
  {
    match step
    case Emits(e) => EmitReclaimed(s, s', e, u);
    case Compacts(c) => CompactFrame(s, s', c);
    case Links(p, call) => LinkFrame(s, s', p, call);
    case Renames(r) => RenameFrame(s, s', r);
    case Collects(g) => GcReclaimed(s, s', g, u);
  }

  lemma EmitReclaimed(s: State, s': State, e: Emission, u: Uuid)
    requires EmitNext(s, s', e) && IsReclaimed(s, u)
    ensures IsReclaimed(s', u)
  {
    match e
    case Create(l, w) =>
    case WriteInode(w) =>
    case Update(l, w) =>
    case Unlink(l, w, tombstone) =>
  }

  lemma GcReclaimed(s: State, s': State, c: Collection, u: Uuid)
    requires GcNext(s, s', c) && IsReclaimed(s, u)
    ensures IsReclaimed(s', u)
  {
    match c
    case Sweep(g, w) =>
    case Reclaim(g) =>
    case Abandon(g) =>
  }

  lemma {:induction false} ReclaimedForGood(run: seq<State>, steps: seq<Step>, j: nat, i: nat, u: Uuid)
    requires Follows(run, steps) && j <= i < |run| && IsReclaimed(run[j], u)
    ensures IsReclaimed(run[i], u)
  {
    if j < i {
      ReclaimedForGood(run, steps, j, i - 1, u);
      ReclaimedStays(run[i - 1], run[i], steps[i - 1], u);
    }
  }

  /**
   * A child fs_gc reclaims has no name then, gets none later, and no pending change will give
   * it one, but for sources that a rename under way is about to remove.
   */
  lemma GcNeverTakesANamedFile(run: seq<State>, steps: seq<Step>, j: nat, i: nat, g: Pid)
    requires IsRun(run, steps) && j < i < |run| && steps[j] == Collects(Reclaim(g))
    ensures g in run[j].sweeps
    ensures var u := run[j].sweeps[g];
      forall l :: (Holds(run[j], l, u) ==> Leaving(run[j], l, u)) && (Holds(run[i], l, u) ==> Leaving(run[i], l, u))
  {
    var s := run[j];
    assert Next(s, run[j + 1], steps[j]);
    assert GcNext(s, run[j + 1], Reclaim(g));
    var u := s.sweeps[g];
    RunKeeps(run, steps, j);
    UncountedIsUnnamed(s, u);
    ReclaimedForGood(run, steps, j + 1, i, u);
    RunKeeps(run, steps, i);
    UncountedIsUnnamed(run[i], u);
  }

  // ----- conservation -----

  /** What a step does to the balance of `u`. */
  datatype Event = Made | Linked | Leaked | Paid | Nothing

  ghost predicate Commits(s: State, p: Pid, c: Call) {
    c == Insert(false) && p in s.links && s.links[p].Bumped? && s.links[p].loc !in s.index
  }

  ghost function LinkEvent(s: State, p: Pid, c: Call, u: Uuid): Event {
    if Commits(s, p, c) && s.links[p].uuid == u then Linked
    else if (c == Rollback(true) || c.Crash?) && p in InFlight(s, u) then Leaked
    else Nothing
  }

  ghost function EventOf(s: State, step: Step, u: Uuid): Event {
    match step
    case Emits(e) => if e.Create? && e.u == u then Made else Nothing
    case Compacts(c) => if c.Pay? && c.f in Owing(s, u) && IsLive(s, u) then Paid else Nothing
    case Links(p, c) => LinkEvent(s, p, c, u)
    case Renames(_) => Nothing
    case Collects(_) => Nothing
  }

  function Delta(e: Event): int {
    match e
    case Made => 1
    case Linked => 1
    case Leaked => 1
    case Paid => -1
    case Nothing => 0
  }

  /** How many of the first `i` steps are of this kind for `u`. */
  ghost function Tally(run: seq<State>, steps: seq<Step>, i: nat, u: Uuid, e: Event): nat
    requires i <= |steps| && i <= |run|
  {
    if i == 0 then 0
    else Tally(run, steps, i - 1, u, e) + if EventOf(run[i - 1], steps[i - 1], u) == e then 1 else 0
  }

  /** Bumps only ever concern written inodes. */
  ghost predicate Written(s: State) {
    forall p :: p in s.links && !s.links[p].Checked? ==> IsWritten(s, s.links[p].uuid)
  }

  /** A bump under way was so before, or has just been made, on a live file. */
  lemma CallOrigin(s: State, s': State, p: Pid, c: Call, q: Pid)
    requires LinkNext(s, s', p, c) && q in s'.links && !s'.links[q].Checked?
    ensures q in s.links && s.links[q].uuid == s'.links[q].uuid
    ensures s.links[q].Checked? ==> IsLive(s, s'.links[q].uuid)
  {
    match c
    case Start(l, u) =>
    case Bump => BumpOrigin(s, s', p, q);
    case Insert(conflict) => InsertOrigin(s, s', p, conflict, q);
    case Rollback(failed) =>
    case Crash =>
  }

  lemma BumpOrigin(s: State, s': State, p: Pid, q: Pid)
    requires Bumps(s, s', p) && q in s'.links && !s'.links[q].Checked?
    ensures q in s.links && s.links[q].uuid == s'.links[q].uuid
    ensures s.links[q].Checked? ==> IsLive(s, s'.links[q].uuid)
  {
    if IsLive(s, s.links[p].uuid) {
    }
  }

  lemma InsertOrigin(s: State, s': State, p: Pid, conflict: bool, q: Pid)
    requires Inserts(s, s', p, conflict) && q in s'.links && !s'.links[q].Checked?
    ensures q in s.links && s.links[q].uuid == s'.links[q].uuid && !s.links[q].Checked?
  {
    if s.links[p].loc in s.index || conflict {
    }
  }

  lemma LinkOrigin(s: State, s': State, step: Step, q: Pid)
    requires NextAny(s, s', step) && q in s'.links && !s'.links[q].Checked?
    ensures q in s.links && s.links[q].uuid == s'.links[q].uuid
    ensures s.links[q].Checked? ==> IsLive(s, s'.links[q].uuid)
  {
    match step
    case Emits(e) => EmitFrame(s, s', e);
    case Compacts(c) => CompactFrame(s, s', c);
    case Links(p, call) => CallOrigin(s, s', p, call, q);
    case Renames(r) => RenameFrame(s, s', r);
    case Collects(g) => GcFrame(s, s', g);
  }

  lemma StepWritten(s: State, s': State, step: Step)
    requires Written(s) && NextAny(s, s', step)
    ensures Written(s')
  {
    forall p | p in s'.links && !s'.links[p].Checked? ensures IsWritten(s', s'.links[p].uuid) {
      LinkOrigin(s, s', step, p);
      WrittenStays(s, s', step, s'.links[p].uuid);
    }
  }

  lemma {:induction false} RunWritten(run: seq<State>, steps: seq<Step>, i: nat)
    requires IsRun(run, steps) && i < |run|
    ensures Written(run[i])
  {
    if i > 0 {
      RunWritten(run, steps, i - 1);
      StepWritten(run[i - 1], run[i], steps[i - 1]);
    }
  }

  ghost predicate Balances(s: State, s': State, u: Uuid, e: Event) {
    Nlink(s', u) - |InFlight(s', u)| == Nlink(s, u) - |InFlight(s, u)| + Delta(e)
  }

  lemma EmitBalances(s: State, s': State, e: Emission, u: Uuid)
    requires EmitNext(s, s', e)
    ensures Balances(s, s', u, EventOf(s, Emits(e), u))
  {
    EmitFrame(s, s', e);
    SameOwing(s, s', u);
    match e
    case Create(l, w) =>
    case WriteInode(w) =>
    case Update(l, w) =>
    case Unlink(l, w, tombstone) =>
  }

  lemma PayBalances(s: State, s': State, f: DebtId, u: Uuid)
    requires Covered(s) && CompactNext(s, s', Pay(f))
    ensures Balances(s, s', u, EventOf(s, Compacts(Pay(f)), u))
  {
    var w := s.debts[f].uuid;
    DebtEnds(s, s', f, u);
    assert Claims(s, w) <= Nlink(s, w) && f in Owing(s, w);
    if IsLive(s, w) { NlinkAdjusted(s, s', w, -1, u); }
  }

  lemma CompactBalances(s: State, s': State, c: Compaction, u: Uuid)
    requires Covered(s) && CompactNext(s, s', c)
    ensures Balances(s, s', u, EventOf(s, Compacts(c), u))
  {
    if c.Pay? {
      PayBalances(s, s', c.f, u);
    } else {
      CompactFrame(s, s', c);
      assert InFlight(s', u) == InFlight(s, u);
    }
  }

  lemma BumpBalances(s: State, s': State, p: Pid, u: Uuid)
    requires Bumps(s, s', p)
    ensures Balances(s, s', u, Nothing)
  {
    var c := s.links[p];
    if IsLive(s, c.uuid) {
      FlightBegins(s, s', p, Bumped(c.loc, c.uuid, 0), u);
      NlinkAdjusted(s, s', c.uuid, 1, u);
    } else {
      FlightEnds(s, s', p, u);
    }
  }

  lemma InsertBalances(s: State, s': State, p: Pid, conflict: bool, u: Uuid)
    requires Inserts(s, s', p, conflict)
    ensures Balances(s, s', u, LinkEvent(s, p, Insert(conflict), u))
  {
    if s.links[p].loc in s.index || conflict {
      FlightGoesOn(s, s', p, AfterRefusal(s, s.links[p]), u);
    } else {
      FlightEnds(s, s', p, u);
    }
  }

  lemma RollbackBalances(s: State, s': State, p: Pid, failed: bool, u: Uuid)
    requires Covered(s) && Written(s) && LinkNext(s, s', p, Rollback(failed))
    ensures Balances(s, s', u, LinkEvent(s, p, Rollback(failed), u))
  {
    FlightEnds(s, s', p, u);
    if !failed {
      var w := s.links[p].uuid;
      assert Claims(s, w) <= Nlink(s, w) && p in InFlight(s, w);
      NlinkAdjusted(s, s', w, -1, u);
    }
  }

  lemma LinkBalances(s: State, s': State, p: Pid, c: Call, u: Uuid)
    requires Covered(s) && Written(s) && LinkNext(s, s', p, c)
    ensures Balances(s, s', u, LinkEvent(s, p, c, u))
  {
    match c
    case Start(l, w) => CallBegins(s, s', p, Checked(l, w), u);
    case Bump => BumpBalances(s, s', p, u);
    case Insert(conflict) => InsertBalances(s, s', p, conflict, u);
    case Rollback(failed) => RollbackBalances(s, s', p, failed, u);
    case Crash => FlightEnds(s, s', p, u);
  }

  lemma GcBalances(s: State, s': State, c: Collection, u: Uuid)
    requires SweepsOk(s) && GcNext(s, s', c)
    ensures Balances(s, s', u, Nothing)
  {
    GcFrame(s, s', c);
    SameOwing(s, s', u);
    match c
    case Sweep(g, w) =>
    case Reclaim(g) =>
    case Abandon(g) =>
  }

  /** Each step moves a child's count by its event. */
  lemma StepBalances(s: State, s': State, step: Step, u: Uuid)
    requires Covered(s) && SweepsOk(s) && Written(s) && NextAny(s, s', step)
    ensures Balances(s, s', u, EventOf(s, step, u))
  {
    match step
    case Emits(e) => EmitBalances(s, s', e, u);
    case Compacts(c) => CompactBalances(s, s', c, u);
    case Links(p, call) => LinkBalances(s, s', p, call, u);
    case Renames(r) =>
      RenameFrame(s, s', r);
      SameOwing(s, s', u);
    case Collects(g) => GcBalances(s, s', g, u);
  }

  lemma RunBalances(run: seq<State>, steps: seq<Step>, i: nat, u: Uuid)
    requires IsRun(run, steps) && i < |steps|
    ensures Balances(run[i], run[i + 1], u, EventOf(run[i], steps[i], u))
  {
    RunKeeps(run, steps, i);
    RunWritten(run, steps, i);
    StepBalances(run[i], run[i + 1], steps[i], u);
  }

  ghost predicate Balanced(run: seq<State>, steps: seq<Step>, u: Uuid) {
    && |run| == |steps| + 1
    && forall j {:trigger steps[j]} :: 0 <= j < |steps| ==> Balances(run[j], run[j + 1], u, EventOf(run[j], steps[j], u))
  }

  ghost function Total(run: seq<State>, steps: seq<Step>, i: nat, u: Uuid): int
    requires i <= |steps| && i <= |run|
  {
    Tally(run, steps, i, u, Made) + Tally(run, steps, i, u, Linked) + Tally(run, steps, i, u, Leaked)
      - Tally(run, steps, i, u, Paid)
  }

  lemma TotalGrows(run: seq<State>, steps: seq<Step>, i: nat, u: Uuid)
    requires 0 < i <= |steps| && i <= |run|
    ensures Total(run, steps, i, u) == Total(run, steps, i - 1, u) + Delta(EventOf(run[i - 1], steps[i - 1], u))
  {
  }

  lemma {:induction false} BalancedTotal(run: seq<State>, steps: seq<Step>, i: nat, u: Uuid)
    requires Balanced(run, steps, u) && i < |run|
    ensures Nlink(run[i], u) - |InFlight(run[i], u)| == Nlink(run[0], u) - |InFlight(run[0], u)| + Total(run, steps, i, u)
  {
    if i > 0 {
      BalancedTotal(run, steps, i - 1, u);
      TotalGrows(run, steps, i, u);
      assert Balances(run[i - 1], run[i], u, EventOf(run[i - 1], steps[i - 1], u));
    }
  }

  /**
   * Conservation, over every run: what a file counts is what it started with, plus creates,
   * committed links, leaked bumps and bumps under way, less the decrements issued.
   */
  lemma LinkConservation(run: seq<State>, steps: seq<Step>, i: nat, u: Uuid)
    requires IsRun(run, steps) && i < |run|
    ensures Nlink(run[i], u) + Tally(run, steps, i, u, Paid) ==
      Nlink(run[0], u) + Tally(run, steps, i, u, Made) + Tally(run, steps, i, u, Linked)
        + Tally(run, steps, i, u, Leaked) + |InFlight(run[i], u)|
  {
    forall j | 0 <= j < |steps| ensures Balances(run[j], run[j + 1], u, EventOf(run[j], steps[j], u)) {
      RunBalances(run, steps, j, u);
    }
    assert Balanced(run, steps, u);
    assert InFlight(run[0], u) == {};
    BalancedTotal(run, steps, i, u);
  }

  /** At rest, with nothing leaked, a file that was only linked counts what it did plus the links committed. */
  lemma LinksAtRest(run: seq<State>, steps: seq<Step>, i: nat, u: Uuid)
    requires IsRun(run, steps) && i < |run| && InFlight(run[i], u) == {}
    requires forall j :: 0 <= j < i ==> EventOf(run[j], steps[j], u) == Linked || EventOf(run[j], steps[j], u) == Nothing
    ensures Nlink(run[i], u) == Nlink(run[0], u) + Tally(run, steps, i, u, Linked)
  {
    LinkConservation(run, steps, i, u);
    forall e | e == Made || e == Leaked || e == Paid ensures Tally(run, steps, i, u, e) == 0 {
      NoneTallied(run, steps, i, u, e);
    }
  }

  lemma {:induction false} NoneTallied(run: seq<State>, steps: seq<Step>, i: nat, u: Uuid, e: Event)
    requires i <= |steps| && i <= |run| && forall j :: 0 <= j < i ==> EventOf(run[j], steps[j], u) != e
    ensures Tally(run, steps, i, u, e) == 0
  {
    if i > 0 { NoneTallied(run, steps, i - 1, u, e); }
  }

  // ----- one commit per name -----

  lemma {:induction false} LastPresent(run: seq<State>, j: nat, k: nat, l: Loc) returns (i: nat)
    requires j < k < |run| && l in run[j].index && l !in run[k].index
    ensures j <= i < k && l in run[i].index && l !in run[i + 1].index
  {
    if l in run[k - 1].index { i := k - 1; } else { i := LastPresent(run, j, k - 1, l); }
  }

  ghost predicate CommitsAt(s: State, step: Step, l: Loc) {
    step.Links? && Commits(s, step.p, step.call) && s.links[step.p].loc == l
  }

  /** Of any number of links to one name at most one commits, unless the name is taken out in between. */
  lemma OneCommitPerName(run: seq<State>, steps: seq<Step>, j: nat, k: nat, l: Loc)
    requires Follows(run, steps) && j < k < |steps| && CommitsAt(run[j], steps[j], l) && CommitsAt(run[k], steps[k], l)
    ensures exists i :: j < i < k && l in run[i].index && l !in run[i + 1].index
  {
    assert Next(run[j], run[j + 1], steps[j]);
    assert Inserts(run[j], run[j + 1], steps[j].p, false);
    var i := LastPresent(run, j + 1, k, l);
  }

  // ----- exactly when a bump is safe -----

  /** A name, and not one a rename is about to remove, points at a child that is gone. */
  ghost predicate Dangling(s: State) {
    exists l, u :: Weight(s, l, u) > 0 && IsReclaimed(s, u)
  }

  ghost predicate BumpRun(s: State, p: Pid, run: seq<State>, steps: seq<Step>) {
    Follows(run, steps) && Bumps(s, run[0], p)
  }

  ghost predicate CanDangle(s: State, p: Pid) {
    exists run, steps :: BumpRun(s, p, run, steps) && Dangling(run[|run| - 1])
  }

  lemma CoveredNotDangling(s: State)
    requires Covered(s)
    ensures !Dangling(s)
  {
    forall l, u | Weight(s, l, u) > 0 ensures !IsReclaimed(s, u) {
      assert Claims(s, u) <= Nlink(s, u);
      NamesCount(s, u, {l});
    }
  }

  /** A file that still counts a link is not condemned. */
  lemma CountedIsNotCondemned(s: State, u: Uuid)
    requires Inv(s) && Nlink(s, u) > 0
    ensures !Condemned(s, u)
  {
  }

  /** The link is past its checks, its target is there, and its name is free. */
  ghost predicate ReadyToBump(s: State, p: Pid) {
    && p in s.links && s.links[p].Checked? && IsLive(s, s.links[p].uuid)
    && s.links[p].loc !in s.index && Todo(s, s.links[p].loc) == [] && SourceFree(s, s.links[p].loc)
  }

  /**
   * Bumping a file to link it under a free name can leave that name dangling if and only if
   * a garbage collection is between seeing the file's count at zero and reclaiming it.
   */
  lemma BumpIsSafeIff(s: State, p: Pid)
    requires Inv(s) && ReadyToBump(s, p)
    ensures Condemned(s, s.links[p].uuid) <==> CanDangle(s, p)
  {
    if Condemned(s, s.links[p].uuid) {
      CondemnedDangles(s, p);
    } else {
      forall run, steps | BumpRun(s, p, run, steps) ensures !Dangling(run[|run| - 1]) {
        StepKeeps(s, run[0], Links(p, Bump));
        FollowsKeeps(run, steps, |run| - 1);
        CoveredNotDangling(run[|run| - 1]);
      }
    }
  }

  lemma BumpedState(s: State, p: Pid) returns (s0: State)
    requires ReadyToBump(s, p)
    ensures Bumps(s, s0, p) && s0.index == s.index && s0.todo == s.todo && s0.moves == s.moves && s0.sweeps == s.sweeps
    ensures s0.links == s.links[p := Bumped(s.links[p].loc, s.links[p].uuid, 0)]
  {
    var c := s.links[p];
    s0 := s.(files := Adjusted(s, c.uuid, 1), links := s.links[p := Bumped(c.loc, c.uuid, 0)]);
  }

  lemma InsertedState(s: State, p: Pid) returns (s1: State)
    requires p in s.links && s.links[p].Bumped? && s.links[p].loc !in s.index && Todo(s, s.links[p].loc) == []
    ensures Inserts(s, s1, p, false) && s1.sweeps == s.sweeps && s1.todo == s.todo && s1.moves == s.moves
    ensures Get(s1.index, s.links[p].loc) == Some(s.links[p].uuid)
  {
    var c := s.links[p];
    s1 := s.(index := s.index[c.loc := c.uuid], links := Without(s.links, p));
  }

  lemma ReclaimedState(s: State, g: Pid, l: Loc) returns (s2: State)
    requires g in s.sweeps && Get(s.index, l) == Some(s.sweeps[g]) && Todo(s, l) == [] && SourceFree(s, l)
    ensures GcNext(s, s2, Reclaim(g)) && Dangling(s2)
  {
    var u := s.sweeps[g];
    s2 := s.(files := s.files[u := Reclaimed], sweeps := Without(s.sweeps, g));
    WeightOfEntry(s2, l, u);
    assert !Leaving(s2, l, u);
    assert Weight(s2, l, u) > 0 && IsReclaimed(s2, u);
  }

  lemma CondemnedDangles(s: State, p: Pid)
    requires ReadyToBump(s, p) && Condemned(s, s.links[p].uuid)
    ensures CanDangle(s, p)
  {
    var l, u := s.links[p].loc, s.links[p].uuid;
    var g :| g in s.sweeps && s.sweeps[g] == u;
    var s0 := BumpedState(s, p);
    var s1 := InsertedState(s0, p);
    var s2 := ReclaimedState(s1, g, l);
    var run, steps := [s0, s1, s2], [Links(p, Insert(false)), Collects(Reclaim(g))];
    assert Next(s0, s1, steps[0]) && Next(s1, s2, steps[1]);
    assert BumpRun(s, p, run, steps);
    assert run[|run| - 1] == s2;
  }
}
