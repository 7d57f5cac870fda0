/**
 * Link counts: creates, hard links, unlinks, renames, compaction's deferred decrements and
 * garbage collection, over all directories at once, request by request, with crashes anywhere.
 * A directory is seen as the protocol of ScatterProtocol leaves it: the persisted index, per
 * name the changes emitted and not yet folded, oldest first, and the folded tombstone kept for
 * collection; LinkSimulation ties the two protocols together. That adjusting a link count is
 * one atomic step is NlinkUpdates.AdjustsAreAtomic.
 */
module LinkProtocol {
  import opened Names

  type Pid = nat

  /** A scatter seen from here: Create or Update, against PreDelete or a Delete, itself a tombstone. */
  datatype Change = Up(uuid: Uuid) | Down(uuid: Uuid, tombstone: bool)

  /** The child's own inode object: not yet written by its creator, present, or reclaimed. */
  datatype File = Unwritten | Live(nlink: nat) | Reclaimed

  /** An fs_link call between two requests. */
  datatype Link =
    | Checked(loc: Loc, uuid: Uuid)
    | Bumped(loc: Loc, uuid: Uuid, attempt: nat)
    | RollingBack(uuid: Uuid)

  /** A removal from the index: the name, and the version that committed it. */
  datatype DebtId = DebtId(loc: Loc, version: nat)

  /** The child to be decremented for it, after its tombstone is written. */
  datatype Debt = Debt(uuid: Uuid, buried: bool)

  /** A cross-directory rename past its recheck; `added` once its destination is written. */
  datatype Move = Move(src: Loc, dst: Loc, uuid: Uuid, added: bool)

  /**
   * `kept` holds the folded tombstones awaiting collection, `buried` the children whose
   * tombstones phase 2 has written, `sweeps` the collections about to reclaim.
   */
  datatype State = State(
    index: map<Loc, Uuid>,
    todo: map<Loc, seq<Change>>,
    kept: map<Loc, Uuid>,
    files: map<Uuid, File>,
    links: map<Pid, Link>,
    debts: map<DebtId, Debt>,
    buried: set<Uuid>,
    sweeps: map<Pid, Uuid>,
    moves: map<Pid, Move>)

  /** Attempts at inserting the entry of a hard link. */
  const NLINK_RETRIES := 5

  // ----- what a name stands for -----

  function Effect(c: Change): Option<Uuid> {
    if c.Up? then Some(c.uuid) else None
  }

  function Todo(s: State, l: Loc): seq<Change> {
    if l in s.todo then s.todo[l] else []
  }

  /** The values a name goes through: the index, then every unfolded change. */
  function Chain(s: State, l: Loc): (c: seq<Option<Uuid>>)
    ensures |c| == |Todo(s, l)| + 1
  {
    [Get(s.index, l)] + seq(|Todo(s, l)|, i requires 0 <= i < |Todo(s, l)| => Effect(Todo(s, l)[i]))
  }

  /** What the name will stand for once everything is folded. */
  function Latest(s: State, l: Loc): Option<Uuid> {
    Chain(s, l)[|Todo(s, l)|]
  }

  /** What readers see under the name: a kept tombstone hides the index. */
  function Shows(s: State, l: Loc): Option<Uuid> {
    if Todo(s, l) == [] && l in s.kept then None else Latest(s, l)
  }

  predicate Holds(s: State, l: Loc, u: Uuid) {
    Some(u) in Chain(s, l)
  }

  function NamesOf(s: State, u: Uuid): set<Loc> {
    set l | l in s.index.Keys + s.todo.Keys && Shows(s, l) == Some(u)
  }

  // ----- the links of a child that are spoken for -----

  /** How often the values of a chain turn to `u`. */
  function Runs(c: seq<Option<Uuid>>, u: Uuid): nat {
    if c == [] then 0
    else
      var m := |c| - 1;
      Runs(c[..m], u) + if c[m] == Some(u) && (m == 0 || c[m - 1] != Some(u)) then 1 else 0
  }

  /** The name is the source of a rename that has already added `u` elsewhere. */
  ghost predicate Leaving(s: State, l: Loc, u: Uuid) {
    exists p :: p in s.moves && s.moves[p].added && s.moves[p].src == l && s.moves[p].uuid == u
  }

  /** The links of `u` a name takes up: one for every time it is bound to `u`, and will have to be unbound. */
  ghost function Weight(s: State, l: Loc, u: Uuid): nat {
    if Leaving(s, l, u) then 0 else Runs(Chain(s, l), u)
  }

  ghost function Weights(s: State, u: Uuid, ls: set<Loc>): nat
    decreases ls
  {
    if ls == {} then 0 else var l :| l in ls; Weight(s, l, u) + Weights(s, u, ls - {l})
  }

  ghost function NameClaims(s: State, u: Uuid): nat {
    Weights(s, u, s.index.Keys + s.todo.Keys)
  }

  function InFlight(s: State, u: Uuid): set<Pid> {
    set p | p in s.links && !s.links[p].Checked? && s.links[p].uuid == u
  }

  function Owing(s: State, u: Uuid): set<DebtId> {
    set f | f in s.debts && s.debts[f].uuid == u
  }

  /** Names, bumps under way and unpaid decrements. */
  ghost function Claims(s: State, u: Uuid): nat {
    NameClaims(s, u) + |InFlight(s, u)| + |Owing(s, u)|
  }

  /** The authoritative link count; a create scatter carries 1 until the inode follows it. */
  function Nlink(s: State, u: Uuid): nat {
    if u !in s.files || s.files[u].Reclaimed? then 0
    else if s.files[u].Unwritten? then 1
    else s.files[u].nlink
  }

  ghost predicate IsLive(s: State, u: Uuid) {
    u in s.files && s.files[u].Live?
  }

  /** Every claim is counted. */
  ghost predicate Covered(s: State) {
    forall u :: Claims(s, u) <= Nlink(s, u)
  }

  /** A link of `u` no claim needs. */
  ghost predicate Spare(s: State, u: Uuid) {
    Claims(s, u) < Nlink(s, u)
  }

  // ----- announcing -----

  function Appended(s: State, l: Loc, c: Change): map<Loc, seq<Change>> {
    s.todo[l := Todo(s, l) + [c]]
  }

  /** adjust_nlink: an optimistic read-modify-write, saturating at zero; no inode is NotFound. */
  function Adjusted(s: State, u: Uuid, delta: int): map<Uuid, File> {
    if u in s.files && s.files[u].Live?
    then s.files[u := Live(if s.files[u].nlink + delta < 0 then 0 else s.files[u].nlink + delta)]
    else s.files
  }

  datatype Emission =
    | Create(l: Loc, u: Uuid)
    | WriteInode(u: Uuid)
    | Update(l: Loc, u: Uuid)
    | Unlink(l: Loc, u: Uuid, tombstone: bool)

  /** A new child's Create scatter comes before its inode object. Markers may name any child. */
  ghost predicate EmitNext(s: State, s': State, e: Emission) {
    match e
    case Create(l, u) => u !in s.files && s' == s.(todo := Appended(s, l, Up(u)), files := s.files[u := Unwritten])
    case WriteInode(u) => u in s.files && s.files[u].Unwritten? && s' == s.(files := s.files[u := Live(1)])
    case Update(l, u) => s' == s.(todo := Appended(s, l, Up(u)))
    case Unlink(l, u, tombstone) => s' == s.(todo := Appended(s, l, Down(u, tombstone)))
  }

  // ----- compaction -----

  datatype Compaction =
    | Fold(l: Loc, k: nat, f: DebtId)
    | Refold(l: Loc, f: DebtId)
    | Collect(l: Loc)
    | Bury(f: DebtId)
    | Pay(f: DebtId)
    | Forget(f: DebtId)

  /** The debt a folded marker leaves, if it takes a name out of the index. */
  function DebtsAfter(s: State, l: Loc, c: Change, f: DebtId): map<DebtId, Debt> {
    if c.Down? && l in s.index then s.debts[f := Debt(c.uuid, c.tombstone)] else s.debts
  }

  /** Folding commits the `k` oldest changes of a name; only the last of them matters. */
  ghost predicate Folds(s: State, s': State, l: Loc, k: nat, f: DebtId) {
    && 0 < k <= |Todo(s, l)| && f !in s.debts && f.loc == l
    && var c := Todo(s, l)[k - 1];
       s' == s.(index := if c.Up? then s.index[l := c.uuid] else Without(s.index, l),
                todo := s.todo[l := Todo(s, l)[k..]],
                kept := if c.Down? && c.tombstone then s.kept[l := c.uuid] else Without(s.kept, l),
                debts := DebtsAfter(s, l, c, f))
  }

  /** A later compaction sees a kept tombstone again, and folds it again. */
  ghost predicate Refolds(s: State, s': State, l: Loc, f: DebtId) {
    && l in s.kept && f !in s.debts && f.loc == l
    && s' == s.(index := Without(s.index, l), debts := DebtsAfter(s, l, Down(s.kept[l], true), f))
  }

  /** Phase 2: the tombstone, once the child's inode has been read. */
  ghost predicate Buries(s: State, s': State, f: DebtId) {
    && f in s.debts && !s.debts[f].buried && IsLive(s, s.debts[f].uuid)
    && s' == s.(debts := s.debts[f := s.debts[f].(buried := true)],
                todo := Appended(s, f.loc, Down(s.debts[f].uuid, true)),
                buried := s.buried + {s.debts[f].uuid})
  }

  /** A debt forgotten is one never paid: a crash, an error, or a child whose inode is not there. */
  ghost predicate CompactNext(s: State, s': State, c: Compaction) {
    match c
    case Fold(l, k, f) => Folds(s, s', l, k, f)
    case Refold(l, f) => Refolds(s, s', l, f)
    case Collect(l) => l in s.kept && s' == s.(kept := Without(s.kept, l))
    case Bury(f) => Buries(s, s', f)
    case Pay(f) =>
      f in s.debts && s.debts[f].buried
      && s' == s.(debts := Without(s.debts, f), files := Adjusted(s, s.debts[f].uuid, -1))
    case Forget(f) => f in s.debts && s' == s.(debts := Without(s.debts, f))
  }

  // ----- hard links -----

  datatype Call = Start(l: Loc, u: Uuid) | Bump | Insert(conflict: bool) | Rollback(failed: bool) | Crash

  ghost predicate Bumps(s: State, s': State, p: Pid) {
    && p in s.links && s.links[p].Checked?
    && var c := s.links[p];
       if IsLive(s, c.uuid)
       then s' == s.(files := Adjusted(s, c.uuid, 1), links := s.links[p := Bumped(c.loc, c.uuid, 0)])
       else s' == s.(links := Without(s.links, p))
  }

  /** A name that is taken refuses the insert; a conflicting flush costs an attempt, and the last one gives up. */
  function AfterRefusal(s: State, c: Link): Link
    requires c.Bumped?
  {
    if c.loc !in s.index && c.attempt + 1 < NLINK_RETRIES then Bumped(c.loc, c.uuid, c.attempt + 1) else RollingBack(c.uuid)
  }

  /** insert_entry_excl. */
  ghost predicate Inserts(s: State, s': State, p: Pid, conflict: bool) {
    && p in s.links && s.links[p].Bumped?
    && var c := s.links[p];
       if c.loc in s.index || conflict
       then s' == s.(links := s.links[p := AfterRefusal(s, c)])
       else Todo(s, c.loc) == [] && s' == s.(index := s.index[c.loc := c.uuid], links := Without(s.links, p))
  }

  /** A rollback that fails leaves the count too high. */
  ghost predicate LinkNext(s: State, s': State, p: Pid, c: Call) {
    match c
    case Start(l, u) => p !in s.links && l !in s.index && s' == s.(links := s.links[p := Checked(l, u)])
    case Bump => Bumps(s, s', p)
    case Insert(conflict) => Inserts(s, s', p, conflict)
    case Rollback(failed) =>
      p in s.links && s.links[p].RollingBack?
      && s' == s.(links := Without(s.links, p), files := if failed then s.files else Adjusted(s, s.links[p].uuid, -1))
    case Crash => p in s.links && s' == s.(links := Without(s.links, p))
  }

  // ----- renames -----

  datatype Renaming = Within(a: Loc, b: Loc) | Recheck(p: Pid, a: Loc, b: Loc) | Add(p: Pid) | Remove(p: Pid)

  /** No rename under way has this source; its intent object sees to that. */
  ghost predicate SourceFree(s: State, a: Loc) {
    forall p :: p in s.moves ==> s.moves[p].src != a
  }

  /**
   * Within a directory one flush moves the binding. Across directories a rename past its
   * recheck writes the child it saw to the destination, whatever the source holds by then,
   * and removes the source by name; recovery may repeat the first. Replaced entries go.
   */
  ghost predicate RenameNext(s: State, s': State, r: Renaming) {
    match r
    case Within(a, b) =>
      && a in s.index && a != b && a.dir == b.dir && Todo(s, a) == [] && Todo(s, b) == []
      && s' == s.(index := Without(s.index, a)[b := s.index[a]])
    case Recheck(p, a, b) =>
      && p !in s.moves && a in s.index && a != b && SourceFree(s, a)
      && s' == s.(moves := s.moves[p := Move(a, b, s.index[a], false)])
    case Add(p) =>
      && p in s.moves && Todo(s, s.moves[p].dst) == []
      && s' == s.(index := s.index[s.moves[p].dst := s.moves[p].uuid], moves := s.moves[p := s.moves[p].(added := true)])
    case Remove(p) =>
      && p in s.moves && s.moves[p].added && Todo(s, s.moves[p].src) == []
      && s' == s.(index := Without(s.index, s.moves[p].src), moves := Without(s.moves, p))
  }

  // ----- garbage collection -----

  datatype Collection = Sweep(g: Pid, u: Uuid) | Reclaim(g: Pid) | Abandon(g: Pid)

  /** fs_gc reads a buried child's count: zero or gone means reclaim. */
  ghost predicate GcNext(s: State, s': State, c: Collection) {
    match c
    case Sweep(g, u) =>
      && g !in s.sweeps && u in s.buried && (IsLive(s, u) ==> s.files[u].nlink == 0)
      && s' == s.(sweeps := s.sweeps[g := u])
    case Reclaim(g) => g in s.sweeps && s' == s.(files := s.files[s.sweeps[g] := Reclaimed], sweeps := Without(s.sweeps, g))
    case Abandon(g) => g in s.sweeps && s' == s.(sweeps := Without(s.sweeps, g))
  }

  /** A garbage collection has seen the child's count at zero and is about to reclaim it. */
  ghost predicate Condemned(s: State, u: Uuid) {
    exists g :: g in s.sweeps && s.sweeps[g] == u
  }

  // ----- steps -----

  datatype Step =
    | Emits(e: Emission)
    | Compacts(c: Compaction)
    | Links(p: Pid, call: Call)
    | Renames(r: Renaming)
    | Collects(g: Collection)

  /** A step, whatever it does to the counts. */
  ghost predicate NextAny(s: State, s': State, step: Step) {
    match step
    case Emits(e) => EmitNext(s, s', e)
    case Compacts(c) => CompactNext(s, s', c)
    case Links(p, call) => LinkNext(s, s', p, call)
    case Renames(r) => RenameNext(s, s', r)
    case Collects(g) => GcNext(s, s', g)
  }

  /** The name shows the child already, or a rename will take it out, or a link is to spare. */
  ghost predicate UpdateSafe(s: State, l: Loc, u: Uuid) {
    Latest(s, l) == Some(u) || Leaving(s, l, u) || Spare(s, u)
  }

  /** A marker over a bound name names a child the fold takes out, not one a rename does, or a link is to spare. */
  ghost predicate FoldSafe(s: State, l: Loc, k: nat) {
    0 < k <= |Todo(s, l)| ==>
      var c := Todo(s, l)[k - 1];
      c.Down? && l in s.index ==> (Some(c.uuid) in Chain(s, l)[..k] && !Leaving(s, l, c.uuid)) || Spare(s, c.uuid)
  }

  /** A kept tombstone over a bound name, likewise. */
  ghost predicate RefoldSafe(s: State, l: Loc) {
    l in s.kept && l in s.index ==>
      var v := s.kept[l];
      || (s.index[l] == v && (Todo(s, l) == [] || Effect(Todo(s, l)[0]) != Some(v)) && !Leaving(s, l, v))
      || Spare(s, v)
  }

  /** The destination has the child already or is being left, the source still counts for it, or a link is to spare. */
  ghost predicate AddSafe(s: State, p: Pid) {
    p in s.moves ==>
      var m := s.moves[p];
      || Holds(s, m.dst, m.uuid) || Leaving(s, m.dst, m.uuid)
      || (!m.added && Weight(s, m.src, m.uuid) > 0)
      || Spare(s, m.uuid)
  }

  ghost predicate WithinSafe(s: State, a: Loc, b: Loc) {
    a in s.index ==>
      var u := s.index[a];
      !Leaving(s, a, u) || Holds(s, b, u) || Leaving(s, b, u) || Spare(s, u)
  }

  ghost predicate EmitSafe(s: State, e: Emission) {
    e.Update? ==> UpdateSafe(s, e.l, e.u)
  }

  ghost predicate CompactSafe(s: State, c: Compaction) {
    (c.Fold? ==> FoldSafe(s, c.l, c.k)) && (c.Refold? ==> RefoldSafe(s, c.l))
  }

  ghost predicate RenameSafe(s: State, r: Renaming) {
    (r.Within? ==> WithinSafe(s, r.a, r.b)) && (r.Add? ==> AddSafe(s, r.p))
  }

  /** What a step must meet for every claim to stay counted. */
  ghost predicate Safe(s: State, step: Step) {
    match step
    case Emits(e) => EmitSafe(s, e)
    case Compacts(c) => CompactSafe(s, c)
    case Links(_, _) => true
    case Renames(r) => RenameSafe(s, r)
    case Collects(_) => true
  }

  /** A file is bumped only while no collection is about to reclaim it. */
  ghost predicate BumpSafe(s: State, step: Step) {
    step.Links? && step.call.Bump? && step.p in s.links ==> !Condemned(s, s.links[step.p].uuid)
  }

  ghost predicate Next(s: State, s': State, step: Step) {
    NextAny(s, s', step) && Safe(s, step) && BumpSafe(s, step)
  }

  /** Well-counted directories with nothing under way. */
  ghost predicate Init(s: State) {
    && s.todo == map[] && s.kept == map[] && s.links == map[] && s.debts == map[] && s.buried == {}
    && s.sweeps == map[] && s.moves == map[] && Covered(s)
  }

  ghost predicate Follows(run: seq<State>, steps: seq<Step>) {
    && |run| == |steps| + 1
    && forall j {:trigger steps[j]} :: 0 <= j < |steps| ==> Next(run[j], run[j + 1], steps[j])
  }

  ghost predicate IsRun(run: seq<State>, steps: seq<Step>) {
    Follows(run, steps) && Init(run[0])
  }

  // ----- the invariant -----

  /** Only written children are buried, and a child about to be reclaimed counts no links. */
  ghost predicate SweepsOk(s: State) {
    && (forall u :: u in s.buried ==> u in s.files && !s.files[u].Unwritten?)
    && (forall g :: g in s.sweeps ==> s.sweeps[g] in s.buried && Nlink(s, s.sweeps[g]) == 0)
  }

  ghost predicate MovesOk(s: State) {
    forall p :: p in s.moves ==> s.moves[p].src != s.moves[p].dst
  }

  ghost predicate Inv(s: State) {
    Covered(s) && SweepsOk(s) && MovesOk(s)
  }
}
