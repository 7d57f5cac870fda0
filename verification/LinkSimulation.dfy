/**
 * One directory seen twice: by the scatter protocol, and by the link protocol. Every step of the
 * first is, by name, certain steps of the second, and those keep the two views alike.
 */
module LinkSimulation {
  import opened Names
  import SS = ScatterStore
  import SP = ScatterProtocol
  import SI = ScatterInvariant
  import ST = ScatterTheorems
  import Q = ScatterQueue
  import opened LinkProtocol
  import opened LinkInvariant

  // ----- the two views alike -----

  function ToChange(x: SS.Scatter): Change {
    if SS.Effect(x).Some? then Up(x.entry.uuid) else Down(x.entry.uuid, x.op.Delete?)
  }

  function ToChanges(q: seq<SS.Scatter>): seq<Change> {
    seq(|q|, i requires 0 <= i < |q| => ToChange(q[i]))
  }

  function UuidOf(e: Option<Entry>): Option<Uuid> {
    if e.Some? then Some(e.value.uuid) else None
  }

  /** The name has the same child in both indexes, the same changes waiting and the same tombstone kept. */
  ghost predicate Mirrors(d: State, s: SP.State, dir: Uuid, n: Name) {
    && Get(d.index, Loc(dir, n)) == UuidOf(Get(s.store.index, n))
    && Todo(d, Loc(dir, n)) == ToChanges(Q.Queue(s, n))
    && Get(d.kept, Loc(dir, n)) == Q.Kept(s, n)
  }

  ghost predicate AllMirror(d: State, s: SP.State, dir: Uuid) {
    forall n :: Mirrors(d, s, dir, n)
  }

  function IdOf(dir: Uuid, f: SP.Fold): DebtId {
    DebtId(Loc(dir, f.name), f.version)
  }

  /** Every removal the directory's compactors still owe is a debt, under its own key. */
  ghost predicate DebtsMirrored(d: State, s: SP.State, dir: Uuid) {
    && (forall f :: f in d.debts && f.loc.dir == dir ==> f.version <= s.store.version)
    && (forall p, f :: p in s.procs && s.procs[p].Flushed? && f in s.procs[p].owed ==>
          DebtMirrored(d, dir, f, s.procs[p].owed[f]))
  }

  ghost predicate DebtMirrored(d: State, dir: Uuid, f: SP.Fold, owed: SP.Debt) {
    Get(d.debts, IdOf(dir, f)) == Some(Debt(owed.uuid, !owed.tombstoneDue))
  }

  ghost predicate Sim(d: State, s: SP.State, dir: Uuid) {
    AllMirror(d, s, dir) && DebtsMirrored(d, s, dir)
  }

  /** Readers of a mirrored name see the same child. */
  lemma MirrorsShow(d: State, s: SP.State, dir: Uuid, n: Name)
    requires Mirrors(d, s, dir, n) && SI.Inv(s)
    ensures Shows(d, Loc(dir, n)) == UuidOf(SS.Visible(s.store, n))
  {
    Q.QueueShows(s, n);
    var q := Q.Queue(s, n);
    if q != [] {
      assert Todo(d, Loc(dir, n))[|q| - 1] == ToChange(q[|q| - 1]);
    } else if Q.Kept(s, n).Some? {
      Q.KeptIsBare(s, n);
    }
  }

  // ----- what a scatter step is in the link protocol -----

  function Announced(dir: Uuid, x: SS.Scatter): Emission {
    var l, u := Loc(dir, x.name), x.entry.uuid;
    match x.op
    case Create => Create(l, u)
    case Update => Update(l, u)
    case PreDelete => Unlink(l, u, false)
    case Delete => Unlink(l, u, true)
  }

  /** A fold of one name that the flush committing version `v` consumes from. */
  ghost predicate IsFoldOf(s: SP.State, s': SP.State, dir: Uuid, v: nat, mv: Step) {
    && mv.Compacts? && mv.c.Fold? && mv.c.l.dir == dir && mv.c.f == DebtId(mv.c.l, v)
    && Q.Folds(s, s', mv.c.l.name, mv.c.k)
  }

  /** One fold for every name consumed from, and nothing else. */
  ghost predicate FoldsOf(s: SP.State, s': SP.State, dir: Uuid, v: nat, mvs: seq<Step>) {
    && (forall j :: 0 <= j < |mvs| ==> IsFoldOf(s, s', dir, v, mvs[j]))
    && (forall i, j :: 0 <= i < j < |mvs| ==> mvs[i].c.l != mvs[j].c.l)
    && (forall n :: !Q.Stays(s, s', n) ==> exists j :: 0 <= j < |mvs| && mvs[j].c.l == Loc(dir, n))
  }

  /** A collection: of a kept tombstone, of one consumed on the way, or of one that no longer mattered. */
  ghost predicate CollectionOf(s: SP.State, s': SP.State, dir: Uuid, n: Name, mvs: seq<Step>) {
    var l := Loc(dir, n);
    if Q.Stays(s, s', n) then mvs == []
    else if Q.Collects(s, s', n) then mvs == [Compacts(Collect(l))]
    else
      && |mvs| == 2 && mvs[1] == Compacts(Collect(l))
      && mvs[0].Compacts? && mvs[0].c.Fold? && mvs[0].c.l == l && mvs[0].c.f == DebtId(l, s.store.version + 1)
      && Q.FoldsAway(s, s', n, mvs[0].c.k)
  }

  /** What an index-editing step of the link protocol does to the names of one directory. */
  ghost function EditsBy(d: State, mv: Step, dir: Uuid): map<Name, Option<Uuid>> {
    match mv
    case Links(p, c) =>
      if c == Insert(false) && p in d.links && d.links[p].Bumped? && d.links[p].loc.dir == dir && d.links[p].loc !in d.index
      then map[d.links[p].loc.name := Some(d.links[p].uuid)] else map[]
    case Renames(r) =>
      (match r
       case Within(a, b) => if a.dir == dir && a in d.index then map[a.name := None, b.name := Some(d.index[a])] else map[]
       case Recheck(_, _, _) => map[]
       case Add(p) => if p in d.moves && d.moves[p].dst.dir == dir then map[d.moves[p].dst.name := Some(d.moves[p].uuid)] else map[]
       case Remove(p) => if p in d.moves && d.moves[p].src.dir == dir then map[d.moves[p].src.name := None] else map[])
    case _ => map[]
  }

  function Uuids(edits: map<Name, Option<Entry>>): map<Name, Option<Uuid>> {
    map n | n in edits :: UuidOf(edits[n])
  }

  /** The steps of the link protocol that a step of the scatter protocol is. */
  ghost predicate MovesOf(d: State, s: SP.State, s': SP.State, step: SP.Step, dir: Uuid, mvs: seq<Step>) {
    match step
    case EmitStep(x) => mvs == [Emits(Announced(dir, x))]
    case TombstoneStep(p, f, x) => mvs == [Compacts(Bury(IdOf(dir, f)))]
    case DecrementStep(p, f) => mvs == [Compacts(Pay(IdOf(dir, f)))]
    case FlushStep(p) => if SI.FlushedBy(s, s', p) then FoldsOf(s, s', dir, s'.store.version, mvs) else mvs == []
    case SweepRemoveStep(g, x) => CollectionOf(s, s', dir, x.name, mvs)
    case EditStep(edits) => |mvs| == 1 && edits != map[] && EditsBy(d, mvs[0], dir) == Uuids(edits)
    case _ => mvs == []
  }

  /** A path of link steps. */
  ghost predicate Path(via: seq<State>, mvs: seq<Step>) {
    && |via| == |mvs| + 1
    && forall j {:trigger mvs[j]} :: 0 <= j < |mvs| ==> NextAny(via[j], via[j + 1], mvs[j])
  }

  // ----- one name at a time -----

  ghost predicate SameAt(d: State, d': State, l: Loc) {
    Get(d'.index, l) == Get(d.index, l) && Todo(d', l) == Todo(d, l) && Get(d'.kept, l) == Get(d.kept, l)
  }

  lemma SameMirrors(d: State, d': State, s: SP.State, s': SP.State, dir: Uuid, n: Name)
    requires Mirrors(d, s, dir, n) && SameAt(d, d', Loc(dir, n)) && Q.Stays(s, s', n)
    ensures Mirrors(d', s', dir, n)
  {
  }

  /** Everything but `names` stays. */
  lemma RestStays(d: State, d': State, s: SP.State, s': SP.State, dir: Uuid, names: set<Name>)
    requires AllMirror(d, s, dir)
    requires forall n :: n in names ==> Mirrors(d', s', dir, n)
    requires forall n :: n !in names ==> Q.Stays(s, s', n) && SameAt(d, d', Loc(dir, n))
    ensures AllMirror(d', s', dir)
  {
    forall n | n !in names ensures Mirrors(d', s', dir, n) { SameMirrors(d, d', s, s', dir, n); }
  }

  lemma AppendMirrors(d: State, d': State, s: SP.State, s': SP.State, dir: Uuid, x: SS.Scatter)
    requires Mirrors(d, s, dir, x.name) && Q.Appends(s, s', x.name, x)
    requires d'.todo == Appended(d, Loc(dir, x.name), ToChange(x)) && d'.index == d.index && d'.kept == d.kept
    ensures Mirrors(d', s', dir, x.name) && forall l :: l != Loc(dir, x.name) ==> SameAt(d, d', l)
  {
    assert ToChanges(Q.Queue(s, x.name) + [x]) == ToChanges(Q.Queue(s, x.name)) + [ToChange(x)];
  }

  /** The change a fold ends with takes the name out of the index. */
  ghost predicate TakesOut(s: SP.State, n: Name, k: nat) {
    n in s.store.index && 0 < k <= |Q.Queue(s, n)| && SS.Effect(Q.Queue(s, n)[k - 1]) == None
  }

  ghost function DebtOf(s: SP.State, n: Name, k: nat): Debt
    requires 0 < k <= |Q.Queue(s, n)|
  {
    Debt(Q.Queue(s, n)[k - 1].entry.uuid, Q.Queue(s, n)[k - 1].op.Delete?)
  }

  /** A fold of `k` changes in the link protocol is the consumption of `k` scatters. */
  lemma FoldMirrors(d: State, d': State, s: SP.State, s': SP.State, dir: Uuid, n: Name, k: nat, f: DebtId)
    requires Mirrors(d, s, dir, n) && Q.Consumes(s, s', n, k) && Folds(d, d', Loc(dir, n), k, f)
    ensures Get(d'.index, Loc(dir, n)) == UuidOf(Get(s'.store.index, n))
    ensures Todo(d', Loc(dir, n)) == ToChanges(Q.Queue(s', n))
    ensures Get(d'.kept, Loc(dir, n)) == Q.TombstoneOf(Q.Queue(s, n)[k - 1])
    ensures forall l :: l != Loc(dir, n) ==> SameAt(d, d', l)
    ensures d'.debts == if TakesOut(s, n, k) then d.debts[f := DebtOf(s, n, k)] else d.debts
  {
    var l, q := Loc(dir, n), Q.Queue(s, n);
    assert Todo(d, l)[k - 1] == ToChange(q[k - 1]);
    assert ToChanges(q[k..]) == ToChanges(q)[k..];
  }

  // ----- emissions, phase 2 and decrements -----

  lemma OthersStayEmit(s: SP.State, s': SP.State, x: SS.Scatter, procs: map<SP.Pid, SP.Process>, n: Name)
    requires SI.StoreOk(s) && SP.Emitted(s, s', x, procs)
    ensures if n == x.name then Q.Appends(s, s', n, x) else Q.Stays(s, s', n)
  {
    Q.EmitMoves(s, s', x, procs, n);
  }

  lemma EmissionMirrors(d: State, d': State, s: SP.State, s': SP.State, dir: Uuid, x: SS.Scatter, procs: map<SP.Pid, SP.Process>)
    requires AllMirror(d, s, dir) && SI.StoreOk(s) && SP.Emitted(s, s', x, procs)
    requires d'.todo == Appended(d, Loc(dir, x.name), ToChange(x)) && d'.index == d.index && d'.kept == d.kept
    ensures AllMirror(d', s', dir)
  {
    forall n ensures if n == x.name then Q.Appends(s, s', n, x) else Q.Stays(s, s', n) {
      OthersStayEmit(s, s', x, procs, n);
    }
    AppendMirrors(d, d', s, s', dir, x);
    RestStays(d, d', s, s', dir, {x.name});
  }

  lemma AnnouncedAppends(d: State, d': State, dir: Uuid, x: SS.Scatter)
    requires EmitNext(d, d', Announced(dir, x))
    ensures d'.todo == Appended(d, Loc(dir, x.name), ToChange(x))
    ensures d'.index == d.index && d'.kept == d.kept && d'.debts == d.debts
  {
    EmitFrame(d, d', Announced(dir, x));
    match x.op
    case Create =>
    case Update =>
    case PreDelete =>
    case Delete =>
  }

  /** Processes that owe something after the step owed the same before it. */
  ghost predicate OwesNothingNew(s: SP.State, s': SP.State) {
    && s.store.version <= s'.store.version
    && forall p :: p in s'.procs && s'.procs[p].Flushed? ==> p in s.procs && s.procs[p] == s'.procs[p]
  }

  lemma QuietDebts(d: State, d': State, s: SP.State, s': SP.State, dir: Uuid)
    requires DebtsMirrored(d, s, dir) && OwesNothingNew(s, s')
    requires forall f: DebtId :: f.loc.dir == dir ==> Get(d'.debts, f) == Get(d.debts, f)
    ensures DebtsMirrored(d', s', dir)
  {
    forall f | f in d'.debts && f.loc.dir == dir ensures f.version <= s'.store.version {
      assert Get(d'.debts, f) == Get(d.debts, f);
    }
    forall p, f | p in s'.procs && s'.procs[p].Flushed? && f in s'.procs[p].owed
      ensures DebtMirrored(d', dir, f, s'.procs[p].owed[f])
    {
      assert DebtMirrored(d, dir, f, s.procs[p].owed[f]);
      assert Get(d'.debts, IdOf(dir, f)) == Get(d.debts, IdOf(dir, f));
    }
  }

  lemma EmitMirrors(d: State, d': State, s: SP.State, s': SP.State, dir: Uuid, x: SS.Scatter)
    requires Sim(d, s, dir) && SI.Inv(s) && SP.Emit(s, s', x) && EmitNext(d, d', Announced(dir, x))
    ensures Sim(d', s', dir)
  {
    AnnouncedAppends(d, d', dir, x);
    EmissionMirrors(d, d', s, s', dir, x, s.procs);
    QuietDebts(d, d', s, s', dir);
  }

  /** Keys of different removals differ. */
  lemma IdsDiffer(dir: Uuid, f: SP.Fold, g: SP.Fold)
    ensures IdOf(dir, f) == IdOf(dir, g) <==> f == g
  {
  }

  lemma TombstoneDebts(d: State, d': State, s: SP.State, s': SP.State, dir: Uuid, p: SP.Pid, f: SP.Fold, x: SS.Scatter)
    requires DebtsMirrored(d, s, dir) && ST.DebtsOk(s) && SP.Tombstone(s, s', p, f, x)
    requires IdOf(dir, f) in d.debts && d'.debts == d.debts[IdOf(dir, f) := d.debts[IdOf(dir, f)].(buried := true)]
    ensures DebtsMirrored(d', s', dir)
  {
    assert DebtMirrored(d, dir, f, s.procs[p].owed[f]);
    forall q, g | q in s'.procs && s'.procs[q].Flushed? && g in s'.procs[q].owed
      ensures DebtMirrored(d', dir, g, s'.procs[q].owed[g])
    {
      assert q in s.procs && s.procs[q].Flushed? && g in s.procs[q].owed && (g == f ==> q == p);
      assert DebtMirrored(d, dir, g, s.procs[q].owed[g]);
      IdsDiffer(dir, f, g);
    }
  }

  lemma TombstoneMirrors(d: State, d': State, s: SP.State, s': SP.State, dir: Uuid, p: SP.Pid, f: SP.Fold, x: SS.Scatter)
    requires Sim(d, s, dir) && SI.Inv(s) && ST.DebtsOk(s) && SP.Tombstone(s, s', p, f, x) && Buries(d, d', IdOf(dir, f))
    ensures Sim(d', s', dir)
  {
    assert DebtMirrored(d, dir, f, s.procs[p].owed[f]);
    assert ToChange(x) == Down(d.debts[IdOf(dir, f)].uuid, true);
    EmissionMirrors(d, d', s, s', dir, x, s'.procs);
    TombstoneDebts(d, d', s, s', dir, p, f, x);
  }

  lemma DecrementDebts(d: State, d': State, s: SP.State, s': SP.State, dir: Uuid, p: SP.Pid, f: SP.Fold)
    requires DebtsMirrored(d, s, dir) && ST.DebtsOk(s) && SP.Decrement(s, s', p, f)
    requires d'.debts == Without(d.debts, IdOf(dir, f))
    ensures DebtsMirrored(d', s', dir)
  {
    forall q, g | q in s'.procs && s'.procs[q].Flushed? && g in s'.procs[q].owed
      ensures DebtMirrored(d', dir, g, s'.procs[q].owed[g])
    {
      assert q in s.procs && s.procs[q].Flushed? && g in s.procs[q].owed && (g == f ==> q == p);
      assert DebtMirrored(d, dir, g, s.procs[q].owed[g]);
      IdsDiffer(dir, f, g);
    }
  }

  lemma DecrementMirrors(d: State, d': State, s: SP.State, s': SP.State, dir: Uuid, p: SP.Pid, f: SP.Fold)
    requires Sim(d, s, dir) && ST.DebtsOk(s) && SP.Decrement(s, s', p, f) && CompactNext(d, d', Pay(IdOf(dir, f)))
    ensures Sim(d', s', dir)
  {
    forall n ensures Q.Stays(s, s', n) { Q.QuietStays(s, s', n); }
    RestStays(d, d', s, s', dir, {});
    DecrementDebts(d, d', s, s', dir, p, f);
  }

  // ----- collections -----

  lemma CollectMirrors(d: State, d': State, s: SP.State, s': SP.State, dir: Uuid, n: Name)
    requires Mirrors(d, s, dir, n) && Q.Collects(s, s', n) && CompactNext(d, d', Collect(Loc(dir, n)))
    ensures Mirrors(d', s', dir, n) && d'.debts == d.debts && forall l :: l != Loc(dir, n) ==> SameAt(d, d', l)
  {
  }

  lemma FoldAwayMirrors(d: State, m: State, d': State, s: SP.State, s': SP.State, dir: Uuid, n: Name, k: nat, f: DebtId)
    requires Mirrors(d, s, dir, n) && Q.FoldsAway(s, s', n, k) && n !in s.store.index
    requires Folds(d, m, Loc(dir, n), k, f) && CompactNext(m, d', Collect(Loc(dir, n)))
    ensures Mirrors(d', s', dir, n) && d'.debts == d.debts && forall l :: l != Loc(dir, n) ==> SameAt(d, d', l)
  {
    FoldMirrors(d, m, s, s', dir, n, k, f);
  }

  /** What a collection does in the link protocol: the name alone, and no debt. */
  lemma CollectionMirrors(d: State, s: SP.State, s': SP.State, dir: Uuid, n: Name, via: seq<State>, mvs: seq<Step>)
    requires Mirrors(d, s, dir, n) && Get(s'.store.index, n) == Get(s.store.index, n)
    requires CollectionOf(s, s', dir, n, mvs) && Path(via, mvs) && via[0] == d
    ensures var d' := via[|mvs|];
      Mirrors(d', s', dir, n) && d'.debts == d.debts && forall l :: l != Loc(dir, n) ==> SameAt(d, d', l)
  {
    var d' := via[|mvs|];
    if Q.Stays(s, s', n) {
      SameMirrors(d, d', s, s', dir, n);
    } else if Q.Collects(s, s', n) {
      assert NextAny(via[0], via[1], mvs[0]);
      CollectMirrors(d, d', s, s', dir, n);
    } else {
      assert NextAny(via[0], via[1], mvs[0]) && NextAny(via[1], via[2], mvs[1]);
      FoldAwayMirrors(d, via[1], d', s, s', dir, n, mvs[0].c.k, mvs[0].c.f);
    }
  }

  lemma SweepMirrors(d: State, s: SP.State, s': SP.State, dir: Uuid, g: SP.Pid, x: SS.Scatter, via: seq<State>, mvs: seq<Step>)
    requires Sim(d, s, dir) && SI.Inv(s) && SP.SweepRemove(s, s', g, x)
    requires CollectionOf(s, s', dir, x.name, mvs) && Path(via, mvs) && via[0] == d
    ensures Sim(via[|mvs|], s', dir)
  {
    var n, d' := x.name, via[|mvs|];
    CollectionMirrors(d, s, s', dir, n, via, mvs);
    forall m | m !in {n} ensures Q.Stays(s, s', m) { Q.SweepElsewhere(s, s', g, x, m); }
    RestStays(d, d', s, s', dir, {n});
    QuietDebts(d, d', s, s', dir);
  }

  // ----- direct edits -----

  /** The entries of the directory that a link step rewrites, and nothing pending over them. */
  ghost predicate Rewrites(d: State, d': State, dir: Uuid, w: map<Name, Option<Uuid>>) {
    && d'.todo == d.todo && d'.kept == d.kept && d'.debts == d.debts
    && (forall n :: n in w ==> Todo(d, Loc(dir, n)) == [] && Get(d'.index, Loc(dir, n)) == w[n])
    && (forall n :: n !in w ==> Get(d'.index, Loc(dir, n)) == Get(d.index, Loc(dir, n)))
  }

  lemma LinkRewrites(d: State, d': State, dir: Uuid, p: Pid, c: Call)
    requires LinkNext(d, d', p, c) && EditsBy(d, Links(p, c), dir) != map[]
    ensures Rewrites(d, d', dir, EditsBy(d, Links(p, c), dir))
  {
    assert Inserts(d, d', p, false);
  }

  lemma WithinRewrites(d: State, d': State, dir: Uuid, a: Loc, b: Loc)
    requires RenameNext(d, d', Within(a, b)) && a.dir == dir
    ensures Rewrites(d, d', dir, map[a.name := None, b.name := Some(d.index[a])])
  {
    assert Loc(dir, a.name) == a && Loc(dir, b.name) == b;
  }

  lemma AddRewrites(d: State, d': State, dir: Uuid, p: Pid)
    requires RenameNext(d, d', Add(p)) && d.moves[p].dst.dir == dir
    ensures Rewrites(d, d', dir, map[d.moves[p].dst.name := Some(d.moves[p].uuid)])
  {
    assert Loc(dir, d.moves[p].dst.name) == d.moves[p].dst;
  }

  lemma RemoveRewrites(d: State, d': State, dir: Uuid, p: Pid)
    requires RenameNext(d, d', Remove(p)) && d.moves[p].src.dir == dir
    ensures Rewrites(d, d', dir, map[d.moves[p].src.name := None])
  {
    assert Loc(dir, d.moves[p].src.name) == d.moves[p].src;
  }

  lemma RenameRewrites(d: State, d': State, dir: Uuid, r: Renaming)
    requires RenameNext(d, d', r) && EditsBy(d, Renames(r), dir) != map[]
    ensures Rewrites(d, d', dir, EditsBy(d, Renames(r), dir))
  {
    match r
    case Within(a, b) => WithinRewrites(d, d', dir, a, b);
    case Recheck(p, a, b) => assert false;
    case Add(p) => AddRewrites(d, d', dir, p);
    case Remove(p) => RemoveRewrites(d, d', dir, p);
  }

  lemma EditedMirrors(d: State, d': State, s: SP.State, s': SP.State, dir: Uuid, edits: map<Name, Option<Entry>>)
    requires Sim(d, s, dir) && SI.Inv(s) && SP.Edit(s, s', edits) && Rewrites(d, d', dir, Uuids(edits))
    ensures Sim(d', s', dir)
  {
    forall n | n in edits ensures Mirrors(d', s', dir, n) {
      assert Mirrors(d, s, dir, n);
      assert n in Uuids(edits);
      assert |Todo(d, Loc(dir, n))| == |Q.Queue(s, n)|;
      Q.EditMoves(s, s', edits, n);
    }
    forall n | n !in edits.Keys ensures Q.Stays(s, s', n) && SameAt(d, d', Loc(dir, n)) {
      assert n !in Uuids(edits);
      Q.EditElsewhere(s, s', edits, n);
    }
    RestStays(d, d', s, s', dir, edits.Keys);
    QuietDebts(d, d', s, s', dir);
  }

  lemma EditMirrors(d: State, d': State, s: SP.State, s': SP.State, dir: Uuid, edits: map<Name, Option<Entry>>, mv: Step)
    requires Sim(d, s, dir) && SI.Inv(s) && SP.Edit(s, s', edits) && NextAny(d, d', mv)
    requires edits != map[] && EditsBy(d, mv, dir) == Uuids(edits)
    ensures Sim(d', s', dir)
  {
    var n :| n in edits;
    assert n in Uuids(edits);
    match mv {
      case Links(p, c) => LinkRewrites(d, d', dir, p, c);
      case Renames(r) => RenameRewrites(d, d', dir, r);
      case _ => assert false;
    }
    EditedMirrors(d, d', s, s', dir, edits);
  }
}
