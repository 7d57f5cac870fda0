/**
 * The scatter-then-compact protocol of one directory as a state machine: any number of
 * emitters, compactors, readers, garbage collectors and direct index edits, interleaved
 * request by request, each of them free to stop anywhere.
 */
module ScatterProtocol {
  import opened Names
  import opened ScatterStore

  type Pid = nat

  /** A LIST result and the outcome of the GETs made from it so far. */
  datatype Listing = Listing(listed: set<Scatter>, fetched: set<Scatter>, missing: set<Scatter>)

  /** A present-to-absent transition of the index: the version that committed it, and the name. */
  datatype Fold = Fold(version: nat, name: Name)

  /** A child whose link count is to be lowered; a PreDelete needs its tombstone written first. */
  datatype Debt = Debt(uuid: Uuid, tombstoneDue: bool)

  /**
   * What a process holds between two requests. `scope` is None for read_dir and Some(n) for
   * the single-name resolve. `known` is an auxiliary: the scatters emitted before the LIST.
   */
  datatype Process =
    | Loaded(version: nat, base: map<Name, Entry>)
    | Folding(version: nat, base: map<Name, Entry>, got: Listing)
    | Flushed(drop: set<Scatter>, owed: map<Fold, Debt>)
    | Reading(start: nat, scope: Option<Name>, known: set<Scatter>, got: Listing)
    | ReadDone(start: nat, finish: nat, scope: Option<Name>, view: map<Name, Entry>)
    | Sweeping(found: set<Scatter>, cleared: set<Scatter>)

  /**
   * `store` is S3. The rest but `procs` is auxiliary: every scatter ever emitted, the scatter
   * whose effect the index holds for a name, the store after every step so far, and the
   * transitions committed and the decrements issued.
   */
  datatype State = State(
    store: Store,
    history: set<Scatter>,
    folded: map<Name, Scatter>,
    log: seq<Store>,
    procs: map<Pid, Process>,
    dropped: map<Fold, Uuid>,
    decremented: map<Fold, Uuid>)

  // ----- what a listing amounts to -----

  /** Deletes carry all that is needed in their key; read_dir and compact also read PreDelete bodies. */
  predicate NeedsBody(scope: Option<Name>, s: Scatter) {
    s.op.Create? || s.op.Update? || (s.op.PreDelete? && scope.None?)
  }

  /** The scatter of its name that a pass acts on. */
  ghost predicate Applied(got: Listing, scope: Option<Name>, s: Scatter) {
    IsLatest(got.listed, s.name, s) && (NeedsBody(scope, s) ==> s in got.fetched)
  }

  ghost predicate Touched(got: Listing, scope: Option<Name>, n: Name) {
    exists s: Scatter :: s.name == n && Applied(got, scope, s)
  }

  ghost predicate Complete(got: Listing, scope: Option<Name>) {
    forall s: Scatter :: IsLatest(got.listed, s.name, s) && NeedsBody(scope, s) ==> s in got.fetched || s in got.missing
  }

  ghost function Change(got: Listing, scope: Option<Name>, n: Name): (s: Scatter)
    requires Touched(got, scope, n)
    ensures s.name == n && Applied(got, scope, s)
  {
    var s: Scatter :| s.name == n && Applied(got, scope, s);
    s
  }

  /** The value of `n` once the listing is laid over `base`. */
  ghost function OverlaidAt(base: map<Name, Entry>, got: Listing, scope: Option<Name>, n: Name): Option<Entry> {
    if Touched(got, scope, n) then Effect(Change(got, scope, n)) else Get(base, n)
  }

  ghost function Overlaid(base: map<Name, Entry>, got: Listing, scope: Option<Name>): map<Name, Entry> {
    var names := base.Keys + set s | s in got.listed :: s.name;
    map n | n in names && OverlaidAt(base, got, scope, n).Some? :: OverlaidAt(base, got, scope, n).value
  }

  /** The latest Delete of each name stays behind as a tombstone; everything else listed may go. */
  ghost function Stripped(got: Listing): set<Scatter> {
    set s | s in got.listed && !(s.op.Delete? && IsLatest(got.listed, s.name, s))
  }

  /** The names this fold takes from present to absent, with the uuid its delete marker carries. */
  ghost predicate Removes(base: map<Name, Entry>, got: Listing, n: Name) {
    n in base && Touched(got, None, n) && Effect(Change(got, None, n)).None?
  }

  ghost function DebtsOf(version: nat, base: map<Name, Entry>, got: Listing): map<Fold, Debt> {
    map n | n in base && Removes(base, got, n) ::
      Fold(version, n) := Debt(Change(got, None, n).entry.uuid, Change(got, None, n).op.PreDelete?)
  }

  ghost function DropsOf(version: nat, base: map<Name, Entry>, got: Listing): map<Fold, Uuid> {
    map n | n in base && Removes(base, got, n) :: Fold(version, n) := base[n].uuid
  }

  ghost function FoldedBy(folded: map<Name, Scatter>, got: Listing): map<Name, Scatter> {
    var names := folded.Keys + set s | s in got.listed :: s.name;
    map n | n in names && (n in folded || Touched(got, None, n)) ::
      if Touched(got, None, n) then Change(got, None, n) else folded[n]
  }

  // ----- steps -----

  /** Moves to `store` and `procs`; the log grows by the new store, all else is kept. */
  ghost predicate Moves(s: State, s': State, store: Store, procs: map<Pid, Process>) {
    s' == s.(store := store, procs := procs, log := s.log + [store])
  }

  /** A delete marker names the child its name shows, or a name that shows nothing. */
  ghost predicate MarkerFits(st: Store, x: Scatter) {
    Visible(st, x.name) == None || Visible(st, x.name).value.uuid == x.entry.uuid
  }

  /** A later emission ranks above every earlier one of its name. */
  ghost predicate Fresh(s: State, x: Scatter) {
    x !in s.history && forall k :: k in s.history && k.name == x.name ==> k.stamp < x.stamp
  }

  ghost predicate Emitted(s: State, s': State, x: Scatter, procs: map<Pid, Process>) {
    && Fresh(s, x)
    && (x.op.Delete? ==> MarkerFits(s.store, x))
    && var store := s.store.(scatters := s.store.scatters + {x});
       s' == s.(store := store, history := s.history + {x}, procs := procs, log := s.log + [store])
  }

  ghost predicate Emit(s: State, s': State, x: Scatter) {
    Emitted(s, s', x, s.procs)
  }

  ghost predicate Reload(s: State, s': State, p: Pid) {
    && p !in s.procs
    && Moves(s, s', s.store, s.procs[p := Loaded(s.store.version, s.store.index)])
  }

  ghost predicate List(s: State, s': State, p: Pid) {
    && p in s.procs && s.procs[p].Loaded?
    && var c := s.procs[p];
       Moves(s, s', s.store, s.procs[p := Folding(c.version, c.base, Listing(s.store.scatters, {}, {}))])
  }

  /** One GET of a latest scatter's body: found, or vanished since the LIST. */
  ghost function AfterGet(got: Listing, present: set<Scatter>, x: Scatter): Listing {
    if x in present then got.(fetched := got.fetched + {x}) else got.(missing := got.missing + {x})
  }

  ghost predicate Fetch(s: State, s': State, p: Pid, x: Scatter) {
    && p in s.procs && s.procs[p].Folding?
    && var c := s.procs[p];
       && IsLatest(c.got.listed, x.name, x) && NeedsBody(None, x) && x !in c.got.fetched + c.got.missing
       && Moves(s, s', s.store, s.procs[p := Folding(c.version, c.base, AfterGet(c.got, s.store.scatters, x))])
  }

  /** What a successful flush leaves. */
  ghost function AfterFlush(s: State, p: Pid): State
    requires p in s.procs && s.procs[p].Folding?
  {
    var c := s.procs[p];
    var v := c.version + 1;
    var store := s.store.(version := v, index := Overlaid(c.base, c.got, None));
    s.(store := store,
       folded := FoldedBy(s.folded, c.got),
       log := s.log + [store],
       procs := s.procs[p := Flushed(Stripped(c.got), DebtsOf(v, c.base, c.got))],
       dropped := s.dropped + DropsOf(v, c.base, c.got))
  }

  /** The inode flush: a compare-and-swap on the version the compactor loaded. */
  ghost predicate Flush(s: State, s': State, p: Pid) {
    && p in s.procs && s.procs[p].Folding?
    && var c := s.procs[p];
       && c.got.listed != {} && Complete(c.got, None)
       && if c.version == s.store.version then s' == AfterFlush(s, p)
          else Moves(s, s', s.store, s.procs - {p})
  }

  /** Removal after a successful flush, oldest scatter of a name first. */
  ghost predicate Remove(s: State, s': State, p: Pid, x: Scatter) {
    && p in s.procs && s.procs[p].Flushed? && x in s.procs[p].drop
    && IsOldest(s.store.scatters, x)
    && Moves(s, s', s.store.(scatters := s.store.scatters - {x}), s.procs)
  }

  /** Phase 2 of a delete: the tombstone of a folded PreDelete whose name still shows nothing. */
  ghost predicate Tombstone(s: State, s': State, p: Pid, f: Fold, x: Scatter) {
    && p in s.procs && s.procs[p].Flushed?
    && var c := s.procs[p];
       && c.drop !! s.store.scatters
       && f in c.owed && c.owed[f].tombstoneDue
       && x.op.Delete? && x.name == f.name && x.entry.uuid == c.owed[f].uuid
       && Visible(s.store, x.name) == None
       && Emitted(s, s', x, s.procs[p := c.(owed := c.owed[f := Debt(c.owed[f].uuid, false)])])
  }

  ghost predicate Decrement(s: State, s': State, p: Pid, f: Fold) {
    && p in s.procs && s.procs[p].Flushed?
    && var c := s.procs[p];
       && f in c.owed && !c.owed[f].tombstoneDue
       && s' == s.(procs := s.procs[p := c.(owed := c.owed - {f})],
                   decremented := s.decremented[f := c.owed[f].uuid],
                   log := s.log + [s.store])
  }

  /** A process ends: normally, on an error, or by crashing. */
  ghost predicate Stop(s: State, s': State, p: Pid) {
    p in s.procs && Moves(s, s', s.store, s.procs - {p})
  }

  function Edited(index: map<Name, Entry>, edits: map<Name, Option<Entry>>): map<Name, Entry> {
    map n | n in index.Keys + edits.Keys && (if n in edits then edits[n].Some? else true) ::
      if n in edits then edits[n].value else index[n]
  }

  /** An edit of the index shows: nothing is pending over the name, or nothing that says otherwise. */
  ghost predicate Lands(st: Store, n: Name, e: Option<Entry>) {
    Pending(st.scatters, n) ==> Effect(LatestOf(st.scatters, n)) == e
  }

  /** Where scatters are pending, an edit that lands holds the effect of the latest of them. */
  ghost function EditedFolded(s: State, edits: map<Name, Option<Entry>>): map<Name, Scatter> {
    map n | n in s.folded.Keys + edits.Keys && (n in edits ==> Pending(s.store.scatters, n)) ::
      if n in edits then LatestOf(s.store.scatters, n) else s.folded[n]
  }

  function EditedStore(st: Store, edits: map<Name, Option<Entry>>): Store {
    st.(version := st.version + 1, index := Edited(st.index, edits))
  }

  /** A direct index edit (rename, link, remove) that lands: a successful reload-edit-flush. */
  ghost predicate Edit(s: State, s': State, edits: map<Name, Option<Entry>>) {
    && (forall n :: n in edits ==> Lands(s.store, n, edits[n]))
    && var store := EditedStore(s.store, edits);
       s' == s.(store := store, folded := EditedFolded(s, edits), log := s.log + [store])
  }

  ghost function InScope(scatters: set<Scatter>, scope: Option<Name>): set<Scatter> {
    set s | s in scatters && (scope.Some? ==> s.name == scope.value)
  }

  ghost predicate ReadList(s: State, s': State, r: Pid, scope: Option<Name>) {
    && r !in s.procs
    && var got := Listing(InScope(s.store.scatters, scope), {}, {});
       Moves(s, s', s.store, s.procs[r := Reading(|s.log|, scope, s.history, got)])
  }

  ghost predicate ReadFetch(s: State, s': State, r: Pid, x: Scatter) {
    && r in s.procs && s.procs[r].Reading?
    && var c := s.procs[r];
       && IsLatest(c.got.listed, x.name, x) && NeedsBody(c.scope, x) && x !in c.got.fetched + c.got.missing
       && Moves(s, s', s.store, s.procs[r := Reading(c.start, c.scope, c.known, AfterGet(c.got, s.store.scatters, x))])
  }

  /** The index is loaded last and the listing laid over it. */
  ghost predicate ReadIndex(s: State, s': State, r: Pid) {
    && r in s.procs && s.procs[r].Reading?
    && var c := s.procs[r];
       && Complete(c.got, c.scope)
       && var view := Overlaid(s.store.index, c.got, c.scope);
          Moves(s, s', s.store, s.procs[r := ReadDone(c.start, |s.log|, c.scope, view)])
  }

  ghost predicate SweepList(s: State, s': State, g: Pid) {
    && g !in s.procs
    && var found := set x | x in s.store.scatters && x.op.Delete?;
       Moves(s, s', s.store, s.procs[g := Sweeping(found, {})])
  }

  /** The fold guard of fs_gc, on a tombstone with no older scatter of its name pending. */
  ghost predicate SweepCheck(s: State, s': State, g: Pid, x: Scatter) {
    && g in s.procs && s.procs[g].Sweeping? && x in s.procs[g].found
    && IsOldest(s.store.scatters, x)
    && (x.name in s.store.index ==> s.store.index[x.name].uuid != x.entry.uuid)
    && var c := s.procs[g];
       Moves(s, s', s.store, s.procs[g := c.(cleared := c.cleared + {x})])
  }

  ghost predicate SweepRemove(s: State, s': State, g: Pid, x: Scatter) {
    && g in s.procs && s.procs[g].Sweeping? && x in s.procs[g].cleared
    && Moves(s, s', s.store.(scatters := s.store.scatters - {x}), s.procs)
  }

  datatype Step =
    | EmitStep(x: Scatter)
    | ReloadStep(p: Pid)
    | ListStep(p: Pid)
    | FetchStep(p: Pid, x: Scatter)
    | FlushStep(p: Pid)
    | RemoveStep(p: Pid, x: Scatter)
    | TombstoneStep(p: Pid, f: Fold, x: Scatter)
    | DecrementStep(p: Pid, f: Fold)
    | StopStep(p: Pid)
    | EditStep(edits: map<Name, Option<Entry>>)
    | ReadListStep(p: Pid, scope: Option<Name>)
    | ReadFetchStep(p: Pid, x: Scatter)
    | ReadIndexStep(p: Pid)
    | SweepListStep(p: Pid)
    | SweepCheckStep(p: Pid, x: Scatter)
    | SweepRemoveStep(p: Pid, x: Scatter)

  ghost predicate Next(s: State, s': State, step: Step) {
    match step
    case EmitStep(x) => Emit(s, s', x)
    case ReloadStep(p) => Reload(s, s', p)
    case ListStep(p) => List(s, s', p)
    case FetchStep(p, x) => Fetch(s, s', p, x)
    case FlushStep(p) => Flush(s, s', p)
    case RemoveStep(p, x) => Remove(s, s', p, x)
    case TombstoneStep(p, f, x) => Tombstone(s, s', p, f, x)
    case DecrementStep(p, f) => Decrement(s, s', p, f)
    case StopStep(p) => Stop(s, s', p)
    case EditStep(edits) => Edit(s, s', edits)
    case ReadListStep(p, scope) => ReadList(s, s', p, scope)
    case ReadFetchStep(p, x) => ReadFetch(s, s', p, x)
    case ReadIndexStep(p) => ReadIndex(s, s', p)
    case SweepListStep(p) => SweepList(s, s', p)
    case SweepCheckStep(p, x) => SweepCheck(s, s', p, x)
    case SweepRemoveStep(p, x) => SweepRemove(s, s', p, x)
  }

  /** A directory at rest: some index, nothing pending, nobody at work. */
  ghost predicate Init(s: State) {
    && s.store.scatters == {} && s.history == {} && s.folded == map[] && s.procs == map[]
    && s.log == [s.store] && s.dropped == map[] && s.decremented == map[]
  }

  /** Every finite run: a state per step, from an initial one. */
  ghost predicate IsRun(run: seq<State>, steps: seq<Step>) {
    && |run| == |steps| + 1 && Init(run[0])
    && forall i :: 0 <= i < |steps| ==> Next(run[i], run[i + 1], steps[i])
  }
}
