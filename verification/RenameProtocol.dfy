/**
 * Cross-directory rename: any number of renames of one source, recoverers and crashes,
 * request by request. The intent object, keyed by the source, is the commit point.
 */
module RenameProtocol {
  import opened Names

  type Pid = nat

  /** The source under contention and the child it names. */
  datatype Move = Move(src: Loc, child: Uuid)

  /** The intent object's body; `claim` is an auxiliary, the process that wrote it. */
  datatype Intent = Intent(claim: Pid, child: Uuid, dst: Loc)

  /** How often a rename tries to claim its source. */
  const CLAIM_RETRIES := 8

  datatype Process =
    | Seeking(dst: Loc, attempt: nat)
    | Ready(dst: Loc, child: Uuid, attempt: nat)
    | Claimed(intent: Intent)
    | Withdrawing(intent: Intent)
    | Adding(intent: Intent)
    | Removing(intent: Intent)
    | Releasing

  /**
   * `names` and `intent` are S3. Auxiliary: the pids used so far, the intents that are past
   * their recheck or taken over by a recoverer, and the destinations that received the child.
   */
  datatype State = State(
    names: map<Loc, Uuid>,
    intent: Option<Intent>,
    procs: map<Pid, Process>,
    used: set<Pid>,
    committed: set<Intent>,
    landed: set<Loc>)

  ghost predicate Init(m: Move, s: State) {
    && Get(s.names, m.src) == Some(m.child)
    && (forall l :: l in s.names && s.names[l] == m.child ==> l == m.src)
    && s.intent == None && s.procs == map[] && s.committed == {} && s.landed == {}
  }

  ghost predicate Start(m: Move, s: State, s': State, p: Pid, dst: Loc) {
    && p !in s.used && dst != m.src
    && s' == s.(procs := s.procs[p := Seeking(dst, 0)], used := s.used + {p})
  }

  /** Reads the source entry; an absent source ends the rename with NotFound. */
  ghost predicate ReadSource(m: Move, s: State, s': State, p: Pid) {
    && p in s.procs && s.procs[p].Seeking?
    && var c := s.procs[p];
       if m.src in s.names then s' == s.(procs := s.procs[p := Ready(c.dst, s.names[m.src], c.attempt)])
       else s' == s.(procs := Without(s.procs, p))
  }

  /** PUT If-None-Match; a conflict backs off and re-reads, giving up after the last attempt. */
  ghost predicate Claim(s: State, s': State, p: Pid) {
    && p in s.procs && s.procs[p].Ready?
    && var c := s.procs[p];
       var i := Intent(p, c.child, c.dst);
       if s.intent == None then s' == s.(intent := Some(i), procs := s.procs[p := Claimed(i)])
       else if c.attempt + 1 < CLAIM_RETRIES then s' == s.(procs := s.procs[p := Seeking(c.dst, c.attempt + 1)])
       else s' == s.(procs := Without(s.procs, p))
  }

  /** Re-reads the source. `failed` is a read error, which withdraws the claim like a moved source. */
  ghost predicate Recheck(m: Move, s: State, s': State, p: Pid, failed: bool) {
    && p in s.procs && s.procs[p].Claimed?
    && var i := s.procs[p].intent;
       if !failed && Get(s.names, m.src) == Some(i.child)
       then s' == s.(procs := s.procs[p := Adding(i)], committed := s.committed + {i})
       else s' == s.(procs := s.procs[p := Withdrawing(i)])
  }

  /** Deletes whatever intent the key holds; nothing checks that it is still one's own. */
  ghost predicate DeleteIntent(s: State, s': State, p: Pid) {
    && p in s.procs && (s.procs[p].Withdrawing? || s.procs[p].Releasing?)
    && s' == s.(intent := None, procs := Without(s.procs, p))
  }

  ghost predicate AddDestination(m: Move, s: State, s': State, p: Pid) {
    && p in s.procs && s.procs[p].Adding?
    && var i := s.procs[p].intent;
       s' == s.(names := s.names[i.dst := i.child],
                procs := s.procs[p := Removing(i)],
                landed := if i.child == m.child then s.landed + {i.dst} else s.landed)
  }

  ghost predicate RemoveSource(m: Move, s: State, s': State, p: Pid) {
    && p in s.procs && s.procs[p].Removing?
    && s' == s.(names := Without(s.names, m.src), procs := s.procs[p := Releasing])
  }

  /** When a recoverer may take up the intent it finds. */
  ghost predicate Recoverable(m: Move, s: State) {
    s.intent.Some? &&
    var i := s.intent.value;
    || i in s.committed
    || (m.src in s.names && i.claim !in s.procs)
    || (m.src !in s.names && i.dst in s.landed)
  }

  /** A recoverer reads the intent, whatever its standing, and starts to apply it. */
  ghost predicate TakeUp(m: Move, s: State, s': State, p: Pid) {
    && p !in s.used && s.intent.Some?
    && var i := s.intent.value;
       s' == s.(procs := s.procs[p := Adding(i)], used := s.used + {p},
                committed := if m.src in s.names && i.claim !in s.procs then s.committed + {i} else s.committed)
  }

  ghost predicate Crash(s: State, s': State, p: Pid) {
    p in s.procs && s' == s.(procs := Without(s.procs, p))
  }

  /** Anything else may happen to any location but the source, the destinations included. */
  ghost predicate Elsewhere(m: Move, s: State, s': State, l: Loc, u: Option<Uuid>) {
    && l != m.src && u != Some(m.child)
    && s' == s.(names := if u.Some? then s.names[l := u.value] else Without(s.names, l))
  }

  datatype Step =
    | StartStep(p: Pid, dst: Loc)
    | ReadSourceStep(p: Pid)
    | ClaimStep(p: Pid)
    | RecheckStep(p: Pid, failed: bool)
    | DeleteIntentStep(p: Pid)
    | AddDestinationStep(p: Pid)
    | RemoveSourceStep(p: Pid)
    | RecoverStep(p: Pid)
    | CrashStep(p: Pid)
    | ElsewhereStep(l: Loc, u: Option<Uuid>)

  ghost predicate Next(m: Move, s: State, s': State, step: Step) {
    match step
    case StartStep(p, dst) => Start(m, s, s', p, dst)
    case ReadSourceStep(p) => ReadSource(m, s, s', p)
    case ClaimStep(p) => Claim(s, s', p)
    case RecheckStep(p, failed) => Recheck(m, s, s', p, failed)
    case DeleteIntentStep(p) => DeleteIntent(s, s', p)
    case AddDestinationStep(p) => AddDestination(m, s, s', p)
    case RemoveSourceStep(p) => RemoveSource(m, s, s', p)
    case RecoverStep(p) => Recoverable(m, s) && TakeUp(m, s, s', p)
    case CrashStep(p) => Crash(s, s', p)
    case ElsewhereStep(l, u) => Elsewhere(m, s, s', l, u)
  }

  /** A run from any state: each state follows from the one before. */
  ghost predicate Follows(m: Move, run: seq<State>, steps: seq<Step>) {
    && |run| == |steps| + 1
    && forall j {:trigger steps[j]} :: 0 <= j < |steps| ==> Next(m, run[j], run[j + 1], steps[j])
  }

  ghost predicate IsRun(m: Move, run: seq<State>, steps: seq<Step>) {
    Follows(m, run, steps) && Init(m, run[0])
  }

  // ----- the invariant -----

  /** What a process relies on between two requests. */
  ghost predicate ProcessOk(m: Move, s: State, p: Pid, c: Process) {
    match c
    case Seeking(dst, _) => dst != m.src && NeverClaimed(s, p)
    case Ready(dst, child, _) => dst != m.src && child == m.child && NeverClaimed(s, p)
    case Claimed(i) => OwnClaim(m, s, p, i)
    case Withdrawing(i) => OwnClaim(m, s, p, i)
    case Adding(i) => Applicable(m, s, p, i)
    case Removing(i) => Applicable(m, s, p, i) && i.dst in s.landed
    case Releasing => m.src !in s.names
  }

  ghost predicate NeverClaimed(s: State, p: Pid) {
    (forall i :: i in s.committed ==> i.claim != p) && (s.intent.Some? ==> s.intent.value.claim != p)
  }

  /** As long as the source is bound, nobody takes away a claim but its owner. */
  ghost predicate OwnClaim(m: Move, s: State, p: Pid, i: Intent) {
    && i.claim == p && i.child == m.child && i.dst != m.src && i !in s.committed
    && (m.src in s.names ==> s.intent == Some(i))
  }

  ghost predicate Applicable(m: Move, s: State, p: Pid, i: Intent) {
    i.child == m.child && Chosen(s, i.dst) && (i.claim == p ==> i in s.committed)
  }

  ghost predicate Chosen(s: State, d: Loc) {
    exists i :: i in s.committed && i.dst == d
  }

  ghost predicate NamesOk(m: Move, s: State) {
    && (m.src in s.names ==> s.names[m.src] == m.child)
    && (forall l :: l in s.landed ==> Chosen(s, l))
    && (forall l :: Get(s.names, l) == Some(m.child) ==> l == m.src || l in s.landed)
    && (m.src !in s.names ==> s.landed != {})
  }

  ghost predicate IntentsOk(m: Move, s: State) {
    && (forall i, j :: i in s.committed && j in s.committed ==> i == j)
    && (forall i :: i in s.committed ==> i.dst != m.src && i.claim in s.used)
    && (forall i :: i in s.committed && m.src in s.names ==> s.intent == Some(i))
    && (s.intent.Some? ==> IntentOk(m, s, s.intent.value))
  }

  ghost predicate IntentOk(m: Move, s: State, i: Intent) {
    && i.child == m.child && i.dst != m.src && i.claim in s.used
    && (i.claim in s.procs && i !in s.committed ==>
          s.procs[i.claim] == Claimed(i) || s.procs[i.claim] == Withdrawing(i))
  }

  ghost predicate Inv(m: Move, s: State) {
    && NamesOk(m, s)
    && IntentsOk(m, s)
    && s.procs.Keys <= s.used
    && forall p :: p in s.procs ==> ProcessOk(m, s, p, s.procs[p])
  }

  lemma StartKeeps(m: Move, s: State, s': State, p: Pid, dst: Loc)
    requires Inv(m, s) && Start(m, s, s', p, dst)
    ensures Inv(m, s')
  {
  }

  lemma ReadSourceKeeps(m: Move, s: State, s': State, p: Pid)
    requires Inv(m, s) && ReadSource(m, s, s', p)
    ensures Inv(m, s')
  {
  }

  lemma ClaimKeeps(m: Move, s: State, s': State, p: Pid)
    requires Inv(m, s) && Claim(s, s', p)
    ensures Inv(m, s')
  {
  }

  lemma RecheckKeeps(m: Move, s: State, s': State, p: Pid, failed: bool)
    requires Inv(m, s) && Recheck(m, s, s', p, failed)
    ensures Inv(m, s')
  {
  }

  lemma DeleteIntentKeeps(m: Move, s: State, s': State, p: Pid)
    requires Inv(m, s) && DeleteIntent(s, s', p)
    ensures Inv(m, s')
  {
  }

  lemma AddDestinationKeeps(m: Move, s: State, s': State, p: Pid)
    requires Inv(m, s) && AddDestination(m, s, s', p)
    ensures Inv(m, s')
  {
  }

  lemma RemoveSourceKeeps(m: Move, s: State, s': State, p: Pid)
    requires Inv(m, s) && RemoveSource(m, s, s', p)
    ensures Inv(m, s')
  {
  }

  lemma RecoverKeeps(m: Move, s: State, s': State, p: Pid)
    requires Inv(m, s) && Recoverable(m, s) && TakeUp(m, s, s', p)
    ensures Inv(m, s')
  {
  }

  lemma CrashKeeps(m: Move, s: State, s': State, p: Pid)
    requires Inv(m, s) && Crash(s, s', p)
    ensures Inv(m, s')
  {
  }

  lemma ElsewhereKeeps(m: Move, s: State, s': State, l: Loc, u: Option<Uuid>)
    requires Inv(m, s) && Elsewhere(m, s, s', l, u)
    ensures Inv(m, s')
  {
  }

  lemma StepKeeps(m: Move, s: State, s': State, step: Step)
    requires Inv(m, s) && Next(m, s, s', step)
    ensures Inv(m, s')
  {
    match step
    case StartStep(p, dst) => StartKeeps(m, s, s', p, dst);
    case ReadSourceStep(p) => ReadSourceKeeps(m, s, s', p);
    case ClaimStep(p) => ClaimKeeps(m, s, s', p);
    case RecheckStep(p, failed) => RecheckKeeps(m, s, s', p, failed);
    case DeleteIntentStep(p) => DeleteIntentKeeps(m, s, s', p);
    case AddDestinationStep(p) => AddDestinationKeeps(m, s, s', p);
    case RemoveSourceStep(p) => RemoveSourceKeeps(m, s, s', p);
    case RecoverStep(p) => RecoverKeeps(m, s, s', p);
    case CrashStep(p) => CrashKeeps(m, s, s', p);
    case ElsewhereStep(l, u) => ElsewhereKeeps(m, s, s', l, u);
  }
}
