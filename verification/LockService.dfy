/**
 * The persisted lock table: any number of fs_setlk, fs_unlock_owner and fs_lock_renew calls,
 * each a load, a local change and a conditional PUT, retried on conflict. An ETag is taken to
 * identify the object's content, so content that recurs brings its ETag back with it.
 */
module LockService {
  import opened Names
  import opened Words
  import opened Locks
  import opened LockMeaning
  import opened LockCodec

  type Pid = nat

  /** Attempts at a load-change-put round. */
  const OCC_RETRIES := 8

  datatype Call =
    | SetLk(owner: Owner, req: Request, range: Range, pid: U32, ttl: U64)
    | UnlockOwner(owner: Owner)
    | RenewLocks(owner: Owner, ttl: U64)

  /** One sequential table operation, with the times it used. */
  datatype Act =
    | Set(owner: Owner, req: Request, range: Range, pid: U32, expire: I64, now: I64)
    | Release(owner: Owner)
    | Renew(owner: Owner, expire: I64)

  /** `at` is an auxiliary: how many operations had been committed at the load. */
  datatype Process =
    | Calling(call: Call, attempt: nat)
    | Loaded(call: Call, attempt: nat, etag: Option<string>, at: nat)

  /** `body` is the lock object; `acts` is an auxiliary, the committed operations in order. */
  datatype State = State(body: Option<string>, procs: map<Pid, Process>, acts: seq<Act>)

  function Table(body: Option<string>): seq<LockEntry> {
    if body.None? then [] else Parse(body.value)
  }

  function Apply(es: seq<LockEntry>, a: Act): seq<LockEntry> {
    match a
    case Set(owner, req, r, pid, expire, now) => Granted(es, owner, req, r, pid, expire, now)
    case Release(owner) => Released(es, owner)
    case Renew(owner, expire) => Renewed(es, owner, expire)
  }

  /** What the call does if it samples its clock at `now`. */
  function ActOf(c: Call, now: I64): Act {
    match c
    case SetLk(owner, req, r, pid, ttl) => Set(owner, req, r, pid, Expiry(now, ttl), now)
    case UnlockOwner(owner) => Release(owner)
    case RenewLocks(owner, ttl) => Renew(owner, Expiry(now, ttl))
  }

  /** The call goes on to write; otherwise it answers from what it loaded. */
  predicate Writes(c: Call, etag: Option<string>, now: I64) {
    match c
    case SetLk(owner, req, r, _, _) =>
      !(req.Unlock? && etag.None?) && Refusal(Table(etag), owner, req, r, now).None?
    case UnlockOwner(owner) => etag.Some? && HoldsAny(Table(etag), owner)
    case RenewLocks(owner, _) => etag.Some? && HoldsAny(Table(etag), owner)
  }

  ghost predicate Start(s: State, s': State, p: Pid, c: Call) {
    p !in s.procs && CleanOwner(c.owner) && s' == s.(procs := s.procs[p := Calling(c, 0)])
  }

  ghost predicate Load(s: State, s': State, p: Pid) {
    && p in s.procs && s.procs[p].Calling?
    && var c := s.procs[p];
       s' == s.(procs := s.procs[p := Loaded(c.call, c.attempt, s.body, |s.acts|)])
  }

  /** The local change and the conditional PUT, create-once or compare-and-swap on the ETag. */
  ghost predicate Put(s: State, s': State, p: Pid, now: I64) {
    && p in s.procs && s.procs[p].Loaded?
    && var c := s.procs[p];
       var act := ActOf(c.call, now);
       if !Writes(c.call, c.etag, now) then s' == s.(procs := s.procs - {p})
       else if s.body == c.etag then
         s' == State(Some(Body(Apply(Table(c.etag), act))), s.procs - {p}, s.acts + [act])
       else if c.attempt + 1 < OCC_RETRIES then
         s' == s.(procs := s.procs[p := Calling(c.call, c.attempt + 1)])
       else s' == s.(procs := s.procs - {p})
  }

  ghost predicate Crash(s: State, s': State, p: Pid) {
    p in s.procs && s' == s.(procs := s.procs - {p})
  }

  datatype Step = StartStep(p: Pid, c: Call) | LoadStep(p: Pid) | PutStep(p: Pid, now: I64) | CrashStep(p: Pid)

  ghost predicate Next(s: State, s': State, step: Step) {
    match step
    case StartStep(p, c) => Start(s, s', p, c)
    case LoadStep(p) => Load(s, s', p)
    case PutStep(p, now) => Put(s, s', p, now)
    case CrashStep(p) => Crash(s, s', p)
  }

  ghost predicate Init(s: State) {
    s == State(None, map[], [])
  }

  ghost predicate IsRun(run: seq<State>, steps: seq<Step>) {
    && |run| == |steps| + 1 && Init(run[0])
    && forall j {:trigger steps[j]} :: 0 <= j < |steps| ==> Next(run[j], run[j + 1], steps[j])
  }

  // ----- the sequential specification -----

  /** The table after the operations, one by one. */
  function Replay(acts: seq<Act>): seq<LockEntry> {
    if acts == [] then [] else Apply(Replay(acts[..|acts| - 1]), acts[|acts| - 1])
  }

  /** No granted set met a conflict. */
  predicate Legal(es: seq<LockEntry>, a: Act) {
    a.Set? ==> Refusal(es, a.owner, a.req, a.range, a.now).None?
  }

  ghost predicate LegalRun(acts: seq<Act>) {
    forall k :: 0 <= k < |acts| ==> Legal(Replay(acts[..k]), acts[k]) && CleanOwner(acts[k].owner)
  }

  lemma LegalAppend(acts: seq<Act>, a: Act)
    requires LegalRun(acts) && Legal(Replay(acts), a) && CleanOwner(a.owner)
    ensures LegalRun(acts + [a]) && Replay(acts + [a]) == Apply(Replay(acts), a)
  {
    var all := acts + [a];
    assert all[..|acts|] == acts;
    forall k | 0 <= k < |all| ensures Legal(Replay(all[..k]), all[k]) && CleanOwner(all[k].owner) {
      if k < |acts| {
        assert all[..k] == acts[..k];
      }
    }
  }

  lemma ApplyIsClean(es: seq<LockEntry>, a: Act)
    requires Clean(es) && CleanOwner(a.owner)
    ensures Clean(Apply(es, a))
  {
    match a
    case Set(owner, req, r, pid, expire, now) =>
      UnexpiredMembers(es, now);
      CarveMembers(Unexpired(es, now), owner, r);
    case Release(owner) => ReleasedMembers(es, owner);
    case Renew(owner, expire) =>
  }

  lemma {:induction false} ReplayIsClean(acts: seq<Act>)
    requires LegalRun(acts)
    ensures Clean(Replay(acts))
  {
    if acts != [] {
      var m := |acts| - 1;
      PrefixIsLegal(acts, m);
      ReplayIsClean(acts[..m]);
      ApplyIsClean(Replay(acts[..m]), acts[m]);
    }
  }

  lemma PrefixIsLegal(acts: seq<Act>, k: nat)
    requires LegalRun(acts) && k <= |acts|
    ensures LegalRun(acts[..k])
  {
    forall j | 0 <= j < k ensures Legal(Replay(acts[..k][..j]), acts[..k][j]) && CleanOwner(acts[..k][j].owner) {
      assert acts[..k][..j] == acts[..j];
    }
  }

  // ----- every persisted table is sequential -----

  ghost predicate Persisted(s: State) {
    s.body == if s.acts == [] then None else Some(Body(Replay(s.acts)))
  }

  ghost predicate ProcessOk(s: State, c: Process) {
    && CleanOwner(c.call.owner)
    && (c.Loaded? ==> c.at <= |s.acts| && Table(c.etag) == Replay(s.acts[..c.at]))
  }

  ghost predicate Inv(s: State) {
    && Persisted(s) && LegalRun(s.acts)
    && forall p :: p in s.procs ==> ProcessOk(s, s.procs[p])
  }

  lemma TableIsReplay(s: State)
    requires Persisted(s) && LegalRun(s.acts)
    ensures Table(s.body) == Replay(s.acts)
  {
    ReplayIsClean(s.acts);
    RoundTripIff(Replay(s.acts));
  }

  /** The put goes through: what was loaded is still there. */
  ghost predicate Commits(s: State, s': State, p: Pid, act: Act) {
    && p in s.procs && s.procs[p].Loaded? && s.body == s.procs[p].etag
    && s' == State(Some(Body(Apply(Table(s.body), act))), s.procs - {p}, s.acts + [act])
  }

  lemma ActIsLegal(s: State, c: Process, now: I64)
    requires c.Loaded? && Writes(c.call, c.etag, now) && CleanOwner(c.call.owner)
    ensures Legal(Table(c.etag), ActOf(c.call, now)) && CleanOwner(ActOf(c.call, now).owner)
  {
  }

  lemma CommitKeeps(s: State, s': State, p: Pid, act: Act)
    requires Persisted(s) && LegalRun(s.acts) && Commits(s, s', p, act) && Legal(Table(s.body), act) && CleanOwner(act.owner)
    ensures Persisted(s') && LegalRun(s'.acts)
  {
    TableIsReplay(s);
    LegalAppend(s.acts, act);
  }

  lemma CommitProcess(s: State, s': State, p: Pid, act: Act, q: Pid)
    requires Commits(s, s', p, act) && q in s.procs && ProcessOk(s, s.procs[q])
    ensures ProcessOk(s', s.procs[q])
  {
    var c := s.procs[q];
    assert c.Loaded? ==> s'.acts[..c.at] == s.acts[..c.at];
  }

  lemma PutKeeps(s: State, s': State, p: Pid, now: I64)
    requires Inv(s) && Put(s, s', p, now)
    ensures Inv(s')
  {
    var c, act := s.procs[p], ActOf(s.procs[p].call, now);
    assert ProcessOk(s, c);
    if Writes(c.call, c.etag, now) && s.body == c.etag {
      assert Commits(s, s', p, act);
      ActIsLegal(s, c, now);
      CommitKeeps(s, s', p, act);
      forall q | q in s'.procs ensures ProcessOk(s', s'.procs[q]) { CommitProcess(s, s', p, act, q); }
    }
  }

  lemma LoadKeeps(s: State, s': State, p: Pid)
    requires Inv(s) && Load(s, s', p)
    ensures Inv(s')
  {
    TableIsReplay(s);
    assert s.acts[..|s.acts|] == s.acts;
  }

  lemma StepKeeps(s: State, s': State, step: Step)
    requires Inv(s) && Next(s, s', step)
    ensures Inv(s')
  {
    match step
    case StartStep(p, c) =>
    case LoadStep(p) => LoadKeeps(s, s', p);
    case PutStep(p, now) => PutKeeps(s, s', p, now);
    case CrashStep(p) =>
  }

  lemma {:induction false} RunKeeps(run: seq<State>, steps: seq<Step>, i: nat)
    requires IsRun(run, steps) && i < |run|
    ensures Inv(run[i])
  {
    if i > 0 {
      RunKeeps(run, steps, i - 1);
      StepKeeps(run[i - 1], run[i], steps[i - 1]);
    }
  }

  /**
   * Every table ever persisted is what the committed operations give one after the other,
   * each legal where it stands, and what a call answers without writing is true of the
   * table as it stood at some moment since the call began to load it.
   */
  lemma PersistedIsSequential(run: seq<State>, steps: seq<Step>, i: nat)
    requires IsRun(run, steps) && i < |run|
    ensures Table(run[i].body) == Replay(run[i].acts) && LegalRun(run[i].acts)
    ensures forall p :: p in run[i].procs && run[i].procs[p].Loaded? ==>
      var c := run[i].procs[p];
      c.at <= |run[i].acts| && Table(c.etag) == Replay(run[i].acts[..c.at])
  {
    RunKeeps(run, steps, i);
    TableIsReplay(run[i]);
  }

  lemma StepAppends(s: State, s': State, step: Step)
    requires Next(s, s', step)
    ensures s.acts <= s'.acts
    ensures s'.acts != s.acts ==> step.PutStep? && step.p in s.procs && s'.acts == s.acts + [ActOf(s.procs[step.p].call, step.now)]
  {
  }

  ghost predicate Growing(run: seq<State>) {
    forall j {:trigger run[j]} :: 0 <= j < |run| - 1 ==> run[j].acts <= run[j + 1].acts
  }

  lemma RunIsGrowing(run: seq<State>, steps: seq<Step>)
    requires IsRun(run, steps)
    ensures Growing(run)
  {
    forall j | 0 <= j < |run| - 1 ensures run[j].acts <= run[j + 1].acts {
      StepAppends(run[j], run[j + 1], steps[j]);
    }
  }

  lemma {:induction false} ActsOnlyGrow(run: seq<State>, j: nat, i: nat)
    requires Growing(run) && j <= i < |run|
    ensures run[j].acts <= run[i].acts
  {
    if j < i {
      ActsOnlyGrow(run, j, i - 1);
      assert run[i - 1].acts <= run[i].acts;
    }
  }

  /** The operation of the call that put at `s` comes, in `t`, right after those committed before it. */
  ghost predicate Includes(t: State, s: State, step: Step) {
    && step.PutStep? && step.p in s.procs
    && s.acts + [ActOf(s.procs[step.p].call, step.now)] <= t.acts
  }

  /**
   * No update is lost: once a put changes the object, every later table is a sequential
   * replay that includes its call's operation.
   */
  lemma NoLostUpdates(run: seq<State>, steps: seq<Step>, j: nat, i: nat)
    requires IsRun(run, steps) && j < i < |run| && run[j + 1].body != run[j].body
    ensures Includes(run[i], run[j], steps[j]) && Table(run[i].body) == Replay(run[i].acts)
  {
    ChangeCommits(run, steps, j);
    RunIsGrowing(run, steps);
    StillIncludes(run, steps[j], j, i);
    PersistedIsSequential(run, steps, i);
  }

  lemma StillIncludes(run: seq<State>, step: Step, j: nat, i: nat)
    requires Growing(run) && j < i < |run| && Includes(run[j + 1], run[j], step)
    ensures Includes(run[i], run[j], step)
  {
    ActsOnlyGrow(run, j + 1, i);
  }

  lemma ChangeCommits(run: seq<State>, steps: seq<Step>, j: nat)
    requires IsRun(run, steps) && j < |steps| && run[j + 1].body != run[j].body
    ensures Includes(run[j + 1], run[j], steps[j])
  {
    StepAppends(run[j], run[j + 1], steps[j]);
    if run[j + 1].acts == run[j].acts {
      BodyIsActs(run, steps, j);
    }
  }

  lemma BodyIsActs(run: seq<State>, steps: seq<Step>, j: nat)
    requires IsRun(run, steps) && j + 1 < |run| && run[j + 1].acts == run[j].acts
    ensures run[j + 1].body == run[j].body
  {
    RunKeeps(run, steps, j);
    RunKeeps(run, steps, j + 1);
  }

  // ----- exclusion over all runs and clocks -----

  lemma {:induction false} ReplayIsExclusive(acts: seq<Act>)
    requires LegalRun(acts)
    ensures Exclusive(Replay(acts))
  {
    if acts != [] {
      var m := |acts| - 1;
      PrefixIsLegal(acts, m);
      ReplayIsExclusive(acts[..m]);
      var es := Replay(acts[..m]);
      assert Legal(es, acts[m]);
      match acts[m]
      case Set(owner, req, r, pid, expire, now) => SetKeepsExclusion(es, owner, req, r, pid, expire, now);
      case Release(owner) => ReleaseKeepsExclusion(es, owner);
      case Renew(owner, expire) => RenewKeepsExclusion(es, owner, expire);
    }
  }

  /** In every state of every run, whatever clocks were sampled, no two owners conflict. */
  lemma AlwaysExclusive(run: seq<State>, steps: seq<Step>, i: nat)
    requires IsRun(run, steps) && i < |run|
    ensures Exclusive(Table(run[i].body))
  {
    PersistedIsSequential(run, steps, i);
    ReplayIsExclusive(run[i].acts);
  }

  /** While every range has its ends in order, entries are proper and one owner's are disjoint. */
  lemma {:induction false} OrderedRunsStayDisjoint(acts: seq<Act>)
    requires forall k :: 0 <= k < |acts| && acts[k].Set? ==> acts[k].range.start <= acts[k].range.end
    ensures Proper(Replay(acts)) && Disjoint(Replay(acts))
  {
    if acts != [] {
      var m := |acts| - 1;
      OrderedRunsStayDisjoint(acts[..m]);
      var es := Replay(acts[..m]);
      match acts[m]
      case Set(owner, req, r, pid, expire, now) =>
        SetKeepsProper(es, owner, req, r, pid, expire, now);
        forall e | e in es ensures !Doubles(e, owner, r) { OrderedRangesDoubleNothing(e, owner, r); }
        SetKeepsDisjointIff(es, owner, req, r, pid, expire, now);
      case Release(owner) =>
        ReleasedMembers(es, owner);
        ReleasedDisjoint(es, owner);
      case Renew(owner, expire) => RenewedDisjoint(es, owner, expire);
    }
  }

  // ----- bytes persist -----

  ghost predicate Has(es: seq<LockEntry>, o: Owner, b: U64) {
    exists tag :: Holding(es, o, b, tag)
  }

  /** The operation is the owner's own release of the byte, or a set that found it expired. */
  ghost predicate LetsGo(es: seq<LockEntry>, a: Act, o: Owner, b: U64) {
    match a
    case Set(owner, req, r, _, _, now) =>
      || (owner == o && In(b, r) && req.Unlock?)
      || (forall tag :: Holding(es, o, b, tag) ==> tag.expire <= now)
    case Release(owner) => owner == o
    case Renew(_, _) => false
  }

  lemma SetPersists(es: seq<LockEntry>, a: Act, o: Owner, b: U64)
    requires a.Set? && Has(es, o, b) && !LetsGo(es, a, o, b)
    ensures Has(Apply(es, a), o, b)
  {
    var tag :| Holding(es, o, b, tag) && tag.expire > a.now;
    var live := Unexpired(es, a.now);
    UnexpiredMembers(es, a.now);
    assert Holding(live, o, b, tag);
    var carved, after := Carve(live, a.owner, a.range), Apply(es, a);
    if o == a.owner && In(b, a.range) {
      var n := LockEntry(a.owner, a.req.mode, a.range.start, a.range.end, a.pid, a.expire);
      assert n in after && Covers(n, b);
      assert Holding(after, o, b, TagOf(n));
    } else {
      CarveLosesOnlyTheRange(live, a.owner, a.range, o, b, tag);
      var x :| x in carved && x.owner == o && Covers(x, b) && TagOf(x) == tag;
      assert x in after;
      assert Holding(after, o, b, tag);
    }
  }

  lemma ActPersists(es: seq<LockEntry>, a: Act, o: Owner, b: U64)
    requires Has(es, o, b) && !LetsGo(es, a, o, b)
    ensures Has(Apply(es, a), o, b)
  {
    var tag :| Holding(es, o, b, tag);
    match a
    case Set(_, _, _, _, _, _) => SetPersists(es, a, o, b);
    case Release(owner) => ReleaseMeaning(es, owner, o, b, tag);
    case Renew(owner, expire) =>
      var kept := if o == owner then tag.(expire := expire) else tag;
      assert o == owner ==> kept.(expire := tag.expire) == tag;
      RenewMeaning(es, owner, expire, o, b, kept);
  }

  ghost predicate HasAt(acts: seq<Act>, k: nat, o: Owner, b: U64)
    requires k <= |acts|
  {
    Has(Replay(acts[..k]), o, b)
  }

  lemma ActLetsGo(acts: seq<Act>, k: nat, o: Owner, b: U64)
    requires k < |acts| && HasAt(acts, k, o, b) && !HasAt(acts, k + 1, o, b)
    ensures LetsGo(Replay(acts[..k]), acts[k], o, b)
  {
    assert acts[..k + 1][..k] == acts[..k];
    var before := Replay(acts[..k]);
    if !LetsGo(before, acts[k], o, b) {
      ActPersists(before, acts[k], o, b);
    }
  }

  lemma {:induction false} LastTrue(h: seq<bool>, m: nat, n: nat) returns (k: nat)
    requires m < n < |h| && h[m] && !h[n]
    ensures m <= k < n && h[k] && !h[k + 1]
  {
    k := n - 1;
    if !h[k] {
      k := LastTrue(h, m, k);
    }
  }

  /** A held byte that is no longer held was let go of by some operation in between. */
  lemma BytesPersist(acts: seq<Act>, m: nat, n: nat, o: Owner, b: U64) returns (k: nat)
    requires m < n <= |acts| && HasAt(acts, m, o, b) && !HasAt(acts, n, o, b)
    ensures m <= k < n && LetsGo(Replay(acts[..k]), acts[k], o, b)
  {
    var h := seq(|acts| + 1, i requires 0 <= i <= |acts| => HasAt(acts, i, o, b));
    k := LastTrue(h, m, n);
    ActLetsGo(acts, k, o, b);
  }

  // ----- what a call achieves -----

  /** A put by a caller that still holds the current table. */
  ghost predicate PutsCurrent(s: State, step: Step, c: Call) {
    && step.PutStep? && step.p in s.procs && s.procs[step.p].Loaded?
    && s.procs[step.p].call == c && s.body == s.procs[step.p].etag
  }

  /** The clock and the time to live add up without saturating. */
  predicate Fits(now: I64, ttl: U64) {
    ttl <= I64_MAX && now + ttl <= I64_MAX
  }

  lemma PutTable(run: seq<State>, steps: seq<Step>, j: nat, c: Call)
    requires IsRun(run, steps) && j < |steps| && PutsCurrent(run[j], steps[j], c)
    ensures var now := steps[j].now;
      if Writes(c, run[j].body, now) then Table(run[j + 1].body) == Apply(Table(run[j].body), ActOf(c, now))
      else run[j + 1].body == run[j].body
  {
    RunKeeps(run, steps, j);
    RunKeeps(run, steps, j + 1);
    PutApplies(run[j], run[j + 1], steps[j], c);
  }

  lemma PutApplies(s: State, s': State, step: Step, c: Call)
    requires Inv(s) && Inv(s') && Next(s, s', step) && PutsCurrent(s, step, c)
    ensures if Writes(c, s.body, step.now) then Table(s'.body) == Apply(Table(s.body), ActOf(c, step.now)) else s'.body == s.body
  {
    if Writes(c, s.body, step.now) {
      var act := ActOf(c, step.now);
      assert s'.acts == s.acts + [act] && s'.acts[..|s.acts|] == s.acts;
      TableIsReplay(s);
      TableIsReplay(s');
    }
  }

  /** Some live entry of another owner shares the range, and one of the two writes. */
  ghost predicate Contested(es: seq<LockEntry>, owner: Owner, mode: Mode, r: Range, now: I64) {
    exists e :: e in es && InTheWay(e, owner, mode, r, now)
  }

  lemma ContestedIff(es: seq<LockEntry>, owner: Owner, mode: Mode, r: Range, now: I64)
    ensures Contested(es, owner, mode, r, now) <==> Refusal(es, owner, Lock(mode), r, now).Some?
  {
    RefusalIff(es, owner, Lock(mode), r, now);
    forall e | e in es ensures Blocks(e, owner, mode, r, now) <==> InTheWay(e, owner, mode, r, now) {}
  }

  lemma GrantHolds(es: seq<LockEntry>, owner: Owner, mode: Mode, r: Range, pid: U32, expire: I64, now: I64, b: U64)
    requires !Contested(es, owner, mode, r, now) && r.start <= b <= r.end
    ensures Holding(Granted(es, owner, Lock(mode), r, pid, expire, now), owner, b, Tag(mode, pid, expire))
  {
    ContestedIff(es, owner, mode, r, now);
    SetMeaning(es, owner, Lock(mode), r, pid, expire, now, owner, b, Tag(mode, pid, expire));
  }

  /**
   * A lock call that gets to put: if some live entry of another owner shares its range and one
   * of the two writes, the table stays; otherwise every byte of the range is the caller's, in
   * its mode and with its pid, for its time to live from now.
   */
  lemma LockCallHolds(run: seq<State>, steps: seq<Step>, j: nat, owner: Owner, mode: Mode, r: Range, pid: U32, ttl: U64, b: U64)
    requires IsRun(run, steps) && j < |steps| && PutsCurrent(run[j], steps[j], SetLk(owner, Lock(mode), r, pid, ttl))
    requires Fits(steps[j].now, ttl) && r.start <= b <= r.end
    ensures Contested(Table(run[j].body), owner, mode, r, steps[j].now) ==> run[j + 1].body == run[j].body
    ensures !Contested(Table(run[j].body), owner, mode, r, steps[j].now) ==>
      Holding(Table(run[j + 1].body), owner, b, Tag(mode, pid, steps[j].now + ttl))
  {
    RunKeeps(run, steps, j);
    RunKeeps(run, steps, j + 1);
    LockPut(run[j], run[j + 1], steps[j], owner, mode, r, pid, ttl, b);
  }

  lemma LockPut(s: State, s': State, step: Step, owner: Owner, mode: Mode, r: Range, pid: U32, ttl: U64, b: U64)
    requires Inv(s) && Inv(s') && Next(s, s', step) && PutsCurrent(s, step, SetLk(owner, Lock(mode), r, pid, ttl))
    requires Fits(step.now, ttl) && r.start <= b <= r.end
    ensures Contested(Table(s.body), owner, mode, r, step.now) ==> s'.body == s.body
    ensures !Contested(Table(s.body), owner, mode, r, step.now) ==>
      Holding(Table(s'.body), owner, b, Tag(mode, pid, step.now + ttl))
  {
    LockApplies(s, s', step, owner, mode, r, pid, ttl);
    ContestedIff(Table(s.body), owner, mode, r, step.now);
    LockMeans(Table(s.body), Table(s'.body), owner, mode, r, pid, ttl, step.now, b);
  }

  lemma LockApplies(s: State, s': State, step: Step, owner: Owner, mode: Mode, r: Range, pid: U32, ttl: U64)
    requires Inv(s) && Inv(s') && Next(s, s', step) && PutsCurrent(s, step, SetLk(owner, Lock(mode), r, pid, ttl))
    ensures if Refusal(Table(s.body), owner, Lock(mode), r, step.now).Some? then s'.body == s.body
      else Table(s'.body) == Granted(Table(s.body), owner, Lock(mode), r, pid, Expiry(step.now, ttl), step.now)
  {
    PutApplies(s, s', step, SetLk(owner, Lock(mode), r, pid, ttl));
  }

  lemma LockMeans(es: seq<LockEntry>, es': seq<LockEntry>, owner: Owner, mode: Mode, r: Range, pid: U32, ttl: U64, now: I64, b: U64)
    requires Fits(now, ttl) && r.start <= b <= r.end
    ensures !Contested(es, owner, mode, r, now) && es' == Granted(es, owner, Lock(mode), r, pid, Expiry(now, ttl), now) ==>
      Holding(es', owner, b, Tag(mode, pid, now + ttl))
  {
    if !Contested(es, owner, mode, r, now) {
      GrantHolds(es, owner, mode, r, pid, now + ttl, now, b);
    }
  }

  /** An unlock call that gets to put leaves its owner no byte of the range. */
  lemma UnlockCallFrees(run: seq<State>, steps: seq<Step>, j: nat, owner: Owner, r: Range, pid: U32, ttl: U64, b: U64)
    requires IsRun(run, steps) && j < |steps| && PutsCurrent(run[j], steps[j], SetLk(owner, Unlock, r, pid, ttl))
    requires r.start <= b <= r.end
    ensures !Has(Table(run[j + 1].body), owner, b)
  {
    var es, after, now := Table(run[j].body), Table(run[j + 1].body), steps[j].now;
    PutTable(run, steps, j, SetLk(owner, Unlock, r, pid, ttl));
    forall tag ensures !Holding(after, owner, b, tag) {
      if run[j].body.Some? {
        SetMeaning(es, owner, Unlock, r, pid, Expiry(now, ttl), now, owner, b, tag);
      }
    }
  }

  /** A release that gets to put, or finds nothing to write, leaves its owner nothing and the others all they had. */
  lemma ReleaseCallFrees(run: seq<State>, steps: seq<Step>, j: nat, owner: Owner, o: Owner, b: U64, tag: Tag)
    requires IsRun(run, steps) && j < |steps| && PutsCurrent(run[j], steps[j], UnlockOwner(owner))
    ensures Holding(Table(run[j + 1].body), o, b, tag) <==> o != owner && Holding(Table(run[j].body), o, b, tag)
  {
    PutTable(run, steps, j, UnlockOwner(owner));
    ReleaseMeaning(Table(run[j].body), owner, o, b, tag);
  }

  /** The owner's bytes are held as before but for their expiry; the others' are held just as before. */
  ghost predicate Renews(es: seq<LockEntry>, es': seq<LockEntry>, owner: Owner, expire: I64, o: Owner, b: U64, tag: Tag) {
    Holding(es', o, b, tag) <==>
      if o == owner then tag.expire == expire && exists was :: Holding(es, o, b, tag.(expire := was))
      else Holding(es, o, b, tag)
  }

  /** A renewal that gets to put makes all its owner holds, and nothing else, expire a time to live from now. */
  lemma RenewCallExtends(run: seq<State>, steps: seq<Step>, j: nat, owner: Owner, ttl: U64, o: Owner, b: U64, tag: Tag)
    requires IsRun(run, steps) && j < |steps| && PutsCurrent(run[j], steps[j], RenewLocks(owner, ttl)) && Fits(steps[j].now, ttl)
    ensures Renews(Table(run[j].body), Table(run[j + 1].body), owner, steps[j].now + ttl, o, b, tag)
  {
    RunKeeps(run, steps, j);
    RunKeeps(run, steps, j + 1);
    RenewPut(run[j], run[j + 1], steps[j], owner, ttl, o, b, tag);
  }

  lemma RenewPut(s: State, s': State, step: Step, owner: Owner, ttl: U64, o: Owner, b: U64, tag: Tag)
    requires Inv(s) && Inv(s') && Next(s, s', step) && PutsCurrent(s, step, RenewLocks(owner, ttl)) && Fits(step.now, ttl)
    ensures Renews(Table(s.body), Table(s'.body), owner, step.now + ttl, o, b, tag)
  {
    RenewApplies(s, s', step, owner, ttl);
    RenewMeans(Table(s.body), Table(s'.body), owner, step.now, ttl, o, b, tag);
  }

  /** The table is renewed, or has nothing to renew. */
  ghost predicate RenewedTo(es: seq<LockEntry>, es': seq<LockEntry>, owner: Owner, expire: I64) {
    if HoldsAny(es, owner) then es' == Renewed(es, owner, expire) else es' == es
  }

  lemma RenewApplies(s: State, s': State, step: Step, owner: Owner, ttl: U64)
    requires Inv(s) && Inv(s') && Next(s, s', step) && PutsCurrent(s, step, RenewLocks(owner, ttl))
    ensures RenewedTo(Table(s.body), Table(s'.body), owner, Expiry(step.now, ttl))
  {
    PutApplies(s, s', step, RenewLocks(owner, ttl));
    assert Writes(RenewLocks(owner, ttl), s.body, step.now) <==> HoldsAny(Table(s.body), owner);
    assert Apply(Table(s.body), ActOf(RenewLocks(owner, ttl), step.now)) == Renewed(Table(s.body), owner, Expiry(step.now, ttl));
  }

  lemma RenewMeans(es: seq<LockEntry>, es': seq<LockEntry>, owner: Owner, now: I64, ttl: U64, o: Owner, b: U64, tag: Tag)
    requires Fits(now, ttl) && RenewedTo(es, es', owner, Expiry(now, ttl))
    ensures Renews(es, es', owner, now + ttl, o, b, tag)
  {
    assert Expiry(now, ttl) == now + ttl;
    RenewMeaning(es, owner, now + ttl, o, b, tag);
  }

  /** Whatever the others are doing, a call left alone loads the current table, puts and is done. */
  lemma CallCompletes(s: State, p: Pid, c: Call, now: I64) returns (s1: State, s2: State, s3: State)
    requires p !in s.procs && CleanOwner(c.owner)
    ensures Next(s, s1, StartStep(p, c)) && Next(s1, s2, LoadStep(p)) && Next(s2, s3, PutStep(p, now))
    ensures PutsCurrent(s2, PutStep(p, now), c) && s2.body == s.body && s3.procs == s.procs
  {
    s1 := s.(procs := s.procs[p := Calling(c, 0)]);
    s2 := s1.(procs := s1.procs[p := Loaded(c, 0, s1.body, |s1.acts|)]);
    assert s2.procs - {p} == s.procs;
    s3 := if Writes(c, s.body, now)
          then State(Some(Body(Apply(Table(s.body), ActOf(c, now)))), s2.procs - {p}, s2.acts + [ActOf(c, now)])
          else s2.(procs := s2.procs - {p});
  }

  // ----- how long a call goes on -----

  /** The put finds that the table has changed since the load. */
  ghost predicate Loses(s: State, step: Step, p: Pid) {
    && step.PutStep? && step.p == p && p in s.procs && s.procs[p].Loaded?
    && Writes(s.procs[p].call, s.procs[p].etag, step.now) && s.body != s.procs[p].etag
  }

  /** How often the call has lost since it began. */
  ghost function Losses(run: seq<State>, steps: seq<Step>, i: nat, p: Pid): nat
    requires i <= |steps| && i <= |run|
  {
    if i == 0 || (steps[i - 1].StartStep? && steps[i - 1].p == p) then 0
    else Losses(run, steps, i - 1, p) + if Loses(run[i - 1], steps[i - 1], p) then 1 else 0
  }

  lemma AttemptStep(s: State, s': State, step: Step, p: Pid)
    requires Next(s, s', step) && p in s'.procs
    ensures if step.StartStep? && step.p == p then s'.procs[p].attempt == 0
      else p in s.procs && s'.procs[p].attempt == s.procs[p].attempt + if Loses(s, step, p) then 1 else 0
  {
  }

  lemma {:induction false} AttemptsAreLosses(run: seq<State>, steps: seq<Step>, i: nat, p: Pid)
    requires IsRun(run, steps) && i < |run| && p in run[i].procs
    ensures run[i].procs[p].attempt == Losses(run, steps, i, p)
  {
    if i > 0 {
      AttemptStep(run[i - 1], run[i], steps[i - 1], p);
      if p in run[i - 1].procs {
        AttemptsAreLosses(run, steps, i - 1, p);
      }
    }
  }

  /** A call that loses goes on, until it has lost eight times. */
  lemma GivesUpAfterEight(run: seq<State>, steps: seq<Step>, i: nat, p: Pid)
    requires IsRun(run, steps) && i < |steps| && Loses(run[i], steps[i], p)
    ensures p in run[i + 1].procs <==> Losses(run, steps, i, p) + 1 < 8
    ensures run[i + 1].body == run[i].body
  {
    AttemptsAreLosses(run, steps, i, p);
    assert Next(run[i], run[i + 1], steps[i]);
  }
}
