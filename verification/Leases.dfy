/**
 * The compactor lease: any number of acquirers, takeovers and releases on one object, request
 * by request, under one clock that never runs backwards. An ETag identifies the content.
 */
module Leases {
  import opened Names
  import opened Words
  import opened Text
  import opened LeaseCodec

  type Pid = nat

  /** `now` is sampled once, before the first PUT, and decides both the expiry and the takeover. */
  datatype Process =
    | Acquiring(holder: string, ttl: U64, now: I64)
    | Conflicted(holder: string, ttl: U64, now: I64)
    | TakingOver(holder: string, ttl: U64, now: I64, etag: string)
    | Guard(lease: Lease)

  /** `used` is an auxiliary: the holder ids drawn so far. */
  datatype State = State(time: I64, body: Option<string>, procs: map<Pid, Process>, used: set<string>)

  function LeaseFor(c: Process): Lease
    requires !c.Guard?
  {
    Lease(c.holder, Expiry(c.now, c.ttl))
  }

  ghost predicate Tick(s: State, s': State, to: I64) {
    s.time <= to && s' == s.(time := to)
  }

  ghost predicate Begin(s: State, s': State, p: Pid, holder: string, ttl: U64) {
    && p !in s.procs && holder !in s.used && OneLine(holder)
    && s' == s.(procs := s.procs[p := Acquiring(holder, ttl, s.time)], used := s.used + {holder})
  }

  /** PUT If-None-Match. */
  ghost predicate Acquire(s: State, s': State, p: Pid) {
    && p in s.procs && s.procs[p].Acquiring?
    && var c := s.procs[p];
       if s.body == None
       then s' == s.(body := Some(LeaseBody(LeaseFor(c))), procs := s.procs[p := Guard(LeaseFor(c))])
       else s' == s.(procs := s.procs[p := Conflicted(c.holder, c.ttl, c.now)])
  }

  /** GET of the lease in the way: gone, unreadable and fresh ones all end the attempt. */
  ghost predicate Inspect(s: State, s': State, p: Pid) {
    && p in s.procs && s.procs[p].Conflicted?
    && var c := s.procs[p];
       if s.body.Some? && ParsedLease(s.body.value).Some? && ParsedLease(s.body.value).value.expires <= c.now
       then s' == s.(procs := s.procs[p := TakingOver(c.holder, c.ttl, c.now, s.body.value)])
       else s' == s.(procs := s.procs - {p})
  }

  /** PUT If-Match on the expired lease's ETag. */
  ghost predicate TakeOver(s: State, s': State, p: Pid) {
    && p in s.procs && s.procs[p].TakingOver?
    && var c := s.procs[p];
       if s.body == Some(c.etag)
       then s' == s.(body := Some(LeaseBody(LeaseFor(c))), procs := s.procs[p := Guard(LeaseFor(c))])
       else s' == s.(procs := s.procs - {p})
  }

  /** DELETE If-Match on one's own ETag. */
  ghost predicate Release(s: State, s': State, p: Pid) {
    && p in s.procs && s.procs[p].Guard?
    && s' == s.(body := if s.body == Some(LeaseBody(s.procs[p].lease)) then None else s.body,
                procs := s.procs - {p})
  }

  ghost predicate Crash(s: State, s': State, p: Pid) {
    p in s.procs && s' == s.(procs := s.procs - {p})
  }

  datatype Step =
    | TickStep(to: I64)
    | BeginStep(p: Pid, holder: string, ttl: U64)
    | AcquireStep(p: Pid)
    | InspectStep(p: Pid)
    | TakeOverStep(p: Pid)
    | ReleaseStep(p: Pid)
    | CrashStep(p: Pid)

  ghost predicate Next(s: State, s': State, step: Step) {
    match step
    case TickStep(to) => Tick(s, s', to)
    case BeginStep(p, holder, ttl) => Begin(s, s', p, holder, ttl)
    case AcquireStep(p) => Acquire(s, s', p)
    case InspectStep(p) => Inspect(s, s', p)
    case TakeOverStep(p) => TakeOver(s, s', p)
    case ReleaseStep(p) => Release(s, s', p)
    case CrashStep(p) => Crash(s, s', p)
  }

  ghost predicate Init(s: State) {
    s.body == None && s.procs == map[] && s.used == {}
  }

  ghost predicate IsRun(run: seq<State>, steps: seq<Step>) {
    && |run| == |steps| + 1 && Init(run[0])
    && forall j {:trigger steps[j]} :: 0 <= j < |steps| ==> Next(run[j], run[j + 1], steps[j])
  }

  // ----- the invariant -----

  function HolderOf(c: Process): string {
    if c.Guard? then c.lease.holder else c.holder
  }

  /** A guard that has not run out owns the object; a takeover's target had run out when sampled. */
  ghost predicate ProcessOk(s: State, c: Process) {
    && HolderOf(c) in s.used && OneLine(HolderOf(c))
    && (!c.Guard? ==> c.now <= s.time)
    && (c.Guard? && s.time < c.lease.expires ==> s.body == Some(LeaseBody(c.lease)))
    && (c.TakingOver? ==> ParsedLease(c.etag).Some? && ParsedLease(c.etag).value.expires <= c.now)
  }

  ghost predicate Inv(s: State) {
    && (forall p :: p in s.procs ==> ProcessOk(s, s.procs[p]))
    && (forall p, q :: p in s.procs && q in s.procs && HolderOf(s.procs[p]) == HolderOf(s.procs[q]) ==> p == q)
  }

  /** Two one-line leases with one body are one lease. */
  lemma BodyIsInjective(a: Lease, b: Lease)
    requires OneLine(a.holder) && OneLine(b.holder) && LeaseBody(a) == LeaseBody(b)
    ensures a == b
  {
    LeaseRoundTripIff(a);
    LeaseRoundTripIff(b);
  }

  /** Whatever a takeover replaces had run out, so it was nobody's live guard. */
  lemma TakeOverKeeps(s: State, s': State, p: Pid)
    requires Inv(s) && TakeOver(s, s', p)
    ensures Inv(s')
  {
    forall q | q in s'.procs && q != p ensures ProcessOk(s', s'.procs[q]) {
      var g := s.procs[q];
      if g.Guard? {
        LeaseRoundTripIff(g.lease);
      }
    }
  }

  lemma ReleaseKeeps(s: State, s': State, p: Pid)
    requires Inv(s) && Release(s, s', p)
    ensures Inv(s')
  {
    forall q | q in s'.procs ensures ProcessOk(s', s'.procs[q]) {
      var g := s.procs[q];
      if g.Guard? && LeaseBody(g.lease) == LeaseBody(s.procs[p].lease) {
        BodyIsInjective(g.lease, s.procs[p].lease);
      }
    }
  }

  lemma BeginKeeps(s: State, s': State, p: Pid, holder: string, ttl: U64)
    requires Inv(s) && Begin(s, s', p, holder, ttl)
    ensures Inv(s')
  {
  }

  lemma AcquireKeeps(s: State, s': State, p: Pid)
    requires Inv(s) && Acquire(s, s', p)
    ensures Inv(s')
  {
  }

  lemma OtherKeeps(s: State, s': State, step: Step)
    requires Inv(s) && Next(s, s', step) && (step.TickStep? || step.InspectStep? || step.CrashStep?)
    ensures Inv(s')
  {
  }

  lemma StepKeeps(s: State, s': State, step: Step)
    requires Inv(s) && Next(s, s', step)
    ensures Inv(s')
  {
    match step
    case BeginStep(p, holder, ttl) => BeginKeeps(s, s', p, holder, ttl);
    case AcquireStep(p) => AcquireKeeps(s, s', p);
    case TakeOverStep(p) => TakeOverKeeps(s, s', p);
    case ReleaseStep(p) => ReleaseKeeps(s, s', p);
    case _ => OtherKeeps(s, s', step);
  }

  lemma {:induction false} RunKeeps(run: seq<State>, steps: seq<Step>, i: nat)
    requires IsRun(run, steps) && i < |run|
    ensures Inv(run[i])
  {
    if i > 0 {
      RunKeeps(run, steps, i - 1);
      StepKeeps(run[i - 1], run[i], steps[i - 1]);
    }
  }

  /** What a takeover replaces is a lease that had run out by the time the taker sampled, and still has. */
  lemma TakeOverReplacesExpired(run: seq<State>, steps: seq<Step>, i: nat)
    requires IsRun(run, steps) && i < |steps| && steps[i].TakeOverStep? && run[i + 1].body != run[i].body
    ensures steps[i].p in run[i].procs && run[i].procs[steps[i].p].TakingOver? && run[i].body.Some?
    ensures ParsedLease(run[i].body.value).Some?
    ensures ParsedLease(run[i].body.value).value.expires <= run[i].procs[steps[i].p].now <= run[i].time
    ensures run[i + 1].body == Some(LeaseBody(LeaseFor(run[i].procs[steps[i].p])))
  {
    RunKeeps(run, steps, i);
    assert Next(run[i], run[i + 1], steps[i]);
    assert ProcessOk(run[i], run[i].procs[steps[i].p]);
  }

  /** Unreleased and not past its time. */
  ghost predicate IsLeader(s: State, p: Pid) {
    p in s.procs && s.procs[p].Guard? && s.time < s.procs[p].lease.expires
  }

  /** In every state of every run at most one guard is unexpired, and the lease object is its own. */
  lemma OneLeader(run: seq<State>, steps: seq<Step>, i: nat, p: Pid, q: Pid)
    requires IsRun(run, steps) && i < |run| && IsLeader(run[i], p) && IsLeader(run[i], q)
    ensures p == q && run[i].body == Some(LeaseBody(run[i].procs[p].lease))
  {
    RunKeeps(run, steps, i);
    BodyIsInjective(run[i].procs[p].lease, run[i].procs[q].lease);
  }

  /**
   * A lease that has not run out, its holder alive or crashed, leaves the object only by its
   * own holder's release.
   */
  lemma NeverDisplaced(run: seq<State>, steps: seq<Step>, i: nat, l: Lease)
    requires IsRun(run, steps) && i < |steps| && OneLine(l.holder)
    requires run[i].body == Some(LeaseBody(l)) && run[i].time < l.expires
    requires run[i + 1].body != run[i].body
    ensures steps[i].ReleaseStep? && steps[i].p in run[i].procs && run[i].procs[steps[i].p] == Guard(l)
  {
    RunKeeps(run, steps, i);
    var s, s' := run[i], run[i + 1];
    assert Next(s, s', steps[i]);
    LeaseRoundTripIff(l);
    if steps[i].ReleaseStep? {
      BodyIsInjective(l, s.procs[steps[i].p].lease);
    }
  }

  // ----- how long a lease lasts -----

  /** The process is at the attempt begun by `holder` at `now`; its lease runs out a time to live later. */
  ghost predicate Attempt(c: Process, holder: string, ttl: U64, now: I64) {
    if c.Guard? then c.lease.holder == holder && c.lease.expires == now + ttl
    else c.holder == holder && c.ttl == ttl && c.now == now
  }

  /** The clock and the time to live add up without saturating. */
  predicate Fits(now: I64, ttl: U64) {
    ttl <= I64_MAX && now + ttl <= I64_MAX
  }

  lemma AttemptGoesOn(s: State, s': State, step: Step, p: Pid, holder: string, ttl: U64, now: I64)
    requires Next(s, s', step) && Fits(now, ttl) && holder in s.used
    requires p in s.procs && HolderOf(s.procs[p]) == holder ==> Attempt(s.procs[p], holder, ttl, now)
    ensures holder in s'.used
    ensures p in s'.procs && HolderOf(s'.procs[p]) == holder ==> Attempt(s'.procs[p], holder, ttl, now)
  {
    match step
    case TickStep(to) =>
    case BeginStep(q, h, t) =>
    case AcquireStep(q) =>
    case InspectStep(q) =>
    case TakeOverStep(q) =>
    case ReleaseStep(q) =>
    case CrashStep(q) =>
  }

  lemma {:induction false} AttemptLasts(run: seq<State>, steps: seq<Step>, j: nat, i: nat, p: Pid, holder: string, ttl: U64)
    requires IsRun(run, steps) && j < i < |run| && steps[j] == BeginStep(p, holder, ttl) && Fits(run[j].time, ttl)
    ensures holder in run[i].used
    ensures p in run[i].procs && HolderOf(run[i].procs[p]) == holder ==> Attempt(run[i].procs[p], holder, ttl, run[j].time)
  {
    if i == j + 1 {
      assert Next(run[j], run[i], steps[j]);
    } else {
      AttemptLasts(run, steps, j, i - 1, p, holder, ttl);
      AttemptGoesOn(run[i - 1], run[i], steps[i - 1], p, holder, ttl, run[j].time);
    }
  }

  /** A guard lasts a time to live from when its acquisition began, and until then it leads. */
  lemma LeaseLasts(run: seq<State>, steps: seq<Step>, j: nat, i: nat, p: Pid, holder: string, ttl: U64)
    requires IsRun(run, steps) && j < i < |run| && steps[j] == BeginStep(p, holder, ttl) && Fits(run[j].time, ttl)
    requires p in run[i].procs && run[i].procs[p].Guard? && run[i].procs[p].lease.holder == holder
    ensures run[i].procs[p].lease.expires == run[j].time + ttl
    ensures IsLeader(run[i], p) <==> run[i].time < run[j].time + ttl
  {
    AttemptLasts(run, steps, j, i, p, holder, ttl);
  }

  /** While it leads, whatever another process tries next does not make that one a guard. */
  lemma OthersFail(run: seq<State>, steps: seq<Step>, i: nat, p: Pid, q: Pid)
    requires IsRun(run, steps) && i < |steps| && IsLeader(run[i], p) && p != q
    requires steps[i] == AcquireStep(q) || steps[i] == InspectStep(q) || steps[i] == TakeOverStep(q)
    ensures q !in run[i + 1].procs || !run[i + 1].procs[q].Guard?
    ensures steps[i] == InspectStep(q) || steps[i] == TakeOverStep(q) ==> q !in run[i + 1].procs
    ensures run[i + 1].body == run[i].body
  {
    RunKeeps(run, steps, i);
    var s := run[i];
    assert Next(s, run[i + 1], steps[i]);
    assert ProcessOk(s, s.procs[p]) && ProcessOk(s, s.procs[q]);
    LeaseRoundTripIff(s.procs[p].lease);
  }

  /** The leader's release takes its lease away. */
  lemma ReleaseFrees(run: seq<State>, steps: seq<Step>, i: nat, p: Pid)
    requires IsRun(run, steps) && i < |steps| && IsLeader(run[i], p) && steps[i] == ReleaseStep(p)
    ensures run[i + 1].body == None && p !in run[i + 1].procs
  {
    RunKeeps(run, steps, i);
    assert Next(run[i], run[i + 1], steps[i]);
  }

  // ----- a lease can be had -----

  /** With no lease in the way, an acquisition left alone succeeds in one PUT. */
  lemma AcquireSucceeds(s: State, p: Pid, holder: string, ttl: U64) returns (s1: State, s2: State)
    requires p !in s.procs && holder !in s.used && OneLine(holder) && s.body == None && Fits(s.time, ttl)
    ensures Next(s, s1, BeginStep(p, holder, ttl)) && Next(s1, s2, AcquireStep(p))
    ensures p in s2.procs && s2.procs[p] == Guard(Lease(holder, s.time + ttl)) && s2.body == Some(LeaseBody(Lease(holder, s.time + ttl)))
  {
    s1 := s.(procs := s.procs[p := Acquiring(holder, ttl, s.time)], used := s.used + {holder});
    var l := Lease(holder, s.time + ttl);
    s2 := s1.(body := Some(LeaseBody(l)), procs := s1.procs[p := Guard(l)]);
  }

  /** With a lease in the way, it succeeds by takeover if and only if that lease has run out. */
  lemma TakeOverSucceedsIff(s: State, p: Pid, holder: string, ttl: U64, l: Lease)
    returns (s1: State, s2: State, s3: State, s4: State)
    requires p !in s.procs && holder !in s.used && OneLine(holder) && OneLine(l.holder) && Fits(s.time, ttl)
    requires s.body == Some(LeaseBody(l))
    ensures Next(s, s1, BeginStep(p, holder, ttl)) && Next(s1, s2, AcquireStep(p)) && Next(s2, s3, InspectStep(p))
    ensures s3.body == s.body && (p in s3.procs <==> l.expires <= s.time)
    ensures l.expires <= s.time ==>
      Next(s3, s4, TakeOverStep(p)) && p in s4.procs && s4.procs[p] == Guard(Lease(holder, s.time + ttl)) && s4.body == Some(LeaseBody(Lease(holder, s.time + ttl)))
  {
    LeaseRoundTripIff(l);
    s1 := s.(procs := s.procs[p := Acquiring(holder, ttl, s.time)], used := s.used + {holder});
    s2 := s1.(procs := s1.procs[p := Conflicted(holder, ttl, s.time)]);
    s3 := if l.expires <= s.time then s2.(procs := s2.procs[p := TakingOver(holder, ttl, s.time, LeaseBody(l))])
          else s2.(procs := s2.procs - {p});
    var taken := Lease(holder, s.time + ttl);
    s4 := s3.(body := Some(LeaseBody(taken)), procs := s3.procs[p := Guard(taken)]);
  }

  lemma CrashThenWait(s: State, p: Pid, to: I64) returns (a: State, b: State)
    requires p in s.procs && s.time <= to
    ensures Next(s, a, CrashStep(p)) && Next(a, b, TickStep(to)) && b == s.(procs := s.procs - {p}, time := to)
  {
    a := s.(procs := s.procs - {p});
    b := a.(time := to);
  }

  /** A holder that crashes blocks the lease until it runs out and no longer: from then on the next to come takes it. */
  lemma CrashedLeaseRunsOut(s: State, p: Pid, q: Pid, holder: string, ttl: U64, to: I64)
    returns (a: State, b: State, s1: State, s2: State, s3: State, t: State)
    requires p in s.procs && s.procs[p].Guard? && OneLine(s.procs[p].lease.holder) && s.body == Some(LeaseBody(s.procs[p].lease))
    requires q !in s.procs && holder !in s.used && OneLine(holder)
    requires s.time <= to && s.procs[p].lease.expires <= to && Fits(to, ttl)
    ensures Next(s, a, CrashStep(p)) && Next(a, b, TickStep(to))
    ensures Next(b, s1, BeginStep(q, holder, ttl)) && Next(s1, s2, AcquireStep(q))
    ensures Next(s2, s3, InspectStep(q)) && Next(s3, t, TakeOverStep(q))
    ensures b.time == to && p !in b.procs && q in t.procs && t.procs[q] == Guard(Lease(holder, to + ttl))
    ensures t.body == Some(LeaseBody(Lease(holder, to + ttl)))
  {
    a, b := CrashThenWait(s, p, to);
    s1, s2, s3, t := TakeOverSucceedsIff(b, q, holder, ttl, s.procs[p].lease);
  }
}
