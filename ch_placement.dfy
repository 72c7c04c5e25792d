/**
 * Placement of one guest thread (virCHProcessSetupPid): the CPU mask it is
 * confined to, the per-thread cgroup made for it, its legacy affinity and its
 * scheduler; and the fan-out of that placement over the emulator and I/O
 * threads the monitor reports.
 */
module ChPlacement {
  import opened Decimal
  import opened ChMonitor
  import opened ChHost

  /**
   * The NUMA memory tuning as the placement sees it: not strict (no memory
   * mask), strict with the formatted node set (which may be absent), or
   * strict with a node set that could not be formatted.
   */
  datatype MemMask = NotStrict | StrictNodes(mask: Option<string>) | StrictError

  /** What placement reads from the domain definition and private data. */
  datatype Tuning = Tuning(
    placementAuto: bool,
    autoCpuset: Option<CpuSet>,
    cpumask: Option<CpuSet>,
    memMask: MemMask,
    period: nat,
    quota: int,
    emulatorPin: Option<CpuSet>,
    emulatorPeriod: nat,
    emulatorQuota: int,
    emulatorSched: Option<Sched>,
    iothreadPeriod: nat,
    iothreadQuota: int)

  /** The controllers of the domain's cgroup (all false when there is none). */
  datatype Controllers = Controllers(cpu: bool, cpuset: bool)

  /** The arguments of one placement: the thread, its cgroup name and what to apply. */
  datatype PidJob = PidJob(
    tid: int,
    group: ThreadGroup,
    id: int,
    cpumask: Option<CpuSet>,
    period: nat,
    quota: int,
    sched: Option<Sched>)

  /** A return code and the calls made, in order. */
  datatype Outcome = Outcome(rc: int, calls: seq<Call>)

  function Prepend(done: seq<Call>, o: Outcome): (r: Outcome)
    ensures r.rc == o.rc && |r.calls| == |done| + |o.calls|
  {
    Outcome(o.rc, done + o.calls)
  }

  /** The mask a cgroup is confined to (`use`) and the one given to affinity. */
  datatype Masks = Masks(use: Option<CpuSet>, affinity: Option<CpuSet>)

  /**
   * The mask choice: the thread's own mask, else the automatic placement's
   * set when placement is automatic (even when that set is absent), else the
   * domain mask, else every online host CPU, which is only an affinity.
   * None when the host CPUs cannot be read.
   */
  function ChooseMasks(tune: Tuning, job: PidJob, host: HostCpus): Option<Masks> {
    if job.cpumask.Some? then Some(Masks(job.cpumask, job.cpumask))
    else if tune.placementAuto then Some(Masks(tune.autoCpuset, tune.autoCpuset))
    else if tune.cpumask.Some? then Some(Masks(tune.cpumask, tune.cpumask))
    else
      match host
      case NoBitmap => Some(Masks(None, None))
      case Online(cpus) => Some(Masks(None, Some(cpus)))
      case BitmapError => None
  }

  function OrElse<T>(o: Option<T>, d: T): T {
    if o.Some? then o.value else d
  }

  function When(b: bool, c: Call, rest: seq<Call>): (r: seq<Call>)
    ensures b ==> r == [c] + rest
    ensures !b ==> r == rest
    ensures forall x :: x in r <==> (b && x == c) || x in rest
  {
    if b then [c] + rest else rest
  }

  function BandwidthTuned(job: PidJob): bool { job.period != 0 || job.quota != 0 }

  function MemsOf(m: MemMask): Option<string> {
    if m.StrictNodes? then m.mask else None
  }

  /**
   * The calls a placement makes when none of them fails, each with the
   * condition under which it is made; None when it gives up before the
   * first call.
   */
  function Plan(tune: Tuning, ctl: Controllers, job: PidJob, host: HostCpus): Option<seq<Call>> {
    if BandwidthTuned(job) && !ctl.cpu then None
    else
      match ChooseMasks(tune, job, host)
      case None => None
      case Some(m) =>
        var scoped := ctl.cpu || ctl.cpuset;
        if scoped && tune.memMask.StrictError? then None
        else Some(ScopePlan(scoped, job, ctl, m.use, MemsOf(tune.memMask), TailPlan(job, m.affinity)))
  }

  /** With a cgroup controller: make the thread's scope, fill it, move the thread in. */
  function ScopePlan(scoped: bool, job: PidJob, ctl: Controllers, use: Option<CpuSet>, mems: Option<string>,
                     tail: seq<Call>): seq<Call> {
    if scoped then [ScopeNew(job.group, job.id)] + ScopeSteps(job, ctl, use, mems, tail) else tail
  }

  function ScopeSteps(job: PidJob, ctl: Controllers, use: Option<CpuSet>, mems: Option<string>,
                      tail: seq<Call>): seq<Call> {
    When(ctl.cpuset && use.Some?, ScopeSetCpus(job.group, job.id, OrElse(use, {})),
    When(ctl.cpuset && mems.Some?, ScopeSetMems(job.group, job.id, OrElse(mems, "")),
    When(BandwidthTuned(job), ScopeSetBandwidth(job.group, job.id, job.period, job.quota),
    [ScopeAddThread(job.group, job.id, job.tid)] + tail)))
  }

  /** Then the legacy affinity and, except for the emulator, the scheduler. */
  function TailPlan(job: PidJob, affinity: Option<CpuSet>): seq<Call> {
    When(affinity.Some?, SetAffinity(job.tid, OrElse(affinity, {})),
    When(job.sched.Some? && job.group != GroupEmulator, SetScheduler(job.tid, OrElse(job.sched, Sched(0, 0))),
    []))
  }

  /** The scope a placement has made so far, which a failure removes. */
  function NextScope(c: Call, scope: Option<(ThreadGroup, int)>): Option<(ThreadGroup, int)> {
    if c.ScopeNew? then Some((c.group, c.id)) else scope
  }

  function Removal(scope: Option<(ThreadGroup, int)>): seq<Call> {
    if scope.Some? then [ScopeRemove(scope.value.0, scope.value.1)] else []
  }

  /** Make the calls in order; the first failure removes the scope made, if any. */
  function Execute(env: Env, calls: seq<Call>, scope: Option<(ThreadGroup, int)>): Outcome
    decreases |calls|
  {
    if calls == [] then Outcome(0, [])
    else if Fails(env, calls[0]) then Outcome(-1, [calls[0]] + Removal(scope))
    else Prepend([calls[0]], Execute(env, calls[1..], NextScope(calls[0], scope)))
  }

  /** virCHProcessSetupPid as a trace. */
  function SetupPidTrace(env: Env, tune: Tuning, ctl: Controllers, job: PidJob): Outcome {
    match Plan(tune, ctl, job, env.hostCpus)
    case None => Outcome(-1, [])
    case Some(p) => Execute(env, p, None)
  }

  /**
   * The fan-out over the emulator threads and over the I/O threads: one
   * placement per thread, in order, stopping at the first that fails.
   */
  function FanOut(env: Env, tune: Tuning, ctl: Controllers, jobs: seq<PidJob>): Outcome
    decreases |jobs|
  {
    if jobs == [] then Outcome(0, [])
    else
      var o := SetupPidTrace(env, tune, ctl, jobs[0]);
      if o.rc < 0 then Outcome(-1, o.calls)
      else Prepend(o.calls, FanOut(env, tune, ctl, jobs[1..]))
  }

  /** virCHProcessSetupEmulatorThread: cgroup id 0, the emulator pinning, bandwidth and scheduler. */
  function EmulatorJob(tune: Tuning, tid: int): PidJob {
    PidJob(tid, GroupEmulator, 0, tune.emulatorPin, tune.emulatorPeriod, tune.emulatorQuota, tune.emulatorSched)
  }

  /**
   * virCHProcessSetupIOThread: the I/O thread id is both the thread and the
   * cgroup id, the mask is the automatic placement's set, and no scheduler.
   */
  function IOJob(tune: Tuning, id: nat): PidJob {
    PidJob(id, GroupIOThread, id, tune.autoCpuset, tune.iothreadPeriod, tune.iothreadQuota, None)
  }

  function EmulatorJobs(tune: Tuning, tids: seq<int>): (jobs: seq<PidJob>)
    ensures |jobs| == |tids|
    ensures forall i :: 0 <= i < |tids| ==> jobs[i] == EmulatorJob(tune, tids[i])
  {
    if tids == [] then [] else [EmulatorJob(tune, tids[0])] + EmulatorJobs(tune, tids[1..])
  }

  function IOJobs(tune: Tuning, ids: seq<nat>): (jobs: seq<PidJob>)
    ensures |jobs| == |ids|
    ensures forall i :: 0 <= i < |ids| ==> jobs[i] == IOJob(tune, ids[i])
  {
    if ids == [] then [] else [IOJob(tune, ids[0])] + IOJobs(tune, ids[1..])
  }

  // ---------------------------------------------------------------------------
  // Properties of a placement

  /**
   * The documented precedence of the cgroup mask: the thread's own mask,
   * else (automatic placement) its set, else the domain mask.
   */
  predicate CgroupMaskChoice(tune: Tuning, job: PidJob, s: CpuSet) {
    job.cpumask == Some(s)
    || (job.cpumask.None? && tune.placementAuto && tune.autoCpuset == Some(s))
    || (job.cpumask.None? && !tune.placementAuto && tune.cpumask == Some(s))
  }

  /** Every online host CPU, used when none of those masks is given. */
  predicate HostFallback(tune: Tuning, job: PidJob, host: HostCpus, s: CpuSet) {
    job.cpumask.None? && !tune.placementAuto && tune.cpumask.None? && host == Online(s)
  }

  /**
   * A chain of calls either runs to the end (return code 0, exactly the
   * chain) or fails (-1); what it makes is drawn from the chain, plus the
   * removal of a scope it had, or that an earlier call of the chain made.
   */
  lemma {:induction false} ExecuteMakes(env: Env, p: seq<Call>, scope: Option<(ThreadGroup, int)>)
    ensures Execute(env, p, scope).rc == 0 || Execute(env, p, scope).rc == -1
    ensures Execute(env, p, scope).rc == 0 ==> Execute(env, p, scope).calls == p
    ensures forall c :: c in Execute(env, p, scope).calls ==>
      c in p || (c.ScopeRemove? && (scope == Some((c.group, c.id)) || ScopeNew(c.group, c.id) in p))
    decreases |p|
  {
    if p != [] && !Fails(env, p[0]) {
      ExecuteMakes(env, p[1..], NextScope(p[0], scope));
      assert p == [p[0]] + p[1..];
    }
  }

  /** Within a scope, with no new scope made, a failure ends by removing the scope. */
  lemma {:induction false} ExecuteRollback(env: Env, p: seq<Call>, g: ThreadGroup, id: int)
    requires forall c :: c in p ==> !c.ScopeNew?
    ensures var o := Execute(env, p, Some((g, id)));
      o.rc != 0 ==> o.calls != [] && o.calls[|o.calls| - 1] == ScopeRemove(g, id)
    decreases |p|
  {
    if p != [] && !Fails(env, p[0]) {
      assert forall c :: c in p[1..] ==> c in p;
      ExecuteRollback(env, p[1..], g, id);
    }
  }

  /** The mask choice follows the documented precedence. */
  lemma MaskChoice(tune: Tuning, job: PidJob, host: HostCpus)
    requires ChooseMasks(tune, job, host).Some?
    ensures forall s :: ChooseMasks(tune, job, host).value.use == Some(s) <==> CgroupMaskChoice(tune, job, s)
    ensures forall s :: ChooseMasks(tune, job, host).value.affinity == Some(s) <==>
      CgroupMaskChoice(tune, job, s) || HostFallback(tune, job, host, s)
  {
  }

  /** The host CPUs are only unreadable when they are needed. */
  lemma MaskChoiceFails(tune: Tuning, job: PidJob, host: HostCpus)
    ensures ChooseMasks(tune, job, host).None? <==>
      job.cpumask.None? && !tune.placementAuto && tune.cpumask.None? && host.BitmapError?
  {
  }

  lemma TailCalls(job: PidJob, affinity: Option<CpuSet>)
    ensures forall c :: c in TailPlan(job, affinity) ==>
      (c.SetAffinity? && c.tid == job.tid && affinity == Some(c.cpus))
      || (c.SetScheduler? && c.tid == job.tid && job.sched == Some(c.sched) && job.group != GroupEmulator)
    ensures forall s :: affinity == Some(s) ==> SetAffinity(job.tid, s) in TailPlan(job, affinity)
    ensures forall s :: job.sched == Some(s) && job.group != GroupEmulator ==> SetScheduler(job.tid, s) in TailPlan(job, affinity)
  {
  }

  lemma StepsCalls(job: PidJob, ctl: Controllers, use: Option<CpuSet>, mems: Option<string>, tail: seq<Call>)
    ensures forall c :: c in ScopeSteps(job, ctl, use, mems, tail) ==>
      c in tail
      || (c.ScopeSetCpus? && ctl.cpuset && c.group == job.group && c.id == job.id && use == Some(c.cpus))
      || (c.ScopeSetMems? && ctl.cpuset && c.group == job.group && c.id == job.id && mems == Some(c.mems))
      || (c == ScopeSetBandwidth(job.group, job.id, job.period, job.quota) && BandwidthTuned(job))
      || c == ScopeAddThread(job.group, job.id, job.tid)
    ensures forall c :: c in tail ==> c in ScopeSteps(job, ctl, use, mems, tail)
    ensures forall s :: ctl.cpuset && use == Some(s) ==> ScopeSetCpus(job.group, job.id, s) in ScopeSteps(job, ctl, use, mems, tail)
  {
  }

  /** A planned placement makes its scope first, only with a controller, and never removes it. */
  lemma PlanScope(tune: Tuning, ctl: Controllers, job: PidJob, host: HostCpus, p: seq<Call>)
    requires Plan(tune, ctl, job, host) == Some(p)
    ensures !(BandwidthTuned(job) && !ctl.cpu)
    ensures (ctl.cpu || ctl.cpuset) ==> p != [] && p[0] == ScopeNew(job.group, job.id)
    ensures forall i :: 0 <= i < |p| && p[i].ScopeNew? ==> i == 0 && p[i] == ScopeNew(job.group, job.id) && (ctl.cpu || ctl.cpuset)
    ensures forall c :: c in p ==> !c.ScopeRemove?
  {
    var m := ChooseMasks(tune, job, host).value;
    var scoped := ctl.cpu || ctl.cpuset;
    var mems := MemsOf(tune.memMask);
    var tail := TailPlan(job, m.affinity);
    var steps := ScopeSteps(job, ctl, m.use, mems, tail);
    assert p == ScopePlan(scoped, job, ctl, m.use, mems, tail);
    TailNoScope(job, m.affinity);
    StepsNoScope(job, ctl, m.use, mems, tail);
    if scoped {
      assert p == [ScopeNew(job.group, job.id)] + steps;
      assert forall i :: 1 <= i < |p| ==> p[i] == steps[i - 1];
    }
  }

  /** Only calls on the thread itself, no cgroup call. */
  predicate ThreadOnly(calls: seq<Call>) {
    forall c :: c in calls ==> c.SetAffinity? || c.SetScheduler?
  }

  /** The tail of a placement touches only the thread. */
  lemma TailNoScope(job: PidJob, affinity: Option<CpuSet>)
    ensures ThreadOnly(TailPlan(job, affinity))
  {
    TailCalls(job, affinity);
  }

  /** Nor do the steps inside a scope. */
  lemma StepsNoScope(job: PidJob, ctl: Controllers, use: Option<CpuSet>, mems: Option<string>, tail: seq<Call>)
    requires ThreadOnly(tail)
    ensures forall i :: 0 <= i < |ScopeSteps(job, ctl, use, mems, tail)| ==>
      !ScopeSteps(job, ctl, use, mems, tail)[i].ScopeNew? && !ScopeSteps(job, ctl, use, mems, tail)[i].ScopeRemove?
  {
    var steps := ScopeSteps(job, ctl, use, mems, tail);
    StepsCalls(job, ctl, use, mems, tail);
    forall i | 0 <= i < |steps| ensures !steps[i].ScopeNew? && !steps[i].ScopeRemove? {
      assert steps[i] in steps;
    }
  }

  /** The cgroup calls of a planned placement, and their conditions. */
  lemma PlanScopeCalls(tune: Tuning, ctl: Controllers, job: PidJob, host: HostCpus, p: seq<Call>)
    requires Plan(tune, ctl, job, host) == Some(p)
    ensures forall c :: c in p && c.ScopeSetCpus? ==>
      ctl.cpuset && c.group == job.group && c.id == job.id && CgroupMaskChoice(tune, job, c.cpus)
    ensures forall c :: c in p && c.ScopeSetMems? ==>
      ctl.cpuset && c.group == job.group && c.id == job.id && tune.memMask == StrictNodes(Some(c.mems))
    ensures forall c :: c in p && c.ScopeSetBandwidth? ==>
      ctl.cpu && BandwidthTuned(job) && c == ScopeSetBandwidth(job.group, job.id, job.period, job.quota)
    ensures forall c :: c in p && c.ScopeAddThread? ==> c == ScopeAddThread(job.group, job.id, job.tid)
    ensures forall s :: ctl.cpuset && CgroupMaskChoice(tune, job, s) ==> ScopeSetCpus(job.group, job.id, s) in p
  {
    var m := ChooseMasks(tune, job, host).value;
    var mems := MemsOf(tune.memMask);
    var tail := TailPlan(job, m.affinity);
    PlanParts(tune, ctl, job, host, p);
    MaskChoice(tune, job, host);
    TailNoScope(job, m.affinity);
    forall c | c in p && c.ScopeSetCpus?
      ensures ctl.cpuset && c.group == job.group && c.id == job.id && CgroupMaskChoice(tune, job, c.cpus)
    {
      StepsSetCpus(job, ctl, m.use, mems, tail, c);
    }
    forall c | c in p && c.ScopeSetMems?
      ensures ctl.cpuset && c.group == job.group && c.id == job.id && tune.memMask == StrictNodes(Some(c.mems))
    {
      StepsSetMems(job, ctl, m.use, mems, tail, c);
    }
    StepsCalls(job, ctl, m.use, mems, tail);
  }

  /** The calls of a planned placement are its scope, the steps inside it and its tail. */
  lemma PlanParts(tune: Tuning, ctl: Controllers, job: PidJob, host: HostCpus, p: seq<Call>)
    requires Plan(tune, ctl, job, host) == Some(p)
    ensures !(BandwidthTuned(job) && !ctl.cpu)
    ensures ChooseMasks(tune, job, host).Some?
    ensures (ctl.cpu || ctl.cpuset) ==> !tune.memMask.StrictError?
    ensures forall c :: c in p <==>
      ((ctl.cpu || ctl.cpuset) && (c == ScopeNew(job.group, job.id) ||
        c in ScopeSteps(job, ctl, ChooseMasks(tune, job, host).value.use, MemsOf(tune.memMask),
                        TailPlan(job, ChooseMasks(tune, job, host).value.affinity))))
      || (!(ctl.cpu || ctl.cpuset) && c in TailPlan(job, ChooseMasks(tune, job, host).value.affinity))
  {
  }

  /** A cpuset call among the steps carries the chosen mask. */
  lemma StepsSetCpus(job: PidJob, ctl: Controllers, use: Option<CpuSet>, mems: Option<string>, tail: seq<Call>, c: Call)
    requires ThreadOnly(tail)
    requires c in ScopeSteps(job, ctl, use, mems, tail) && c.ScopeSetCpus?
    ensures ctl.cpuset && c.group == job.group && c.id == job.id && use == Some(c.cpus)
  {
    StepsCalls(job, ctl, use, mems, tail);
  }

  /** A memory-nodes call among the steps carries the strict nodes. */
  lemma StepsSetMems(job: PidJob, ctl: Controllers, use: Option<CpuSet>, mems: Option<string>, tail: seq<Call>, c: Call)
    requires ThreadOnly(tail)
    requires c in ScopeSteps(job, ctl, use, mems, tail) && c.ScopeSetMems?
    ensures ctl.cpuset && c.group == job.group && c.id == job.id && mems == Some(c.mems)
  {
    StepsCalls(job, ctl, use, mems, tail);
  }

  /** What a planned placement does to the thread itself. */
  lemma PlanThreadCalls(tune: Tuning, ctl: Controllers, job: PidJob, host: HostCpus, p: seq<Call>)
    requires Plan(tune, ctl, job, host) == Some(p)
    ensures forall c :: c in p && c.SetAffinity? ==>
      c.tid == job.tid && (CgroupMaskChoice(tune, job, c.cpus) || HostFallback(tune, job, host, c.cpus))
    ensures forall c :: c in p && c.SetScheduler? ==>
      job.sched == Some(c.sched) && job.group != GroupEmulator && c.tid == job.tid
    ensures forall s :: (CgroupMaskChoice(tune, job, s) || HostFallback(tune, job, host, s)) ==> SetAffinity(job.tid, s) in p
    ensures forall s :: job.sched == Some(s) && job.group != GroupEmulator ==> SetScheduler(job.tid, s) in p
  {
    var m := ChooseMasks(tune, job, host).value;
    var scoped := ctl.cpu || ctl.cpuset;
    var mems := MemsOf(tune.memMask);
    var tail := TailPlan(job, m.affinity);
    assert p == ScopePlan(scoped, job, ctl, m.use, mems, tail);
    MaskChoice(tune, job, host);
    TailCalls(job, m.affinity);
    StepsCalls(job, ctl, m.use, mems, tail);
  }

  /** A placement returns 0 or -1. */
  lemma SetupPidRc(env: Env, tune: Tuning, ctl: Controllers, job: PidJob)
    ensures SetupPidTrace(env, tune, ctl, job).rc == 0 || SetupPidTrace(env, tune, ctl, job).rc == -1
  {
    var p := Plan(tune, ctl, job, env.hostCpus);
    if p.Some? {
      ExecuteMakes(env, p.value, None);
    }
  }

  /** Bandwidth tuning without the CPU controller fails before any call. */
  lemma BandwidthNeedsCpu(env: Env, tune: Tuning, ctl: Controllers, job: PidJob)
    requires BandwidthTuned(job) && !ctl.cpu
    ensures SetupPidTrace(env, tune, ctl, job) == Outcome(-1, [])
  {
  }

  /** The cgroup calls a placement makes, and the conditions under which it makes them. */
  lemma TraceScopeCalls(env: Env, tune: Tuning, ctl: Controllers, job: PidJob)
    ensures var o := SetupPidTrace(env, tune, ctl, job);
      forall c :: c in o.calls && c.ScopeNew? ==> c == ScopeNew(job.group, job.id) && (ctl.cpu || ctl.cpuset)
    ensures var o := SetupPidTrace(env, tune, ctl, job);
      forall c :: c in o.calls && c.ScopeRemove? ==> c == ScopeRemove(job.group, job.id) && (ctl.cpu || ctl.cpuset)
    ensures var o := SetupPidTrace(env, tune, ctl, job);
      forall c :: c in o.calls && c.ScopeSetCpus? ==>
        ctl.cpuset && c.group == job.group && c.id == job.id && CgroupMaskChoice(tune, job, c.cpus)
    ensures var o := SetupPidTrace(env, tune, ctl, job);
      forall c :: c in o.calls && c.ScopeSetMems? ==>
        ctl.cpuset && c.group == job.group && c.id == job.id && tune.memMask == StrictNodes(Some(c.mems))
    ensures var o := SetupPidTrace(env, tune, ctl, job);
      forall c :: c in o.calls && c.ScopeSetBandwidth? ==> ctl.cpu && BandwidthTuned(job)
  {
    var p := Plan(tune, ctl, job, env.hostCpus);
    if p.Some? {
      assert SetupPidTrace(env, tune, ctl, job) == Execute(env, p.value, None);
      ExecuteMakes(env, p.value, None);
      PlanScope(tune, ctl, job, env.hostCpus, p.value);
      PlanScopeCalls(tune, ctl, job, env.hostCpus, p.value);
    }
  }

  /**
   * The affinity a placement sets is the cgroup mask or, failing all three,
   * the online host CPUs; the scheduler is set only for a thread with one
   * that is not the emulator.
   */
  lemma TraceThreadCalls(env: Env, tune: Tuning, ctl: Controllers, job: PidJob)
    ensures var o := SetupPidTrace(env, tune, ctl, job);
      forall c :: c in o.calls && c.SetAffinity? ==>
        c.tid == job.tid && (CgroupMaskChoice(tune, job, c.cpus) || HostFallback(tune, job, env.hostCpus, c.cpus))
    ensures var o := SetupPidTrace(env, tune, ctl, job);
      forall c :: c in o.calls && c.SetScheduler? ==>
        c.tid == job.tid && job.sched == Some(c.sched) && job.group != GroupEmulator
  {
    var p := Plan(tune, ctl, job, env.hostCpus);
    if p.Some? {
      ExecuteMakes(env, p.value, None);
      PlanThreadCalls(tune, ctl, job, env.hostCpus, p.value);
    }
  }

  /**
   * A placement that succeeds made every planned call, including the cgroup
   * mask, the affinity and the scheduler, and removed nothing.
   */
  lemma TraceSuccess(env: Env, tune: Tuning, ctl: Controllers, job: PidJob)
    requires SetupPidTrace(env, tune, ctl, job).rc == 0
    ensures Plan(tune, ctl, job, env.hostCpus) == Some(SetupPidTrace(env, tune, ctl, job).calls)
    ensures forall c :: c in SetupPidTrace(env, tune, ctl, job).calls ==> !c.ScopeRemove?
    ensures (ctl.cpu || ctl.cpuset) ==> ScopeNew(job.group, job.id) in SetupPidTrace(env, tune, ctl, job).calls
    ensures forall s :: ctl.cpuset && CgroupMaskChoice(tune, job, s) ==>
      ScopeSetCpus(job.group, job.id, s) in SetupPidTrace(env, tune, ctl, job).calls
    ensures forall s :: CgroupMaskChoice(tune, job, s) || HostFallback(tune, job, env.hostCpus, s) ==>
      SetAffinity(job.tid, s) in SetupPidTrace(env, tune, ctl, job).calls
    ensures forall s :: job.sched == Some(s) && job.group != GroupEmulator ==>
      SetScheduler(job.tid, s) in SetupPidTrace(env, tune, ctl, job).calls
  {
    var p := Plan(tune, ctl, job, env.hostCpus).value;
    ExecuteMakes(env, p, None);
    PlanScope(tune, ctl, job, env.hostCpus, p);
    PlanScopeCalls(tune, ctl, job, env.hostCpus, p);
    PlanThreadCalls(tune, ctl, job, env.hostCpus, p);
  }

  /**
   * A placement that fails after its scope was made removes that scope, as
   * its last call.
   */
  lemma TraceRollback(env: Env, tune: Tuning, ctl: Controllers, job: PidJob)
    requires SetupPidTrace(env, tune, ctl, job).rc != 0
    requires ScopeNew(job.group, job.id) in SetupPidTrace(env, tune, ctl, job).calls
    requires !Fails(env, ScopeNew(job.group, job.id))
    ensures var calls := SetupPidTrace(env, tune, ctl, job).calls;
      calls != [] && calls[|calls| - 1] == ScopeRemove(job.group, job.id)
  {
    var p := Plan(tune, ctl, job, env.hostCpus).value;
    var g, id := job.group, job.id;
    ExecuteMakes(env, p, None);
    assert ScopeNew(g, id) in p;
    PlanScope(tune, ctl, job, env.hostCpus, p);
    assert p[0] == ScopeNew(g, id);
    var rest := p[1..];
    assert forall c :: c in rest ==> !c.ScopeNew? by {
      forall c | c in rest ensures !c.ScopeNew? {
        var i :| 0 <= i < |rest| && rest[i] == c;
        assert p[i + 1] == c;
      }
    }
    assert Execute(env, p, None) == Prepend([p[0]], Execute(env, rest, Some((g, id))));
    ExecuteRollback(env, rest, g, id);
  }

  /** All the calls of the placements of jobs, each run to its end. */
  function AllCalls(env: Env, tune: Tuning, ctl: Controllers, jobs: seq<PidJob>): seq<Call>
    decreases |jobs|
  {
    if jobs == [] then [] else SetupPidTrace(env, tune, ctl, jobs[0]).calls + AllCalls(env, tune, ctl, jobs[1..])
  }

  /** A fan-out succeeds exactly when every placement does, and then it made them all. */
  lemma {:induction false} FanOutSuccess(env: Env, tune: Tuning, ctl: Controllers, jobs: seq<PidJob>)
    ensures FanOut(env, tune, ctl, jobs).rc == 0 || FanOut(env, tune, ctl, jobs).rc == -1
    ensures FanOut(env, tune, ctl, jobs).rc == 0 <==>
      forall j :: 0 <= j < |jobs| ==> SetupPidTrace(env, tune, ctl, jobs[j]).rc == 0
    ensures FanOut(env, tune, ctl, jobs).rc == 0 ==> FanOut(env, tune, ctl, jobs).calls == AllCalls(env, tune, ctl, jobs)
    decreases |jobs|
  {
    if jobs != [] {
      SetupPidRc(env, tune, ctl, jobs[0]);
      FanOutSuccess(env, tune, ctl, jobs[1..]);
      assert forall j :: 1 <= j < |jobs| ==> jobs[j] == jobs[1..][j - 1];
    }
  }

  /** A fan-out stops at the first placement that fails: the later ones are never started. */
  lemma {:induction false} FanOutFirstFailure(env: Env, tune: Tuning, ctl: Controllers, jobs: seq<PidJob>, k: nat)
    requires k < |jobs| && SetupPidTrace(env, tune, ctl, jobs[k]).rc != 0
    requires forall j :: 0 <= j < k ==> SetupPidTrace(env, tune, ctl, jobs[j]).rc == 0
    ensures FanOut(env, tune, ctl, jobs) == Outcome(-1, AllCalls(env, tune, ctl, jobs[..k + 1]))
    decreases k
  {
    SetupPidRc(env, tune, ctl, jobs[k]);
    var head := jobs[..k + 1];
    assert head[0] == jobs[0];
    if k == 0 {
      assert head[1..] == [];
    } else {
      assert head[1..] == jobs[1..][..k];
      FanOutFirstFailure(env, tune, ctl, jobs[1..], k - 1);
    }
  }

  /** The calls a placement can make: on the thread's scope, or on the thread. */
  predicate PlacementCall(c: Call) {
    c.ScopeNew? || c.ScopeSetCpus? || c.ScopeSetMems? || c.ScopeSetBandwidth? || c.ScopeAddThread?
    || c.ScopeRemove? || c.SetAffinity? || c.SetScheduler?
  }

  /** A placement, and a fan-out of placements, make placement calls only. */
  lemma {:induction false} FanOutKinds(env: Env, tune: Tuning, ctl: Controllers, jobs: seq<PidJob>)
    ensures forall c :: c in FanOut(env, tune, ctl, jobs).calls ==> PlacementCall(c)
    decreases |jobs|
  {
    if jobs != [] {
      TraceKinds(env, tune, ctl, jobs[0]);
      FanOutKinds(env, tune, ctl, jobs[1..]);
    }
  }

  lemma TraceKinds(env: Env, tune: Tuning, ctl: Controllers, job: PidJob)
    ensures forall c :: c in SetupPidTrace(env, tune, ctl, job).calls ==> PlacementCall(c)
  {
    var p := Plan(tune, ctl, job, env.hostCpus);
    if p.Some? {
      var m := ChooseMasks(tune, job, env.hostCpus).value;
      var tail := TailPlan(job, m.affinity);
      TailCalls(job, m.affinity);
      StepsCalls(job, ctl, m.use, MemsOf(tune.memMask), tail);
      assert forall c :: c in p.value ==> PlacementCall(c);
      ExecuteMakes(env, p.value, None);
    }
  }

  // ---------------------------------------------------------------------------
  // The methods

  /**
   * The log so far followed by what the remaining calls will add is the
   * target outcome.
   */
  ghost predicate OnTrack(env: Env, log: seq<Call>, todo: seq<Call>, scope: Option<(ThreadGroup, int)>, target: Outcome) {
    log + Execute(env, todo, scope).calls == target.calls && Execute(env, todo, scope).rc == target.rc
  }

  /** One call of the chain, followed by the calls in rest. */
  method Perform(host: Host, c: Call, ghost rest: seq<Call>, ghost scope: Option<(ThreadGroup, int)>, ghost target: Outcome)
    returns (ok: bool)
    requires OnTrack(host.env, host.log, [c] + rest, scope, target)
    modifies host
    ensures host.log == old(host.log) + [c]
    ensures ok <==> !Fails(host.env, c)
    ensures ok ==> OnTrack(host.env, host.log, rest, NextScope(c, scope), target)
    ensures !ok ==> host.log + Removal(scope) == target.calls && target.rc == -1
  {
    ghost var log0 := host.log;
    assert ([c] + rest)[0] == c && ([c] + rest)[1..] == rest;
    var r := host.Invoke(c);
    ok := r >= 0;
    if ok {
      ConcatAssoc(log0, [c], Execute(host.env, rest, NextScope(c, scope)).calls);
    } else {
      ConcatAssoc(log0, [c], Removal(scope));
    }
  }

  /** The cleanup label: a failed placement removes the scope it made. */
  method Cleanup(host: Host, job: PidJob, scoped: bool) returns (rc: int)
    modifies host
    ensures rc == -1
    ensures host.log == old(host.log) + Removal(if scoped then Some((job.group, job.id)) else None)
  {
    if scoped {
      var _ := host.Invoke(ScopeRemove(job.group, job.id));
    }
    rc := -1;
  }

  /** The cgroup part: scope, cpus, mems, bandwidth, thread; a failure removes the scope. */
  method SetupScope(host: Host, job: PidJob, ctl: Controllers, useMask: Option<CpuSet>, mems: Option<string>,
                    ghost tail: seq<Call>, ghost target: Outcome) returns (ok: bool)
    requires OnTrack(host.env, host.log, ScopePlan(true, job, ctl, useMask, mems, tail), None, target)
    modifies host
    ensures ok ==> OnTrack(host.env, host.log, tail, Some((job.group, job.id)), target)
    ensures !ok ==> host.log == target.calls && target.rc == -1
  {
    ghost var scope := Some((job.group, job.id));
    ghost var t4 := [ScopeAddThread(job.group, job.id, job.tid)] + tail;
    ghost var t3 := When(BandwidthTuned(job), ScopeSetBandwidth(job.group, job.id, job.period, job.quota), t4);
    ghost var t2 := When(ctl.cpuset && mems.Some?, ScopeSetMems(job.group, job.id, OrElse(mems, "")), t3);
    ok := Perform(host, ScopeNew(job.group, job.id), ScopeSteps(job, ctl, useMask, mems, tail), None, target);
    if !ok {
      return;
    }
    if ctl.cpuset && useMask.Some? {
      ok := Perform(host, ScopeSetCpus(job.group, job.id, useMask.value), t2, scope, target);
      if !ok {
        var _ := Cleanup(host, job, true);
        return;
      }
    }
    if ctl.cpuset && mems.Some? {
      ok := Perform(host, ScopeSetMems(job.group, job.id, mems.value), t3, scope, target);
      if !ok {
        var _ := Cleanup(host, job, true);
        return;
      }
    }
    if BandwidthTuned(job) {
      ok := Perform(host, ScopeSetBandwidth(job.group, job.id, job.period, job.quota), t4, scope, target);
      if !ok {
        var _ := Cleanup(host, job, true);
        return;
      }
    }
    ok := Perform(host, ScopeAddThread(job.group, job.id, job.tid), tail, scope, target);
    if !ok {
      var _ := Cleanup(host, job, true);
    }
  }

  /** Affinity and scheduler; a failure removes the scope, if one was made. */
  method SetupTail(host: Host, job: PidJob, affinity: Option<CpuSet>, scoped: bool, ghost target: Outcome)
    returns (rc: int)
    requires OnTrack(host.env, host.log, TailPlan(job, affinity), if scoped then Some((job.group, job.id)) else None, target)
    modifies host
    ensures host.log == target.calls && rc == target.rc
  {
    ghost var scope := if scoped then Some((job.group, job.id)) else None;
    ghost var t := When(job.sched.Some? && job.group != GroupEmulator, SetScheduler(job.tid, OrElse(job.sched, Sched(0, 0))), []);
    var ok: bool;
    if affinity.Some? {
      ok := Perform(host, SetAffinity(job.tid, affinity.value), t, scope, target);
      if !ok {
        rc := Cleanup(host, job, scoped);
        return;
      }
    }
    if job.sched.Some? && job.group != GroupEmulator {
      ok := Perform(host, SetScheduler(job.tid, job.sched.value), [], scope, target);
      if !ok {
        rc := Cleanup(host, job, scoped);
        return;
      }
    }
    rc := 0;
  }

  /** virCHProcessSetupPid. */
  method SetupPid(host: Host, tune: Tuning, ctl: Controllers, job: PidJob) returns (rc: int)
    modifies host
    ensures rc == SetupPidTrace(host.env, tune, ctl, job).rc
    ensures host.log == old(host.log) + SetupPidTrace(host.env, tune, ctl, job).calls
  {
    if BandwidthTuned(job) && !ctl.cpu {
      return -1;
    }

    // Infer which cpumask shall be used.
    var useMask: Option<CpuSet> := None;
    var affinity: Option<CpuSet> := None;
    if job.cpumask.Some? {
      useMask := job.cpumask;
    } else if tune.placementAuto {
      useMask := tune.autoCpuset;
    } else if tune.cpumask.Some? {
      useMask := tune.cpumask;
    } else {
      match host.env.hostCpus
      case BitmapError => return -1;
      case NoBitmap =>
      case Online(cpus) => affinity := Some(cpus);
    }
    if affinity.None? {
      affinity := useMask;
    }
    assert ChooseMasks(tune, job, host.env.hostCpus) == Some(Masks(useMask, affinity));

    var scoped := ctl.cpu || ctl.cpuset;
    if scoped && tune.memMask.StrictError? {
      return -1;
    }
    var mems := MemsOf(tune.memMask);
    ghost var tail := TailPlan(job, affinity);
    ghost var target := Prepend(host.log, SetupPidTrace(host.env, tune, ctl, job));
    assert OnTrack(host.env, host.log, ScopePlan(scoped, job, ctl, useMask, mems, tail), None, target);

    if scoped {
      var ok := SetupScope(host, job, ctl, useMask, mems, tail, target);
      if !ok {
        return -1;
      }
    }
    rc := SetupTail(host, job, affinity, scoped, target);
  }

  /** virCHProcessSetupEmulatorThreads: every emulator thread the monitor reports. */
  method SetupEmulatorThreads(host: Host, tune: Tuning, ctl: Controllers) returns (rc: int)
    modifies host
    ensures rc == FanOut(host.env, tune, ctl, EmulatorJobs(tune, EmulatorTids(host.env.threads))).rc
    ensures host.log == old(host.log) + FanOut(host.env, tune, ctl, EmulatorJobs(tune, EmulatorTids(host.env.threads))).calls
  {
    var threads := host.env.threads;
    ghost var log0 := host.log;
    ghost var target := FanOut(host.env, tune, ctl, EmulatorJobs(tune, EmulatorTids(threads)));
    var i := 0;
    while i < |threads|
      invariant 0 <= i <= |threads|
      invariant host.log + FanOut(host.env, tune, ctl, EmulatorJobs(tune, EmulatorTids(threads[i..]))).calls == log0 + target.calls
      invariant FanOut(host.env, tune, ctl, EmulatorJobs(tune, EmulatorTids(threads[i..]))).rc == target.rc
    {
      ghost var log1 := host.log;
      assert threads[i..][1..] == threads[i + 1..];
      ghost var later := EmulatorJobs(tune, EmulatorTids(threads[i + 1..]));
      if threads[i].kind.Emulator? {
        var job := EmulatorJob(tune, threads[i].tid);
        assert EmulatorJobs(tune, EmulatorTids(threads[i..])) == [job] + later;
        assert ([job] + later)[1..] == later;
        var r := SetupPid(host, tune, ctl, job);
        if r < 0 {
          return -1;
        }
        ConcatAssoc(log1, SetupPidTrace(host.env, tune, ctl, job).calls, FanOut(host.env, tune, ctl, later).calls);
      }
      i := i + 1;
    }
    assert threads[i..] == [];
    rc := 0;
  }

  /** virCHProcessSetupIOThreads: every I/O thread the monitor lists. */
  method SetupIOThreads(host: Host, tune: Tuning, ctl: Controllers) returns (rc: int)
    modifies host
    ensures rc == FanOut(host.env, tune, ctl, IOJobs(tune, host.env.ioThreads)).rc
    ensures host.log == old(host.log) + FanOut(host.env, tune, ctl, IOJobs(tune, host.env.ioThreads)).calls
  {
    var ids := host.env.ioThreads;
    ghost var log0 := host.log;
    ghost var target := FanOut(host.env, tune, ctl, IOJobs(tune, ids));
    var i := 0;
    while i < |ids|
      invariant 0 <= i <= |ids|
      invariant host.log + FanOut(host.env, tune, ctl, IOJobs(tune, ids[i..])).calls == log0 + target.calls
      invariant FanOut(host.env, tune, ctl, IOJobs(tune, ids[i..])).rc == target.rc
    {
      ghost var log1 := host.log;
      assert ids[i..][1..] == ids[i + 1..];
      ghost var later := IOJobs(tune, ids[i + 1..]);
      var job := IOJob(tune, ids[i]);
      assert IOJobs(tune, ids[i..]) == [job] + later;
      assert ([job] + later)[1..] == later;
      var r := SetupPid(host, tune, ctl, job);
      if r < 0 {
        return -1;
      }
      ConcatAssoc(log1, SetupPidTrace(host.env, tune, ctl, job).calls, FanOut(host.env, tune, ctl, later).calls);
      i := i + 1;
    }
    assert ids[i..] == [];
    rc := 0;
  }
}
