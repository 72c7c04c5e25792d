/**
 * The Cloud-Hypervisor process supervisor (src/ch/ch_process.c): starting a
 * guest, placing its threads, stopping it, and reconnecting to a guest that
 * outlived the daemon.  A `Domain` object holds what the supervisor updates
 * in place; every collaborator is a call on its `Host`.  Each operation is
 * specified by a function from the domain's state before to its return code,
 * the calls it makes and the state after.
 */
module ChProcess {
  import opened Decimal
  import opened ChMonitor
  import opened ChHost
  import opened ChPlacement
  import opened ChNet

  /** The domain lifecycle states (virDomainState). */
  datatype DomState = NoState | Running | Blocked | Paused | Shutdown | Shutoff | Crashed | PMSuspended

  // Reasons (virDomainShutoffReason, virDomainPausedReason).
  const ShutoffUnknown: int := 0
  const ShutoffFailed: int := 6
  const ShutoffDaemon: int := 8
  const PausedShuttingDown: int := 8

  /** errno EBUSY: the cgroup still has tasks. */
  const EBUSY: int := 16
  /** Cgroup removal is retried at most this many times... */
  const MaxRetries: nat := 5
  /** ... sleeping this many microseconds before each retry. */
  const RetryDelay: nat := 200000

  /** One vCPU of the definition. */
  datatype VcpuDef = VcpuDef(online: bool, cpumask: Option<CpuSet>, sched: Sched)

  /**
   * What the supervisor reads and never writes: the definition and the
   * driver's paths.  `numaStrict` holds when the definition has at most one
   * NUMA node and strict memory placement.
   */
  datatype DomConfig = DomConfig(
    name: string,
    stateDir: string,
    pidfile: Option<string>,
    tune: Tuning,
    numaStrict: bool,
    vcpus: seq<VcpuDef>)

  /**
   * What the supervisor writes: the hypervisor pid, the domain id (-1 when
   * inactive), the state and its reason, whether a monitor connection and a
   * cgroup are held, the vCPU thread ids and the network queue-pair counts.
   */
  datatype DomView = DomView(
    pid: int,
    id: int,
    state: DomState,
    reason: int,
    monitor: bool,
    cgroup: bool,
    vcpuTids: seq<int>,
    queues: seq<nat>)

  /** A return code, the calls made and the domain afterwards. */
  datatype Step = Step(rc: int, calls: seq<Call>, dom: DomView)

  function Then(calls: seq<Call>, s: Step): (r: Step)
    ensures r.rc == s.rc && r.dom == s.dom && |r.calls| == |calls| + |s.calls|
  {
    Step(s.rc, calls + s.calls, s.dom)
  }

  /** virDomainObjIsActive. */
  predicate Active(v: DomView) { v.id != -1 }

  /** The controllers the domain's cgroup has; none without a cgroup. */
  function Ctl(env: Env, v: DomView): Controllers {
    if v.cgroup then Controllers(env.cpuController, env.cpusetController) else Controllers(false, false)
  }

  // ---------------------------------------------------------------------------
  // The reported state

  /**
   * virCHProcessUpdateStatus: the state string the hypervisor reports, if
   * any, sets the domain state, with reason 0; any other string, or none,
   * leaves it.
   */
  function UpdateStatus(v: DomView, live: Option<string>): (r: DomView)
    ensures r.(state := v.state, reason := v.reason) == v
  {
    match live
    case None => v
    case Some(s) =>
      if s == "Created" then v.(state := NoState, reason := 0)
      else if s == "Running" then v.(state := Running, reason := 0)
      else if s == "Shutdown" then v.(state := Shutdown, reason := 0)
      else if s == "Paused" then v.(state := PMSuspended, reason := 0)
      else v
  }

  /** The string the hypervisor reports for each state it has a name for. */
  function StateName(st: DomState): Option<string> {
    match st
    case NoState => Some("Created")
    case Running => Some("Running")
    case Shutdown => Some("Shutdown")
    case PMSuspended => Some("Paused")
    case _ => None
  }

  /** A reported name sets its state. */
  lemma UpdateStatusNamed(v: DomView, st: DomState)
    requires StateName(st).Some?
    ensures UpdateStatus(v, StateName(st)) == v.(state := st, reason := 0)
  {
  }

  /** No report, or a string that names no state, changes nothing. */
  lemma UpdateStatusUnnamed(v: DomView, live: Option<string>)
    requires forall st :: StateName(st) != live
    ensures UpdateStatus(v, live) == v
  {
    if live.Some? {
      assert StateName(NoState) != live && StateName(Running) != live;
      assert StateName(Shutdown) != live && StateName(PMSuspended) != live;
    }
  }

  /** The state after a report depends only on the state before and the report. */
  lemma UpdateStatusState(v: DomView, w: DomView, live: Option<string>)
    requires v.state == w.state && v.reason == w.reason
    ensures UpdateStatus(v, live).state == UpdateStatus(w, live).state
    ensures UpdateStatus(v, live).reason == UpdateStatus(w, live).reason
  {
  }

  /** virCHProcessUpdateInfo: ask the monitor, then take the state it reports. */
  function UpdateInfoSpec(env: Env, v: DomView, site: Site): (r: Step)
    ensures r.calls == [GetInfo(site)] && r.dom.(state := v.state, reason := v.reason) == v
    ensures r.rc < 0 ==> r.dom == v
  {
    if Fails(env, GetInfo(site)) then Step(-1, [GetInfo(site)], v)
    else Step(0, [GetInfo(site)], UpdateStatus(v, env.liveState))
  }

  // ---------------------------------------------------------------------------
  // Stop

  predicate Busy(env: Env, attempt: nat) { env.reply(RemoveCgroup(attempt)) == -EBUSY }

  /** The cgroup removal from the given attempt on: retried, after a pause, while busy. */
  function CgroupRemoval(env: Env, attempt: nat): seq<Call>
    requires attempt <= MaxRetries
    decreases MaxRetries - attempt
  {
    if Busy(env, attempt) && attempt < MaxRetries then
      [RemoveCgroup(attempt), Sleep(RetryDelay)] + CgroupRemoval(env, attempt + 1)
    else [RemoveCgroup(attempt)]
  }

  /** chProcessRemoveDomainStatus: the status file, then the pid file if there is one. */
  function StatusFiles(cfg: DomConfig): seq<Call> {
    [UnlinkStatus(cfg.stateDir + "/" + cfg.name + ".xml")]
      + (if cfg.pidfile.Some? then [UnlinkPidfile(cfg.pidfile.value)] else [])
  }

  /** The calls of virCHProcessStop. */
  function StopCalls(env: Env, cfg: DomConfig, v: DomView): seq<Call> {
    (if v.monitor then [CloseMonitor] else []) + ([ReattachHostdevs] + (CgroupRemoval(env, 0) + StatusFiles(cfg)))
  }

  /** virCHProcessStop: whatever the collaborators answer, the domain ends shut off. */
  function StopSpec(env: Env, cfg: DomConfig, v: DomView, reason: int): Step {
    Step(0, StopCalls(env, cfg, v), v.(pid := -1, id := -1, monitor := false, state := Shutoff, reason := reason))
  }

  /** How many removal attempts a sequence of calls holds. */
  function Attempts(calls: seq<Call>): nat
    decreases |calls|
  {
    if calls == [] then 0 else (if calls[0].RemoveCgroup? then 1 else 0) + Attempts(calls[1..])
  }

  /**
   * From attempt k on: attempts and pauses only, starting with attempt k,
   * numbered k to MaxRetries, at most MaxRetries - k + 1 of them; every pause
   * follows an attempt that was busy; the last call is an attempt that was
   * not busy or was the last one allowed.
   */
  lemma CgroupRemovalShape(env: Env, k: nat)
    requires k <= MaxRetries
    ensures CgroupRemoval(env, k) != [] && CgroupRemoval(env, k)[0] == RemoveCgroup(k)
    ensures forall c :: c in CgroupRemoval(env, k) ==> (c.RemoveCgroup? && k <= c.attempt <= MaxRetries) || c == Sleep(RetryDelay)
    ensures Attempts(CgroupRemoval(env, k)) <= MaxRetries - k + 1
    ensures forall i :: 0 <= i < |CgroupRemoval(env, k)| && CgroupRemoval(env, k)[i].Sleep? ==>
      0 < i && CgroupRemoval(env, k)[i - 1].RemoveCgroup? && Busy(env, CgroupRemoval(env, k)[i - 1].attempt)
    ensures var last := CgroupRemoval(env, k)[|CgroupRemoval(env, k)| - 1];
      last.RemoveCgroup? && (!Busy(env, last.attempt) || last.attempt == MaxRetries)
  {
    RemovalCalls(env, k);
    RemovalAttempts(env, k);
    RemovalPauses(env, k);
    RemovalLast(env, k);
  }

  lemma {:induction false} RemovalCalls(env: Env, k: nat)
    requires k <= MaxRetries
    ensures forall c :: c in CgroupRemoval(env, k) ==> (c.RemoveCgroup? && k <= c.attempt <= MaxRetries) || c == Sleep(RetryDelay)
    decreases MaxRetries - k
  {
    if Busy(env, k) && k < MaxRetries {
      RemovalCalls(env, k + 1);
    }
  }

  lemma {:induction false} RemovalAttempts(env: Env, k: nat)
    requires k <= MaxRetries
    ensures Attempts(CgroupRemoval(env, k)) <= MaxRetries - k + 1
    decreases MaxRetries - k
  {
    if Busy(env, k) && k < MaxRetries {
      RemovalAttempts(env, k + 1);
      var r := CgroupRemoval(env, k);
      var t := CgroupRemoval(env, k + 1);
      assert r[1..] == [Sleep(RetryDelay)] + t && r[1..][1..] == t;
    }
  }

  lemma {:induction false} RemovalPauses(env: Env, k: nat)
    requires k <= MaxRetries
    ensures forall i :: 0 <= i < |CgroupRemoval(env, k)| && CgroupRemoval(env, k)[i].Sleep? ==>
      0 < i && CgroupRemoval(env, k)[i - 1].RemoveCgroup? && Busy(env, CgroupRemoval(env, k)[i - 1].attempt)
    decreases MaxRetries - k
  {
    if Busy(env, k) && k < MaxRetries {
      RemovalPauses(env, k + 1);
      RemovalFirst(env, k + 1);
      var r := CgroupRemoval(env, k);
      var t := CgroupRemoval(env, k + 1);
      assert forall i :: 2 <= i < |r| ==> r[i] == t[i - 2];
    }
  }

  lemma RemovalFirst(env: Env, k: nat)
    requires k <= MaxRetries
    ensures CgroupRemoval(env, k) != [] && CgroupRemoval(env, k)[0] == RemoveCgroup(k)
  {
  }

  lemma {:induction false} RemovalLast(env: Env, k: nat)
    requires k <= MaxRetries
    ensures var last := CgroupRemoval(env, k)[|CgroupRemoval(env, k)| - 1];
      last.RemoveCgroup? && (!Busy(env, last.attempt) || last.attempt == MaxRetries)
    decreases MaxRetries - k
  {
    RemovalFirst(env, k);
    if Busy(env, k) && k < MaxRetries {
      RemovalLast(env, k + 1);
      RemovalFirst(env, k + 1);
    }
  }

  /** Cgroup removal is attempted at most six times, each retry only after EBUSY. */
  lemma CgroupRemovalBound(env: Env)
    ensures Attempts(CgroupRemoval(env, 0)) <= MaxRetries + 1
    ensures forall c :: c in CgroupRemoval(env, 0) ==> c.RemoveCgroup? || c == Sleep(RetryDelay)
    ensures var r := CgroupRemoval(env, 0);
      forall i :: 0 <= i < |r| && r[i].Sleep? ==> 0 < i && r[i - 1].RemoveCgroup? && Busy(env, r[i - 1].attempt)
  {
    CgroupRemovalShape(env, 0);
  }

  /** The calls Stop makes: the monitor, host devices, cgroup removal and its pauses, the state files. */
  predicate StopCall(c: Call) {
    c == CloseMonitor || c == ReattachHostdevs || c.RemoveCgroup? || c.Sleep? || c.UnlinkStatus? || c.UnlinkPidfile?
  }

  lemma StopKinds(env: Env, cfg: DomConfig, v: DomView, reason: int)
    ensures forall c :: c in StopSpec(env, cfg, v, reason).calls ==> StopCall(c)
  {
    CgroupRemovalBound(env);
  }

  /** Stop returns 0 and leaves the domain shut off, inactive, without pid or monitor. */
  lemma StopEnds(env: Env, cfg: DomConfig, v: DomView, reason: int)
    ensures var s := StopSpec(env, cfg, v, reason);
      s.rc == 0 && s.dom.state == Shutoff && s.dom.reason == reason
      && s.dom.pid == -1 && !Active(s.dom) && !s.dom.monitor
      && s.dom.cgroup == v.cgroup && s.dom.vcpuTids == v.vcpuTids && s.dom.queues == v.queues
    ensures ReattachHostdevs in StopSpec(env, cfg, v, reason).calls
    ensures CloseMonitor in StopSpec(env, cfg, v, reason).calls <==> v.monitor
  {
    CgroupRemovalBound(env);
  }

  /** Stopping a stopped domain again with the same reason leaves it as it was. */
  lemma StopTwice(env: Env, cfg: DomConfig, v: DomView, reason: int)
    ensures var once := StopSpec(env, cfg, v, reason).dom;
      StopSpec(env, cfg, once, reason).dom == once
    ensures CloseMonitor !in StopSpec(env, cfg, StopSpec(env, cfg, v, reason).dom, reason).calls
  {
    var once := StopSpec(env, cfg, v, reason).dom;
    var tail := CgroupRemoval(env, 0) + StatusFiles(cfg);
    assert StopSpec(env, cfg, once, reason).calls == [] + ([ReattachHostdevs] + tail);
    CgroupRemovalBound(env);
    assert CloseMonitor !in CgroupRemoval(env, 0);
    assert CloseMonitor !in StatusFiles(cfg);
  }

  // ---------------------------------------------------------------------------
  // vCPU threads

  /**
   * virCHProcessSetupVcpuPids: each vCPU record the monitor reports, in
   * order, gives its thread id to the vCPU it names.
   */
  function AssignTids(tids: seq<int>, threads: seq<ThreadInfo>): (r: seq<int>)
    requires VcpuIdsBelow(threads, |tids|)
    ensures |r| == |tids|
    decreases |threads|
  {
    if threads == [] then tids
    else
      var t := threads[|threads| - 1];
      var before := AssignTids(tids, threads[..|threads| - 1]);
      if t.kind.Vcpu? then before[t.kind.cpuid := t.tid] else before
  }

  /** Record i reports vCPU c. */
  predicate NamesVcpu(threads: seq<ThreadInfo>, i: int, c: int)
    requires 0 <= i < |threads|
  {
    threads[i].kind.Vcpu? && threads[i].kind.cpuid == c
  }

  /** Record i reports a vCPU that no later record reports. */
  predicate LastNaming(threads: seq<ThreadInfo>, i: int)
    requires 0 <= i < |threads|
  {
    threads[i].kind.Vcpu? && forall j :: i < j < |threads| ==> !NamesVcpu(threads, j, threads[i].kind.cpuid)
  }

  /**
   * A vCPU no record names keeps its thread id; one that is named gets the
   * thread id of the last record naming it.
   */
  lemma {:induction false} AssignTidsLast(tids: seq<int>, threads: seq<ThreadInfo>)
    requires VcpuIdsBelow(threads, |tids|)
    ensures forall c :: 0 <= c < |tids| && (forall i :: 0 <= i < |threads| ==> !NamesVcpu(threads, i, c)) ==>
      AssignTids(tids, threads)[c] == tids[c]
    ensures forall i :: 0 <= i < |threads| && LastNaming(threads, i) ==>
      AssignTids(tids, threads)[threads[i].kind.cpuid] == threads[i].tid
    decreases |threads|
  {
    if threads != [] {
      var n := |threads| - 1;
      var t := threads[n];
      var init := threads[..n];
      assert forall i :: 0 <= i < n ==> init[i] == threads[i];
      AssignTidsLast(tids, init);
      var before := AssignTids(tids, init);
      var r := AssignTids(tids, threads);
      assert r == if t.kind.Vcpu? then before[t.kind.cpuid := t.tid] else before;
      forall c | 0 <= c < |tids| && (forall i :: 0 <= i < |threads| ==> !NamesVcpu(threads, i, c))
        ensures r[c] == tids[c]
      {
        assert !NamesVcpu(threads, n, c);
        forall i | 0 <= i < n
          ensures !NamesVcpu(init, i, c)
        {
          assert !NamesVcpu(threads, i, c);
        }
      }
      forall i | 0 <= i < |threads| && LastNaming(threads, i)
        ensures r[threads[i].kind.cpuid] == threads[i].tid
      {
        if i < n {
          assert !NamesVcpu(threads, n, threads[i].kind.cpuid);
          forall j | i < j < n
            ensures !NamesVcpu(init, j, init[i].kind.cpuid)
          {
            assert !NamesVcpu(threads, j, threads[i].kind.cpuid);
          }
          assert LastNaming(init, i);
        }
      }
    }
  }

  /** virCHDomainHasVcpuPids: some vCPU thread id is known. */
  predicate HasVcpuPids(tids: seq<int>) { exists i :: 0 <= i < |tids| && tids[i] > 0 }

  /** Without vCPU thread ids: an online vCPU pinned differently from the domain. */
  predicate AffinityConflict(cfg: DomConfig) {
    exists i :: 0 <= i < |cfg.vcpus| && cfg.vcpus[i].online
      && cfg.vcpus[i].cpumask.Some? && cfg.vcpus[i].cpumask != cfg.tune.cpumask
  }

  /** virCHProcessSetupVcpu: vCPU i placed by its own mask and scheduler, the domain's bandwidth. */
  function VcpuJob(cfg: DomConfig, tids: seq<int>, i: nat): PidJob
    requires i < |cfg.vcpus| && |tids| == |cfg.vcpus|
  {
    PidJob(tids[i], GroupVcpu, i, cfg.vcpus[i].cpumask, cfg.tune.period, cfg.tune.quota, Some(cfg.vcpus[i].sched))
  }

  /** The placements of the online vCPUs from i on, in index order. */
  function VcpuJobs(cfg: DomConfig, tids: seq<int>, i: nat): (jobs: seq<PidJob>)
    requires i <= |cfg.vcpus| && |tids| == |cfg.vcpus|
    ensures forall k :: 0 <= k < |jobs| ==>
      jobs[k].group == GroupVcpu && i <= jobs[k].id < |cfg.vcpus| &&
      cfg.vcpus[jobs[k].id].online && jobs[k] == VcpuJob(cfg, tids, jobs[k].id)
    ensures forall k, l :: 0 <= k < l < |jobs| ==> jobs[k].id < jobs[l].id
    ensures forall j :: i <= j < |cfg.vcpus| && cfg.vcpus[j].online ==> VcpuJob(cfg, tids, j) in jobs
    decreases |cfg.vcpus| - i
  {
    if i == |cfg.vcpus| then []
    else if cfg.vcpus[i].online then [VcpuJob(cfg, tids, i)] + VcpuJobs(cfg, tids, i + 1)
    else VcpuJobs(cfg, tids, i + 1)
  }

  /** The monitor's vCPU records name vCPUs of the definition. */
  predicate ThreadsFit(env: Env, cfg: DomConfig) { VcpuIdsBelow(env.threads, |cfg.vcpus|) }

  /** The placements of the online vCPUs, once their thread ids are recorded. */
  function VcpuPlan(env: Env, cfg: DomConfig, v: DomView): seq<PidJob>
    requires ThreadsFit(env, cfg) && |v.vcpuTids| == |cfg.vcpus|
  {
    VcpuJobs(cfg, AssignTids(v.vcpuTids, env.threads), 0)
  }

  /** virCHProcessSetupVcpus. */
  function SetupVcpusSpec(env: Env, cfg: DomConfig, v: DomView): (r: Step)
    requires ThreadsFit(env, cfg) && |v.vcpuTids| == |cfg.vcpus|
    ensures r.dom == v.(vcpuTids := r.dom.vcpuTids) && |r.dom.vcpuTids| == |v.vcpuTids|
  {
    if (cfg.tune.period != 0 || cfg.tune.quota != 0) && !Ctl(env, v).cpu then Step(-1, [], v)
    else
      var v1 := v.(vcpuTids := AssignTids(v.vcpuTids, env.threads));
      if !HasVcpuPids(v1.vcpuTids) then Step(if AffinityConflict(cfg) then -1 else 0, [], v1)
      else
        var o := FanOut(env, cfg.tune, Ctl(env, v1), VcpuPlan(env, cfg, v));
        Step(o.rc, o.calls, v1)
  }

  /** virCHProcessSetupThreads: refresh, then emulator, I/O and vCPU threads, then save. */
  function SetupThreadsSpec(env: Env, cfg: DomConfig, v: DomView): (r: Step)
    requires ThreadsFit(env, cfg) && |v.vcpuTids| == |cfg.vcpus|
    ensures r.dom == v.(vcpuTids := r.dom.vcpuTids) && |r.dom.vcpuTids| == |v.vcpuTids|
  {
    var refresh := env.reply(RefreshThreads(AtThreads));
    if refresh <= 0 then Step(refresh, [RefreshThreads(AtThreads)], v)
    else Then([RefreshThreads(AtThreads)], PlaceThreads(env, cfg, v))
  }

  function PlaceThreads(env: Env, cfg: DomConfig, v: DomView): (r: Step)
    requires ThreadsFit(env, cfg) && |v.vcpuTids| == |cfg.vcpus|
    ensures r.dom == v.(vcpuTids := r.dom.vcpuTids) && |r.dom.vcpuTids| == |v.vcpuTids|
  {
    var e := FanOut(env, cfg.tune, Ctl(env, v), EmulatorJobs(cfg.tune, EmulatorTids(env.threads)));
    if e.rc != 0 then Step(e.rc, e.calls, v)
    else
      var io := FanOut(env, cfg.tune, Ctl(env, v), IOJobs(cfg.tune, env.ioThreads));
      if io.rc != 0 then Step(io.rc, e.calls + io.calls, v)
      else Then(e.calls + io.calls, PlaceVcpus(env, cfg, v))
  }

  function PlaceVcpus(env: Env, cfg: DomConfig, v: DomView): (r: Step)
    requires ThreadsFit(env, cfg) && |v.vcpuTids| == |cfg.vcpus|
    ensures r.dom == v.(vcpuTids := r.dom.vcpuTids) && |r.dom.vcpuTids| == |v.vcpuTids|
  {
    var c := SetupVcpusSpec(env, cfg, v);
    if c.rc != 0 then c
    else Step(env.reply(SaveStatus(AtThreads)), c.calls + [SaveStatus(AtThreads)], c.dom)
  }

  /** Bandwidth tuning without the CPU controller refuses every vCPU before any call. */
  lemma VcpusNeedCpu(env: Env, cfg: DomConfig, v: DomView)
    requires ThreadsFit(env, cfg) && |v.vcpuTids| == |cfg.vcpus|
    requires (cfg.tune.period != 0 || cfg.tune.quota != 0) && !Ctl(env, v).cpu
    ensures SetupVcpusSpec(env, cfg, v) == Step(-1, [], v)
  {
  }

  /**
   * Without vCPU thread ids nothing is placed, and the set-up fails exactly
   * when an online vCPU is pinned differently from the domain.
   */
  lemma VcpusWithoutPids(env: Env, cfg: DomConfig, v: DomView)
    requires ThreadsFit(env, cfg) && |v.vcpuTids| == |cfg.vcpus|
    requires !((cfg.tune.period != 0 || cfg.tune.quota != 0) && !Ctl(env, v).cpu)
    requires !HasVcpuPids(AssignTids(v.vcpuTids, env.threads))
    ensures SetupVcpusSpec(env, cfg, v).calls == []
    ensures SetupVcpusSpec(env, cfg, v).rc == -1 <==> AffinityConflict(cfg)
    ensures SetupVcpusSpec(env, cfg, v).rc == 0 <==> !AffinityConflict(cfg)
  {
  }

  /**
   * With vCPU thread ids every online vCPU is placed, in index order,
   * stopping at the first that fails.
   */
  lemma VcpusWithPids(env: Env, cfg: DomConfig, v: DomView)
    requires ThreadsFit(env, cfg) && |v.vcpuTids| == |cfg.vcpus|
    requires !((cfg.tune.period != 0 || cfg.tune.quota != 0) && !Ctl(env, v).cpu)
    requires HasVcpuPids(AssignTids(v.vcpuTids, env.threads))
    ensures SetupVcpusSpec(env, cfg, v).rc == 0 <==>
      forall k :: 0 <= k < |VcpuPlan(env, cfg, v)| ==> SetupPidTrace(env, cfg.tune, Ctl(env, v), VcpuPlan(env, cfg, v)[k]).rc == 0
    ensures SetupVcpusSpec(env, cfg, v).rc == 0 ==>
      SetupVcpusSpec(env, cfg, v).calls == AllCalls(env, cfg.tune, Ctl(env, v), VcpuPlan(env, cfg, v))
  {
    var v1 := v.(vcpuTids := AssignTids(v.vcpuTids, env.threads));
    assert Ctl(env, v1) == Ctl(env, v);
    FanOutSuccess(env, cfg.tune, Ctl(env, v), VcpuPlan(env, cfg, v));
  }

  /** Thread set-up returns 0 without placing anything when the monitor reports no threads. */
  lemma ThreadsNoneReported(env: Env, cfg: DomConfig, v: DomView)
    requires ThreadsFit(env, cfg) && |v.vcpuTids| == |cfg.vcpus|
    requires env.reply(RefreshThreads(AtThreads)) == 0
    ensures SetupThreadsSpec(env, cfg, v) == Step(0, [RefreshThreads(AtThreads)], v)
  {
  }

  // ---------------------------------------------------------------------------
  // Start

  /** A domain shut off for the given reason: no process, no id, no monitor. */
  predicate StoppedAs(v: DomView, reason: int) {
    v.state == Shutoff && v.reason == reason && v.pid == -1 && !Active(v) && !v.monitor
  }

  /** The affinity call on the hypervisor process; its result is the step's. */
  function PinProcess(env: Env, pid: int, cpus: CpuSet): (o: Outcome)
    ensures o.calls == [SetAffinity(pid, cpus)]
    ensures o.rc == 0 <==> !Fails(env, SetAffinity(pid, cpus))
  {
    Outcome(if Fails(env, SetAffinity(pid, cpus)) then -1 else 0, [SetAffinity(pid, cpus)])
  }

  /**
   * virCHProcessInitCpuAffinity: refused before the process exists; a
   * strict single-node memory placement pins to its nodes' CPUs (one
   * collaborator call); else the emulator pin; else every online host CPU,
   * with nothing to do on a host without CPU bitmaps.
   */
  function InitAffinitySpec(env: Env, cfg: DomConfig, pid: int): Outcome {
    if pid == 0 then Outcome(-1, [])
    else if cfg.numaStrict then Outcome(if Fails(env, NumaAffinity(pid)) then -1 else 0, [NumaAffinity(pid)])
    else if cfg.tune.emulatorPin.Some? then PinProcess(env, pid, cfg.tune.emulatorPin.value)
    else
      match env.hostCpus
      case NoBitmap => Outcome(0, [])
      case Online(cpus) => PinProcess(env, pid, cpus)
      case BitmapError => Outcome(-1, [])
  }

  /**
   * The process gets the emulator pin when there is one, else every online
   * host CPU; it fails exactly when it has no pid, the CPUs cannot be read
   * or the affinity call fails.
   */
  lemma InitAffinityChoice(env: Env, cfg: DomConfig, pid: int)
    requires !cfg.numaStrict
    ensures var o := InitAffinitySpec(env, cfg, pid);
      (o.rc == 0 || o.rc == -1)
      && (pid == 0 ==> o == Outcome(-1, []))
      && (pid != 0 && cfg.tune.emulatorPin.Some? ==> o.calls == [SetAffinity(pid, cfg.tune.emulatorPin.value)])
      && (pid != 0 && cfg.tune.emulatorPin.None? && env.hostCpus.Online? ==>
            o.calls == [SetAffinity(pid, env.hostCpus.cpus)])
      && (pid != 0 && cfg.tune.emulatorPin.None? && !env.hostCpus.Online? ==>
            o.calls == [] && (o.rc == 0 <==> env.hostCpus.NoBitmap?))
      && (o.calls != [] ==> (o.rc == 0 <==> !Fails(env, o.calls[0])))
  {
  }

  /** The cleanup label of virCHProcessStart: stop the guest as failed, return -1. */
  function AbortSpec(env: Env, cfg: DomConfig, v: DomView): (r: Step)
    ensures r.rc == -1 && StoppedAs(r.dom, ShutoffFailed)
  {
    var s := StopSpec(env, cfg, v, ShutoffFailed);
    Step(-1, s.calls, s.dom)
  }

  /** virCHProcessStart: host devices first. */
  function StartSpec(env: Env, cfg: DomConfig, v: DomView, reason: int): Step
    requires ThreadsFit(env, cfg) && |v.vcpuTids| == |cfg.vcpus|
  {
    if Fails(env, PrepareHostdevs) then Then([PrepareHostdevs], AbortSpec(env, cfg, v))
    else Then([PrepareHostdevs], StartMonitorSpec(env, cfg, v, reason))
  }

  /** Without a monitor: spawn the hypervisor, which gives the pid, and create the guest. */
  function StartMonitorSpec(env: Env, cfg: DomConfig, v: DomView, reason: int): Step
    requires ThreadsFit(env, cfg) && |v.vcpuTids| == |cfg.vcpus|
  {
    if v.monitor then StartNetSpec(env, cfg, v, reason)
    else if Fails(env, MonitorNew) then Then([MonitorNew], AbortSpec(env, cfg, v))
    else
      var v1 := v.(monitor := true, pid := env.spawnedPid);
      if Fails(env, CreateVM) then Then([MonitorNew, CreateVM], AbortSpec(env, cfg, v1))
      else Then([MonitorNew, CreateVM], StartNetSpec(env, cfg, v1, reason))
  }

  /** The id becomes the pid, the machine name is taken (unchecked), the network devices are handed over. */
  function StartNetSpec(env: Env, cfg: DomConfig, v: DomView, reason: int): Step
    requires ThreadsFit(env, cfg) && |v.vcpuTids| == |cfg.vcpus|
  {
    var n := AddNetTrace(env, v.queues);
    var v1 := v.(id := v.pid, queues := n.queues);
    if n.rc < 0 then Then([MachineName] + n.calls, AbortSpec(env, cfg, v1))
    else Then([MachineName] + n.calls, StartCgroupSpec(env, cfg, v1, reason))
  }

  /** The domain cgroup. */
  function StartCgroupSpec(env: Env, cfg: DomConfig, v: DomView, reason: int): Step
    requires ThreadsFit(env, cfg) && |v.vcpuTids| == |cfg.vcpus|
  {
    if Fails(env, SetupCgroup) then Then([SetupCgroup], AbortSpec(env, cfg, v))
    else Then([SetupCgroup], StartBootSpec(env, cfg, v.(cgroup := true), reason))
  }

  /**
   * Process affinity, the host side of the network devices, then boot.  A
   * failure to bring up the network devices returns -1 without stopping the
   * guest.
   */
  function StartBootSpec(env: Env, cfg: DomConfig, v: DomView, reason: int): Step
    requires ThreadsFit(env, cfg) && |v.vcpuTids| == |cfg.vcpus|
  {
    var a := InitAffinitySpec(env, cfg, v.pid);
    if a.rc < 0 then Then(a.calls, AbortSpec(env, cfg, v))
    else if Fails(env, StartNetdevs) then Step(-1, a.calls + [StartNetdevs], v)
    else if Fails(env, BootVM) then Then(a.calls + [StartNetdevs, BootVM], AbortSpec(env, cfg, v))
    else Then(a.calls + [StartNetdevs, BootVM], StartRunSpec(env, cfg, v, reason))
  }

  /** Refresh and status (both results ignored), then the threads. */
  function StartRunSpec(env: Env, cfg: DomConfig, v: DomView, reason: int): Step
    requires ThreadsFit(env, cfg) && |v.vcpuTids| == |cfg.vcpus|
  {
    var u := UpdateInfoSpec(env, v, AtStart);
    var t := SetupThreadsSpec(env, cfg, u.dom);
    var before := [RefreshThreads(AtStart)] + u.calls + t.calls;
    if t.rc < 0 then Then(before, AbortSpec(env, cfg, t.dom))
    else Then(before, StartFinishSpec(env, cfg, t.dom, reason))
  }

  /** The global CPU cgroup, the running state with its reason, the status file. */
  function StartFinishSpec(env: Env, cfg: DomConfig, v: DomView, reason: int): Step {
    if Fails(env, SetupGlobalCpuCgroup) then Then([SetupGlobalCpuCgroup], AbortSpec(env, cfg, v))
    else
      var v1 := v.(state := Running, reason := reason);
      if Fails(env, SaveStatus(AtStart)) then Then([SetupGlobalCpuCgroup, SaveStatus(AtStart)], AbortSpec(env, cfg, v1))
      else Step(0, [SetupGlobalCpuCgroup, SaveStatus(AtStart)], v1)
  }

  /** The guest is up: monitor and cgroup held, its id its pid, which is not 0. */
  predicate Launched(v: DomView) { v.monitor && v.cgroup && v.id == v.pid && v.pid != 0 }

  /**
   * How a start, and each of its later stages, ends: 0 with the guest
   * launched and running for the given reason; or -1 with the domain stopped
   * as failed; or -1 right after the host side of the network devices failed
   * to come up, the guest launched and not stopped.
   */
  predicate StartEnd(env: Env, s: Step, reason: int) {
    (s.rc == 0 && Launched(s.dom) && s.dom.state == Running && s.dom.reason == reason)
    || (s.rc == -1 && StoppedAs(s.dom, ShutoffFailed))
    || (s.rc == -1 && Launched(s.dom) && Fails(env, StartNetdevs)
        && s.calls != [] && s.calls[|s.calls| - 1] == StartNetdevs)
  }

  lemma StartEndThen(env: Env, calls: seq<Call>, s: Step, reason: int)
    requires StartEnd(env, s, reason)
    ensures StartEnd(env, Then(calls, s), reason)
  {
    if s.calls != [] {
      assert Then(calls, s).calls[|Then(calls, s).calls| - 1] == s.calls[|s.calls| - 1];
    }
  }

  lemma StartFinishEnds(env: Env, cfg: DomConfig, v: DomView, reason: int)
    requires Launched(v)
    ensures StartEnd(env, StartFinishSpec(env, cfg, v, reason), reason)
    ensures StartFinishSpec(env, cfg, v, reason).dom.queues == v.queues
  {
  }

  lemma StartRunEnds(env: Env, cfg: DomConfig, v: DomView, reason: int)
    requires ThreadsFit(env, cfg) && |v.vcpuTids| == |cfg.vcpus|
    requires Launched(v)
    ensures StartEnd(env, StartRunSpec(env, cfg, v, reason), reason)
    ensures StartRunSpec(env, cfg, v, reason).dom.queues == v.queues
  {
    var u := UpdateInfoSpec(env, v, AtStart);
    var t := SetupThreadsSpec(env, cfg, u.dom);
    var before := [RefreshThreads(AtStart)] + u.calls + t.calls;
    if t.rc >= 0 {
      StartFinishEnds(env, cfg, t.dom, reason);
      StartEndThen(env, before, StartFinishSpec(env, cfg, t.dom, reason), reason);
    }
  }

  lemma StartBootEnds(env: Env, cfg: DomConfig, v: DomView, reason: int)
    requires ThreadsFit(env, cfg) && |v.vcpuTids| == |cfg.vcpus|
    requires v.monitor && v.cgroup && v.id == v.pid
    ensures StartEnd(env, StartBootSpec(env, cfg, v, reason), reason)
    ensures StartBootSpec(env, cfg, v, reason).dom.queues == v.queues
  {
    var a := InitAffinitySpec(env, cfg, v.pid);
    if a.rc >= 0 && !Fails(env, StartNetdevs) && !Fails(env, BootVM) {
      StartRunEnds(env, cfg, v, reason);
      StartEndThen(env, a.calls + [StartNetdevs, BootVM], StartRunSpec(env, cfg, v, reason), reason);
    }
  }

  lemma StartNetEnds(env: Env, cfg: DomConfig, v: DomView, reason: int)
    requires ThreadsFit(env, cfg) && |v.vcpuTids| == |cfg.vcpus|
    requires v.monitor
    ensures StartEnd(env, StartNetSpec(env, cfg, v, reason), reason)
    ensures StartNetSpec(env, cfg, v, reason).dom.queues == AddNetTrace(env, v.queues).queues
    ensures StartNetSpec(env, cfg, v, reason).rc == 0 ==> StartNetSpec(env, cfg, v, reason).dom.pid == v.pid
  {
    var n := AddNetTrace(env, v.queues);
    var v1 := v.(id := v.pid, queues := n.queues);
    if n.rc >= 0 && !Fails(env, SetupCgroup) {
      var v2 := v1.(cgroup := true);
      StartBootEnds(env, cfg, v2, reason);
      StartEndThen(env, [SetupCgroup], StartBootSpec(env, cfg, v2, reason), reason);
      StartEndThen(env, [MachineName] + n.calls, StartCgroupSpec(env, cfg, v1, reason), reason);
    }
  }

  /**
   * virCHProcessStart returns 0 with the guest launched and running for the
   * given reason, or -1 with it stopped as failed, except that a failure to
   * bring up the network devices returns -1 and leaves the guest launched.
   */
  lemma StartEnds(env: Env, cfg: DomConfig, v: DomView, reason: int)
    requires ThreadsFit(env, cfg) && |v.vcpuTids| == |cfg.vcpus|
    ensures StartEnd(env, StartSpec(env, cfg, v, reason), reason)
  {
    if !Fails(env, PrepareHostdevs) {
      if v.monitor {
        StartNetEnds(env, cfg, v, reason);
      } else if !Fails(env, MonitorNew) {
        var v1 := v.(monitor := true, pid := env.spawnedPid);
        if !Fails(env, CreateVM) {
          StartNetEnds(env, cfg, v1, reason);
          StartEndThen(env, [MonitorNew, CreateVM], StartNetSpec(env, cfg, v1, reason), reason);
        }
      }
      StartEndThen(env, [PrepareHostdevs], StartMonitorSpec(env, cfg, v, reason), reason);
    }
  }

  /**
   * A started guest runs under the pid of the hypervisor spawned for it (or
   * the one it already had with a monitor), and each network device's
   * queue-pair count is the definition's, a count of 0 written back as 1.
   */
  lemma StartSuccess(env: Env, cfg: DomConfig, v: DomView, reason: int)
    requires ThreadsFit(env, cfg) && |v.vcpuTids| == |cfg.vcpus|
    requires StartSpec(env, cfg, v, reason).rc == 0
    ensures var d := StartSpec(env, cfg, v, reason).dom;
      d.pid == (if v.monitor then v.pid else env.spawnedPid)
      && |d.queues| == |v.queues| && forall j :: 0 <= j < |d.queues| ==> d.queues[j] == QueuePairs(v.queues[j])
  {
    var w := if v.monitor then v else v.(monitor := true, pid := env.spawnedPid);
    var net := StartNetSpec(env, cfg, w, reason);
    assert StartSpec(env, cfg, v, reason).dom == net.dom && net.rc == 0;
    StartNetEnds(env, cfg, w, reason);
    AddNetResult(env, w.queues);
  }

  /** No network request among the calls. */
  predicate NoSend(calls: seq<Call>) { forall c :: c in calls ==> !c.NetSend? }

  /** Every network request comes before every boot. */
  predicate SendsBeforeBoot(calls: seq<Call>) {
    forall i, j :: 0 <= i < |calls| && 0 <= j < |calls| && calls[i].NetSend? && calls[j] == BootVM ==> i < j
  }

  lemma SendsThenRest(a: seq<Call>, b: seq<Call>)
    requires BootVM !in a && NoSend(b)
    ensures SendsBeforeBoot(a + b)
  {
    var c := a + b;
    assert forall k :: 0 <= k < |a| ==> c[k] == a[k];
    assert forall k :: |a| <= k < |c| ==> c[k] == b[k - |a|];
  }

  lemma QuietThenOrdered(a: seq<Call>, b: seq<Call>)
    requires BootVM !in a && NoSend(a) && SendsBeforeBoot(b)
    ensures SendsBeforeBoot(a + b)
  {
    var c := a + b;
    assert forall k :: 0 <= k < |a| ==> c[k] == a[k];
    assert forall k :: |a| <= k < |c| ==> c[k] == b[k - |a|];
  }

  lemma StopQuiet(env: Env, cfg: DomConfig, v: DomView, reason: int)
    ensures NoSend(StopSpec(env, cfg, v, reason).calls) && BootVM !in StopSpec(env, cfg, v, reason).calls
  {
    StopKinds(env, cfg, v, reason);
  }

  lemma ThreadsQuiet(env: Env, cfg: DomConfig, v: DomView)
    requires ThreadsFit(env, cfg) && |v.vcpuTids| == |cfg.vcpus|
    ensures NoSend(SetupThreadsSpec(env, cfg, v).calls)
  {
    if env.reply(RefreshThreads(AtThreads)) > 0 {
      PlaceThreadsQuiet(env, cfg, v);
    }
  }

  lemma PlaceThreadsQuiet(env: Env, cfg: DomConfig, v: DomView)
    requires ThreadsFit(env, cfg) && |v.vcpuTids| == |cfg.vcpus|
    ensures NoSend(PlaceThreads(env, cfg, v).calls)
  {
    var e := FanOut(env, cfg.tune, Ctl(env, v), EmulatorJobs(cfg.tune, EmulatorTids(env.threads)));
    FanOutQuiet(env, cfg.tune, Ctl(env, v), EmulatorJobs(cfg.tune, EmulatorTids(env.threads)));
    if e.rc == 0 {
      var io := FanOut(env, cfg.tune, Ctl(env, v), IOJobs(cfg.tune, env.ioThreads));
      FanOutQuiet(env, cfg.tune, Ctl(env, v), IOJobs(cfg.tune, env.ioThreads));
      NoSendJoin(e.calls, io.calls);
      if io.rc == 0 {
        PlaceVcpusQuiet(env, cfg, v);
        NoSendJoin(e.calls + io.calls, PlaceVcpus(env, cfg, v).calls);
      }
    }
  }

  lemma PlaceVcpusQuiet(env: Env, cfg: DomConfig, v: DomView)
    requires ThreadsFit(env, cfg) && |v.vcpuTids| == |cfg.vcpus|
    ensures NoSend(PlaceVcpus(env, cfg, v).calls)
  {
    var v1 := v.(vcpuTids := AssignTids(v.vcpuTids, env.threads));
    FanOutKinds(env, cfg.tune, Ctl(env, v1), VcpuPlan(env, cfg, v));
  }

  /** Placements send nothing on the network. */
  lemma FanOutQuiet(env: Env, tune: Tuning, ctl: Controllers, jobs: seq<PidJob>)
    ensures NoSend(FanOut(env, tune, ctl, jobs).calls)
  {
    FanOutKinds(env, tune, ctl, jobs);
  }

  lemma NoSendJoin(a: seq<Call>, b: seq<Call>)
    requires NoSend(a) && NoSend(b)
    ensures NoSend(a + b)
  {
  }

  lemma StartFinishQuiet(env: Env, cfg: DomConfig, v: DomView, reason: int)
    ensures NoSend(StartFinishSpec(env, cfg, v, reason).calls)
  {
    StopQuiet(env, cfg, v, ShutoffFailed);
    StopQuiet(env, cfg, v.(state := Running, reason := reason), ShutoffFailed);
  }

  lemma StartRunQuiet(env: Env, cfg: DomConfig, v: DomView, reason: int)
    requires ThreadsFit(env, cfg) && |v.vcpuTids| == |cfg.vcpus|
    ensures NoSend(StartRunSpec(env, cfg, v, reason).calls)
  {
    var u := UpdateInfoSpec(env, v, AtStart);
    var t := SetupThreadsSpec(env, cfg, u.dom);
    ThreadsQuiet(env, cfg, u.dom);
    StopQuiet(env, cfg, t.dom, ShutoffFailed);
    StartFinishQuiet(env, cfg, t.dom, reason);
  }

  lemma StartBootQuiet(env: Env, cfg: DomConfig, v: DomView, reason: int)
    requires ThreadsFit(env, cfg) && |v.vcpuTids| == |cfg.vcpus|
    ensures NoSend(StartBootSpec(env, cfg, v, reason).calls)
  {
    var a := InitAffinitySpec(env, cfg, v.pid);
    assert NoSend(a.calls + [StartNetdevs, BootVM]);
    StopQuiet(env, cfg, v, ShutoffFailed);
    StartRunQuiet(env, cfg, v, reason);
  }

  lemma StartCgroupQuiet(env: Env, cfg: DomConfig, v: DomView, reason: int)
    requires ThreadsFit(env, cfg) && |v.vcpuTids| == |cfg.vcpus|
    ensures NoSend(StartCgroupSpec(env, cfg, v, reason).calls)
  {
    StopQuiet(env, cfg, v, ShutoffFailed);
    StartBootQuiet(env, cfg, v.(cgroup := true), reason);
  }

  /** The network devices are all handed over before the guest boots. */
  lemma StartNetBeforeBoot(env: Env, cfg: DomConfig, v: DomView, reason: int)
    requires ThreadsFit(env, cfg) && |v.vcpuTids| == |cfg.vcpus|
    ensures SendsBeforeBoot(StartSpec(env, cfg, v, reason).calls)
  {
    StopQuiet(env, cfg, v, ShutoffFailed);
    if !Fails(env, PrepareHostdevs) {
      MonitorStageBeforeBoot(env, cfg, v, reason);
      QuietThenOrdered([PrepareHostdevs], StartMonitorSpec(env, cfg, v, reason).calls);
    } else {
      SendsThenRest([PrepareHostdevs], AbortSpec(env, cfg, v).calls);
    }
  }

  /** The same from the monitor stage on. */
  lemma MonitorStageBeforeBoot(env: Env, cfg: DomConfig, v: DomView, reason: int)
    requires ThreadsFit(env, cfg) && |v.vcpuTids| == |cfg.vcpus|
    ensures SendsBeforeBoot(StartMonitorSpec(env, cfg, v, reason).calls)
  {
    if v.monitor {
      NetStageBeforeBoot(env, cfg, v, reason);
    } else if Fails(env, MonitorNew) {
      StopQuiet(env, cfg, v, ShutoffFailed);
      SendsThenRest([MonitorNew], AbortSpec(env, cfg, v).calls);
    } else {
      var w := v.(monitor := true, pid := env.spawnedPid);
      StopQuiet(env, cfg, w, ShutoffFailed);
      if Fails(env, CreateVM) {
        SendsThenRest([MonitorNew, CreateVM], AbortSpec(env, cfg, w).calls);
      } else {
        NetStageBeforeBoot(env, cfg, w, reason);
        QuietThenOrdered([MonitorNew, CreateVM], StartNetSpec(env, cfg, w, reason).calls);
      }
    }
  }

  /** The same from the network stage on: the sends come before any later stage. */
  lemma NetStageBeforeBoot(env: Env, cfg: DomConfig, w: DomView, reason: int)
    requires ThreadsFit(env, cfg) && |w.vcpuTids| == |cfg.vcpus|
    ensures SendsBeforeBoot(StartNetSpec(env, cfg, w, reason).calls)
  {
    var n := AddNetTrace(env, w.queues);
    var w1 := w.(id := w.pid, queues := n.queues);
    AddNetKinds(env, w.queues);
    assert BootVM !in [MachineName] + n.calls;
    if n.rc < 0 {
      StopQuiet(env, cfg, w1, ShutoffFailed);
      SendsThenRest([MachineName] + n.calls, AbortSpec(env, cfg, w1).calls);
    } else {
      StartCgroupQuiet(env, cfg, w1, reason);
      SendsThenRest([MachineName] + n.calls, StartCgroupSpec(env, cfg, w1, reason).calls);
    }
  }

  // ---------------------------------------------------------------------------
  // Reconnect

  /** The reconnect finishes a shutdown that happened while the daemon was away. */
  predicate FinishesShutdown(v: DomView) {
    v.state == Shutdown || (v.state == Paused && v.reason == PausedShuttingDown)
  }

  /** The cleanup label of virCHProcessReconnect: drop an inactive domain, end the job if one was begun. */
  function ReconnectCleanup(v: DomView, jobStarted: bool): (calls: seq<Call>)
    ensures EndJob in calls <==> jobStarted
    ensures (RemoveInactive in calls || RemoveInactiveJob in calls) <==> !Active(v)
  {
    if jobStarted then (if !Active(v) then [RemoveInactive] else []) + [EndJob]
    else if !Active(v) then [RemoveInactiveJob] else []
  }

  /** The error label: a domain still active is stopped, reason unknown; then the cleanup. */
  function ReconnectErrorSpec(env: Env, cfg: DomConfig, v: DomView, jobStarted: bool): Step {
    if Active(v) then
      var s := StopSpec(env, cfg, v, ShutoffUnknown);
      Step(0, s.calls + ReconnectCleanup(s.dom, jobStarted), s.dom)
    else Step(0, ReconnectCleanup(v, jobStarted), v)
  }

  /** virCHProcessReconnect, run to completion for one domain; it returns nothing. */
  function ReconnectSpec(env: Env, cfg: DomConfig, v: DomView): Step {
    if Fails(env, BeginJob) then Then([BeginJob], ReconnectErrorSpec(env, cfg, v, false))
    else Then([BeginJob], ReconnectMonitorSpec(env, cfg, v))
  }

  /** Host devices, the monitor (the id becomes the pid), the machine name. */
  function ReconnectMonitorSpec(env: Env, cfg: DomConfig, v: DomView): Step {
    if Fails(env, UpdateHostdevs) then Then([UpdateHostdevs], ReconnectErrorSpec(env, cfg, v, true))
    else if Fails(env, MonitorOpen) then
      Then([UpdateHostdevs, MonitorOpen], ReconnectErrorSpec(env, cfg, v.(monitor := false), true))
    else
      var v1 := v.(monitor := true, id := v.pid);
      if Fails(env, MachineName) then Then([UpdateHostdevs, MonitorOpen, MachineName], ReconnectErrorSpec(env, cfg, v1, true))
      else Then([UpdateHostdevs, MonitorOpen, MachineName], ReconnectStateSpec(env, cfg, v1))
  }

  /** The cgroup, then the state the hypervisor reports. */
  function ReconnectStateSpec(env: Env, cfg: DomConfig, v: DomView): Step {
    if Fails(env, ConnectCgroup) then Then([ConnectCgroup], ReconnectErrorSpec(env, cfg, v, true))
    else
      var u := UpdateInfoSpec(env, v.(cgroup := true), AtReconnect);
      if u.rc < 0 then Then([ConnectCgroup] + u.calls, ReconnectErrorSpec(env, cfg, u.dom, true))
      else Then([ConnectCgroup] + u.calls, ReconnectSaveSpec(env, cfg, u.dom))
  }

  /** Finish a shutdown with Stop, reason daemon; else save the status. */
  function ReconnectSaveSpec(env: Env, cfg: DomConfig, v: DomView): Step {
    if FinishesShutdown(v) then
      var s := StopSpec(env, cfg, v, ShutoffDaemon);
      Step(0, s.calls + ReconnectCleanup(s.dom, true), s.dom)
    else if Fails(env, SaveStatus(AtReconnect)) then
      Then([SaveStatus(AtReconnect)], ReconnectErrorSpec(env, cfg, v, true))
    else Step(0, [SaveStatus(AtReconnect)] + ReconnectCleanup(v, true), v)
  }

  /** The thread name of the reconnect of a domain. */
  function ReconnectThread(cfg: DomConfig): string { "init-" + cfg.name }

  /**
   * chProcessReconnectHelper: a domain without a pid is skipped; else the
   * reconnect runs in a thread of its own, and when that thread cannot be
   * made the guest is stopped as failed and dropped.
   */
  function ReconnectHelperSpec(env: Env, cfg: DomConfig, v: DomView): Step {
    if v.pid == 0 then Step(0, [], v)
    else if Fails(env, ThreadCreate(ReconnectThread(cfg))) then
      var s := StopSpec(env, cfg, v, ShutoffFailed);
      Step(-1, [ThreadCreate(ReconnectThread(cfg))] + s.calls + [RemoveInactiveJobLocked], s.dom)
    else Then([ThreadCreate(ReconnectThread(cfg))], ReconnectSpec(env, cfg, v))
  }

  lemma StopNoJob(env: Env, cfg: DomConfig, v: DomView, reason: int)
    ensures EndJob !in StopSpec(env, cfg, v, reason).calls
    ensures SaveStatus(AtReconnect) !in StopSpec(env, cfg, v, reason).calls
    ensures RemoveInactive !in StopSpec(env, cfg, v, reason).calls
    ensures RemoveInactiveJob !in StopSpec(env, cfg, v, reason).calls
  {
    StopKinds(env, cfg, v, reason);
  }

  /**
   * How a reconnect ends: an active domain holds its monitor and cgroup and
   * has its status saved; an inactive one is dropped from the domain list.
   */
  predicate ReconnectEnd(s: Step) {
    (Active(s.dom) ==> s.dom.monitor && s.dom.cgroup && SaveStatus(AtReconnect) in s.calls)
    && (!Active(s.dom) ==> RemoveInactive in s.calls || RemoveInactiveJob in s.calls)
  }

  lemma ReconnectEndThen(calls: seq<Call>, s: Step)
    requires ReconnectEnd(s)
    ensures ReconnectEnd(Then(calls, s))
  {
  }

  lemma ErrorEnds(env: Env, cfg: DomConfig, v: DomView, jobStarted: bool)
    ensures var s := ReconnectErrorSpec(env, cfg, v, jobStarted);
      ReconnectEnd(s) && !Active(s.dom) && (EndJob in s.calls <==> jobStarted)
      && (Active(v) ==> StoppedAs(s.dom, ShutoffUnknown))
      && (!Active(v) ==> s.dom == v)
  {
    StopNoJob(env, cfg, v, ShutoffUnknown);
  }

  lemma ReconnectStateEnds(env: Env, cfg: DomConfig, v: DomView)
    requires v.monitor
    ensures ReconnectEnd(ReconnectStateSpec(env, cfg, v))
    ensures EndJob in ReconnectStateSpec(env, cfg, v).calls
  {
    if Fails(env, ConnectCgroup) {
      ErrorEnds(env, cfg, v, true);
    } else {
      var u := UpdateInfoSpec(env, v.(cgroup := true), AtReconnect);
      var w := u.dom;
      if u.rc < 0 {
        ErrorEnds(env, cfg, w, true);
      } else if FinishesShutdown(w) {
        StopNoJob(env, cfg, w, ShutoffDaemon);
      } else if Fails(env, SaveStatus(AtReconnect)) {
        ErrorEnds(env, cfg, w, true);
      }
      ReconnectEndThen([ConnectCgroup] + u.calls, ReconnectSaveSpec(env, cfg, w));
    }
  }

  /**
   * A reconnect never leaves an active domain without its monitor or
   * cgroup, and the job is ended exactly when it was begun.
   */
  lemma ReconnectEnds(env: Env, cfg: DomConfig, v: DomView)
    ensures ReconnectEnd(ReconnectSpec(env, cfg, v))
    ensures EndJob in ReconnectSpec(env, cfg, v).calls <==> !Fails(env, BeginJob)
  {
    if Fails(env, BeginJob) {
      ErrorEnds(env, cfg, v, false);
    } else {
      if Fails(env, UpdateHostdevs) {
        ErrorEnds(env, cfg, v, true);
      } else if Fails(env, MonitorOpen) {
        ErrorEnds(env, cfg, v.(monitor := false), true);
      } else {
        var v1 := v.(monitor := true, id := v.pid);
        if Fails(env, MachineName) {
          ErrorEnds(env, cfg, v1, true);
        } else {
          ReconnectStateEnds(env, cfg, v1);
        }
      }
    }
  }

  /**
   * A domain whose reported state shows it shut down while the daemon was
   * away ends shut off, reason daemon, once monitor, machine name, cgroup and
   * state were all recovered.
   */
  lemma ReconnectShutdown(env: Env, cfg: DomConfig, v: DomView)
    requires !Fails(env, BeginJob) && !Fails(env, UpdateHostdevs) && !Fails(env, MonitorOpen)
    requires !Fails(env, MachineName) && !Fails(env, ConnectCgroup) && !Fails(env, GetInfo(AtReconnect))
    requires FinishesShutdown(UpdateStatus(v, env.liveState))
    ensures StoppedAs(ReconnectSpec(env, cfg, v).dom, ShutoffDaemon)
    ensures SaveStatus(AtReconnect) !in ReconnectSpec(env, cfg, v).calls
  {
    var w := UpdateStatus(v.(monitor := true, id := v.pid, cgroup := true), env.liveState);
    UpdateStatusState(v, v.(monitor := true, id := v.pid, cgroup := true), env.liveState);
    StopNoJob(env, cfg, w, ShutoffDaemon);
  }

  /** When the hypervisor reports a state by name, only "Shutdown" finishes a shutdown. */
  lemma ReportedShutdown(v: DomView, st: DomState)
    requires StateName(st).Some?
    ensures FinishesShutdown(UpdateStatus(v, StateName(st))) <==> st == Shutdown
  {
    UpdateStatusNamed(v, st);
  }

  /** A failure before the monitor is reopened stops a domain that is still active, reason unknown. */
  lemma ReconnectEarlyError(env: Env, cfg: DomConfig, v: DomView)
    requires Active(v)
    requires Fails(env, BeginJob) || Fails(env, UpdateHostdevs) || Fails(env, MonitorOpen)
    ensures StoppedAs(ReconnectSpec(env, cfg, v).dom, ShutoffUnknown)
    ensures !Fails(env, BeginJob) && !Fails(env, UpdateHostdevs) ==> CloseMonitor !in ReconnectSpec(env, cfg, v).calls
  {
    if Fails(env, BeginJob) {
      ErrorEnds(env, cfg, v, false);
    } else if Fails(env, UpdateHostdevs) {
      ErrorEnds(env, cfg, v, true);
    } else {
      ErrorEnds(env, cfg, v.(monitor := false), true);
      StopNoJob(env, cfg, v.(monitor := false), ShutoffUnknown);
      StopEnds(env, cfg, v.(monitor := false), ShutoffUnknown);
    }
  }

  /**
   * A later failure (machine name, cgroup, state or status file) stops a
   * domain whose pid makes it active, reason unknown.
   */
  lemma ReconnectLateError(env: Env, cfg: DomConfig, v: DomView)
    requires v.pid != -1
    requires !Fails(env, BeginJob) && !Fails(env, UpdateHostdevs) && !Fails(env, MonitorOpen)
    requires Fails(env, MachineName) || Fails(env, ConnectCgroup) || Fails(env, GetInfo(AtReconnect))
      || (!FinishesShutdown(UpdateStatus(v, env.liveState)) && Fails(env, SaveStatus(AtReconnect)))
    ensures StoppedAs(ReconnectSpec(env, cfg, v).dom, ShutoffUnknown)
  {
    var v1 := v.(monitor := true, id := v.pid);
    var v2 := v1.(cgroup := true);
    UpdateStatusState(v, v2, env.liveState);
    if Fails(env, MachineName) {
      ErrorEnds(env, cfg, v1, true);
    } else if Fails(env, ConnectCgroup) {
      ErrorEnds(env, cfg, v1, true);
    } else if Fails(env, GetInfo(AtReconnect)) {
      ErrorEnds(env, cfg, v2, true);
    } else {
      ErrorEnds(env, cfg, UpdateStatus(v2, env.liveState), true);
    }
  }

  /**
   * The helper makes no call, and leaves the domain as it was with 0, exactly
   * when the domain has no pid.  Otherwise its first call makes the thread
   * "init-" and the domain name; it returns -1 exactly when that fails, the
   * domain then stopped as failed and dropped; else it returns 0 and the
   * reconnect runs.
   */
  lemma ReconnectHelperEnds(env: Env, cfg: DomConfig, v: DomView)
    ensures var s := ReconnectHelperSpec(env, cfg, v);
      s.calls == [] <==> v.pid == 0
    ensures var s := ReconnectHelperSpec(env, cfg, v);
      s.calls == [] ==> s.rc == 0 && s.dom == v
    ensures var s := ReconnectHelperSpec(env, cfg, v);
      s.rc == -1 <==> v.pid != 0 && Fails(env, ThreadCreate("init-" + cfg.name))
    ensures var s := ReconnectHelperSpec(env, cfg, v);
      s.calls != [] ==> s.calls[0] == ThreadCreate("init-" + cfg.name)
    ensures var s := ReconnectHelperSpec(env, cfg, v);
      s.rc == -1 ==> StoppedAs(s.dom, ShutoffFailed) && s.calls[|s.calls| - 1] == RemoveInactiveJobLocked
    ensures var s := ReconnectHelperSpec(env, cfg, v);
      v.pid != 0 && s.rc != -1 ==> s.rc == 0 && s.dom == ReconnectSpec(env, cfg, v).dom
  {
  }
}
