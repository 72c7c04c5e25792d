/**
 * The domain object of the Cloud-Hypervisor process supervisor
 * (src/ch/ch_process.c) and the operations that update it in place.  Each
 * method is proved to make exactly the calls, return exactly the code and
 * leave exactly the state its specification function in `ChProcess` gives
 * for the state it starts from.
 */
module ChSupervisor {
  import opened Decimal
  import opened ChMonitor
  import opened ChHost
  import opened ChPlacement
  import opened ChNet
  import opened ChProcess

  class Domain {
    /** The definition and the driver's paths. */
    const cfg: DomConfig
    /** The collaborators, with the record of the calls made on them. */
    const host: Host
    /** The queue-pair count of each network device of the definition. */
    const nets: array<nat>
    var pid: int
    var id: int
    var state: DomState
    var reason: int
    var monitor: bool
    var cgroup: bool
    var vcpuTids: seq<int>

    /** A domain object as loaded from its definition or its status file. */
    constructor (cfg: DomConfig, host: Host, v: DomView)
      ensures this.cfg == cfg && this.host == host && fresh(nets)
      ensures View() == v
    {
      this.cfg := cfg;
      this.host := host;
      var q := v.queues;
      nets := new nat[|q|](i requires 0 <= i < |q| => q[i]);
      pid := v.pid;
      id := v.id;
      state := v.state;
      reason := v.reason;
      monitor := v.monitor;
      cgroup := v.cgroup;
      vcpuTids := v.vcpuTids;
    }

    /** The state the supervisor writes, as a value. */
    function View(): DomView
      reads this, nets
    {
      DomView(pid, id, state, reason, monitor, cgroup, vcpuTids, nets[..])
    }

    // -------------------------------------------------------------------------
    // Stop

    /** chProcessRemoveDomainStatus; a file that cannot be removed is only warned about. */
    method RemoveDomainStatus()
      modifies host
      ensures host.log == old(host.log) + StatusFiles(cfg)
    {
      var file := cfg.stateDir + "/" + cfg.name + ".xml";
      var _ := host.Invoke(UnlinkStatus(file));
      if cfg.pidfile.Some? {
        var _ := host.Invoke(UnlinkPidfile(cfg.pidfile.value));
      }
    }

    /** The retry label of virCHProcessStop: removal retried after a pause while the cgroup is busy. */
    method RemoveCgroupRetrying()
      modifies host
      ensures host.log == old(host.log) + CgroupRemoval(host.env, 0)
    {
      ghost var log0 := host.log;
      var retries: nat := 0;
      while true
        invariant retries <= MaxRetries
        invariant host.log + CgroupRemoval(host.env, retries) == log0 + CgroupRemoval(host.env, 0)
        decreases MaxRetries - retries
      {
        ghost var log1 := host.log;
        var ret := host.Invoke(RemoveCgroup(retries));
        if ret < 0 && ret == -EBUSY && retries < MaxRetries {
          var _ := host.Invoke(Sleep(RetryDelay));
          ConcatAssoc(log1, [RemoveCgroup(retries), Sleep(RetryDelay)], CgroupRemoval(host.env, retries + 1));
          retries := retries + 1;
        } else {
          return;
        }
      }
    }

    /** The monitor connection, if any, is closed and dropped. */
    method CloseMonitor()
      modifies this, host
      ensures host.log == old(host.log) + (if old(monitor) then [ChHost.CloseMonitor] else [])
      ensures View() == old(View()).(monitor := false)
    {
      if monitor {
        var _ := host.Invoke(ChHost.CloseMonitor);
        monitor := false;
      }
    }

    /** Host devices back to the host, then the cgroup. */
    method ReleaseHost()
      modifies host
      ensures host.log == old(host.log) + ([ReattachHostdevs] + CgroupRemoval(host.env, 0))
    {
      ghost var log0 := host.log;
      var _ := host.Invoke(ReattachHostdevs);
      RemoveCgroupRetrying();
      ConcatAssoc(log0, [ReattachHostdevs], CgroupRemoval(host.env, 0));
    }

    /** virCHProcessStop. */
    method Stop(why: int) returns (rc: int)
      modifies this, host
      ensures rc == StopSpec(host.env, cfg, old(View()), why).rc
      ensures host.log == old(host.log) + StopSpec(host.env, cfg, old(View()), why).calls
      ensures View() == StopSpec(host.env, cfg, old(View()), why).dom
    {
      ghost var log0 := host.log;
      ghost var m := if monitor then [ChHost.CloseMonitor] else [];
      CloseMonitor();
      ReleaseHost();
      pid := -1;
      id := -1;
      RemoveDomainStatus();
      state := Shutoff;
      reason := why;
      rc := 0;
      ghost var r := [ReattachHostdevs] + CgroupRemoval(host.env, 0);
      ConcatAssoc(log0 + m, r, StatusFiles(cfg));
      ConcatAssoc(log0, m, r + StatusFiles(cfg));
    }

    // -------------------------------------------------------------------------
    // State and threads

    /** virCHProcessUpdateInfo. */
    method UpdateInfo(site: Site) returns (rc: int)
      modifies this, host
      ensures rc == UpdateInfoSpec(host.env, old(View()), site).rc
      ensures host.log == old(host.log) + UpdateInfoSpec(host.env, old(View()), site).calls
      ensures View() == UpdateInfoSpec(host.env, old(View()), site).dom
    {
      var r := host.Invoke(GetInfo(site));
      if r < 0 {
        return -1;
      }
      var w := UpdateStatus(View(), host.env.liveState);
      state := w.state;
      reason := w.reason;
      rc := 0;
    }

    /** virCHProcessSetupVcpuPids: each vCPU record the monitor reports gives its vCPU its thread id. */
    method SetupVcpuPids()
      requires ThreadsFit(host.env, cfg) && |vcpuTids| == |cfg.vcpus|
      modifies this
      ensures View() == old(View()).(vcpuTids := AssignTids(old(vcpuTids), host.env.threads))
    {
      var threads := host.env.threads;
      ghost var tids0 := vcpuTids;
      var i := 0;
      while i < |threads|
        invariant 0 <= i <= |threads|
        invariant VcpuIdsBelow(threads[..i], |tids0|)
        invariant vcpuTids == AssignTids(tids0, threads[..i])
        invariant View() == old(View()).(vcpuTids := vcpuTids)
      {
        assert threads[..i + 1][..i] == threads[..i];
        if threads[i].kind.Vcpu? {
          vcpuTids := vcpuTids[threads[i].kind.cpuid := threads[i].tid];
        }
        i := i + 1;
      }
      assert threads[..i] == threads;
    }

    /** Without vCPU thread ids: refuse an online vCPU pinned differently from the domain. */
    method CheckVcpuAffinity() returns (rc: int)
      ensures rc == 0 || rc == -1
      ensures rc == -1 <==> AffinityConflict(cfg)
    {
      var i := 0;
      while i < |cfg.vcpus|
        invariant 0 <= i <= |cfg.vcpus|
        invariant forall k :: 0 <= k < i && cfg.vcpus[k].online ==>
          cfg.vcpus[k].cpumask.None? || cfg.vcpus[k].cpumask == cfg.tune.cpumask
      {
        var vcpu := cfg.vcpus[i];
        if vcpu.online && vcpu.cpumask.Some? && vcpu.cpumask != cfg.tune.cpumask {
          return -1;
        }
        i := i + 1;
      }
      rc := 0;
    }

    /** virCHProcessSetupVcpu for every online vCPU, in index order, up to the first failure. */
    method PlaceVcpuThreads(ctl: Controllers) returns (rc: int)
      requires |vcpuTids| == |cfg.vcpus|
      modifies host
      ensures rc == FanOut(host.env, cfg.tune, ctl, VcpuJobs(cfg, vcpuTids, 0)).rc
      ensures host.log == old(host.log) + FanOut(host.env, cfg.tune, ctl, VcpuJobs(cfg, vcpuTids, 0)).calls
    {
      ghost var log0 := host.log;
      ghost var target := FanOut(host.env, cfg.tune, ctl, VcpuJobs(cfg, vcpuTids, 0));
      var i := 0;
      while i < |cfg.vcpus|
        invariant 0 <= i <= |cfg.vcpus|
        invariant host.log + FanOut(host.env, cfg.tune, ctl, VcpuJobs(cfg, vcpuTids, i)).calls == log0 + target.calls
        invariant FanOut(host.env, cfg.tune, ctl, VcpuJobs(cfg, vcpuTids, i)).rc == target.rc
      {
        ghost var log1 := host.log;
        ghost var later := VcpuJobs(cfg, vcpuTids, i + 1);
        if cfg.vcpus[i].online {
          var job := VcpuJob(cfg, vcpuTids, i);
          assert ([job] + later)[1..] == later;
          var r := SetupPid(host, cfg.tune, ctl, job);
          if r < 0 {
            return -1;
          }
          ConcatAssoc(log1, SetupPidTrace(host.env, cfg.tune, ctl, job).calls, FanOut(host.env, cfg.tune, ctl, later).calls);
        }
        i := i + 1;
      }
      rc := 0;
    }

    /** virCHProcessSetupVcpus. */
    method SetupVcpus() returns (rc: int)
      requires ThreadsFit(host.env, cfg) && |vcpuTids| == |cfg.vcpus|
      modifies this, host
      ensures rc == SetupVcpusSpec(host.env, cfg, old(View())).rc
      ensures host.log == old(host.log) + SetupVcpusSpec(host.env, cfg, old(View())).calls
      ensures View() == SetupVcpusSpec(host.env, cfg, old(View())).dom
    {
      var ctl := Ctl(host.env, View());
      if (cfg.tune.period != 0 || cfg.tune.quota != 0) && !ctl.cpu {
        return -1;
      }
      SetupVcpuPids();
      if !HasVcpuPids(vcpuTids) {
        rc := CheckVcpuAffinity();
        return;
      }
      rc := PlaceVcpuThreads(ctl);
    }

    /** virCHProcessSetupThreads. */
    method SetupThreads() returns (rc: int)
      requires ThreadsFit(host.env, cfg) && |vcpuTids| == |cfg.vcpus|
      modifies this, host
      ensures rc == SetupThreadsSpec(host.env, cfg, old(View())).rc
      ensures host.log == old(host.log) + SetupThreadsSpec(host.env, cfg, old(View())).calls
      ensures View() == SetupThreadsSpec(host.env, cfg, old(View())).dom
    {
      ghost var v0 := View();
      ghost var log0 := host.log;
      rc := host.Invoke(RefreshThreads(AtThreads));
      if rc <= 0 {
        return;
      }
      ghost var head := log0 + [RefreshThreads(AtThreads)];
      var ctl := Ctl(host.env, View());
      ghost var e := FanOut(host.env, cfg.tune, ctl, EmulatorJobs(cfg.tune, EmulatorTids(host.env.threads)));
      ghost var io := FanOut(host.env, cfg.tune, ctl, IOJobs(cfg.tune, host.env.ioThreads));
      rc := SetupEmulatorThreads(host, cfg.tune, ctl);
      if rc != 0 {
        assert SetupThreadsSpec(host.env, cfg, v0) == Step(e.rc, [RefreshThreads(AtThreads)] + e.calls, v0);
        ConcatAssoc(log0, [RefreshThreads(AtThreads)], e.calls);
        return;
      }
      rc := SetupIOThreads(host, cfg.tune, ctl);
      ConcatAssoc(head, e.calls, io.calls);
      if rc != 0 {
        assert SetupThreadsSpec(host.env, cfg, v0) == Step(io.rc, [RefreshThreads(AtThreads)] + (e.calls + io.calls), v0);
        ConcatAssoc(log0, [RefreshThreads(AtThreads)], e.calls + io.calls);
        return;
      }
      ghost var c := SetupVcpusSpec(host.env, cfg, v0);
      rc := SetupVcpus();
      ConcatAssoc(head, e.calls + io.calls, c.calls);
      if rc != 0 {
        assert SetupThreadsSpec(host.env, cfg, v0) == Then([RefreshThreads(AtThreads)], Then(e.calls + io.calls, c));
        ConcatAssoc(log0, [RefreshThreads(AtThreads)], e.calls + io.calls + c.calls);
        return;
      }
      rc := host.Invoke(SaveStatus(AtThreads));
      ghost var placed := Step(rc, c.calls + [SaveStatus(AtThreads)], c.dom);
      assert SetupThreadsSpec(host.env, cfg, v0) == Then([RefreshThreads(AtThreads)], Then(e.calls + io.calls, placed));
      ConcatAssoc(head, e.calls + io.calls + c.calls, [SaveStatus(AtThreads)]);
      ConcatAssoc(e.calls + io.calls, c.calls, [SaveStatus(AtThreads)]);
      ConcatAssoc(log0, [RefreshThreads(AtThreads)], e.calls + io.calls + placed.calls);
    }

    // -------------------------------------------------------------------------
    // Start

    /** The cleanup label of virCHProcessStart. */
    method Abort() returns (rc: int)
      modifies this, host
      ensures rc == AbortSpec(host.env, cfg, old(View())).rc
      ensures host.log == old(host.log) + AbortSpec(host.env, cfg, old(View())).calls
      ensures View() == AbortSpec(host.env, cfg, old(View())).dom
    {
      var _ := Stop(ShutoffFailed);
      rc := -1;
    }

    /** virCHProcessInitCpuAffinity. */
    method InitCpuAffinity() returns (rc: int)
      modifies host
      ensures rc == InitAffinitySpec(host.env, cfg, pid).rc
      ensures host.log == old(host.log) + InitAffinitySpec(host.env, cfg, pid).calls
    {
      if pid == 0 {
        return -1;
      }
      if cfg.numaStrict {
        var r := host.Invoke(NumaAffinity(pid));
        return if r < 0 then -1 else 0;
      }
      var cpus: CpuSet;
      if cfg.tune.emulatorPin.Some? {
        cpus := cfg.tune.emulatorPin.value;
      } else {
        match host.env.hostCpus
        case NoBitmap => return 0;
        case BitmapError => return -1;
        case Online(all) => cpus := all;
      }
      var r := host.Invoke(SetAffinity(pid, cpus));
      rc := if r < 0 then -1 else 0;
    }

    /** virCHProcessStart. */
    method Start(runReason: int) returns (rc: int)
      requires ThreadsFit(host.env, cfg) && |vcpuTids| == |cfg.vcpus|
      modifies this, host, nets
      ensures rc == StartSpec(host.env, cfg, old(View()), runReason).rc
      ensures host.log == old(host.log) + StartSpec(host.env, cfg, old(View()), runReason).calls
      ensures View() == StartSpec(host.env, cfg, old(View()), runReason).dom
    {
      ghost var v0 := View();
      ghost var log0 := host.log;
      var r := host.Invoke(PrepareHostdevs);
      if r < 0 {
        ghost var a := AbortSpec(host.env, cfg, v0);
        assert StartSpec(host.env, cfg, v0, runReason) == Then([PrepareHostdevs], a);
        rc := Abort();
        ConcatAssoc(log0, [PrepareHostdevs], a.calls);
        return;
      }
      ghost var m := StartMonitorSpec(host.env, cfg, v0, runReason);
      assert StartSpec(host.env, cfg, v0, runReason) == Then([PrepareHostdevs], m);
      rc := StartMonitor(runReason);
      ConcatAssoc(log0, [PrepareHostdevs], m.calls);
    }

    /** The monitor, with the hypervisor spawned and the guest created when there is none yet. */
    method StartMonitor(runReason: int) returns (rc: int)
      requires ThreadsFit(host.env, cfg) && |vcpuTids| == |cfg.vcpus|
      modifies this, host, nets
      ensures rc == StartMonitorSpec(host.env, cfg, old(View()), runReason).rc
      ensures host.log == old(host.log) + StartMonitorSpec(host.env, cfg, old(View()), runReason).calls
      ensures View() == StartMonitorSpec(host.env, cfg, old(View()), runReason).dom
    {
      ghost var v0 := View();
      ghost var log0 := host.log;
      if monitor {
        assert StartMonitorSpec(host.env, cfg, v0, runReason) == StartNetSpec(host.env, cfg, v0, runReason);
        rc := StartNet(runReason);
        return;
      }
      var r := host.Invoke(MonitorNew);
      if r < 0 {
        ghost var a := AbortSpec(host.env, cfg, v0);
        assert StartMonitorSpec(host.env, cfg, v0, runReason) == Then([MonitorNew], a);
        rc := Abort();
        ConcatAssoc(log0, [MonitorNew], a.calls);
        return;
      }
      monitor := true;
      pid := host.env.spawnedPid;
      ghost var v1 := View();
      assert v1 == v0.(monitor := true, pid := host.env.spawnedPid);
      r := host.Invoke(CreateVM);
      assert host.log == log0 + [MonitorNew, CreateVM];
      if r < 0 {
        ghost var a := AbortSpec(host.env, cfg, v1);
        assert StartMonitorSpec(host.env, cfg, v0, runReason) == Then([MonitorNew, CreateVM], a);
        rc := Abort();
        ConcatAssoc(log0, [MonitorNew, CreateVM], a.calls);
        return;
      }
      ghost var n := StartNetSpec(host.env, cfg, v1, runReason);
      assert StartMonitorSpec(host.env, cfg, v0, runReason) == Then([MonitorNew, CreateVM], n);
      rc := StartNet(runReason);
      ConcatAssoc(log0, [MonitorNew, CreateVM], n.calls);
    }

    /** The id, the machine name and the network devices. */
    method StartNet(runReason: int) returns (rc: int)
      requires ThreadsFit(host.env, cfg) && |vcpuTids| == |cfg.vcpus|
      modifies this, host, nets
      ensures rc == StartNetSpec(host.env, cfg, old(View()), runReason).rc
      ensures host.log == old(host.log) + StartNetSpec(host.env, cfg, old(View()), runReason).calls
      ensures View() == StartNetSpec(host.env, cfg, old(View()), runReason).dom
    {
      ghost var v0 := View();
      ghost var log0 := host.log;
      id := pid;
      var _ := host.Invoke(MachineName);
      ghost var n := AddNetTrace(host.env, nets[..]);
      var r := AddNetworkDevices(host, nets);
      ghost var v1 := View();
      assert v1 == v0.(id := v0.pid, queues := n.queues);
      ghost var pre := [MachineName] + n.calls;
      ConcatAssoc(log0, [MachineName], n.calls);
      if r < 0 {
        ghost var a := AbortSpec(host.env, cfg, v1);
        assert StartNetSpec(host.env, cfg, v0, runReason) == Then(pre, a);
        rc := Abort();
        ConcatAssoc(log0, pre, a.calls);
        return;
      }
      ghost var g := StartCgroupSpec(host.env, cfg, v1, runReason);
      assert StartNetSpec(host.env, cfg, v0, runReason) == Then(pre, g);
      rc := StartCgroup(runReason);
      ConcatAssoc(log0, pre, g.calls);
    }

    /** The domain cgroup. */
    method StartCgroup(runReason: int) returns (rc: int)
      requires ThreadsFit(host.env, cfg) && |vcpuTids| == |cfg.vcpus|
      modifies this, host
      ensures rc == StartCgroupSpec(host.env, cfg, old(View()), runReason).rc
      ensures host.log == old(host.log) + StartCgroupSpec(host.env, cfg, old(View()), runReason).calls
      ensures View() == StartCgroupSpec(host.env, cfg, old(View()), runReason).dom
    {
      ghost var v0 := View();
      ghost var log0 := host.log;
      var r := host.Invoke(SetupCgroup);
      if r < 0 {
        ghost var a := AbortSpec(host.env, cfg, v0);
        assert StartCgroupSpec(host.env, cfg, v0, runReason) == Then([SetupCgroup], a);
        rc := Abort();
        ConcatAssoc(log0, [SetupCgroup], a.calls);
        return;
      }
      cgroup := true;
      ghost var b := StartBootSpec(host.env, cfg, v0.(cgroup := true), runReason);
      assert View() == v0.(cgroup := true);
      assert StartCgroupSpec(host.env, cfg, v0, runReason) == Then([SetupCgroup], b);
      rc := StartBoot(runReason);
      ConcatAssoc(log0, [SetupCgroup], b.calls);
    }

    /** Process affinity, the host side of the network devices, boot. */
    method StartBoot(runReason: int) returns (rc: int)
      requires ThreadsFit(host.env, cfg) && |vcpuTids| == |cfg.vcpus|
      modifies this, host
      ensures rc == StartBootSpec(host.env, cfg, old(View()), runReason).rc
      ensures host.log == old(host.log) + StartBootSpec(host.env, cfg, old(View()), runReason).calls
      ensures View() == StartBootSpec(host.env, cfg, old(View()), runReason).dom
    {
      ghost var v0 := View();
      ghost var log0 := host.log;
      ghost var aff := InitAffinitySpec(host.env, cfg, pid);
      var r := InitCpuAffinity();
      if r < 0 {
        ghost var a := AbortSpec(host.env, cfg, v0);
        assert StartBootSpec(host.env, cfg, v0, runReason) == Then(aff.calls, a);
        rc := Abort();
        ConcatAssoc(log0, aff.calls, a.calls);
        return;
      }
      r := host.Invoke(StartNetdevs);
      ConcatAssoc(log0, aff.calls, [StartNetdevs]);
      if r < 0 {
        assert StartBootSpec(host.env, cfg, v0, runReason) == Step(-1, aff.calls + [StartNetdevs], v0);
        return -1;
      }
      r := host.Invoke(BootVM);
      ghost var pre := aff.calls + [StartNetdevs, BootVM];
      ConcatAssoc(log0, aff.calls + [StartNetdevs], [BootVM]);
      ConcatAssoc(aff.calls, [StartNetdevs], [BootVM]);
      assert host.log == log0 + pre;
      if r < 0 {
        ghost var a := AbortSpec(host.env, cfg, v0);
        assert StartBootSpec(host.env, cfg, v0, runReason) == Then(pre, a);
        rc := Abort();
        ConcatAssoc(log0, pre, a.calls);
        return;
      }
      ghost var u := StartRunSpec(host.env, cfg, v0, runReason);
      assert StartBootSpec(host.env, cfg, v0, runReason) == Then(pre, u);
      rc := StartRun(runReason);
      ConcatAssoc(log0, pre, u.calls);
    }

    /** Refresh and status, their results ignored, then the threads. */
    method StartRun(runReason: int) returns (rc: int)
      requires ThreadsFit(host.env, cfg) && |vcpuTids| == |cfg.vcpus|
      modifies this, host
      ensures rc == StartRunSpec(host.env, cfg, old(View()), runReason).rc
      ensures host.log == old(host.log) + StartRunSpec(host.env, cfg, old(View()), runReason).calls
      ensures View() == StartRunSpec(host.env, cfg, old(View()), runReason).dom
    {
      ghost var v0 := View();
      ghost var log0 := host.log;
      var _ := host.Invoke(RefreshThreads(AtStart));
      ghost var u := UpdateInfoSpec(host.env, v0, AtStart);
      var _ := UpdateInfo(AtStart);
      ghost var t := SetupThreadsSpec(host.env, cfg, u.dom);
      var r := SetupThreads();
      ghost var before := [RefreshThreads(AtStart)] + u.calls + t.calls;
      ConcatAssoc(log0, [RefreshThreads(AtStart)], u.calls);
      ConcatAssoc(log0, [RefreshThreads(AtStart)] + u.calls, t.calls);
      assert host.log == log0 + before;
      if r < 0 {
        ghost var a := AbortSpec(host.env, cfg, t.dom);
        assert StartRunSpec(host.env, cfg, v0, runReason) == Then(before, a);
        rc := Abort();
        ConcatAssoc(log0, before, a.calls);
        return;
      }
      ghost var f := StartFinishSpec(host.env, cfg, t.dom, runReason);
      assert StartRunSpec(host.env, cfg, v0, runReason) == Then(before, f);
      rc := StartFinish(runReason);
      ConcatAssoc(log0, before, f.calls);
    }

    /** The global CPU cgroup, the running state, the status file. */
    method StartFinish(runReason: int) returns (rc: int)
      modifies this, host
      ensures rc == StartFinishSpec(host.env, cfg, old(View()), runReason).rc
      ensures host.log == old(host.log) + StartFinishSpec(host.env, cfg, old(View()), runReason).calls
      ensures View() == StartFinishSpec(host.env, cfg, old(View()), runReason).dom
    {
      ghost var v0 := View();
      ghost var log0 := host.log;
      var r := host.Invoke(SetupGlobalCpuCgroup);
      if r < 0 {
        ghost var a := AbortSpec(host.env, cfg, v0);
        assert StartFinishSpec(host.env, cfg, v0, runReason) == Then([SetupGlobalCpuCgroup], a);
        rc := Abort();
        ConcatAssoc(log0, [SetupGlobalCpuCgroup], a.calls);
        return;
      }
      state := Running;
      reason := runReason;
      ghost var v1 := View();
      assert v1 == v0.(state := Running, reason := runReason);
      r := host.Invoke(SaveStatus(AtStart));
      assert host.log == log0 + [SetupGlobalCpuCgroup, SaveStatus(AtStart)];
      if r < 0 {
        ghost var a := AbortSpec(host.env, cfg, v1);
        assert StartFinishSpec(host.env, cfg, v0, runReason) == Then([SetupGlobalCpuCgroup, SaveStatus(AtStart)], a);
        rc := Abort();
        ConcatAssoc(log0, [SetupGlobalCpuCgroup, SaveStatus(AtStart)], a.calls);
        return;
      }
      assert StartFinishSpec(host.env, cfg, v0, runReason) == Step(0, [SetupGlobalCpuCgroup, SaveStatus(AtStart)], v1);
      rc := 0;
    }

    // -------------------------------------------------------------------------
    // Reconnect

    /** The cleanup label of virCHProcessReconnect. */
    method ReconnectDone(jobStarted: bool)
      modifies host
      ensures host.log == old(host.log) + ReconnectCleanup(View(), jobStarted)
    {
      if jobStarted {
        if id == -1 {
          var _ := host.Invoke(RemoveInactive);
        }
        var _ := host.Invoke(EndJob);
      } else if id == -1 {
        var _ := host.Invoke(RemoveInactiveJob);
      }
    }

    /** The error label of virCHProcessReconnect. */
    method ReconnectFail(jobStarted: bool)
      modifies this, host
      ensures host.log == old(host.log) + ReconnectErrorSpec(host.env, cfg, old(View()), jobStarted).calls
      ensures View() == ReconnectErrorSpec(host.env, cfg, old(View()), jobStarted).dom
    {
      if id != -1 {
        var _ := Stop(ShutoffUnknown);
      }
      ReconnectDone(jobStarted);
    }

    /** virCHProcessReconnect, for one domain. */
    method Reconnect()
      modifies this, host
      ensures host.log == old(host.log) + ReconnectSpec(host.env, cfg, old(View())).calls
      ensures View() == ReconnectSpec(host.env, cfg, old(View())).dom
    {
      ghost var v0 := View();
      ghost var log0 := host.log;
      var r := host.Invoke(BeginJob);
      if r < 0 {
        ghost var e := ReconnectErrorSpec(host.env, cfg, v0, false);
        assert ReconnectSpec(host.env, cfg, v0) == Then([BeginJob], e);
        ReconnectFail(false);
        ConcatAssoc(log0, [BeginJob], e.calls);
        return;
      }
      ghost var m := ReconnectMonitorSpec(host.env, cfg, v0);
      assert ReconnectSpec(host.env, cfg, v0) == Then([BeginJob], m);
      ReconnectMonitor();
      ConcatAssoc(log0, [BeginJob], m.calls);
    }

    /** Host devices, the monitor connection (the id becomes the pid), the machine name. */
    method ReconnectMonitor()
      modifies this, host
      ensures host.log == old(host.log) + ReconnectMonitorSpec(host.env, cfg, old(View())).calls
      ensures View() == ReconnectMonitorSpec(host.env, cfg, old(View())).dom
    {
      ghost var v0 := View();
      ghost var log0 := host.log;
      var r := host.Invoke(UpdateHostdevs);
      if r < 0 {
        ghost var e := ReconnectErrorSpec(host.env, cfg, v0, true);
        assert ReconnectMonitorSpec(host.env, cfg, v0) == Then([UpdateHostdevs], e);
        ReconnectFail(true);
        ConcatAssoc(log0, [UpdateHostdevs], e.calls);
        return;
      }
      r := host.Invoke(MonitorOpen);
      monitor := r >= 0;
      assert host.log == log0 + [UpdateHostdevs, MonitorOpen];
      if r < 0 {
        assert View() == v0.(monitor := false);
        ghost var e := ReconnectErrorSpec(host.env, cfg, v0.(monitor := false), true);
        assert ReconnectMonitorSpec(host.env, cfg, v0) == Then([UpdateHostdevs, MonitorOpen], e);
        ReconnectFail(true);
        ConcatAssoc(log0, [UpdateHostdevs, MonitorOpen], e.calls);
        return;
      }
      id := pid;
      ghost var v1 := View();
      assert v1 == v0.(monitor := true, id := v0.pid);
      r := host.Invoke(MachineName);
      ghost var pre := [UpdateHostdevs, MonitorOpen, MachineName];
      assert host.log == log0 + pre;
      if r < 0 {
        ghost var e := ReconnectErrorSpec(host.env, cfg, v1, true);
        assert ReconnectMonitorSpec(host.env, cfg, v0) == Then(pre, e);
        ReconnectFail(true);
        ConcatAssoc(log0, pre, e.calls);
        return;
      }
      ghost var t := ReconnectStateSpec(host.env, cfg, v1);
      assert ReconnectMonitorSpec(host.env, cfg, v0) == Then(pre, t);
      ReconnectState();
      ConcatAssoc(log0, pre, t.calls);
    }

    /** The cgroup, then the state the hypervisor reports. */
    method ReconnectState()
      modifies this, host
      ensures host.log == old(host.log) + ReconnectStateSpec(host.env, cfg, old(View())).calls
      ensures View() == ReconnectStateSpec(host.env, cfg, old(View())).dom
    {
      ghost var v0 := View();
      ghost var log0 := host.log;
      var r := host.Invoke(ConnectCgroup);
      if r < 0 {
        ghost var e := ReconnectErrorSpec(host.env, cfg, v0, true);
        assert ReconnectStateSpec(host.env, cfg, v0) == Then([ConnectCgroup], e);
        ReconnectFail(true);
        ConcatAssoc(log0, [ConnectCgroup], e.calls);
        return;
      }
      cgroup := true;
      assert View() == v0.(cgroup := true);
      ghost var u := UpdateInfoSpec(host.env, v0.(cgroup := true), AtReconnect);
      r := UpdateInfo(AtReconnect);
      ghost var pre := [ConnectCgroup] + u.calls;
      ConcatAssoc(log0, [ConnectCgroup], u.calls);
      if r < 0 {
        ghost var e := ReconnectErrorSpec(host.env, cfg, u.dom, true);
        assert ReconnectStateSpec(host.env, cfg, v0) == Then(pre, e);
        ReconnectFail(true);
        ConcatAssoc(log0, pre, e.calls);
        return;
      }
      ghost var w := ReconnectSaveSpec(host.env, cfg, u.dom);
      assert ReconnectStateSpec(host.env, cfg, v0) == Then(pre, w);
      ReconnectSave();
      ConcatAssoc(log0, pre, w.calls);
    }

    /** A shutdown under way is finished with Stop; otherwise the status is saved. */
    method ReconnectSave()
      modifies this, host
      ensures host.log == old(host.log) + ReconnectSaveSpec(host.env, cfg, old(View())).calls
      ensures View() == ReconnectSaveSpec(host.env, cfg, old(View())).dom
    {
      ghost var v0 := View();
      ghost var log0 := host.log;
      if state == Shutdown || (state == Paused && reason == PausedShuttingDown) {
        assert FinishesShutdown(v0);
        ghost var s := StopSpec(host.env, cfg, v0, ShutoffDaemon);
        var _ := Stop(ShutoffDaemon);
        ReconnectDone(true);
        ConcatAssoc(log0, s.calls, ReconnectCleanup(s.dom, true));
        return;
      }
      assert !FinishesShutdown(v0);
      var r := host.Invoke(SaveStatus(AtReconnect));
      if r < 0 {
        ghost var e := ReconnectErrorSpec(host.env, cfg, v0, true);
        assert ReconnectSaveSpec(host.env, cfg, v0) == Then([SaveStatus(AtReconnect)], e);
        ReconnectFail(true);
        ConcatAssoc(log0, [SaveStatus(AtReconnect)], e.calls);
        return;
      }
      ReconnectDone(true);
      ConcatAssoc(log0, [SaveStatus(AtReconnect)], ReconnectCleanup(v0, true));
    }

    /** chProcessReconnectHelper, the reconnect run to completion in place of its thread. */
    method ReconnectHelper() returns (rc: int)
      modifies this, host
      ensures rc == ReconnectHelperSpec(host.env, cfg, old(View())).rc
      ensures host.log == old(host.log) + ReconnectHelperSpec(host.env, cfg, old(View())).calls
      ensures View() == ReconnectHelperSpec(host.env, cfg, old(View())).dom
    {
      ghost var v0 := View();
      ghost var log0 := host.log;
      if pid == 0 {
        return 0;
      }
      var name := ReconnectThread(cfg);
      var r := host.Invoke(ThreadCreate(name));
      if r < 0 {
        ghost var s := StopSpec(host.env, cfg, v0, ShutoffFailed);
        assert ReconnectHelperSpec(host.env, cfg, v0)
          == Step(-1, [ThreadCreate(name)] + s.calls + [RemoveInactiveJobLocked], s.dom);
        var _ := Stop(ShutoffFailed);
        var _ := host.Invoke(RemoveInactiveJobLocked);
        ConcatAssoc(log0, [ThreadCreate(name)], s.calls);
        ConcatAssoc(log0, [ThreadCreate(name)] + s.calls, [RemoveInactiveJobLocked]);
        return -1;
      }
      ghost var t := ReconnectSpec(host.env, cfg, v0);
      assert ReconnectHelperSpec(host.env, cfg, v0) == Then([ThreadCreate(name)], t);
      Reconnect();
      ConcatAssoc(log0, [ThreadCreate(name)], t.calls);
      rc := 0;
    }
  }
}
