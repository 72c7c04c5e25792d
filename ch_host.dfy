/**
 * The collaborators of the Cloud-Hypervisor process supervisor: the cgroup
 * layer, the scheduler and affinity system calls, the monitor socket, the
 * host-device and job machinery.  None of them is modelled; each call is a
 * value of `Call`, its result is read from an environment `Env`, and the
 * host records every call it receives, in order.
 */
module ChHost {
  import opened Decimal
  import opened ChMonitor

  /** A set of host CPUs (a `virBitmap` of CPU numbers). */
  type CpuSet = set<nat>

  /** The per-thread cgroup directories (`virCgroupThreadName`). */
  datatype ThreadGroup = GroupVcpu | GroupEmulator | GroupIOThread

  /** A scheduler policy and priority (`virDomainThreadSchedParam`). */
  datatype Sched = Sched(policy: int, priority: int)

  /** What `virHostCPUHasBitmap` and `virHostCPUGetOnlineBitmap` give. */
  datatype HostCpus = NoBitmap | Online(cpus: CpuSet) | BitmapError

  /** Where in the supervisor a repeated call is made. */
  datatype Site = AtStart | AtThreads | AtReconnect

  datatype Call =
    // the cgroup scope of one thread
    | ScopeNew(group: ThreadGroup, id: int)
    | ScopeSetCpus(group: ThreadGroup, id: int, cpus: CpuSet)
    | ScopeSetMems(group: ThreadGroup, id: int, mems: string)
    | ScopeSetBandwidth(group: ThreadGroup, id: int, period: nat, quota: int)
    | ScopeAddThread(group: ThreadGroup, id: int, tid: int)
    | ScopeRemove(group: ThreadGroup, id: int)
    // system calls on one thread
    | SetAffinity(tid: int, cpus: CpuSet)
    | SetScheduler(tid: int, sched: Sched)
    // starting and stopping the guest
    | PrepareHostdevs
    | MonitorNew
    | CreateVM
    | MachineName
    | SetupCgroup
    | NumaAffinity(pid: int)
    | StartNetdevs
    | BootVM
    | RefreshThreads(site: Site)
    | GetInfo(site: Site)
    | SetupGlobalCpuCgroup
    | SaveStatus(site: Site)
    | CloseMonitor
    | ReattachHostdevs
    | RemoveCgroup(attempt: nat)
    | Sleep(usec: nat)
    | UnlinkStatus(path: string)
    | UnlinkPidfile(path: string)
    // the network hand-off over the monitor socket
    | NetSocket
    | NetConnect(path: string)
    | BuildNetJson(index: nat)
    | NetSend(index: nat, request: string, nfds: nat)
    | NetCloseFds(index: nat, nfds: nat)
    | NetRecv(index: nat)
    | NetClose
    // reconnecting to a guest that outlived the daemon
    | BeginJob
    | UpdateHostdevs
    | MonitorOpen
    | ConnectCgroup
    | EndJob
    | RemoveInactive
    | RemoveInactiveJob
    | RemoveInactiveJobLocked
    | ThreadCreate(name: string)

  /**
   * What the collaborators answer.  `reply` is the return code of every call
   * (negative for failure; the HTTP status for `NetRecv`, the thread count for
   * `RefreshThreads`); the other fields are the data some calls hand back.
   */
  datatype Env = Env(
    reply: Call -> int,
    cpuController: bool,
    cpusetController: bool,
    hostCpus: HostCpus,
    spawnedPid: int,
    threads: seq<ThreadInfo>,
    ioThreads: seq<nat>,
    liveState: Option<string>,
    netPayload: nat -> string,
    socketPath: string)

  predicate Fails(env: Env, c: Call) { env.reply(c) < 0 }

  /** The host side: it answers from `env` and records each call. */
  class Host {
    const env: Env
    var log: seq<Call>

    constructor (env: Env)
      ensures this.env == env && log == []
    {
      this.env := env;
      log := [];
    }

    method Invoke(c: Call) returns (rc: int)
      modifies this
      ensures log == old(log) + [c] && rc == env.reply(c)
    {
      log := log + [c];
      rc := env.reply(c);
    }
  }
}
