# Cloud Hypervisor supervision and the Virtuozzo driver, modelled in Dafny

This project models two parts of a libvirt fork.

**The Cloud Hypervisor (CH) driver's process supervisor** (`src/ch/ch_process.c`) and its configuration helpers (`src/ch/ch_conf.c`):

- Starting a guest: host devices, the monitor connection, network devices handed to the hypervisor over its Unix socket, cgroups, CPU affinity, boot, thread placement, the running state and the status file.
- Stopping a guest, which includes retrying the cgroup removal while it is busy.
- Reconnecting to guests that were running when the daemon restarted.
- Placing the emulator, I/O and vCPU threads into cgroups and onto CPUs.
- Reading the hypervisor's version string, the minimum-version rule, and the driver's version cache and default configuration.

**The pure and list-handling parts of the Virtuozzo (vz) driver** (`src/vz/vz_driver.c`):

- Accepting a connection URI.
- The list of open connections.
- The format of the migration cookie.
- The migration URI the destination offers and the check the source makes on it.
- Job progress.
- Block statistics, in both the plain and the typed-parameter form.
- The vCPU limit.
- The check on configuration-update flags.

## How it is modelled

- The collaborators the supervisor calls (monitor, cgroups, host devices, files, sockets, threads) are one `Host` object (`ChHost`).
  - It answers every call from an environment value `Env`: `reply(call)` is a call's return code, and further fields carry the data some calls return.
  - It records each call in a `log`.
  - A reply is a function of the call alone, so identical calls get identical answers.
    - Retries carry an attempt index and the status save and refresh carry a site tag, which keeps those calls apart.
    - Every emulator thread is placed with cgroup id 0, so their cgroup calls share one answer.
- Each operation of the supervisor is a method of the `Domain` class (`ChSupervisor`).
  - Its fields are the state the C code updates: pid, id, state and reason, monitor, cgroup, vCPU thread ids, and the network devices' queue counts, which are kept in an `array`.
  - Each method is proved equal to a specification function over a value snapshot `DomView` (`ChProcess`, `ChPlacement`, `ChNet`). The function gives the return code, the exact sequence of calls, and the new state.
  - The properties are lemmas about those functions.
- Thread placement (`virCHProcessSetupPid`) is proved against an independent formulation: a plan of calls, each with the condition under which it is made, run until the first failure.
- The vz connection list is a class whose field is a `seq` of connection identities. Close walks the list with a loop.
- The two block-statistics operations are methods with loops, proved against function specifications.
- C integer behaviour is written out where it matters:
  - the version number is computed in `unsigned int`, so it wraps;
  - `unsigned long long` wraps in the job's remaining-data field;
  - the `int` conversion of the version goes into the driver field.

## Reading the source

- **Start does not stop the guest when the host netdevs fail.** When `chInterfaceStartDevices` fails, `virCHProcessStart` returns -1 directly (`src/ch/ch_process.c:697-698`), without running its cleanup, so the guest is left launched. The model keeps this, and `ChProcess.StartEnds` states it as the third way a start can end.
- **Ignored results.**
  - `virCHMonitorRefreshThreadInfo` and `virCHProcessUpdateInfo` are called in Start with their results ignored (`src/ch/ch_process.c:706-708`).
  - `virCHDomainGetMachineName` is not checked in Start (`src/ch/ch_process.c:680`), although Reconnect checks it.
  - The model keeps all of these.
- **No threads reported.** `virCHProcessSetupThreads` returns 0 without placing any thread when the refresh reports 0 threads (`src/ch/ch_process.c:505-534`); see `ChProcess.ThreadsNoneReported`.
- **The version text without a '/'.** In `virCHVersionString`, when the version string has no '/', the fields are read as many characters into the whole string as "cloud-hypervisor " has, not from where the prefix was found (`src/ch/ch_conf.c:207-210`). This is what `ChConf.VersionTextFound` states.
- **One flag bit for two elements.** In vz, `VZ_MIGRATION_COOKIE_DOMAIN_NAME` and `VZ_MIGRATION_COOKIE_DOMAIN_UUID` are one bit (`src/vz/vz_driver.c:2224-2226`), so a cookie carries both or neither; see `VzCookie.UuidWithName`.
- **Job progress is not checked.** `vzDomainGetJobInfoImpl` never checks the job's progress against 100 (`src/vz/vz_driver.c:2790-2811`). A progress above 100 makes the remaining-data field wrap in `unsigned long long`; see `VzDomain.JobProgressOver`.

## Model

| member | source | states |
|---|---|---|
| ChConf.U32 | src/ch/ch_conf.c:256-257 | the cast to `unsigned int` lands below 2^32 and leaves values already in range unchanged |
| ChConf.ToCInt | src/ch/ch_conf.c:265-266 | storing the version in the driver's `int` gives a 32-bit signed value, unchanged below 2^31 |
| ChConf.FindFirst | src/ch/ch_conf.c:189 | strstr: the first position of the pattern, with no earlier occurrence; None exactly when it occurs nowhere |
| ChConf.FindLast | src/ch/ch_conf.c:188 | strrchr: the last position of the character, with none after it; None exactly when it is absent |
| ChConf.VersionTextMissing | src/ch/ch_conf.c:187-205 | the version is refused before scanning exactly when "cloud-hypervisor " is absent, or when a '/' exists and every '/' stands before the prefix's first occurrence |
| ChConf.VersionTextFound | src/ch/ch_conf.c:197-209 | the fields are read after the last '/', and without any '/' from as many characters into the string as "cloud-hypervisor " has |
| ChConf.ScanFields | src/ch/ch_conf.c:213-219 | the sscanf format "v%d.%d..." converts at most the requested number of fields |
| ChConf.ScanMoreShorter | src/ch/ch_conf.c:213-219 | asking for one conversion fewer yields the same fields, cut to that many |
| ChConf.ScanMoreFirst | src/ch/ch_conf.c:213 | the first `%d` reads a printed number back exactly |
| ChConf.ScanMoreNext | src/ch/ch_conf.c:213 | each further ".%d" reads a printed number back exactly |
| ChConf.ScanFieldsRelease | src/ch/ch_conf.c:213 | "vM.m.u" converts to the three numbers |
| ChConf.ScanFieldsDevelopment | src/ch/ch_conf.c:213-215 | "vM.m" followed by no further ".digit" converts to the two numbers under either format |
| ChConf.ScanThreeFields | src/ch/ch_conf.c:213-219 | a release text yields (M, m, u) |
| ChConf.ScanTwoFields | src/ch/ch_conf.c:213-219 | a development text falls back to the two-field format, and micro stays 0 |
| ChConf.VersionFieldsRefused | src/ch/ch_conf.c:213-219 | the fields are refused exactly when not even "v%d.%d" converts |
| ChConf.VersionNumber | src/ch/ch_conf.c:226 | the encoding is computed in `unsigned int`, so it lies below 2^32 |
| ChConf.DecodeVersionNumber | src/ch/ch_conf.c:226 | while the encoding does not wrap, decoding major/minor/micro gives them back |
| ChConf.VersionNumberWraps | src/ch/ch_conf.c:226 | a major of 4295 wraps the 32-bit product (to 32704) |
| ChConf.VersionTextPlain | src/ch/ch_conf.c:206-209 | "cloud-hypervisor X", with no '/' in X, reads its fields from X |
| ChConf.VersionTextVendor | src/ch/ch_conf.c:197-205 | "cloud-hypervisor vendor/X" reads its fields from X |
| ChConf.VersionStringRelease | src/ch/ch_conf.c:175-230 | an upstream release string "cloud-hypervisor vM.m.u..." gives 1000000·M + 1000·m + u |
| ChConf.VersionStringDevelopment | src/ch/ch_conf.c:175-230 | an upstream development build "cloud-hypervisor vM.m-..." gives its version with micro 0 |
| ChConf.VersionStringVendor | src/ch/ch_conf.c:175-230 | a vendor build "cloud-hypervisor msft/vM.m.u..." skips the vendor tag |
| ChConf.ExtractVersionInfo | src/ch/ch_conf.c:233-275 | returns 0 exactly when the command ran, its output parsed and the version is not too old; the output version is 0 on failure and the parsed version otherwise |
| ChConf.TooOldBelow | src/ch/ch_conf.c:255-262 | the minimum-version rule refuses exactly the numbers below 9000 (v0.9.0) |
| ChConf.TooOldVersion | src/ch/ch_conf.c:255-262 | on versions that do not wrap, the rule is major 0 and minor below 9 |
| ChConf.Driver.ExtractVersion | src/ch/ch_conf.c:277-289 | a positive cached version is kept and no command runs; otherwise the command runs once and its result is cached |
| ChConf.StrToInt | src/ch/ch_conf.c:291-299 | the result is always a 32-bit `int` |
| ChConf.StrToIntRoundTrip | src/ch/ch_conf.c:291-299 | every `int` printed in base 10 reads back as itself |
| ChConf.StrToIntTrailing | src/ch/ch_conf.c:291-299 | a number followed by other text reads as 0, since no end pointer is given |
| ChConf.DriverConfig.constructor | src/ch/ch_conf.c:135-154 | the default directories, the autostart directory under the config directory, timestamps on, stdio log daemon off, cgroup controllers auto-detected (-1) |
| Decimal.NatToStringValue | src/ch/ch_process.c:599 | the decimal text printf gives for a length reads back as that length |
| Decimal.ScanIntToString | src/ch/ch_conf.c:213 | `%d` reads back the signed number printf wrote, leaving what follows |
| Decimal.ScanDigitsOf | src/ch/ch_conf.c:213 | digits with or without a minus sign read back as the number |
| ChMonitor.EmulatorTids | src/ch/ch_process.c:285-306 | a tid is listed when an emulator record with that tid is reported, and every listed tid comes from one |
| ChMonitor.EmulatorTidsOne | src/ch/ch_process.c:297-302 | one record gives its tid when it is an emulator thread and nothing otherwise |
| ChMonitor.EmulatorTidsAppend | src/ch/ch_process.c:296-304 | the records are taken in the monitor's order, each once: more records append their tids after the earlier ones |
| ChMonitor.VcpuThreads | src/ch/ch_process.c:423-447 | a (cpuid, tid) pair is listed when a vCPU record carries it, and every listed pair comes from one |
| ChMonitor.VcpuThreadsOne | src/ch/ch_process.c:435-442 | one record gives its (cpuid, tid) when it is a vCPU thread and nothing otherwise |
| ChMonitor.VcpuThreadsAppend | src/ch/ch_process.c:431-445 | the records are taken in the monitor's order, each once: more records append their pairs after the earlier ones |
| ChHost.Host.Invoke | src/ch/ch_process.c:649-729 | a collaborator call answers from the environment and is appended to the call log |
| ChNet.ParseFrameOfFrame | src/ch/ch_process.c:596-603 | every add-net request, read back, gives its JSON payload: fixed headers, the payload's length in UTF-8 bytes, a blank line, the payload |
| ChNet.QueuePairs | src/ch/ch_process.c:579-585 | a queue-pair count of 0 means one pair; others are kept |
| ChNet.DevicesResult | src/ch/ch_process.c:578-636 | the loop returns 0 or -1, and 0 exactly when every device is accepted, with status 200 or 204 |
| ChNet.DevicesCloseLast | src/ch/ch_process.c:630-636 | on every way out of the loop the socket is closed last |
| ChNet.DevicesQueues | src/ch/ch_process.c:579-585 | a count of 0 is written back as 1 for the devices reached; on success every count is its number of queue pairs |
| ChNet.DevicesInOrder | src/ch/ch_process.c:578-632 | a device is only started when every earlier device was accepted |
| ChNet.DevicesSend | src/ch/ch_process.c:596-617 | each request sent is the device's payload framed with its UTF-8 byte length, with as many descriptors as queue pairs |
| Decimal.Utf8LenAscii | src/ch/ch_process.c:599 | the Content-Length `strlen` gives counts the payload's UTF-8 bytes, which equals its number of characters exactly when the payload is ASCII |
| Decimal.Utf8LenAccent | src/ch/ch_process.c:599 | a payload of one non-ASCII character has a Content-Length of 2 |
| ChNet.AddNetResult | src/ch/ch_process.c:536-636 | the handover succeeds exactly when the socket opens, the path's UTF-8 bytes fit sun_path with its terminator, it connects and every device is accepted; the socket is closed unless the path did not fit |
| ChNet.PathBytesCounted | src/ch/ch_process.c:559-563 | a path of 107 characters that is not ASCII, so at least 108 bytes, is refused after the socket call, without connecting |
| ChNet.AddNetKinds | src/ch/ch_process.c:536-636 | the handover makes network calls only |
| ChNet.AddNetworkDevices | src/ch/ch_process.c:536-636 | the method's return code, calls and written-back queue counts are those of the handover specification |
| ChNet.SendDevices | src/ch/ch_process.c:578-636 | the device loop matches the loop specification |
| ChNet.SendDevice | src/ch/ch_process.c:589-627 | one device succeeds exactly as the device predicate says and makes exactly its calls |
| ChPlacement.EmulatorJobs | src/ch/ch_process.c:275-282 | one placement per emulator tid, with cgroup id 0 and the emulator pin, bandwidth and scheduler |
| ChPlacement.IOJobs | src/ch/ch_process.c:242-254 | one placement per I/O thread id, with the automatic-placement mask and no scheduler |
| ChPlacement.ExecuteMakes | src/ch/ch_process.c:138-239 | a chain of calls either completes (0, exactly the chain) or fails (-1), and adds at most the removal of the scope it made |
| ChPlacement.ExecuteRollback | src/ch/ch_process.c:231-238 | a failure inside a scope ends by removing that scope |
| ChPlacement.MaskChoice | src/ch/ch_process.c:163-176 | the cgroup mask is the thread's mask, else the automatic placement's set, else the domain mask; the affinity falls back to every online host CPU |
| ChPlacement.MaskChoiceFails | src/ch/ch_process.c:170-176 | the host CPUs are unreadable only when no mask is given |
| ChPlacement.TailCalls | src/ch/ch_process.c:217-228 | the affinity call uses the chosen mask; the scheduler is set only for a thread with one that is not the emulator |
| ChPlacement.StepsCalls | src/ch/ch_process.c:193-213 | the cpuset, mems and bandwidth calls are made under their conditions, and the thread is then added to the scope |
| ChPlacement.PlanScope | src/ch/ch_process.c:183-215 | a planned placement makes its scope first, only with a cpu or cpuset controller, and never removes it |
| ChPlacement.PlanScopeCalls | src/ch/ch_process.c:183-215 | the planned cgroup calls carry the chosen mask, the strict NUMA node set and the bandwidth, each only with its controller |
| ChPlacement.PlanThreadCalls | src/ch/ch_process.c:217-228 | the planned affinity and scheduler calls are on the thread, with the chosen mask and its scheduler |
| ChPlacement.SetupPidRc | src/ch/ch_process.c:138-239 | a placement returns 0 or -1 |
| ChPlacement.BandwidthNeedsCpu | src/ch/ch_process.c:156-161 | bandwidth tuning without the CPU controller fails before any call |
| ChPlacement.TraceScopeCalls | src/ch/ch_process.c:183-238 | every cgroup call a placement makes is on its own scope and under its condition |
| ChPlacement.TraceThreadCalls | src/ch/ch_process.c:217-228 | the affinity set is the chosen mask or the online CPUs; the scheduler is set only for a non-emulator thread with one |
| ChPlacement.TraceSuccess | src/ch/ch_process.c:138-239 | a successful placement made every planned call and removed nothing |
| ChPlacement.TraceRollback | src/ch/ch_process.c:231-238 | a placement that fails after making its scope removes the scope as its last call |
| ChPlacement.FanOutSuccess | src/ch/ch_process.c:257-306 | a fan-out over threads succeeds exactly when every placement does, and then made all of them in order |
| ChPlacement.FanOutFirstFailure | src/ch/ch_process.c:257-306 | a fan-out stops at the first failing placement, and later threads are never started |
| ChPlacement.FanOutKinds | src/ch/ch_process.c:257-306 | a fan-out makes placement calls only |
| ChPlacement.TraceKinds | src/ch/ch_process.c:138-239 | a placement makes placement calls only |
| ChPlacement.Perform | src/ch/ch_process.c:193-228 | one call of the chain: appended to the log, succeeding as the environment says, the scope removed on failure |
| ChPlacement.Cleanup | src/ch/ch_process.c:231-238 | the cleanup label removes the scope when one was made, and returns -1 |
| ChPlacement.SetupScope | src/ch/ch_process.c:183-215 | the cgroup part follows the plan, and a failure ends with the scope removed |
| ChPlacement.SetupTail | src/ch/ch_process.c:217-238 | the affinity and scheduler part follows the plan |
| ChPlacement.SetupPid | src/ch/ch_process.c:138-239 | virCHProcessSetupPid's return code and calls are those of the plan run until the first failure |
| ChPlacement.SetupEmulatorThreads | src/ch/ch_process.c:285-306 | every emulator thread the monitor reports is placed, in order, stopping at the first failure |
| ChPlacement.SetupIOThreads | src/ch/ch_process.c:257-271 | every I/O thread is placed, in order, stopping at the first failure |
| ChProcess.UpdateStatus | src/ch/ch_process.c:357-378 | the reported state changes only the state and its reason |
| ChProcess.UpdateStatusNamed | src/ch/ch_process.c:357-378 | "Created", "Running", "Shutdown" and "Paused" set their states (no state, running, shut down, suspended), with reason 0 |
| ChProcess.UpdateStatusUnnamed | src/ch/ch_process.c:357-378 | no report, or an unknown string, changes nothing |
| ChProcess.UpdateStatusState | src/ch/ch_process.c:357-378 | the new state depends only on the old state and the report |
| ChProcess.UpdateInfoSpec | src/ch/ch_process.c:381-395 | the update asks the monitor once and changes only the state; on failure it changes nothing |
| ChProcess.CgroupRemovalShape | src/ch/ch_process.c:974-982 | from attempt k on: attempts numbered k to 5 with pauses between them, each pause after a busy attempt, the last attempt not busy or the last allowed |
| ChProcess.CgroupRemovalBound | src/ch/ch_process.c:974-982 | cgroup removal is attempted at most six times, and each retry follows EBUSY and a 200 ms pause |
| ChProcess.StopKinds | src/ch/ch_process.c:956-991 | Stop makes only monitor, host-device, cgroup, pause and state-file calls |
| ChProcess.StopEnds | src/ch/ch_process.c:956-991 | Stop returns 0 whatever the collaborators answer, and leaves the domain shut off for the reason, with pid and id -1 and no monitor; it reattaches host devices and closes a monitor exactly when one is held |
| ChProcess.StopTwice | src/ch/ch_process.c:956-991 | stopping a stopped domain again with the same reason leaves it unchanged, and the monitor is not closed twice |
| ChProcess.AssignTids | src/ch/ch_process.c:423-447 | each vCPU keeps a thread id slot; the count of vCPUs is unchanged |
| ChProcess.AssignTidsLast | src/ch/ch_process.c:423-447 | a vCPU no record names keeps its tid; a named one gets the tid of the last record naming it |
| ChProcess.VcpuJobs | src/ch/ch_process.c:492-500 | exactly the online vCPUs are placed, in increasing index order, each with its own mask, scheduler and the domain's bandwidth |
| ChProcess.SetupVcpusSpec | src/ch/ch_process.c:456-503 | the vCPU setup changes only the vCPU thread ids |
| ChProcess.SetupThreadsSpec | src/ch/ch_process.c:505-534 | thread setup changes only the vCPU thread ids |
| ChProcess.PlaceThreads | src/ch/ch_process.c:505-534 | emulator, I/O and vCPU placement change only the vCPU thread ids |
| ChProcess.PlaceVcpus | src/ch/ch_process.c:470-503 | the vCPU placement changes only the vCPU thread ids |
| ChProcess.VcpusNeedCpu | src/ch/ch_process.c:462-468 | bandwidth tuning without the CPU controller refuses the vCPUs before any call |
| ChProcess.VcpusWithoutPids | src/ch/ch_process.c:470-490 | without vCPU thread ids nothing is placed, and the setup fails exactly when an online vCPU is pinned differently from the domain |
| ChProcess.VcpusWithPids | src/ch/ch_process.c:492-503 | with vCPU thread ids the setup succeeds exactly when every online vCPU's placement does, and then made them all |
| ChProcess.ThreadsNoneReported | src/ch/ch_process.c:505-534 | when the refresh reports no threads, the setup returns 0 and nothing is placed |
| ChProcess.PinProcess | src/ch/ch_process.c:112-115 | the process affinity is one call, whose result is the step's |
| ChProcess.InitAffinityChoice | src/ch/ch_process.c:79-118 | without strict NUMA placement the process gets the emulator pin, else every online host CPU; it fails exactly without a pid, with unreadable CPUs or when the call fails |
| ChProcess.AbortSpec | src/ch/ch_process.c:724-728 | the cleanup label returns -1 and leaves the domain stopped as failed |
| ChProcess.StartEndThen | src/ch/ch_process.c:649-729 | earlier calls do not change how a start ends |
| ChProcess.StartFinishEnds | src/ch/ch_process.c:713-722 | the last stage leaves the guest running for the reason, or stopped as failed |
| ChProcess.StartRunEnds | src/ch/ch_process.c:706-722 | from the refresh on, a start ends as started or stopped as failed |
| ChProcess.StartBootEnds | src/ch/ch_process.c:693-722 | from affinity on, a start ends as started, stopped as failed, or -1 right after the host netdevs failed |
| ChProcess.StartNetEnds | src/ch/ch_process.c:679-722 | from the id assignment on, the same three ends, with the queue counts the handover writes back |
| ChProcess.StartEnds | src/ch/ch_process.c:649-729 | virCHProcessStart returns 0 with the guest launched and running, or -1 stopped as failed, except that a host-netdev failure returns -1 and leaves the guest launched |
| ChProcess.StartSuccess | src/ch/ch_process.c:664-688 | a started guest runs under the spawned hypervisor's pid (or the one it had with a monitor), and every queue count is its number of queue pairs |
| ChProcess.StopQuiet | src/ch/ch_process.c:956-991 | Stop sends no network request and does not boot |
| ChProcess.ThreadsQuiet | src/ch/ch_process.c:505-534 | thread setup sends no network request |
| ChProcess.StartFinishQuiet | src/ch/ch_process.c:713-722 | the last stage sends no network request |
| ChProcess.StartRunQuiet | src/ch/ch_process.c:706-722 | the stages after boot send no network request |
| ChProcess.StartBootQuiet | src/ch/ch_process.c:693-722 | the boot stage sends no network request |
| ChProcess.StartCgroupQuiet | src/ch/ch_process.c:690-722 | the cgroup stage and those after it send no network request |
| ChProcess.StartNetBeforeBoot | src/ch/ch_process.c:682-704 | every network device is handed over before the guest boots |
| ChProcess.ReconnectCleanup | src/ch/ch_process.c:838-849 | the job is ended exactly when it was begun, and an inactive domain is removed |
| ChProcess.StopNoJob | src/ch/ch_process.c:956-991 | Stop does not end the job, save the status or remove the domain |
| ChProcess.ReconnectEndThen | src/ch/ch_process.c:776-863 | earlier calls do not change how a reconnect ends |
| ChProcess.ErrorEnds | src/ch/ch_process.c:851-862 | the error label stops an active domain with reason unknown, leaving it inactive, and then cleans up |
| ChProcess.ReconnectStateEnds | src/ch/ch_process.c:814-849 | from the cgroup on, a reconnect ends with the job ended and the domain either held or dropped |
| ChProcess.ReconnectEnds | src/ch/ch_process.c:776-863 | a reconnect never leaves an active domain without its monitor, cgroup and saved status, and it ends the job exactly when one was begun |
| ChProcess.ReconnectShutdown | src/ch/ch_process.c:820-832 | a domain that shut down while the daemon was away ends shut off with reason daemon, and its status is not saved |
| ChProcess.ReportedShutdown | src/ch/ch_process.c:357-378 | of the state names, only "Shutdown" leads to finishing a shutdown |
| ChProcess.ReconnectEarlyError | src/ch/ch_process.c:797-805 | a failure before the monitor is reopened stops an active domain with reason unknown |
| ChProcess.ReconnectLateError | src/ch/ch_process.c:807-836 | a later failure stops the domain, whose pid made it active, with reason unknown |
| ChProcess.ReconnectHelperEnds | src/ch/ch_process.c:866-914 | the helper makes no call exactly when the domain has no pid, and then returns 0 with the domain unchanged; otherwise it starts with the thread "init-" + name, returns -1 exactly when that thread cannot be created (the domain then stopped as failed and removed), and else returns 0 with the reconnect's state |
| ChSupervisor.Domain.constructor | src/ch/ch_process.c:649-729 | a domain object with the given definition, collaborators and state |
| ChSupervisor.Domain.RemoveDomainStatus | src/ch/ch_process.c:936-954 | removes the status file, then the pid file if there is one |
| ChSupervisor.Domain.RemoveCgroupRetrying | src/ch/ch_process.c:974-982 | the retry loop makes exactly the calls of the removal specification |
| ChSupervisor.Domain.CloseMonitor | src/ch/ch_process.c:967-970 | a held monitor is closed and dropped; nothing else changes |
| ChSupervisor.Domain.ReleaseHost | src/ch/ch_process.c:972-982 | host devices are reattached, then the cgroup is removed |
| ChSupervisor.Domain.Stop | src/ch/ch_process.c:956-991 | return code, calls and new state follow the Stop specification |
| ChSupervisor.Domain.UpdateInfo | src/ch/ch_process.c:381-395 | return code, calls and new state follow the update specification |
| ChSupervisor.Domain.SetupVcpuPids | src/ch/ch_process.c:423-447 | each vCPU's thread id is stored from the monitor's records, and nothing else changes |
| ChSupervisor.Domain.CheckVcpuAffinity | src/ch/ch_process.c:472-490 | it fails exactly on an online vCPU pinned differently from the domain |
| ChSupervisor.Domain.PlaceVcpuThreads | src/ch/ch_process.c:492-503 | the online vCPUs are placed in order, stopping at the first failure |
| ChSupervisor.Domain.SetupVcpus | src/ch/ch_process.c:456-503 | follows the vCPU setup specification |
| ChSupervisor.Domain.SetupThreads | src/ch/ch_process.c:505-534 | follows the thread setup specification |
| ChSupervisor.Domain.Abort | src/ch/ch_process.c:724-728 | follows the cleanup label's specification |
| ChSupervisor.Domain.InitCpuAffinity | src/ch/ch_process.c:79-118 | follows the process affinity specification |
| ChSupervisor.Domain.Start | src/ch/ch_process.c:649-729 | return code, calls and new state follow the Start specification |
| ChSupervisor.Domain.StartMonitor | src/ch/ch_process.c:664-677 | the monitor stage follows its specification |
| ChSupervisor.Domain.StartNet | src/ch/ch_process.c:679-688 | the id, machine name and network stage follows its specification |
| ChSupervisor.Domain.StartCgroup | src/ch/ch_process.c:690-691 | the cgroup stage follows its specification |
| ChSupervisor.Domain.StartBoot | src/ch/ch_process.c:693-704 | the affinity, netdev and boot stage follows its specification |
| ChSupervisor.Domain.StartRun | src/ch/ch_process.c:706-711 | the refresh and thread stage follows its specification |
| ChSupervisor.Domain.StartFinish | src/ch/ch_process.c:713-722 | the final stage follows its specification |
| ChSupervisor.Domain.ReconnectDone | src/ch/ch_process.c:838-849 | the cleanup label makes exactly the cleanup calls |
| ChSupervisor.Domain.ReconnectFail | src/ch/ch_process.c:851-862 | the error label follows its specification |
| ChSupervisor.Domain.Reconnect | src/ch/ch_process.c:776-863 | calls and new state follow the Reconnect specification |
| ChSupervisor.Domain.ReconnectMonitor | src/ch/ch_process.c:801-812 | the host device, monitor and machine name stage follows its specification |
| ChSupervisor.Domain.ReconnectState | src/ch/ch_process.c:814-820 | the cgroup and state stage follows its specification |
| ChSupervisor.Domain.ReconnectSave | src/ch/ch_process.c:822-836 | the shutdown-or-save stage follows its specification |
| ChSupervisor.Domain.ReconnectHelper | src/ch/ch_process.c:866-914 | return code, calls and new state follow the helper's specification |
| VzConnect.OpenVerdict | src/vz/vz_driver.c:346-374 | unknown flags are an error; a URI that is not for this driver is declined; it proceeds exactly for a local vz:// or parallels:// URI matching the driver name and with path /system |
| VzConnect.Unlink | src/vz/vz_driver.c:412-418 | removing a connection shortens the list by one exactly when it is listed |
| VzConnect.UnlinkAbsent | src/vz/vz_driver.c:412-418 | an unlisted connection leaves the list as it is |
| VzConnect.UnlinkAt | src/vz/vz_driver.c:412-418 | unlinking removes exactly the entry at the first match |
| VzConnect.UnlinkDistinct | src/vz/vz_driver.c:412-418 | in a list without repeats, every other connection is kept, and no copy of the removed one remains |
| VzConnect.OpenThenClose | src/vz/vz_driver.c:388-418 | closing the connection just opened restores the list |
| VzConnect.ConnList.constructor | src/vz/vz_driver.c:337-401 | the driver starts with no connections |
| VzConnect.Connection.constructor | src/vz/vz_driver.c:337-401 | a new connection has no private part |
| VzConnect.ConnList.Open | src/vz/vz_driver.c:337-401 | the status follows the verdict and the allocations; only a success puts the new private part at the head of the list; a failed callback setup drops the private part |
| VzConnect.ConnList.Close | src/vz/vz_driver.c:403-427 | returns 0, unlinks the connection's private part from the list and clears it |
| VzUri.ParseVzUri | src/vz/vz_driver.c:2502-2536 | accepted exactly when the URI has scheme vzmigr, a server, at most a port and nothing else; an unparsable text is refused first |
| VzUri.MissingBeforeExtra | src/vz/vz_driver.c:2510-2522 | a missing scheme or server is reported before any extra part |
| VzUri.MigrationCreateUri | src/vz/vz_driver.c:2420-2442 | a host name starting with "localhost" is refused; otherwise the URI is "vzmigr://" followed by the host name |
| VzUri.CreatedUriAccepted | src/vz/vz_driver.c:2420-2536 | the URI the destination offers, read back, is accepted by the source with the destination's host as server |
| VzCookie.HexRunBack | src/vz/vz_driver.c:2271 | bytes printed two hex digits each read back as the bytes |
| VzCookie.UuidFormat | src/vz/vz_driver.c:2271 | a UUID's text is 36 characters long |
| VzCookie.UuidRoundTrip | src/vz/vz_driver.c:2270-2281 | the UUID text in the cookie reads back as the UUID |
| VzCookie.NulIndex | src/vz/vz_driver.c:2298 | where the C string ends: no NUL before it, and a NUL at it unless the text ends there |
| VzCookie.Strlen | src/vz/vz_driver.c:2298 | strlen counts the UTF-8 bytes before the first NUL: at least one and at most four per character |
| VzCookie.StrlenNoNul | src/vz/vz_driver.c:2298 | a text without NUL is counted whole, in UTF-8 bytes |
| VzCookie.StrlenAccent | src/vz/vz_driver.c:2298 | one accented letter counts 2 for strlen |
| VzCookie.BakeCookie | src/vz/vz_driver.c:2249-2301 | -1 exactly when an output pointer is missing; otherwise the cookie text and its strlen plus one |
| VzCookie.WriteElements | src/vz/vz_driver.c:2267-2288 | the header followed by one line per element the flags ask for, in the cookie's order |
| VzCookie.UuidWithName | src/vz/vz_driver.c:2224-2226 | the domain UUID and name share a flag bit, so a cookie carries both or neither |
| VzCookie.NoDomain | src/vz/vz_driver.c:2276-2290 | without a domain the cookie carries the all-zero UUID and the name "__fakename__" |
| VzCookie.CookieShape | src/vz/vz_driver.c:2264-2298 | the cookie is wrapped in the vz-migration element; strlen reads the whole text, so the length reported is its UTF-8 byte count plus one, which is its character count plus one exactly when the text is ASCII |
| VzDomain.GetJobInfo | src/vz/vz_driver.c:2790-2811 | no running job, or no progress, gives 0 with an all-zero record; a failing time update gives -1 with the record zeroed |
| VzDomain.JobProgressSplits | src/vz/vz_driver.c:2803-2808 | a percentage reported splits the unbounded job's total of 100 into processed and remaining |
| VzDomain.JobProgressOver | src/vz/vz_driver.c:2806 | a percentage above 100 makes the remaining field wrap as an unsigned long long |
| VzDomain.SumKnownAppend | src/vz/vz_driver.c:1381-1392 | the per-counter sum over the disks is additive |
| VzDomain.SumKnownUnknown | src/vz/vz_driver.c:1385-1387 | a disk whose counter is unknown (-1) adds nothing |
| VzDomain.SumKnownNonNegative | src/vz/vz_driver.c:1385-1387 | counters that are counts or unknown sum to a count |
| VzDomain.AllDisksSome | src/vz/vz_driver.c:1381-1383 | the domain's disks are read all together exactly when the SDK gives each of them |
| VzDomain.WholeDomainStats | src/vz/vz_driver.c:1371-1394 | for the empty path each counter is the sum of the known values over the disks, and the error count is unknown |
| VzDomain.DomainBlockStats | src/vz/vz_driver.c:1349-1401 | a path must name a disk the SDK can read; the empty path sums over all disks and fails on the first it cannot read |
| VzDomain.SumDisks | src/vz/vz_driver.c:1374-1392 | the loop sums the known values, stopping at the first failing disk |
| VzDomain.KnownParamsExact | src/vz/vz_driver.c:1433-1446 | the typed parameters are exactly the known counters, each under its own name, at most four |
| VzDomain.BlockStatsFlags | src/vz/vz_driver.c:1403-1451 | refuses unknown flags and unreadable statistics; with nparams 0 it counts the known counters; otherwise it writes them in order up to nparams and reports how many |
| VzDomain.CountKnown | src/vz/vz_driver.c:1421-1430 | counts the counters that are not -1 |
| VzDomain.FillKnown | src/vz/vz_driver.c:1433-1446 | writes the known counters in order while there is room, and leaves the rest of the array |
| VzDomain.LowerString | src/vz/vz_driver.c:1543 | ASCII lower case, character by character |
| VzDomain.MaxVcpus | src/vz/vz_driver.c:1538-1549 | 1028 exactly for no type or "vz" or "parallels" in any case; -1 otherwise |
| VzDomain.MaxVcpusCaseBlind | src/vz/vz_driver.c:1543 | the answer does not depend on the case of the type |
| VzDomain.CheckConfigUpdateFlags | src/vz/vz_driver.c:1135-1155 | 0 exactly when the impact is accepted, includes the config and, for a running domain, also the live state; the flags are updated |

## Left out

- `src/ch/ch_domain.c`, `src/ch/ch_cgroup.c`, `src/ch/ch_monitor.c`, `src/ch/ch_hostdev.c`, `src/vz/vz_sdk.c` and `src/vz/vz_utils.h` are not part of this model. Their functions are collaborator calls whose results are inputs. The following behaviour of those calls is assumed:
  - `virCHDomainHasVcpuPids` holds when some vCPU thread id is positive.
  - `virCHMonitorNew` stores the spawned pid in the domain.
  - `chSetupCgroup` and `chConnectCgroup` make the domain hold a cgroup; Stop does not clear it.
- The libvirt utility code is not part of this model. Each of the following is given as an input:
  - URI parsing (`virURIParse`);
  - the host name (`virGetHostname`);
  - `virDomainObjUpdateModificationImpact`;
  - the command run by `chExtractVersionInfo`;
  - the clock of the job time;
  - the disk index of a path.
- `PARALLELS_BLOCK_STATS_FOREACH` is taken to run, in order, over the four counters: read requests, read bytes, write requests and write bytes. Their names are "rd_operations", "rd_bytes", "wr_operations" and "wr_bytes".
- The state a domain is in is given by its id: it is active exactly when its id is not -1.
- The tuning the placement reads is a value in the definition. Strict single-node NUMA memory placement is a flag, and the node-set conversion is a single call.
- Concurrency is not modelled. This covers the driver and domain locks, the reconnect thread (its body runs in place) and `chProcessReconnectAll`'s iteration over the domain list. `virCHProcessReconnect`'s old-job restore is also left out.
- ChNet.DevicesSend: the payload is a character string and its Content-Length is its UTF-8 byte count, as `strlen` gives it. The byte encoding itself is not modelled, and neither is a NUL inside the payload, which would end `strlen` early.
- ChProcess.ThreadsFit: the monitor is assumed to report only vCPU cpuids the definition has. For any other cpuid, `src/ch/ch_process.c:440-442` writes through a NULL vCPU, which has no defined outcome. The members that require it are ChProcess.AssignTids, AssignTidsLast, VcpuPlan, PlaceVcpus, PlaceThreads, SetupVcpusSpec, SetupThreadsSpec, the Start stage functions and their lemmas, and ChSupervisor.Domain.SetupVcpuPids, SetupVcpus, SetupThreads, Start and its stages.
- ChPlacement.SetupIOThreads: a failure of `virCHMonitorGetIOThreads` is not modelled. Its -1 would be stored in a `size_t` (`src/ch/ch_process.c:262-263`) and a NULL array read. `ioThreads` is the list the monitor reports.
- ChPlacement.SetupEmulatorThreads: a second emulator thread's cgroup setup cannot fail after the first one's succeeded. All emulator placements use cgroup id 0, so their identical cgroup calls get one answer.
- ChConf.DriverConfig.constructor: the NULL return of `virCHDriverConfigNew` when `virCHConfigInitialize` or `virObjectNew` fails (`src/ch/ch_conf.c:138-142`) is not modelled; the constructor always builds the configuration.
- ChProcess.UpdateStatus: a "state" member that is not a string is not modelled. `virJSONValueGetString` then gives NULL, which `STREQ` reads (`src/ch/ch_process.c:367-369`), with no defined outcome. `liveState` is None only when the member is absent.
- ChProcess.UpdateStatus: the console device update (`virCHProcessUpdateConsole`) is not modelled; it changes no state the model keeps.
- ChConf.ExtractVersionInfo: the command's environment and output capture are not modelled, only the command's outcome.
- ChConf.ScanFields: only the fields are modelled; sscanf's behaviour on overflow is undefined.
- The capability and XML-option helpers of `src/ch/ch_conf.c` are not modelled, since they only build and reference-count objects. Nor is the config object's reference counting or disposal.
- VzCookie.BakeCookie: the buffer's out-of-memory error (`virBufferCheckError`) is not modelled.
- The cookie reader (`vzEatCookie`) uses libxml and is not modelled.
- VzDomain.DomainBlockStats: the lookup of the domain object is not modelled, and neither are the statistics left behind on failure. On failure only the -1 is stated.
- VzDomain.SumDisks: an overflow of the `long long` sums is not modelled.
- VzDomain.BlockStatsFlags: a failure of `virTypedParameterAssign` is not modelled, as it cannot fail for these names.
- VzDomain.GetJobInfo: `100 - progress` is computed exactly. In C it is an `int` subtraction (`src/vz/vz_driver.c:2806`), which overflows, with no defined outcome, for a progress below INT_MIN + 100; the model then gives the exact difference reduced as an `unsigned long long`.
- ChNet.AddNetworkDevices: a NUL inside the socket path, which would end `virStrcpyStatic`'s copy early, is not modelled; the path's full UTF-8 byte count is compared with `sun_path`.
- VzDomain.GetJobInfo: the job's elapsed time is the clock's answer; its computation is not modelled.
- The vz operations that call into the Parallels SDK (domain lifecycle, devices, snapshots, migration phases) are not modelled, as they are foreign calls.
