/**
 * What the Cloud-Hypervisor monitor reports about the threads of a running
 * guest: one record per thread, tagged by kind (emulator, vCPU, I/O, unknown).
 */
module ChMonitor {

  /** Thread names are held in a 16-byte buffer, terminator included. */
  const ThreadNameLen: nat := 16

  /** The tagged union of a thread record: the kind and its per-kind payload. */
  datatype ThreadKind =
    | Emulator(name: string)
    | Vcpu(cpuid: int, online: bool)
    | IO(name: string)
    | Unknown

  datatype ThreadInfo = ThreadInfo(kind: ThreadKind, tid: int)

  /** A record whose name fits its buffer. */
  predicate WellFormedThread(t: ThreadInfo) {
    match t.kind
    case Emulator(name) => |name| < ThreadNameLen
    case IO(name) => |name| < ThreadNameLen
    case _ => true
  }

  /** The tids of the emulator threads, in the monitor's order. */
  function EmulatorTids(threads: seq<ThreadInfo>): (tids: seq<int>)
    ensures |tids| <= |threads|
    ensures forall t :: t in tids <==> exists i :: 0 <= i < |threads| && threads[i].kind.Emulator? && threads[i].tid == t
  {
    if threads == [] then []
    else
      var rest := EmulatorTids(threads[1..]);
      assert forall i :: 0 < i < |threads| ==> threads[i] == threads[1..][i - 1];
      if threads[0].kind.Emulator? then [threads[0].tid] + rest else rest
  }

  /** The vCPU records, in the monitor's order, as (cpuid, tid) pairs. */
  function VcpuThreads(threads: seq<ThreadInfo>): (r: seq<(int, int)>)
    ensures |r| <= |threads|
    ensures forall p :: p in r <==> exists i :: 0 <= i < |threads| && threads[i].kind.Vcpu? && (threads[i].kind.cpuid, threads[i].tid) == p
  {
    if threads == [] then []
    else
      var rest := VcpuThreads(threads[1..]);
      assert forall i :: 0 < i < |threads| ==> threads[i] == threads[1..][i - 1];
      if threads[0].kind.Vcpu? then [(threads[0].kind.cpuid, threads[0].tid)] + rest else rest
  }

  /** A single record gives its tid exactly when it is an emulator record. */
  lemma EmulatorTidsOne(x: ThreadInfo)
    ensures EmulatorTids([x]) == if x.kind.Emulator? then [x.tid] else []
  {
    assert [x][1..] == [];
  }

  /**
   * The emulator tids of two runs of records are those of the first, then
   * those of the second; with the single-record case this fixes the result,
   * in the monitor's order and with one entry per emulator record.
   */
  lemma {:induction false} EmulatorTidsAppend(s: seq<ThreadInfo>, t: seq<ThreadInfo>)
    ensures EmulatorTids(s + t) == EmulatorTids(s) + EmulatorTids(t)
  {
    if s == [] {
      assert s + t == t;
    } else {
      assert (s + t)[0] == s[0] && (s + t)[1..] == s[1..] + t;
      EmulatorTidsAppend(s[1..], t);
      if s[0].kind.Emulator? {
        assert [s[0].tid] + (EmulatorTids(s[1..]) + EmulatorTids(t)) == ([s[0].tid] + EmulatorTids(s[1..])) + EmulatorTids(t);
      }
    }
  }

  /** A single record gives its pair exactly when it is a vCPU record. */
  lemma VcpuThreadsOne(x: ThreadInfo)
    ensures VcpuThreads([x]) == if x.kind.Vcpu? then [(x.kind.cpuid, x.tid)] else []
  {
    assert [x][1..] == [];
  }

  /** The vCPU pairs of two runs of records are those of the first, then those of the second. */
  lemma {:induction false} VcpuThreadsAppend(s: seq<ThreadInfo>, t: seq<ThreadInfo>)
    ensures VcpuThreads(s + t) == VcpuThreads(s) + VcpuThreads(t)
  {
    if s == [] {
      assert s + t == t;
    } else {
      assert (s + t)[0] == s[0] && (s + t)[1..] == s[1..] + t;
      VcpuThreadsAppend(s[1..], t);
      if s[0].kind.Vcpu? {
        var p := (s[0].kind.cpuid, s[0].tid);
        assert [p] + (VcpuThreads(s[1..]) + VcpuThreads(t)) == ([p] + VcpuThreads(s[1..])) + VcpuThreads(t);
      }
    }
  }

  /** Every vCPU record names a vCPU of a definition with n vCPUs. */
  predicate VcpuIdsBelow(threads: seq<ThreadInfo>, n: nat) {
    forall i :: 0 <= i < |threads| && threads[i].kind.Vcpu? ==> 0 <= threads[i].kind.cpuid < n
  }
}
