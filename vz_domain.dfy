/**
 * Domain queries of the Virtuozzo driver (src/vz/vz_driver.c) that do not
 * depend on the SDK beyond the values it hands over: migration job
 * progress, block statistics, the vCPU limit and the flags of a
 * configuration update.
 */
module VzDomain {
  import opened Decimal

  // ---------------------------------------------------------------------------
  // Job progress

  newtype int32 = x: int | -0x8000_0000 <= x < 0x8000_0000

  const ULongRange: int := 0x1_0000_0000_0000_0000

  /** An int as an unsigned long long: negative values wrap. */
  function ToULong(x: int): (r: nat)
    requires -ULongRange < x < ULongRange
    ensures r < ULongRange && (r - x) % ULongRange == 0
  {
    if x < 0 then x + ULongRange else x
  }

  /** The job record of a domain: whether one runs, whether it reports progress, the percentage. */
  datatype Job = Job(active: bool, hasProgress: bool, progress: int32)

  /** The fields of virDomainJobInfo the driver sets; every other field stays 0. */
  datatype JobInfo = JobInfo(kind: nat, timeElapsed: nat, dataTotal: nat, dataProcessed: nat, dataRemaining: nat)

  const NoJobInfo := JobInfo(0, 0, 0, 0, 0)

  /** VIR_DOMAIN_JOB_UNBOUNDED. */
  const JobUnbounded: nat := 2

  datatype JobReply = JobReply(rc: int, info: JobInfo)

  /**
   * vzDomainGetJobInfoImpl.  `elapsed` is what updating the job's time
   * gives, None when that fails.  The record is cleared first; only a
   * running job with progress fills it, out of 100.
   */
  function GetJobInfo(job: Job, elapsed: Option<nat>): (r: JobReply)
    ensures r.rc == 0 || r.rc == -1
    ensures !job.active || !job.hasProgress ==> r == JobReply(0, NoJobInfo)
    ensures r.rc == -1 <==> job.active && job.hasProgress && elapsed.None?
    ensures r.rc == -1 ==> r.info == NoJobInfo
  {
    if !job.active || !job.hasProgress then JobReply(0, NoJobInfo)
    else if elapsed.None? then JobReply(-1, NoJobInfo)
    else
      JobReply(0, JobInfo(JobUnbounded, elapsed.value, 100, ToULong(job.progress as int), ToULong(100 - job.progress as int)))
  }

  /** A percentage reported splits the total of 100 into what is done and what remains. */
  lemma JobProgressSplits(job: Job, elapsed: nat)
    requires job.active && job.hasProgress && 0 <= job.progress <= 100
    ensures GetJobInfo(job, Some(elapsed)).info.kind == JobUnbounded
    ensures GetJobInfo(job, Some(elapsed)).info.dataProcessed == job.progress as int
    ensures GetJobInfo(job, Some(elapsed)).info.dataProcessed + GetJobInfo(job, Some(elapsed)).info.dataRemaining
      == GetJobInfo(job, Some(elapsed)).info.dataTotal
    ensures GetJobInfo(job, Some(elapsed)).info.timeElapsed == elapsed
  {
  }

  /** A percentage above 100 is not checked: the remainder wraps to a huge unsigned value. */
  lemma JobProgressOver(job: Job, elapsed: nat)
    requires job.active && job.hasProgress && job.progress > 100
    ensures GetJobInfo(job, Some(elapsed)).info.dataRemaining == ULongRange - (job.progress as int - 100)
  {
  }

  // ---------------------------------------------------------------------------
  // Block statistics

  /** virDomainBlockStatsStruct; -1 marks a counter that is not known. */
  datatype BlockStats = BlockStats(rdReq: int, rdBytes: int, wrReq: int, wrBytes: int, errs: int)

  /** The counters PARALLELS_BLOCK_STATS_FOREACH runs over. */
  datatype Counter = RdReq | RdBytes | WrReq | WrBytes

  /** Their order. */
  const Counters: seq<Counter> := [RdReq, RdBytes, WrReq, WrBytes]

  function Get(s: BlockStats, c: Counter): int {
    match c
    case RdReq => s.rdReq
    case RdBytes => s.rdBytes
    case WrReq => s.wrReq
    case WrBytes => s.wrBytes
  }

  /** The typed-parameter name of each counter. */
  function ParamName(c: Counter): string {
    match c
    case RdReq => "rd_operations"
    case RdBytes => "rd_bytes"
    case WrReq => "wr_operations"
    case WrBytes => "wr_bytes"
  }

  /** The known value of a counter of one disk, or nothing. */
  function Known(d: BlockStats, c: Counter): int {
    if Get(d, c) != -1 then Get(d, c) else 0
  }

  /** The sum of a counter over the disks, unknown values left out. */
  function SumKnown(disks: seq<BlockStats>, c: Counter): int {
    if disks == [] then 0 else SumKnown(disks[..|disks| - 1], c) + Known(disks[|disks| - 1], c)
  }

  lemma {:induction false} SumKnownAppend(a: seq<BlockStats>, b: seq<BlockStats>, c: Counter)
    ensures SumKnown(a + b, c) == SumKnown(a, c) + SumKnown(b, c)
    decreases |b|
  {
    if b == [] {
      assert a + b == a;
    } else {
      var b' := b[..|b| - 1];
      assert (a + b)[..|a + b| - 1] == a + b';
      SumKnownAppend(a, b', c);
    }
  }

  /**
   * The sum does not depend on how the disks are grouped, and a disk whose
   * counter is unknown adds nothing to it.
   */
  lemma SumKnownUnknown(a: seq<BlockStats>, d: BlockStats, b: seq<BlockStats>, c: Counter)
    requires Get(d, c) == -1
    ensures SumKnown(a + [d] + b, c) == SumKnown(a + b, c)
  {
    SumKnownAppend(a + [d], b, c);
    SumKnownAppend(a, b, c);
    assert (a + [d])[..|a + [d]| - 1] == a;
  }

  /** Counters that are counts or unknown add up to a count. */
  lemma {:induction false} SumKnownNonNegative(disks: seq<BlockStats>, c: Counter)
    requires forall i :: 0 <= i < |disks| ==> Get(disks[i], c) >= -1
    ensures SumKnown(disks, c) >= 0
  {
    if disks != [] {
      SumKnownNonNegative(disks[..|disks| - 1], c);
    }
  }

  /** All disks, or None when the SDK cannot give the counters of one of them. */
  function AllDisks(disks: seq<Option<BlockStats>>): Option<seq<BlockStats>> {
    if disks == [] then Some([])
    else
      var front := AllDisks(disks[..|disks| - 1]);
      if front.None? || disks[|disks| - 1].None? then None
      else Some(front.value + [disks[|disks| - 1].value])
  }

  /**
   * vzDomainBlockStats: for a path, the counters of the disk it names; for
   * the empty path, those of every disk summed.  `index` is the disk the
   * path names, None when it names none; `disks` are the SDK's counters of
   * each disk, None where it fails.  The error count is never known.
   */
  function DomainStats(path: string, index: Option<nat>, disks: seq<Option<BlockStats>>): Option<BlockStats>
    requires index.Some? ==> index.value < |disks|
  {
    if path != "" then
      if index.None? || disks[index.value].None? then None
      else Some(disks[index.value].value.(errs := -1))
    else
      match AllDisks(disks)
      case None => None
      case Some(ds) =>
        Some(BlockStats(SumKnown(ds, RdReq), SumKnown(ds, RdBytes), SumKnown(ds, WrReq), SumKnown(ds, WrBytes), -1))
  }

  lemma AllDisksSome(disks: seq<Option<BlockStats>>)
    ensures AllDisks(disks).Some? <==> forall i :: 0 <= i < |disks| ==> disks[i].Some?
    ensures AllDisks(disks).Some? ==>
      |AllDisks(disks).value| == |disks| && forall i :: 0 <= i < |disks| ==> AllDisks(disks).value[i] == disks[i].value
  {
    if disks != [] {
      AllDisksSome(disks[..|disks| - 1]);
    }
  }

  /** The counters of one disk, or of the whole domain through the loop of the source. */
  method DomainBlockStats(path: string, index: Option<nat>, disks: seq<Option<BlockStats>>) returns (rc: int, stats: BlockStats)
    requires index.Some? ==> index.value < |disks|
    ensures rc == 0 || rc == -1
    ensures rc == 0 <==> DomainStats(path, index, disks).Some?
    ensures rc == 0 ==> stats == DomainStats(path, index, disks).value
  {
    if path != "" {
      if index.None? || disks[index.value].None? {
        return -1, BlockStats(0, 0, 0, 0, 0);
      }
      stats := disks[index.value].value;
    } else {
      var ok;
      ok, stats := SumDisks(disks);
      if !ok {
        return -1, stats;
      }
    }
    stats := stats.(errs := -1);
    rc := 0;
  }

  /** The sums over every disk, stopping at the first disk the SDK fails on. */
  method SumDisks(disks: seq<Option<BlockStats>>) returns (ok: bool, stats: BlockStats)
    ensures ok <==> AllDisks(disks).Some?
    ensures ok ==> stats == Totals(AllDisks(disks).value)
  {
    stats := BlockStats(0, 0, 0, 0, 0);
    ghost var ds: seq<BlockStats> := [];
    var i := 0;
    while i < |disks|
      invariant 0 <= i <= |disks|
      invariant AllDisks(disks[..i]) == Some(ds)
      invariant stats == Totals(ds)
    {
      AllDisksStep(disks, i);
      if disks[i].None? {
        AllDisksNone(disks, i + 1);
        return false, stats;
      }
      var d := disks[i].value;
      TotalsStep(ds, d);
      assert AllDisks(disks[..i + 1]) == Some(ds + [d]);
      stats := stats.(rdReq := stats.rdReq + Known(d, RdReq), rdBytes := stats.rdBytes + Known(d, RdBytes),
                      wrReq := stats.wrReq + Known(d, WrReq), wrBytes := stats.wrBytes + Known(d, WrBytes));
      assert stats == Totals(ds + [d]);
      ds := ds + [d];
      i := i + 1;
    }
    assert disks[..i] == disks;
    ok := true;
  }

  /** The four sums, with the error count 0 as the loop leaves it. */
  function Totals(ds: seq<BlockStats>): BlockStats {
    BlockStats(SumKnown(ds, RdReq), SumKnown(ds, RdBytes), SumKnown(ds, WrReq), SumKnown(ds, WrBytes), 0)
  }

  lemma TotalsStep(ds: seq<BlockStats>, d: BlockStats)
    ensures Totals(ds + [d]) == Totals(ds).(rdReq := Totals(ds).rdReq + Known(d, RdReq),
      rdBytes := Totals(ds).rdBytes + Known(d, RdBytes), wrReq := Totals(ds).wrReq + Known(d, WrReq),
      wrBytes := Totals(ds).wrBytes + Known(d, WrBytes))
  {
    assert (ds + [d])[..|ds|] == ds;
  }

  lemma AllDisksStep(disks: seq<Option<BlockStats>>, i: nat)
    requires i < |disks|
    ensures AllDisks(disks[..i + 1]) ==
      if AllDisks(disks[..i]).None? || disks[i].None? then None else Some(AllDisks(disks[..i]).value + [disks[i].value])
  {
    assert disks[..i + 1][..i] == disks[..i];
  }

  /** Once a prefix fails, so does the whole. */
  lemma {:induction false} AllDisksNone(disks: seq<Option<BlockStats>>, i: nat)
    requires i <= |disks| && AllDisks(disks[..i]).None?
    ensures AllDisks(disks).None?
    decreases |disks| - i
  {
    if i < |disks| {
      AllDisksStep(disks, i);
      AllDisksNone(disks, i + 1);
    } else {
      assert disks[..i] == disks;
    }
  }

  /** The sums of DomainStats for the whole domain are those of the disks, each unknown value left out. */
  lemma WholeDomainStats(disks: seq<Option<BlockStats>>, c: Counter)
    requires forall i :: 0 <= i < |disks| ==> disks[i].Some?
    ensures DomainStats("", None, disks).Some?
    ensures Get(DomainStats("", None, disks).value, c) == SumKnown(AllDisks(disks).value, c)
    ensures DomainStats("", None, disks).value.errs == -1
  {
    AllDisksSome(disks);
  }

  /** A typed parameter of type long long. */
  datatype TypedParam = TypedParam(field: string, value: int)

  function Param(s: BlockStats, c: Counter): TypedParam {
    TypedParam(ParamName(c), Get(s, c))
  }

  /** The known counters among cs as typed parameters, in order. */
  function KnownParams(s: BlockStats, cs: seq<Counter>): seq<TypedParam> {
    if cs == [] then []
    else KnownParams(s, cs[..|cs| - 1]) + (if Get(s, cs[|cs| - 1]) != -1 then [Param(s, cs[|cs| - 1])] else [])
  }

  lemma {:induction false} KnownParamsMembers(s: BlockStats, cs: seq<Counter>)
    ensures |KnownParams(s, cs)| <= |cs|
    ensures forall c :: c in cs && Get(s, c) != -1 ==> Param(s, c) in KnownParams(s, cs)
    ensures forall p :: p in KnownParams(s, cs) ==> exists c :: c in cs && Get(s, c) != -1 && p == Param(s, c)
  {
    if cs != [] {
      KnownParamsMembers(s, cs[..|cs| - 1]);
      assert cs == cs[..|cs| - 1] + [cs[|cs| - 1]];
    }
  }

  /**
   * The parameters are exactly the known counters, each under its own name:
   * no unknown value is reported and none is left out.
   */
  lemma KnownParamsExact(s: BlockStats)
    ensures |KnownParams(s, Counters)| <= 4
    ensures forall p :: p in KnownParams(s, Counters) ==> p.value != -1
    ensures forall c :: Param(s, c) in KnownParams(s, Counters) <==> Get(s, c) != -1
  {
    KnownParamsMembers(s, Counters);
    forall c ensures Param(s, c) in KnownParams(s, Counters) <==> Get(s, c) != -1 {
      assert c in Counters by {
        match c
        case RdReq => assert Counters[0] == c;
        case RdBytes => assert Counters[1] == c;
        case WrReq => assert Counters[2] == c;
        case WrBytes => assert Counters[3] == c;
      }
      if Param(s, c) in KnownParams(s, Counters) {
        var c' :| c' in Counters && Get(s, c') != -1 && Param(s, c) == Param(s, c');
        assert ParamName(c) == ParamName(c');
      }
    }
  }

  /** VIR_TYPED_PARAM_STRING_OKAY, the only flag accepted. */
  const TypedParamStringOkay: bv32 := 4

  function Min(a: int, b: int): int { if a < b then a else b }

  /**
   * vzDomainBlockStatsFlags.  With no room given (`nparams` 0) it reports how
   * many counters are known; otherwise it writes the known ones, in order,
   * as far as there is room, and reports how many it wrote.  The public entry
   * point refuses a negative `nparams` before this.
   */
  method BlockStatsFlags(path: string, index: Option<nat>, disks: seq<Option<BlockStats>>,
                         flags: bv32, params: array<TypedParam>, nparams: int)
    returns (rc: int, n: int)
    requires index.Some? ==> index.value < |disks|
    requires 0 <= nparams <= params.Length
    modifies params
    ensures rc == 0 || rc == -1
    ensures rc == -1 <==> flags & !TypedParamStringOkay != 0 || DomainStats(path, index, disks).None?
    ensures rc == -1 ==> n == nparams && params[..] == old(params[..])
    ensures rc == 0 && nparams == 0 ==>
      n == |KnownParams(DomainStats(path, index, disks).value, Counters)| && params[..] == old(params[..])
    ensures rc == 0 && nparams > 0 ==>
      var known := KnownParams(DomainStats(path, index, disks).value, Counters);
      n == Min(nparams, |known|) && params[..n] == known[..n] && params[n..] == old(params[n..])
  {
    n := nparams;
    if flags & !TypedParamStringOkay != 0 {
      return -1, n;
    }
    var r, stats := DomainBlockStats(path, index, disks);
    if r < 0 {
      return -1, n;
    }
    if nparams == 0 {
      n := CountKnown(stats);
      return 0, n;
    }
    n := FillKnown(stats, Counters, params, nparams);
    rc := 0;
  }

  /** The counting branch: one for each counter that is known. */
  method CountKnown(s: BlockStats) returns (n: int)
    ensures n == |KnownParams(s, Counters)|
  {
    n := 0;
    var k := 0;
    while k < |Counters|
      invariant 0 <= k <= |Counters|
      invariant n == |KnownParams(s, Counters[..k])|
    {
      assert Counters[..k + 1][..k] == Counters[..k];
      if Get(s, Counters[k]) != -1 {
        n := n + 1;
      }
      k := k + 1;
    }
    assert Counters[..k] == Counters;
  }

  /** The filling branch: the known counters in order, while there is room. */
  method FillKnown(s: BlockStats, cs: seq<Counter>, params: array<TypedParam>, room: int) returns (n: int)
    requires 0 < room <= params.Length
    modifies params
    ensures n == Min(room, |KnownParams(s, cs)|)
    ensures params[..n] == KnownParams(s, cs)[..n]
    ensures params[n..] == old(params[n..])
  {
    n := 0;
    var k := 0;
    while k < |cs|
      invariant 0 <= k <= |cs|
      invariant n == Min(room, |KnownParams(s, cs[..k])|)
      invariant params[..n] == KnownParams(s, cs[..k])[..n]
      invariant params[n..] == old(params[n..])
    {
      KnownParamsStep(s, cs, k);
      ghost var before := KnownParams(s, cs[..k]);
      ghost var after := KnownParams(s, cs[..k + 1]);
      if n < room && Get(s, cs[k]) != -1 {
        assert n == |before| && after == before + [Param(s, cs[k])];
        ghost var rest := params[n + 1..];
        assert rest == old(params[n..])[1..];
        params[n] := Param(s, cs[k]);
        assert params[..n + 1] == before + [Param(s, cs[k])];
        assert params[n + 1..] == rest;
        n := n + 1;
      } else if n == room {
        assert after[..n] == before[..n];
      } else {
        assert after == before;
      }
      k := k + 1;
    }
    assert cs[..k] == cs;
  }

  /** One more counter adds its parameter at the end of the known ones, if it is known. */
  lemma KnownParamsStep(s: BlockStats, cs: seq<Counter>, k: nat)
    requires k < |cs|
    ensures KnownParams(s, cs[..k + 1]) ==
      KnownParams(s, cs[..k]) + (if Get(s, cs[k]) != -1 then [Param(s, cs[k])] else [])
  {
    assert cs[..k + 1][..k] == cs[..k];
  }

  // ---------------------------------------------------------------------------
  // The vCPU limit

  /** ASCII lower case, as strcasecmp compares. */
  function Lower(c: char): char {
    if 'A' <= c <= 'Z' then (c as int - 'A' as int + 'a' as int) as char else c
  }

  function LowerString(s: string): (r: string)
    ensures |r| == |s| && forall i :: 0 <= i < |s| ==> r[i] == Lower(s[i])
  {
    if s == [] then [] else [Lower(s[0])] + LowerString(s[1..])
  }

  /** STRCASEEQ: equal but for the case of letters. */
  predicate CaseEq(a: string, b: string) {
    |a| == |b| && forall i :: 0 <= i < |a| ==> Lower(a[i]) == Lower(b[i])
  }

  /** vzConnectGetMaxVcpus: no limit for containers, so the maximum for this driver's types. */
  function MaxVcpus(kind: Option<string>): (r: int)
    ensures r == 1028 || r == -1
    ensures r == 1028 <==> kind.None? || LowerString(kind.value) == "vz" || LowerString(kind.value) == "parallels"
  {
    if kind.None? || CaseEq(kind.value, "vz") || CaseEq(kind.value, "parallels") then 1028 else -1
  }

  /** The answer does not depend on the case of the type name. */
  lemma MaxVcpusCaseBlind(s: string)
    ensures MaxVcpus(Some(s)) == MaxVcpus(Some(LowerString(s)))
  {
    var l := LowerString(s);
    assert LowerString(l) == l by {
      forall i | 0 <= i < |l| ensures LowerString(l)[i] == l[i] {
      }
    }
  }

  // ---------------------------------------------------------------------------
  // Configuration updates

  /** VIR_DOMAIN_AFFECT_LIVE and VIR_DOMAIN_AFFECT_CONFIG. */
  const AffectLive: bv32 := 1
  const AffectConfig: bv32 := 2

  datatype FlagCheck = FlagCheck(rc: int, flags: bv32)

  /**
   * vzCheckConfigUpdateFlags.  `impact` is what
   * virDomainObjUpdateModificationImpact makes of the flags, None when it
   * refuses them.  The update must reach the persistent configuration, and
   * for a running domain the live one too.
   */
  function CheckConfigUpdateFlags(active: bool, flags: bv32, impact: Option<bv32>): (r: FlagCheck)
    ensures r.rc == 0 || r.rc == -1
    ensures r.rc == 0 <==> impact.Some? && impact.value & AffectConfig != 0 && (active ==> impact.value & AffectLive != 0)
    ensures r.flags == if impact.Some? then impact.value else flags
  {
    match impact
    case None => FlagCheck(-1, flags)
    case Some(f) =>
      if f & AffectConfig == 0 then FlagCheck(-1, f)
      else if active && f & AffectLive == 0 then FlagCheck(-1, f)
      else FlagCheck(0, f)
  }
}
