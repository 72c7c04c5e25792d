/**
 * The network hand-off of a starting Cloud-Hypervisor guest
 * (chProcessAddNetworkDevices): over the monitor's UNIX socket, one HTTP
 * `PUT /api/v1/vm.add-net` request per network device, each carrying the
 * device's tap descriptors, each answered by an HTTP status.
 */
module ChNet {
  import opened Decimal
  import opened ChHost

  /** The capacity of `sockaddr_un.sun_path`, terminator included. */
  const SunPathLen: nat := 108

  /** The fixed header block of every request. */
  const Headers: string := "PUT /api/v1/vm.add-net HTTP/1.1\r\nHost: localhost\r\nContent-Type: application/json\r\n"

  const LengthField: string := "Content-Length: "

  const HeaderEnd: string := "\r\n\r\n"

  /**
   * A request: the header block, the payload's length in bytes as strlen
   * counts it, a blank line, the payload.
   */
  function Frame(payload: string): (req: string)
    ensures |req| == |Headers| + |LengthField| + |NatToString(Utf8Len(payload))| + |HeaderEnd| + |payload|
  {
    Headers + (LengthField + (NatToString(Utf8Len(payload)) + (HeaderEnd + payload)))
  }

  /**
   * Reading a request back: the header block, a length, a blank line, and
   * a payload of exactly that many bytes.
   */
  function ParseFrame(req: string): (r: Option<string>)
    ensures r.Some? ==> |r.value| < |req|
  {
    if |req| < |Headers| + |LengthField| || req[..|Headers|] != Headers
      || req[|Headers|..|Headers| + |LengthField|] != LengthField
    then None
    else
      match ScanInt(req[|Headers| + |LengthField|..])
      case None => None
      case Some(sc) =>
        if |sc.rest| < |HeaderEnd| || sc.rest[..|HeaderEnd|] != HeaderEnd then None
        else
          var body := sc.rest[|HeaderEnd|..];
          if sc.value != Utf8Len(body) then None else Some(body)
  }

  /** Every request reads back as its payload. */
  lemma ParseFrameOfFrame(payload: string)
    ensures ParseFrame(Frame(payload)) == Some(payload)
  {
    var n := NatToString(Utf8Len(payload));
    var tail := HeaderEnd + payload;
    var req := Frame(payload);
    assert req[..|Headers|] == Headers;
    var after := LengthField + (n + tail);
    assert req[|Headers|..] == after;
    assert req[|Headers|..|Headers| + |LengthField|] == after[..|LengthField|] == LengthField;
    assert req[|Headers| + |LengthField|..] == after[|LengthField|..] == n + tail;
    assert tail[0] == '\r';
    ScanIntToString(Utf8Len(payload), tail);
    assert IntToString(Utf8Len(payload)) == n;
    assert tail[..|HeaderEnd|] == HeaderEnd;
    assert tail[|HeaderEnd|..] == payload;
  }

  /** The two statuses the guest answers a successful hot-plug with. */
  predicate HttpAccepted(status: int) { status == 200 || status == 204 }

  /** A queue-pair count of 0 means one pair. */
  function QueuePairs(q: nat): (n: nat)
    ensures n >= 1
    ensures q != 0 ==> n == q
  {
    if q == 0 then 1 else q
  }

  /** The return code, the calls made and the devices' queue-pair counts afterwards. */
  datatype NetOutcome = NetOutcome(rc: int, calls: seq<Call>, queues: seq<nat>)

  /** The request for device i. */
  function Request(env: Env, i: nat): string { Frame(env.netPayload(i)) }

  /** Device i is handed off: its JSON is built, sent with its descriptors, and accepted. */
  predicate DeviceOk(env: Env, q: seq<nat>, i: nat)
    requires i < |q|
  {
    !Fails(env, BuildNetJson(i))
    && !Fails(env, NetSend(i, Request(env, i), QueuePairs(q[i])))
    && HttpAccepted(env.reply(NetRecv(i)))
  }

  /** The calls for device i, up to its failure or through its reply. */
  function DeviceCalls(env: Env, q: seq<nat>, i: nat): (calls: seq<Call>)
    requires i < |q|
  {
    var n := QueuePairs(q[i]);
    if Fails(env, BuildNetJson(i)) then [BuildNetJson(i)]
    else if Fails(env, NetSend(i, Request(env, i), n)) then [BuildNetJson(i), NetSend(i, Request(env, i), n)]
    else [BuildNetJson(i), NetSend(i, Request(env, i), n), NetCloseFds(i, n), NetRecv(i)]
  }

  /** The device loop from device i on; the socket is closed on every way out. */
  function Devices(env: Env, q: seq<nat>, i: nat): NetOutcome
    decreases |q| - i
  {
    if i >= |q| then NetOutcome(0, [NetClose], q)
    else
      var q' := q[i := QueuePairs(q[i])];
      if !DeviceOk(env, q, i) then NetOutcome(-1, DeviceCalls(env, q, i) + [NetClose], q')
      else
        var o := Devices(env, q', i + 1);
        NetOutcome(o.rc, DeviceCalls(env, q, i) + o.calls, o.queues)
  }

  /**
   * chProcessAddNetworkDevices as a trace.  A socket path whose bytes do not
   * fit `sun_path` with its terminator ends it without closing the socket.
   */
  function AddNetTrace(env: Env, q: seq<nat>): NetOutcome {
    if Fails(env, NetSocket) then NetOutcome(-1, [NetSocket], q)
    else if Utf8Len(env.socketPath) >= SunPathLen then NetOutcome(-1, [NetSocket], q)
    else if Fails(env, NetConnect(env.socketPath)) then NetOutcome(-1, [NetSocket, NetConnect(env.socketPath), NetClose], q)
    else
      var o := Devices(env, q, 0);
      NetOutcome(o.rc, [NetSocket, NetConnect(env.socketPath)] + o.calls, o.queues)
  }

  // ---------------------------------------------------------------------------
  // Properties

  /** A device handed off makes all four of its calls. */
  lemma DeviceCallsOk(env: Env, q: seq<nat>, i: nat)
    requires i < |q| && DeviceOk(env, q, i)
    ensures DeviceCalls(env, q, i) ==
      [BuildNetJson(i), NetSend(i, Request(env, i), QueuePairs(q[i])), NetCloseFds(i, QueuePairs(q[i])), NetRecv(i)]
  {
  }

  /** One step of the loop: a device handed off, or the one that fails. */
  lemma DevicesStep(env: Env, q: seq<nat>, i: nat)
    requires i < |q|
    ensures var q' := q[i := QueuePairs(q[i])];
      DeviceOk(env, q, i) ==>
        Devices(env, q, i) == NetOutcome(Devices(env, q', i + 1).rc, DeviceCalls(env, q, i) + Devices(env, q', i + 1).calls, Devices(env, q', i + 1).queues)
    ensures !DeviceOk(env, q, i) ==>
      Devices(env, q, i) == NetOutcome(-1, DeviceCalls(env, q, i) + [NetClose], q[i := QueuePairs(q[i])])
  {
  }

  /** Only device j's own count decides device j. */
  lemma DeviceOkElsewhere(env: Env, q: seq<nat>, i: nat, n: nat)
    requires i < |q|
    ensures forall j :: 0 <= j < |q| && j != i ==> (DeviceOk(env, q[i := n], j) <==> DeviceOk(env, q, j))
  {
  }

  /**
   * The loop returns 0 or -1, and succeeds exactly when every device from i
   * on is handed off.
   */
  lemma {:induction false} DevicesResult(env: Env, q: seq<nat>, i: nat)
    requires i <= |q|
    ensures Devices(env, q, i).rc == 0 || Devices(env, q, i).rc == -1
    ensures Devices(env, q, i).rc == 0 <==> forall j :: i <= j < |q| ==> DeviceOk(env, q, j)
    decreases |q| - i
  {
    if i < |q| {
      var q' := q[i := QueuePairs(q[i])];
      DevicesStep(env, q, i);
      if DeviceOk(env, q, i) {
        DevicesResult(env, q', i + 1);
        AllOkStep(env, q, q', i);
      }
    }
  }

  /** On every way out of the loop, the socket is closed last. */
  lemma {:induction false} DevicesCloseLast(env: Env, q: seq<nat>, i: nat)
    requires i <= |q|
    ensures Devices(env, q, i).calls != [] && Devices(env, q, i).calls[|Devices(env, q, i).calls| - 1] == NetClose
    decreases |q| - i
  {
    if i < |q| {
      var q' := q[i := QueuePairs(q[i])];
      DevicesStep(env, q, i);
      if DeviceOk(env, q, i) {
        DevicesCloseLast(env, q', i + 1);
        var o := Devices(env, q', i + 1);
        assert (DeviceCalls(env, q, i) + o.calls)[|DeviceCalls(env, q, i) + o.calls| - 1] == o.calls[|o.calls| - 1];
      } else {
        var c := DeviceCalls(env, q, i) + [NetClose];
        assert c[|c| - 1] == NetClose;
      }
    }
  }

  /** Past a device handed off, every device is handed off exactly when every later one is. */
  lemma AllOkStep(env: Env, q: seq<nat>, q': seq<nat>, i: nat)
    requires i < |q| && DeviceOk(env, q, i) && q' == q[i := QueuePairs(q[i])]
    ensures (forall j :: i <= j < |q| ==> DeviceOk(env, q, j)) <==> (forall j :: i + 1 <= j < |q'| ==> DeviceOk(env, q', j))
  {
    DeviceOkElsewhere(env, q, i, QueuePairs(q[i]));
    if forall j :: i <= j < |q| ==> DeviceOk(env, q, j) {
      forall j | i + 1 <= j < |q'|
        ensures DeviceOk(env, q', j)
      {
        assert DeviceOk(env, q, j);
      }
    }
    if forall j :: i + 1 <= j < |q'| ==> DeviceOk(env, q', j) {
      forall j | i <= j < |q|
        ensures DeviceOk(env, q, j)
      {
        if j != i {
          assert DeviceOk(env, q', j);
        }
      }
    }
  }

  /**
   * The counts of 0 from device i on are written back as 1, up to the device
   * that fails; the others are left alone; on success every count from i on
   * is its number of queue pairs.
   */
  lemma {:induction false} DevicesQueues(env: Env, q: seq<nat>, i: nat)
    requires i <= |q|
    ensures |Devices(env, q, i).queues| == |q|
    ensures forall j :: 0 <= j < |q| ==>
      Devices(env, q, i).queues[j] == q[j] || (i <= j && q[j] == 0 && Devices(env, q, i).queues[j] == 1)
    ensures Devices(env, q, i).rc == 0 ==>
      forall j :: i <= j < |q| ==> Devices(env, q, i).queues[j] == QueuePairs(q[j])
    decreases |q| - i
  {
    if i < |q| {
      var q' := q[i := QueuePairs(q[i])];
      DevicesStep(env, q, i);
      if DeviceOk(env, q, i) {
        DevicesQueues(env, q', i + 1);
      }
    }
  }

  /** Every device started in `calls` lies from i on and follows devices from i on that were all handed off. */
  predicate ReachedInOrder(env: Env, q: seq<nat>, i: nat, calls: seq<Call>) {
    forall c :: c in calls && c.BuildNetJson? ==>
      i <= c.index < |q| && forall j :: i <= j < c.index ==> DeviceOk(env, q, j)
  }

  /**
   * The first failure aborts the remaining devices: device k is only started
   * when every device before it, from i on, was handed off.
   */
  lemma {:induction false} DevicesInOrder(env: Env, q: seq<nat>, i: nat)
    requires i <= |q|
    ensures ReachedInOrder(env, q, i, Devices(env, q, i).calls)
    decreases |q| - i
  {
    if i < |q| {
      var q' := q[i := QueuePairs(q[i])];
      var own := DeviceCalls(env, q, i);
      OwnStart(env, q, i);
      DevicesStep(env, q, i);
      if DeviceOk(env, q, i) {
        DevicesInOrder(env, q', i + 1);
        InOrderJoin(env, q, q', i, own, Devices(env, q', i + 1).calls);
      } else {
        InOrderLast(env, q, i, own);
      }
    } else {
      assert Devices(env, q, i).calls == [NetClose];
    }
  }

  /** Device i's own calls start device i only. */
  lemma OwnStart(env: Env, q: seq<nat>, i: nat)
    requires i < |q|
    ensures forall c :: c in DeviceCalls(env, q, i) && c.BuildNetJson? ==> c.index == i
  {
  }

  /** The device that fails, then the socket closed. */
  lemma InOrderLast(env: Env, q: seq<nat>, i: nat, own: seq<Call>)
    requires i < |q|
    requires forall c :: c in own && c.BuildNetJson? ==> c.index == i
    ensures ReachedInOrder(env, q, i, own + [NetClose])
  {
    forall c | c in own + [NetClose] && c.BuildNetJson?
      ensures c.index == i
    {
      assert c in own;
    }
  }

  /** Device i's own calls, then those of the devices after it, each reached past the ones before. */
  lemma InOrderJoin(env: Env, q: seq<nat>, q': seq<nat>, i: nat, own: seq<Call>, rest: seq<Call>)
    requires i < |q| && DeviceOk(env, q, i) && q' == q[i := QueuePairs(q[i])]
    requires forall c :: c in own && c.BuildNetJson? ==> c.index == i
    requires ReachedInOrder(env, q', i + 1, rest)
    ensures ReachedInOrder(env, q, i, own + rest)
  {
    DeviceOkElsewhere(env, q, i, QueuePairs(q[i]));
    forall c | c in own + rest && c.BuildNetJson?
      ensures i <= c.index < |q| && forall j :: i <= j < c.index ==> DeviceOk(env, q, j)
    {
      if c !in own {
        assert c in rest;
        forall j | i <= j < c.index ensures DeviceOk(env, q, j) {
          if j > i {
            assert DeviceOk(env, q', j);
          }
        }
      }
    }
  }

  /**
   * Every request sent is device i's payload framed, with as many
   * descriptors as it has queue pairs.
   */
  lemma {:induction false} DevicesSend(env: Env, q: seq<nat>, i: nat)
    requires i <= |q|
    ensures SentFramed(env, q, i, Devices(env, q, i).calls)
    decreases |q| - i
  {
    if i < |q| {
      var q' := q[i := QueuePairs(q[i])];
      var own := DeviceCalls(env, q, i);
      if DeviceOk(env, q, i) {
        assert Devices(env, q, i).calls == own + Devices(env, q', i + 1).calls;
        DevicesSend(env, q', i + 1);
        SendJoin(env, q, q', i, own, Devices(env, q', i + 1).calls);
      } else {
        assert Devices(env, q, i).calls == own + [NetClose];
        SendJoin(env, q, q', i, own, [NetClose]);
      }
    } else {
      assert Devices(env, q, i).calls == [NetClose];
    }
  }

  /** Every request in `calls` is for a device from i on: its payload framed, with one descriptor per queue pair. */
  predicate SentFramed(env: Env, q: seq<nat>, i: nat, calls: seq<Call>) {
    forall c :: c in calls && c.NetSend? ==>
      i <= c.index < |q| && c.request == Frame(env.netPayload(c.index)) && c.nfds == QueuePairs(q[c.index])
  }

  /** Device i's own request, then those of the devices after it, each with its own count. */
  lemma SendJoin(env: Env, q: seq<nat>, q': seq<nat>, i: nat, own: seq<Call>, rest: seq<Call>)
    requires i < |q| && q' == q[i := QueuePairs(q[i])] && own == DeviceCalls(env, q, i)
    requires SentFramed(env, q', i + 1, rest)
    ensures SentFramed(env, q, i, own + rest)
  {
    forall c | c in own + rest && c.NetSend?
      ensures i <= c.index < |q| && c.request == Frame(env.netPayload(c.index)) && c.nfds == QueuePairs(q[c.index])
    {
      if c !in own {
        assert c in rest && q'[c.index] == q[c.index];
      }
    }
  }

  /**
   * The path is measured in bytes: one that fits `sun_path` in characters
   * but not in bytes is refused after the socket call, without connecting.
   */
  lemma PathBytesCounted(env: Env, q: seq<nat>)
    requires !Fails(env, NetSocket) && |env.socketPath| == SunPathLen - 1 && !Ascii(env.socketPath)
    ensures AddNetTrace(env, q) == NetOutcome(-1, [NetSocket], q)
  {
    Utf8LenAscii(env.socketPath);
  }

  /**
   * The hand-off succeeds exactly when the socket opens, its path's bytes fit
   * `sun_path`, it connects and every device is handed off; the socket is closed unless the
   * path did not fit.
   */
  lemma AddNetResult(env: Env, q: seq<nat>)
    ensures AddNetTrace(env, q).rc == 0 <==>
      !Fails(env, NetSocket) && Utf8Len(env.socketPath) < SunPathLen && !Fails(env, NetConnect(env.socketPath))
      && forall j :: 0 <= j < |q| ==> DeviceOk(env, q, j)
    ensures AddNetTrace(env, q).rc == 0 || AddNetTrace(env, q).rc == -1
    ensures |AddNetTrace(env, q).queues| == |q|
    ensures AddNetTrace(env, q).rc == 0 ==> forall j :: 0 <= j < |q| ==> AddNetTrace(env, q).queues[j] == QueuePairs(q[j])
    ensures NetClose in AddNetTrace(env, q).calls <==> !Fails(env, NetSocket) && Utf8Len(env.socketPath) < SunPathLen
  {
    DevicesResult(env, q, 0);
    DevicesCloseLast(env, q, 0);
    DevicesQueues(env, q, 0);
    var o := Devices(env, q, 0);
    if !Fails(env, NetSocket) && Utf8Len(env.socketPath) < SunPathLen && !Fails(env, NetConnect(env.socketPath)) {
      assert AddNetTrace(env, q).calls[|AddNetTrace(env, q).calls| - 1] == NetClose;
    }
  }

  /** The calls of the hand-off. */
  predicate NetCall(c: Call) {
    c.NetSocket? || c.NetConnect? || c.BuildNetJson? || c.NetSend? || c.NetCloseFds? || c.NetRecv? || c.NetClose?
  }

  lemma {:induction false} DevicesKinds(env: Env, q: seq<nat>, i: nat)
    requires i <= |q|
    ensures forall c :: c in Devices(env, q, i).calls ==> NetCall(c)
    decreases |q| - i
  {
    if i < |q| {
      DevicesStep(env, q, i);
      DevicesKinds(env, q[i := QueuePairs(q[i])], i + 1);
    }
  }

  /** The hand-off makes network calls only. */
  lemma AddNetKinds(env: Env, q: seq<nat>)
    ensures forall c :: c in AddNetTrace(env, q).calls ==> NetCall(c)
  {
    DevicesKinds(env, q, 0);
  }

  // ---------------------------------------------------------------------------
  // The method

  /**
   * chProcessAddNetworkDevices; `queues` holds the devices' queue-pair
   * counts, written back in place.
   */
  method AddNetworkDevices(host: Host, queues: array<nat>) returns (rc: int)
    modifies host, queues
    ensures rc == AddNetTrace(host.env, old(queues[..])).rc
    ensures host.log == old(host.log) + AddNetTrace(host.env, old(queues[..])).calls
    ensures queues[..] == AddNetTrace(host.env, old(queues[..])).queues
  {
    ghost var log0, q0 := host.log, queues[..];
    var r := host.Invoke(NetSocket);
    if r < 0 {
      return -1;
    }
    var path := host.env.socketPath;
    if Utf8Len(path) >= SunPathLen {
      return -1;
    }
    r := host.Invoke(NetConnect(path));
    if r < 0 {
      var _ := host.Invoke(NetClose);
      return -1;
    }
    assert host.log == log0 + [NetSocket, NetConnect(path)];

    rc := SendDevices(host, queues);
    ghost var o := Devices(host.env, q0, 0);
    assert AddNetTrace(host.env, q0) == NetOutcome(o.rc, [NetSocket, NetConnect(path)] + o.calls, o.queues);
    ConcatAssoc(log0, [NetSocket, NetConnect(path)], o.calls);
  }

  /** The device loop, from the first device on; it closes the socket. */
  method SendDevices(host: Host, queues: array<nat>) returns (rc: int)
    modifies host, queues
    ensures rc == Devices(host.env, old(queues[..]), 0).rc
    ensures host.log == old(host.log) + Devices(host.env, old(queues[..]), 0).calls
    ensures queues[..] == Devices(host.env, old(queues[..]), 0).queues
  {
    ghost var log0 := host.log;
    ghost var target := Devices(host.env, queues[..], 0);
    var i := 0;
    while i < queues.Length
      invariant 0 <= i <= queues.Length
      invariant host.log + Devices(host.env, queues[..], i).calls == log0 + target.calls
      invariant Devices(host.env, queues[..], i).rc == target.rc
      invariant Devices(host.env, queues[..], i).queues == target.queues
    {
      ghost var log1 := host.log;
      ghost var q := queues[..];
      DevicesStep(host.env, q, i);
      var n := queues[i];
      if n == 0 {
        n := 1;
        queues[i] := 1;
      }
      assert queues[..] == q[i := QueuePairs(q[i])];
      var ok := SendDevice(host, i, n, q);
      if !ok {
        var _ := host.Invoke(NetClose);
        ConcatAssoc(log1, DeviceCalls(host.env, q, i), [NetClose]);
        return -1;
      }
      ConcatAssoc(log1, DeviceCalls(host.env, q, i), Devices(host.env, queues[..], i + 1).calls);
      i := i + 1;
    }
    assert Devices(host.env, queues[..], i).calls == [NetClose];
    var _ := host.Invoke(NetClose);
    rc := 0;
  }

  /** One device: build its JSON, send the framed request with n descriptors, read the reply. */
  method SendDevice(host: Host, i: nat, n: nat, ghost q: seq<nat>) returns (ok: bool)
    requires i < |q| && QueuePairs(q[i]) == n
    modifies host
    ensures ok <==> DeviceOk(host.env, q, i)
    ensures host.log == old(host.log) + DeviceCalls(host.env, q, i)
  {
    var r := host.Invoke(BuildNetJson(i));
    if r < 0 {
      return false;
    }
    var request := Frame(host.env.netPayload(i));
    r := host.Invoke(NetSend(i, request, n));
    if r < 0 {
      return false;
    }
    var _ := host.Invoke(NetCloseFds(i, n));
    var status := host.Invoke(NetRecv(i));
    ok := status >= 0 && HttpAccepted(status);
  }
}
