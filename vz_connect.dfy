/**
 * Opening and closing connections to the Virtuozzo driver
 * (src/vz/vz_driver.c): which URIs the driver takes, and the list of open
 * connections, newest first, that it keeps under its lock.
 */
module VzConnect {
  import opened Decimal
  import opened VzUri

  /** VIR_DRV_OPEN_SUCCESS, VIR_DRV_OPEN_DECLINED and VIR_DRV_OPEN_ERROR. */
  datatype OpenStatus = Success | Declined | Error

  /** VIR_CONNECT_RO, the only flag an open accepts. */
  const ConnectRO: bv32 := 1

  /** Whether the connection is for this driver, or the status it is turned away with. */
  datatype Verdict = Proceed | Refuse(status: OpenStatus)

  /** The driver name each scheme of this driver belongs to. */
  function DriverOf(scheme: string): Option<string> {
    if scheme == "vz" then Some("vz")
    else if scheme == "parallels" then Some("Parallels")
    else None
  }

  /** A local URI with a scheme of this driver, opened through the driver that scheme names. */
  predicate ForThisDriver(uri: Option<Uri>, driverName: string) {
    uri.Some? && uri.value.scheme.Some? && DriverOf(uri.value.scheme.value) == Some(driverName)
    && uri.value.server.None?
  }

  /**
   * The URI checks of vzConnectOpen, in the source's order.  Unknown flags
   * are an error; a URI not for this driver is declined, left to another
   * driver; one that is for it must have the path /system, and an absent
   * path is an error too.
   */
  function OpenVerdict(uri: Option<Uri>, driverName: string, flags: bv32): (r: Verdict)
    ensures flags & !ConnectRO != 0 ==> r == Refuse(Error)
    ensures flags & !ConnectRO == 0 ==> (r == Refuse(Declined) <==> !ForThisDriver(uri, driverName))
    ensures r == Proceed <==> flags & !ConnectRO == 0 && ForThisDriver(uri, driverName) && uri.value.path == Some("/system")
    ensures r.Refuse? ==> r.status != Success
  {
    if flags & !ConnectRO != 0 then Refuse(Error)
    else if uri.None? || uri.value.scheme.None? then Refuse(Declined)
    else
      var scheme := uri.value.scheme.value;
      if scheme != "vz" && scheme != "parallels" then Refuse(Declined)
      else if scheme == "vz" && driverName != "vz" then Refuse(Declined)
      else if scheme == "parallels" && driverName != "Parallels" then Refuse(Declined)
      else if uri.value.server.Some? then Refuse(Declined)
      else if uri.value.path != Some("/system") then Refuse(Error)
      else Proceed
  }

  /** The status of an open: the verdict, then the driver object and the close-callback data it needs. */
  function OpenResult(v: Verdict, driverOk: bool, callbackOk: bool): OpenStatus {
    match v
    case Refuse(s) => s
    case Proceed => if driverOk && callbackOk then Success else Error
  }

  /** The list with its first occurrence of p taken out, the rest in their order. */
  function Unlink(s: seq<Priv>, p: Priv): (r: seq<Priv>)
    ensures |r| == if p in s then |s| - 1 else |s|
  {
    if s == [] then []
    else if s[0] == p then s[1..]
    else [s[0]] + Unlink(s[1..], p)
  }

  predicate Distinct(s: seq<Priv>) {
    forall i, j :: 0 <= i < j < |s| ==> s[i] != s[j]
  }

  /** A connection absent from the list leaves it as it is. */
  lemma {:induction false} UnlinkAbsent(s: seq<Priv>, p: Priv)
    requires p !in s
    ensures Unlink(s, p) == s
  {
    if s != [] {
      UnlinkAbsent(s[1..], p);
    }
  }

  /** Unlinking removes exactly the entry at p's first position. */
  lemma {:induction false} UnlinkAt(s: seq<Priv>, p: Priv, k: nat)
    requires k < |s| && s[k] == p && p !in s[..k]
    ensures Unlink(s, p) == s[..k] + s[k + 1..]
  {
    if k > 0 {
      assert s[1..][..k - 1] == s[..k][1..];
      UnlinkAt(s[1..], p, k - 1);
      assert s[..k] == [s[0]] + s[1..][..k - 1];
      assert s[1..][k..] == s[k + 1..];
    }
  }

  /**
   * In a list without repeats, unlinking p keeps every other connection, in
   * the same order, and leaves none equal to p.
   */
  lemma {:induction false} UnlinkDistinct(s: seq<Priv>, p: Priv)
    requires Distinct(s)
    ensures Distinct(Unlink(s, p))
    ensures forall x :: x in Unlink(s, p) <==> x in s && x != p
  {
    if s != [] {
      assert Distinct(s[1..]) by {
        forall i, j | 0 <= i < j < |s[1..]| ensures s[1..][i] != s[1..][j] {
          assert s[1..][i] == s[i + 1] && s[1..][j] == s[j + 1];
        }
      }
      if s[0] == p {
        assert forall k :: 0 <= k < |s[1..]| ==> s[1..][k] == s[k + 1];
      } else {
        UnlinkDistinct(s[1..], p);
        var r := Unlink(s[1..], p);
        assert s[0] !in s[1..] by {
          forall k | 0 <= k < |s[1..]| ensures s[1..][k] != s[0] {
            assert s[1..][k] == s[k + 1];
          }
        }
        assert s[0] !in r;
        forall i, j | 0 <= i < j < |[s[0]] + r| ensures ([s[0]] + r)[i] != ([s[0]] + r)[j] {
          if i == 0 {
            assert ([s[0]] + r)[j] == r[j - 1];
          } else {
            assert ([s[0]] + r)[i] == r[i - 1] && ([s[0]] + r)[j] == r[j - 1];
          }
        }
      }
    }
  }

  /** Closing the connection just opened gives back the list as it was. */
  lemma OpenThenClose(s: seq<Priv>, p: Priv)
    ensures Unlink([p] + s, p) == s
  {
    assert ([p] + s)[1..] == s;
  }

  /** vzConn: the driver's part of a connection; the list holds it by identity. */
  class Priv {
    constructor ()
    {
    }
  }

  /** virConnect, as far as the driver touches it. */
  class Connection {
    var privateData: Priv?

    constructor ()
      ensures privateData == null
    {
      privateData := null;
    }
  }

  /** vz_conn_list: the open connections of the driver, newest first. */
  class ConnList {
    var conns: seq<Priv>

    /** Each connection is on the list at most once. */
    predicate Valid()
      reads this
    {
      Distinct(conns)
    }

    constructor ()
      ensures conns == [] && Valid()
    {
      conns := [];
    }

    /**
     * vzConnectOpen.  The driver object and the close-callback data may
     * fail to come: before the private part exists the connection is left
     * as it was, after it the connection loses it; only a success puts the
     * new private part at the head of the list.
     */
    method Open(conn: Connection, uri: Option<Uri>, driverName: string, flags: bv32, driverOk: bool, callbackOk: bool)
      returns (r: OpenStatus)
      requires Valid()
      modifies this, conn
      ensures Valid()
      ensures r == OpenResult(OpenVerdict(uri, driverName, flags), driverOk, callbackOk)
      ensures r == Success ==>
        conn.privateData != null && fresh(conn.privateData) && conns == [conn.privateData] + old(conns)
      ensures r != Success ==> conns == old(conns)
      ensures r != Success && (OpenVerdict(uri, driverName, flags).Refuse? || !driverOk) ==>
        conn.privateData == old(conn.privateData)
      ensures r != Success && OpenVerdict(uri, driverName, flags) == Proceed && driverOk ==> conn.privateData == null
    {
      if flags & !ConnectRO != 0 {
        return Error;
      }
      if uri.None? || uri.value.scheme.None? {
        return Declined;
      }
      var scheme := uri.value.scheme.value;
      if scheme != "vz" && scheme != "parallels" {
        return Declined;
      }
      if scheme == "vz" && driverName != "vz" {
        return Declined;
      }
      if scheme == "parallels" && driverName != "Parallels" {
        return Declined;
      }
      if uri.value.server.Some? {
        return Declined;
      }
      if uri.value.path != Some("/system") {
        return Error;
      }
      if !driverOk {
        return Error;
      }
      var priv := new Priv();
      conn.privateData := priv;
      if !callbackOk {
        conn.privateData := null;
        return Error;
      }
      conns := [priv] + conns;
      r := Success;
      forall i, j | 0 <= i < j < |conns| ensures conns[i] != conns[j] {
        if i == 0 {
          assert conns[j] == old(conns)[j - 1];
        } else {
          assert conns[i] == old(conns)[i - 1] && conns[j] == old(conns)[j - 1];
        }
      }
    }

    /**
     * vzConnectClose: a connection without a private part is left alone;
     * otherwise the walk takes its private part off the list, if it is there,
     * and the connection loses it.  It always returns 0.
     */
    method Close(conn: Connection) returns (rc: int)
      requires Valid()
      modifies this, conn
      ensures rc == 0 && Valid() && conn.privateData == null
      ensures old(conn.privateData) == null ==> conns == old(conns)
      ensures old(conn.privateData) != null ==> conns == Unlink(old(conns), old(conn.privateData))
    {
      var p := conn.privateData;
      if p == null {
        return 0;
      }
      var i := 0;
      while i < |conns| && conns[i] != p
        invariant 0 <= i <= |conns|
        invariant p !in conns[..i]
      {
        assert conns[..i + 1] == conns[..i] + [conns[i]];
        i := i + 1;
      }
      UnlinkDistinct(conns, p);
      if i < |conns| {
        UnlinkAt(conns, p, i);
        conns := conns[..i] + conns[i + 1..];
      } else {
        assert conns[..i] == conns;
        UnlinkAbsent(conns, p);
      }
      conn.privateData := null;
      rc := 0;
    }
  }
}
