/**
 * The migration cookie of the Virtuozzo driver (vzBakeCookie in
 * src/vz/vz_driver.c): an XML fragment naming the session and the domain,
 * with UUIDs in the text form of virUUIDFormat.
 */
module VzCookie {
  import opened Decimal

  newtype byte = x: int | 0 <= x < 256

  /** VIR_UUID_BUFLEN bytes. */
  type Uuid = s: seq<byte> | |s| == 16 witness [0, 0, 0, 0, 0, 0, 0, 0, 0, 0, 0, 0, 0, 0, 0, 0]

  // ---------------------------------------------------------------------------
  // UUID text

  predicate IsHex(c: char) { '0' <= c <= '9' || 'a' <= c <= 'f' }

  predicate AllHex(s: string) { forall i :: 0 <= i < |s| ==> IsHex(s[i]) }

  /** A lower-case hexadecimal digit, as `%02x` writes it. */
  function HexDigit(d: nat): (c: char)
    requires d < 16
    ensures IsHex(c)
  {
    if d < 10 then ('0' as int + d) as char else ('a' as int + d - 10) as char
  }

  function HexValue(c: char): (d: nat)
    requires IsHex(c)
    ensures d < 16
  {
    if c <= '9' then c as int - '0' as int else c as int - 'a' as int + 10
  }

  function HexByte(b: byte): (s: string)
    ensures |s| == 2 && AllHex(s)
  {
    [HexDigit(b as int / 16), HexDigit(b as int % 16)]
  }

  /** Bytes in `%02x` form, one after the other. */
  function HexRun(bs: seq<byte>): (s: string)
    ensures |s| == 2 * |bs| && AllHex(s)
  {
    if bs == [] then "" else HexByte(bs[0]) + HexRun(bs[1..])
  }

  /** Pairs of hexadecimal digits read back as bytes. */
  function UnhexRun(s: string): seq<byte>
    requires AllHex(s)
  {
    if |s| < 2 then [] else [(16 * HexValue(s[0]) + HexValue(s[1])) as byte] + UnhexRun(s[2..])
  }

  lemma {:induction false} HexRunBack(bs: seq<byte>)
    ensures UnhexRun(HexRun(bs)) == bs
  {
    if bs != [] {
      var s := HexRun(bs);
      assert s[2..] == HexRun(bs[1..]);
      HexRunBack(bs[1..]);
    }
  }

  /** virUUIDFormat: the 16 bytes as five dash-separated groups of 8, 4, 4, 4 and 12 digits. */
  function UuidFormat(u: Uuid): (s: string)
    ensures |s| == 36
  {
    HexRun(u[..4]) + "-" + HexRun(u[4..6]) + "-" + HexRun(u[6..8]) + "-" + HexRun(u[8..10]) + "-" + HexRun(u[10..])
  }

  /** Where the dashes of a UUID text are. */
  predicate DashAt(i: int) { i == 8 || i == 13 || i == 18 || i == 23 }

  /** A reference reader for the UUID text form; None for anything else. */
  function UuidRead(s: string): Option<seq<byte>> {
    if |s| == 36 && (forall i :: 0 <= i < 36 ==> (DashAt(i) <==> s[i] == '-'))
       && AllHex(s[..8]) && AllHex(s[9..13]) && AllHex(s[14..18]) && AllHex(s[19..23]) && AllHex(s[24..])
    then Some(UnhexRun(s[..8]) + UnhexRun(s[9..13]) + UnhexRun(s[14..18]) + UnhexRun(s[19..23]) + UnhexRun(s[24..]))
    else None
  }

  /** Five hexadecimal groups of the right widths, joined by dashes, read back group by group. */
  lemma {:induction false} GroupsRead(a: string, b: string, c: string, d: string, e: string)
    requires |a| == 8 && |b| == 4 && |c| == 4 && |d| == 4 && |e| == 12
    requires AllHex(a) && AllHex(b) && AllHex(c) && AllHex(d) && AllHex(e)
    ensures UuidRead(a + "-" + b + "-" + c + "-" + d + "-" + e)
      == Some(UnhexRun(a) + UnhexRun(b) + UnhexRun(c) + UnhexRun(d) + UnhexRun(e))
  {
    var s := a + "-" + b + "-" + c + "-" + d + "-" + e;
    assert s[..8] == a && s[9..13] == b && s[14..18] == c && s[19..23] == d && s[24..] == e;
    forall i | 0 <= i < 36 ensures DashAt(i) <==> s[i] == '-' {
      if i < 8 {
        assert s[i] == a[i];
      } else if 8 < i < 13 {
        assert s[i] == b[i - 9];
      } else if 13 < i < 18 {
        assert s[i] == c[i - 14];
      } else if 18 < i < 23 {
        assert s[i] == d[i - 19];
      } else if 23 < i {
        assert s[i] == e[i - 24];
      }
    }
  }

  /** The UUID text reads back as the UUID. */
  lemma {:induction false} UuidRoundTrip(u: Uuid)
    ensures UuidRead(UuidFormat(u)) == Some(u)
  {
    GroupsRead(HexRun(u[..4]), HexRun(u[4..6]), HexRun(u[6..8]), HexRun(u[8..10]), HexRun(u[10..]));
    HexRunBack(u[..4]);
    HexRunBack(u[4..6]);
    HexRunBack(u[6..8]);
    HexRunBack(u[8..10]);
    HexRunBack(u[10..]);
    assert u[..4] + u[4..6] + u[6..8] + u[8..10] + u[10..] == u;
  }

  // ---------------------------------------------------------------------------
  // The cookie

  /** VZ_MIGRATION_COOKIE_SESSION_UUID. */
  const SessionUuidFlag: bv32 := 1
  /** VZ_MIGRATION_COOKIE_DOMAIN_UUID. */
  const DomainUuidFlag: bv32 := 2
  /** VZ_MIGRATION_COOKIE_DOMAIN_NAME: the same bit as the domain UUID. */
  const DomainNameFlag: bv32 := 2

  /** What the cookie says of a domain: its UUID and its name. */
  datatype Ident = Ident(uuid: Uuid, name: string)

  /** The stand-ins written when there is no domain, kept for older peers. */
  const ZeroUuid: Uuid := [0, 0, 0, 0, 0, 0, 0, 0, 0, 0, 0, 0, 0, 0, 0, 0]
  const FakeName := "__fakename__"

  datatype Element = SessionUuid(u: Uuid) | DomainUuid(u: Uuid) | DomainName(name: string)

  /** The domain's UUID, or the all-zero one without a domain. */
  function DomUuid(dom: Option<Ident>): Uuid {
    if dom.Some? then dom.value.uuid else ZeroUuid
  }

  /** The domain's name, or the made-up one without a domain. */
  function DomName(dom: Option<Ident>): string {
    if dom.Some? then dom.value.name else FakeName
  }

  /** The element when its flag is set, nothing otherwise. */
  function ElementIf(b: bool, e: Element): seq<Element> {
    if b then [e] else []
  }

  /** The elements a cookie holds, in their order. */
  function Elements(session: Uuid, dom: Option<Ident>, flags: bv32): seq<Element> {
    ElementIf(flags & SessionUuidFlag != 0, SessionUuid(session))
    + ElementIf(flags & DomainUuidFlag != 0, DomainUuid(DomUuid(dom)))
    + ElementIf(flags & DomainNameFlag != 0, DomainName(DomName(dom)))
  }

  /** One element on a line of its own, indented by two. */
  function Line(e: Element): string {
    match e
    case SessionUuid(u) => "  <session-uuid>" + UuidFormat(u) + "</session-uuid>\n"
    case DomainUuid(u) => "  <uuid>" + UuidFormat(u) + "</uuid>\n"
    case DomainName(n) => "  <name>" + n + "</name>\n"
  }

  function Lines(es: seq<Element>): string {
    if es == [] then "" else Line(es[0]) + Lines(es[1..])
  }

  const Header := "<vz-migration>\n"
  const Footer := "</vz-migration>\n"

  function CookieText(session: Uuid, dom: Option<Ident>, flags: bv32): string {
    Header + Lines(Elements(session, dom, flags)) + Footer
  }

  /** The cookie and the length reported with it. */
  datatype Cookie = Cookie(text: string, len: int)

  /** Where a C string ends: the characters before the first NUL. */
  function NulIndex(s: string): (n: nat)
    ensures n <= |s|
    ensures forall i :: 0 <= i < n ==> s[i] != '\0'
    ensures n < |s| ==> s[n] == '\0'
  {
    if s == [] || s[0] == '\0' then 0 else 1 + NulIndex(s[1..])
  }

  /** strlen: the bytes of the UTF-8 encoding before the first NUL. */
  function Strlen(s: string): (n: nat)
    ensures NulIndex(s) <= n <= 4 * NulIndex(s)
  {
    Utf8Len(s[..NulIndex(s)])
  }

  lemma {:induction false} LinesConcat(a: seq<Element>, b: seq<Element>)
    ensures Lines(a + b) == Lines(a) + Lines(b)
  {
    if a != [] {
      assert (a + b)[1..] == a[1..] + b;
      LinesConcat(a[1..], b);
      ConcatAssoc(Line(a[0]), Lines(a[1..]), Lines(b));
    } else {
      assert a + b == b;
    }
  }

  /**
   * vzBakeCookie.  Both output pointers must be given; the text is built
   * line by line, and the length reported counts the terminating NUL.
   */
  method BakeCookie(session: Uuid, dom: Option<Ident>, haveOut: bool, haveLen: bool, flags: bv32)
    returns (rc: int, out: Option<Cookie>)
    ensures rc == 0 || rc == -1
    ensures rc == -1 <==> !haveOut || !haveLen
    ensures rc == -1 ==> out.None?
    ensures rc == 0 ==> out == Some(Baked(CookieText(session, dom, flags)))
  {
    if !haveOut || !haveLen {
      return -1, None;
    }
    var buf := WriteElements(session, dom, flags);
    buf := buf + Footer;
    rc := 0;
    out := Some(Baked(buf));
  }

  /** A finished text and its length with the terminating NUL. */
  function Baked(text: string): Cookie {
    Cookie(text, Strlen(text) + 1)
  }

  /** The header, then the lines the flags ask for, in the cookie's order. */
  method WriteElements(session: Uuid, dom: Option<Ident>, flags: bv32) returns (buf: string)
    ensures buf == Header + Lines(Elements(session, dom, flags))
  {
    var b1, e1 := flags & SessionUuidFlag != 0, SessionUuid(session);
    var b2, e2 := flags & DomainUuidFlag != 0, DomainUuid(DomUuid(dom));
    var b3, e3 := flags & DomainNameFlag != 0, DomainName(DomName(dom));
    buf := Header;
    if b1 {
      buf := buf + Line(e1);
    }
    assert buf == Header + LineIf(b1, e1);
    if b2 {
      buf := buf + Line(e2);
    }
    assert buf == Header + LineIf(b1, e1) + LineIf(b2, e2);
    if b3 {
      buf := buf + Line(e3);
    }
    assert buf == Header + LineIf(b1, e1) + LineIf(b2, e2) + LineIf(b3, e3);
    LinesIf(Header, b1, e1, b2, e2, b3, e3);
  }

  /** The text of a line when its flag is set, nothing otherwise. */
  function LineIf(b: bool, e: Element): string {
    if b then Line(e) else ""
  }

  lemma LineIfLines(b: bool, e: Element)
    ensures Lines(ElementIf(b, e)) == LineIf(b, e)
  {
    assert [e][1..] == [];
  }

  /** Three optional elements after a text are written as their three optional lines. */
  lemma LinesIf(h: string, b1: bool, e1: Element, b2: bool, e2: Element, b3: bool, e3: Element)
    ensures h + Lines(ElementIf(b1, e1) + ElementIf(b2, e2) + ElementIf(b3, e3)) ==
      h + LineIf(b1, e1) + LineIf(b2, e2) + LineIf(b3, e3)
  {
    var l1, l2, l3 := ElementIf(b1, e1), ElementIf(b2, e2), ElementIf(b3, e3);
    LinesConcat(l1 + l2, l3);
    LinesConcat(l1, l2);
    LineIfLines(b1, e1);
    LineIfLines(b2, e2);
    LineIfLines(b3, e3);
    ConcatAssoc(h, LineIf(b1, e1) + LineIf(b2, e2), LineIf(b3, e3));
    ConcatAssoc(h, LineIf(b1, e1), LineIf(b2, e2));
  }

  predicate HasDomainUuid(es: seq<Element>) { exists i :: 0 <= i < |es| && es[i].DomainUuid? }
  predicate HasDomainName(es: seq<Element>) { exists i :: 0 <= i < |es| && es[i].DomainName? }

  /**
   * The domain UUID and the domain name share one flag bit, so a cookie
   * asked for either carries both, and one asked for neither carries
   * neither.
   */
  lemma UuidWithName(session: Uuid, dom: Option<Ident>, flags: bv32)
    ensures HasDomainUuid(Elements(session, dom, flags)) <==> flags & DomainUuidFlag != 0
    ensures HasDomainName(Elements(session, dom, flags)) <==> flags & DomainNameFlag != 0
    ensures HasDomainUuid(Elements(session, dom, flags)) <==> HasDomainName(Elements(session, dom, flags))
  {
    var es := Elements(session, dom, flags);
    var s := if flags & SessionUuidFlag != 0 then [SessionUuid(session)] else [];
    if flags & DomainUuidFlag != 0 {
      assert es[|s|].DomainUuid? && es[|s| + 1].DomainName?;
    } else {
      assert forall i :: 0 <= i < |es| ==> es[i].SessionUuid?;
    }
  }

  /** Without a domain the cookie carries the all-zero UUID and the made-up name. */
  lemma NoDomain(session: Uuid, flags: bv32)
    requires flags & DomainUuidFlag != 0
    ensures DomainUuid(ZeroUuid) in Elements(session, None, flags)
    ensures DomainName(FakeName) in Elements(session, None, flags)
    ensures forall e :: e in Elements(session, None, flags) ==> e.SessionUuid? || e == DomainUuid(ZeroUuid) || e == DomainName(FakeName)
  {
  }

  predicate NoNul(s: string) { forall i :: 0 <= i < |s| ==> s[i] != '\0' }

  /** A name that can come from a C string has no NUL in it. */
  predicate CName(e: Element) { e.DomainName? ==> NoNul(e.name) }

  lemma NoNulConcat(a: string, b: string)
    requires NoNul(a) && NoNul(b)
    ensures NoNul(a + b)
  {
    forall i | 0 <= i < |a + b| ensures (a + b)[i] != '\0' {
      if i < |a| {
        assert (a + b)[i] == a[i];
      } else {
        assert (a + b)[i] == b[i - |a|];
      }
    }
  }

  lemma HexNoNul(s: string)
    requires AllHex(s)
    ensures NoNul(s)
  {
  }

  lemma UuidNoNul(u: Uuid)
    ensures NoNul(UuidFormat(u))
  {
    var a, b, c, d, e := HexRun(u[..4]), HexRun(u[4..6]), HexRun(u[6..8]), HexRun(u[8..10]), HexRun(u[10..]);
    HexNoNul(a);
    HexNoNul(b);
    HexNoNul(c);
    HexNoNul(d);
    HexNoNul(e);
    NoNulConcat(a, "-");
    NoNulConcat(a + "-", b);
    NoNulConcat(a + "-" + b, "-");
    NoNulConcat(a + "-" + b + "-", c);
    NoNulConcat(a + "-" + b + "-" + c, "-");
    NoNulConcat(a + "-" + b + "-" + c + "-", d);
    NoNulConcat(a + "-" + b + "-" + c + "-" + d, "-");
    NoNulConcat(a + "-" + b + "-" + c + "-" + d + "-", e);
  }

  /** An element line has no NUL, its value coming from a C string or a UUID text. */
  lemma LineNoNul(e: Element)
    requires CName(e)
    ensures NoNul(Line(e))
  {
    match e
    case SessionUuid(u) =>
      UuidNoNul(u);
      NoNulConcat("  <session-uuid>", UuidFormat(u));
      NoNulConcat("  <session-uuid>" + UuidFormat(u), "</session-uuid>\n");
    case DomainUuid(u) =>
      UuidNoNul(u);
      NoNulConcat("  <uuid>", UuidFormat(u));
      NoNulConcat("  <uuid>" + UuidFormat(u), "</uuid>\n");
    case DomainName(n) =>
      NoNulConcat("  <name>", n);
      NoNulConcat("  <name>" + n, "</name>\n");
  }

  lemma {:induction false} LinesNoNul(es: seq<Element>)
    requires forall i :: 0 <= i < |es| ==> CName(es[i])
    ensures NoNul(Lines(es))
  {
    if es != [] {
      LinesNoNul(es[1..]);
      LineNoNul(es[0]);
      NoNulConcat(Line(es[0]), Lines(es[1..]));
    }
  }

  /** A text without NUL is read by strlen whole, counted in bytes. */
  lemma StrlenNoNul(s: string)
    requires NoNul(s)
    ensures Strlen(s) == Utf8Len(s)
  {
    NulIndexNoNul(s);
    assert s[..|s|] == s;
  }

  lemma {:induction false} NulIndexNoNul(s: string)
    requires NoNul(s)
    ensures NulIndex(s) == |s|
  {
    if s != [] {
      NulIndexNoNul(s[1..]);
    }
  }

  /** An accented letter is one character and two bytes for strlen. */
  lemma StrlenAccent()
    ensures Strlen("\U{e9}") == 2 && |"\U{e9}"| == 1
  {
    assert NulIndex("\U{e9}") == 1;
    assert "\U{e9}"[..1] == "\U{e9}";
  }

  /**
   * The cookie is wrapped in the vz-migration element, and, the name coming
   * from a C string, strlen reads the whole text: the length reported is its
   * UTF-8 byte count plus one, which is its character count plus one
   * exactly when the text is ASCII.
   */
  lemma CookieShape(session: Uuid, dom: Option<Ident>, flags: bv32)
    requires dom.Some? ==> NoNul(dom.value.name)
    ensures StartsWith(CookieText(session, dom, flags), Header)
    ensures EndsWith(CookieText(session, dom, flags), Footer)
    ensures Strlen(CookieText(session, dom, flags)) == Utf8Len(CookieText(session, dom, flags))
    ensures Baked(CookieText(session, dom, flags)).len == |CookieText(session, dom, flags)| + 1
      <==> Ascii(CookieText(session, dom, flags))
  {
    var t := CookieText(session, dom, flags);
    Framed(Header, Lines(Elements(session, dom, flags)), Footer);
    CookieNoNul(session, dom, flags);
    StrlenNoNul(t);
    Utf8LenAscii(t);
  }

  /** The cookie text has no NUL in it when the name has none. */
  lemma CookieNoNul(session: Uuid, dom: Option<Ident>, flags: bv32)
    requires dom.Some? ==> NoNul(dom.value.name)
    ensures NoNul(CookieText(session, dom, flags))
  {
    var es := Elements(session, dom, flags);
    var body := Lines(es);
    ElementsCName(session, dom, flags);
    LinesNoNul(es);
    NoNulConcat(Header, body);
    NoNulConcat(Header + body, Footer);
  }

  lemma ElementsCName(session: Uuid, dom: Option<Ident>, flags: bv32)
    requires dom.Some? ==> NoNul(dom.value.name)
    ensures forall i :: 0 <= i < |Elements(session, dom, flags)| ==> CName(Elements(session, dom, flags)[i])
  {
    var n := DomName(dom);
    assert NoNul(n);
    var es := Elements(session, dom, flags);
    forall i | 0 <= i < |es| ensures CName(es[i]) {
      if es[i].DomainName? {
        assert es[i].name == n;
      }
    }
  }

  lemma Framed(h: string, b: string, f: string)
    ensures StartsWith(h + b + f, h) && EndsWith(h + b + f, f)
  {
    assert (h + b + f)[..|h|] == h;
    assert (h + b + f)[|h + b + f| - |f|..] == f;
  }

}
