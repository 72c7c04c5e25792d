/**
 * The URIs of the Virtuozzo driver's migration (src/vz/vz_driver.c): the
 * check a migration URI must pass, and the URI the destination offers.
 * Parsing the text into parts is libxml's work and is an input here.
 */
module VzUri {
  import opened Decimal

  /** The parts of a parsed URI; an absent part is None, an absent port 0. */
  datatype Uri = Uri(
    scheme: Option<string>,
    server: Option<string>,
    user: Option<string>,
    port: int,
    path: Option<string>,
    query: Option<string>,
    fragment: Option<string>)

  /** Why a migration URI is refused, one reason per error vzParseVzURI reports. */
  datatype UriError = Unparsable | MissingPart | ExtraPart | WrongScheme

  datatype Parsed = Accepted(uri: Uri) | Rejected(why: UriError)

  /** A migration URI as the driver wants it: scheme vzmigr, a server, a port at most. */
  predicate IsMigrationUri(u: Uri) {
    u.server.Some? && u == Uri(Some("vzmigr"), u.server, None, u.port, None, None, None)
  }

  /**
   * vzParseVzURI, given what virURIParse made of the text (None when it did
   * not parse): scheme and server are mandatory, nothing but scheme, server
   * and port is allowed, and the scheme must be vzmigr, checked in that order.
   */
  function ParseVzUri(parsed: Option<Uri>): (r: Parsed)
    ensures r.Accepted? <==> parsed.Some? && IsMigrationUri(parsed.value)
    ensures r.Accepted? ==> r.uri == parsed.value
    ensures r == Rejected(Unparsable) <==> parsed.None?
    ensures r == Rejected(WrongScheme) ==>
      parsed.value.scheme.Some? && parsed.value.scheme != Some("vzmigr") && parsed.value.server.Some?
  {
    match parsed
    case None => Rejected(Unparsable)
    case Some(u) =>
      if u.scheme.None? || u.server.None? then Rejected(MissingPart)
      else if u.user.Some? || u.path.Some? || u.query.Some? || u.fragment.Some? then Rejected(ExtraPart)
      else if u.scheme.value != "vzmigr" then Rejected(WrongScheme)
      else Accepted(u)
  }

  /** A missing scheme or server is reported before any part that should not be there. */
  lemma MissingBeforeExtra(u: Uri)
    requires u.scheme.None? || u.server.None?
    ensures ParseVzUri(Some(u)) == Rejected(MissingPart)
  {
  }


  const MigrationScheme := "vzmigr://"

  /**
   * vzMigrationCreateURI, given the host name (None when it cannot be
   * had): a name starting with "localhost" is refused, as migration needs a
   * fully qualified name.
   */
  function MigrationCreateUri(hostname: Option<string>): (r: Option<string>)
    ensures r.Some? <==> hostname.Some? && !StartsWith(hostname.value, "localhost")
    ensures r.Some? ==> StartsWith(r.value, MigrationScheme) && r.value[|MigrationScheme|..] == hostname.value
  {
    match hostname
    case None => None
    case Some(h) => if StartsWith(h, "localhost") then None else Some(MigrationScheme + h)
  }

  // ---------------------------------------------------------------------------
  // A reference reader for texts of the form scheme://host

  /** Characters that end or structure the host part of a URI. */
  predicate Delimiter(c: char) { c == ':' || c == '/' || c == '?' || c == '#' || c == '@' || c == '[' }

  predicate PlainHost(h: string) { h != [] && forall i :: 0 <= i < |h| ==> !Delimiter(h[i]) }

  /** Index of the first colon, or the length. */
  function ColonAt(s: string): (k: nat)
    ensures k <= |s| && (k < |s| ==> s[k] == ':')
    ensures forall i :: 0 <= i < k ==> s[i] != ':'
  {
    if s == [] || s[0] == ':' then 0 else 1 + ColonAt(s[1..])
  }

  /** The parts of "scheme://host" with a plain host; None for any other text. */
  function ReadSchemeHost(s: string): (r: Option<Uri>)
    ensures r.Some? ==> r.value.server.Some? && r.value.scheme.Some?
  {
    var k := ColonAt(s);
    if k + 3 <= |s| && s[k..k + 3] == "://" && PlainHost(s[k + 3..]) then
      Some(Uri(Some(s[..k]), Some(s[k + 3..]), None, 0, None, None, None))
    else None
  }

  lemma {:induction false} ColonAtPrefix(a: string, b: string)
    requires forall i :: 0 <= i < |a| ==> a[i] != ':'
    ensures ColonAt(a + b) == |a| + ColonAt(b)
    decreases |a|
  {
    if a != [] {
      assert (a + b)[1..] == a[1..] + b;
      ColonAtPrefix(a[1..], b);
    } else {
      assert a + b == b;
    }
  }

  /**
   * The URI the destination offers, read back, is one the source accepts,
   * with the destination's host as its server.
   */
  lemma {:induction false} CreatedUriAccepted(h: string)
    requires PlainHost(h) && !StartsWith(h, "localhost")
    ensures MigrationCreateUri(Some(h)).Some?
    ensures ReadSchemeHost(MigrationCreateUri(Some(h)).value) == Some(Uri(Some("vzmigr"), Some(h), None, 0, None, None, None))
    ensures ParseVzUri(ReadSchemeHost(MigrationCreateUri(Some(h)).value)).Accepted?
  {
    var s := MigrationScheme + h;
    assert s == "vzmigr" + ("://" + h);
    ColonAtPrefix("vzmigr", "://" + h);
    assert ColonAt("://" + h) == 0;
    assert s[6..9] == "://";
    assert s[..6] == "vzmigr";
    assert s[9..] == h;
  }
}
