/**
 * Cloud-Hypervisor driver configuration: the version string that
 * `cloud-hypervisor --version` prints, the minimum supported version, the
 * per-driver version cache, the integer helper and the configuration defaults.
 */
module ChConf {
  import opened Decimal

  const ClhPrefix: string := "cloud-hypervisor "
  const U32Modulus: int := 0x1_0000_0000

  datatype Result<+T> = Ok(value: T) | Err

  /** Conversion of a C integer to `unsigned int`. */
  function U32(x: int): (r: nat)
    ensures r < U32Modulus
    ensures 0 <= x < U32Modulus ==> r == x
  {
    x % U32Modulus
  }

  /** Conversion of an `unsigned long` below 2^32 to a 32-bit `int`. */
  function ToCInt(v: nat): (r: int)
    ensures -0x8000_0000 <= r < 0x8000_0000
    ensures v < 0x8000_0000 ==> r == v
  {
    var w := v % U32Modulus;
    if w >= 0x8000_0000 then w - U32Modulus else w
  }

  // ---------------------------------------------------------------------------
  // strstr and strrchr

  predicate OccursAt(s: string, pat: string, i: nat) {
    i + |pat| <= |s| && s[i..i + |pat|] == pat
  }

  /** strstr(s, pat): the first position at which pat occurs. */
  function FindFirst(s: string, pat: string, from: nat := 0): (r: Option<nat>)
    requires from <= |s|
    ensures r.Some? ==> from <= r.value && OccursAt(s, pat, r.value)
    ensures r.Some? ==> forall j :: from <= j < r.value ==> !OccursAt(s, pat, j)
    ensures r.None? ==> forall j :: from <= j <= |s| ==> !OccursAt(s, pat, j)
    decreases |s| - from
  {
    if OccursAt(s, pat, from) then Some(from)
    else if from == |s| then None
    else FindFirst(s, pat, from + 1)
  }

  /** strrchr(s, c): the last position holding c. */
  function FindLast(s: string, c: char): (r: Option<nat>)
    ensures r.Some? ==> r.value < |s| && s[r.value] == c
    ensures r.Some? ==> forall j :: r.value < j < |s| ==> s[j] != c
    ensures r.None? ==> forall j :: 0 <= j < |s| ==> s[j] != c
  {
    if s == [] then None
    else if s[|s| - 1] == c then Some(|s| - 1)
    else FindLast(s[..|s| - 1], c)
  }

  // ---------------------------------------------------------------------------
  // virCHVersionString

  /**
   * The text the version fields are read from: after the last '/' when there
   * is one (which must not stand before "cloud-hypervisor "), otherwise
   * |"cloud-hypervisor "| characters from the start of the whole string.
   */
  function VersionText(str: string): Option<string> {
    match FindFirst(str, ClhPrefix)
    case None => None
    case Some(start) =>
      match FindLast(str, '/')
      case Some(slash) => if start > slash then None else Some(str[slash + 1..])
      case None => Some(str[|ClhPrefix|..])
  }

  /**
   * The conversions sscanf performs for the format "v%d.%d. ... " with `want`
   * conversions: the literal 'v', then `%d` fields separated by literal dots,
   * stopping at the first mismatch.
   */
  function ScanFields(s: string, want: nat): (r: seq<int>)
    ensures |r| <= want
  {
    if s != [] && s[0] == 'v' then ScanMore(s[1..], want, true) else []
  }

  function ScanMore(t: string, want: nat, first: bool): (r: seq<int>)
    ensures |r| <= want
    decreases |t|
  {
    if want == 0 then []
    else if !first && (t == [] || t[0] != '.') then []
    else
      var u := if first then t else t[1..];
      match ScanInt(u)
      case None => []
      case Some(Scan(v, rest)) => [v] + ScanMore(rest, want - 1, false)
  }

  datatype Version = Version(major: int, minor: int, micro: int)

  /**
   * The fields of the version text: "v%d.%d.%d" when it converts all three,
   * else "v%d.%d" with micro left at 0.
   */
  function VersionFields(vs: string): Option<Version> {
    var three := ScanFields(vs, 3);
    if |three| == 3 then Some(Version(three[0], three[1], three[2]))
    else
      var two := ScanFields(vs, 2);
      if |two| == 2 then Some(Version(two[0], two[1], 0)) else None
  }

  /** `1000000 * major + 1000 * minor + micro`, computed in `unsigned int`. */
  function VersionNumber(v: Version): (n: nat)
    ensures n < U32Modulus
  {
    U32(1000000 * U32(v.major) + 1000 * U32(v.minor) + U32(v.micro))
  }

  /** virCHVersionString. */
  function VersionString(str: string): Result<nat> {
    match VersionText(str)
    case None => Err
    case Some(vs) =>
      match VersionFields(vs)
      case None => Err
      case Some(v) => Ok(VersionNumber(v))
  }

  /** Inverse of the encoding, for versions whose fields fit in it. */
  function DecodeVersion(n: nat): Version {
    Version(n / 1000000, (n % 1000000) / 1000, n % 1000)
  }

  // ---------------------------------------------------------------------------
  // What virCHVersionString promises

  /**
   * The version text is missing exactly when "cloud-hypervisor " does not
   * occur, or when some '/' exists and every '/' stands before its first
   * occurrence.
   */
  lemma VersionTextMissing(str: string)
    ensures VersionText(str).None? <==>
      (forall i :: 0 <= i <= |str| ==> !OccursAt(str, ClhPrefix, i)) ||
      (exists i :: 0 <= i <= |str| && OccursAt(str, ClhPrefix, i) &&
         (forall j :: 0 <= j < i ==> !OccursAt(str, ClhPrefix, j)) &&
         (exists k :: 0 <= k < i && str[k] == '/') &&
         (forall k :: i <= k < |str| ==> str[k] != '/'))
  {
    match FindFirst(str, ClhPrefix)
    case None =>
    case Some(start) =>
      match FindLast(str, '/')
      case None =>
      case Some(slash) =>
        if start > slash {
          assert OccursAt(str, ClhPrefix, start);
          assert str[slash] == '/';
        } else {
          forall i | 0 <= i <= |str| && OccursAt(str, ClhPrefix, i) &&
                     (forall j :: 0 <= j < i ==> !OccursAt(str, ClhPrefix, j))
            ensures exists k :: i <= k < |str| && str[k] == '/'
          {
            assert i == start;
            assert str[slash] == '/';
          }
        }
  }

  /**
   * The version text is what follows the last '/' when there is one, and
   * otherwise everything after the first |"cloud-hypervisor "| characters of
   * the string, wherever the prefix itself occurs.
   */
  lemma VersionTextFound(str: string)
    requires VersionText(str).Some?
    ensures var vs := VersionText(str).value;
      (forall k :: 0 <= k < |str| ==> str[k] != '/') ==> vs == str[|ClhPrefix|..]
    ensures var vs := VersionText(str).value;
      (exists k :: 0 <= k < |str| && str[k] == '/') ==>
        |vs| < |str| && vs == str[|str| - |vs|..] && str[|str| - |vs| - 1] == '/' &&
        forall k :: 0 <= k < |vs| ==> vs[k] != '/'
  {
    if exists k :: 0 <= k < |str| && str[k] == '/' {
      var slash := FindLast(str, '/').value;
      var vs := VersionText(str).value;
      assert vs == str[slash + 1..];
      assert forall k :: 0 <= k < |vs| ==> vs[k] == str[slash + 1 + k];
    }
  }

  /** Asking for one conversion fewer gives the same fields, cut to that many. */
  lemma {:induction false} ScanMoreShorter(t: string, want: nat, first: bool)
    ensures |ScanMore(t, want + 1, first)| <= want ==> ScanMore(t, want, first) == ScanMore(t, want + 1, first)
    ensures |ScanMore(t, want + 1, first)| > want ==> |ScanMore(t, want, first)| == want
    decreases |t|
  {
    if want == 0 {
    } else if !first && (t == [] || t[0] != '.') {
    } else {
      var u := if first then t else t[1..];
      var r := ScanInt(u);
      if r.Some? {
        assert ScanMore(t, want, first) == [r.value.value] + ScanMore(r.value.rest, want - 1, false);
        assert ScanMore(t, want + 1, first) == [r.value.value] + ScanMore(r.value.rest, want, false);
        ScanMoreShorter(r.value.rest, want - 1, false);
      } else {
        assert ScanMore(t, want + 1, first) == [];
      }
    }
  }

  /** The first "%d" taken by ScanMore. */
  lemma ScanMoreFirst(v: int, rest: string, want: nat)
    requires want > 0
    requires rest == [] || !IsDigit(rest[0])
    ensures ScanMore(IntToString(v) + rest, want, true) == [v] + ScanMore(rest, want - 1, false)
  {
    ScanIntToString(v, rest);
  }

  /** A further ".%d" taken by ScanMore. */
  lemma ScanMoreNext(v: int, rest: string, want: nat)
    requires want > 0
    requires rest == [] || !IsDigit(rest[0])
    ensures ScanMore("." + (IntToString(v) + rest), want, false) == [v] + ScanMore(rest, want - 1, false)
  {
    var t := "." + (IntToString(v) + rest);
    assert t[1..] == IntToString(v) + rest;
    ScanIntToString(v, rest);
  }

  /** The fields as a release prints them: "vM.m.u" and whatever follows. */
  function ReleaseText(major: int, minor: int, micro: int, rest: string): string {
    "v" + IntToString(major) + "." + IntToString(minor) + "." + IntToString(micro) + rest
  }

  /** The fields as a development build prints them: "vM.m" and whatever follows. */
  function DevelopmentText(major: int, minor: int, rest: string): string {
    "v" + IntToString(major) + "." + IntToString(minor) + rest
  }

  lemma ReleaseTextNested(major: int, minor: int, micro: int, rest: string)
    ensures ReleaseText(major, minor, micro, rest) ==
            "v" + (IntToString(major) + ("." + (IntToString(minor) + ("." + (IntToString(micro) + rest)))))
  {
    var b, d, f := IntToString(major), IntToString(minor), IntToString(micro);
    ConcatAssoc("v" + b + "." + d + ".", f, rest);
    ConcatAssoc("v" + b + "." + d, ".", f + rest);
    ConcatAssoc("v" + b + ".", d, "." + (f + rest));
    ConcatAssoc("v" + b, ".", d + ("." + (f + rest)));
    ConcatAssoc("v", b, "." + (d + ("." + (f + rest))));
  }

  lemma DevelopmentTextNested(major: int, minor: int, rest: string)
    ensures DevelopmentText(major, minor, rest) ==
            "v" + (IntToString(major) + ("." + (IntToString(minor) + rest)))
  {
    var b, d := IntToString(major), IntToString(minor);
    ConcatAssoc("v" + b + ".", d, rest);
    ConcatAssoc("v" + b, ".", d + rest);
    ConcatAssoc("v", b, "." + (d + rest));
  }

  lemma ScanFieldsRelease(major: int, minor: int, micro: int, rest: string)
    requires rest == [] || !IsDigit(rest[0])
    ensures ScanFields(ReleaseText(major, minor, micro, rest), 3) == [major, minor, micro]
  {
    var t3 := "." + (IntToString(micro) + rest);
    var t2 := "." + (IntToString(minor) + t3);
    var t1 := IntToString(major) + t2;
    var s := ReleaseText(major, minor, micro, rest);
    assert ScanFields(s, 3) == ScanMore(t1, 3, true) by {
      ReleaseTextNested(major, minor, micro, rest);
      assert s[0] == 'v' && s[1..] == t1;
    }
    assert ScanMore(t1, 3, true) == [major] + ScanMore(t2, 2, false) by {
      ScanMoreFirst(major, t2, 3);
    }
    assert ScanMore(t2, 2, false) == [minor] + ScanMore(t3, 1, false) by {
      ScanMoreNext(minor, t3, 2);
    }
    assert ScanMore(t3, 1, false) == [micro] by {
      ScanMoreNext(micro, rest, 1);
    }
  }

  lemma ScanFieldsDevelopment(major: int, minor: int, rest: string, want: nat)
    requires want == 2 || want == 3
    requires rest == [] || (!IsDigit(rest[0]) && rest[0] != '.')
    ensures ScanFields(DevelopmentText(major, minor, rest), want) == [major, minor]
  {
    var t2 := "." + (IntToString(minor) + rest);
    var t1 := IntToString(major) + t2;
    DevelopmentTextNested(major, minor, rest);
    assert ("v" + t1)[1..] == t1;
    ScanMoreFirst(major, t2, want);
    ScanMoreNext(minor, rest, want - 1);
  }

  /** "vM.m.u" gives (M, m, u). */
  lemma ScanThreeFields(major: int, minor: int, micro: int, rest: string)
    requires rest == [] || !IsDigit(rest[0])
    ensures VersionFields(ReleaseText(major, minor, micro, rest)) == Some(Version(major, minor, micro))
  {
    ScanFieldsRelease(major, minor, micro, rest);
  }

  /** "vM.m" not followed by a further ".%d" gives (M, m, 0). */
  lemma ScanTwoFields(major: int, minor: int, rest: string)
    requires rest == [] || (!IsDigit(rest[0]) && rest[0] != '.')
    ensures VersionFields(DevelopmentText(major, minor, rest)) == Some(Version(major, minor, 0))
  {
    ScanFieldsDevelopment(major, minor, rest, 3);
    ScanFieldsDevelopment(major, minor, rest, 2);
  }

  /** Anything that does not begin with "v%d.%d" is refused. */
  lemma VersionFieldsRefused(vs: string)
    ensures VersionFields(vs).None? <==> |ScanFields(vs, 2)| < 2
  {
    if vs != [] && vs[0] == 'v' {
      ScanMoreShorter(vs[1..], 2, true);
    }
  }

  /** The encoding is undone by DecodeVersion while it does not wrap. */
  lemma DecodeVersionNumber(v: Version)
    requires 0 <= v.major && 0 <= v.minor < 1000 && 0 <= v.micro < 1000
    requires 1000000 * v.major + 1000 * v.minor + v.micro < U32Modulus
    ensures DecodeVersion(VersionNumber(v)) == v
  {
    var n := 1000000 * v.major + 1000 * v.minor + v.micro;
    assert U32(v.major) == v.major && U32(v.minor) == v.minor && U32(v.micro) == v.micro;
    assert VersionNumber(v) == n;
    assert n / 1000000 == v.major;
    assert n % 1000000 == 1000 * v.minor + v.micro;
    assert (1000 * v.minor + v.micro) / 1000 == v.minor;
    assert n % 1000 == v.micro;
  }

  /** The `unsigned int` arithmetic wraps for majors of 4295 and above. */
  lemma VersionNumberWraps()
    ensures VersionNumber(Version(4295, 0, 0)) == 32704
  {
  }

  predicate NoSlash(s: string) { forall k :: 0 <= k < |s| ==> s[k] != '/' }

  /** Without a '/', the fields are read right after the leading prefix. */
  lemma VersionTextPlain(vs: string)
    requires NoSlash(vs)
    ensures VersionText(ClhPrefix + vs) == Some(vs)
  {
    var str := ClhPrefix + vs;
    assert str[0..|ClhPrefix|] == ClhPrefix;
    assert FindFirst(str, ClhPrefix) == Some(0);
    assert NoSlash(str) by {
      forall k | 0 <= k < |str| ensures str[k] != '/' {
        if k >= |ClhPrefix| { assert str[k] == vs[k - |ClhPrefix|]; }
      }
    }
    assert str[|ClhPrefix|..] == vs;
  }

  /** With a vendor tag ("msft/"), the fields are read after the last '/'. */
  lemma VersionTextVendor(vendor: string, vs: string)
    requires NoSlash(vendor) && NoSlash(vs)
    ensures VersionText(ClhPrefix + vendor + "/" + vs) == Some(vs)
  {
    var str := ClhPrefix + vendor + "/" + vs;
    var pos := |ClhPrefix| + |vendor|;
    assert str[0..|ClhPrefix|] == ClhPrefix;
    assert FindFirst(str, ClhPrefix) == Some(0);
    assert str[pos] == '/';
    forall k | pos < k < |str| ensures str[k] != '/' {
      assert str[k] == vs[k - pos - 1];
    }
    var last := FindLast(str, '/');
    assert last == Some(pos);
    assert str[pos + 1..] == vs;
  }

  lemma NoSlashConcat(a: string, b: string)
    ensures NoSlash(a + b) <==> NoSlash(a) && NoSlash(b)
  {
    if NoSlash(a + b) {
      forall k | 0 <= k < |a| ensures a[k] != '/' { assert a[k] == (a + b)[k]; }
      forall k | 0 <= k < |b| ensures b[k] != '/' { assert b[k] == (a + b)[|a| + k]; }
    }
  }

  lemma NoSlashInt(i: int)
    ensures NoSlash(IntToString(i))
  {
  }

  lemma NoSlashRelease(major: int, minor: int, micro: int, rest: string)
    requires NoSlash(rest)
    ensures NoSlash(ReleaseText(major, minor, micro, rest))
  {
    NoSlashInt(major); NoSlashInt(minor); NoSlashInt(micro);
    var a := "v" + IntToString(major);
    NoSlashConcat("v", IntToString(major));
    NoSlashConcat(a, ".");
    NoSlashConcat(a + ".", IntToString(minor));
    NoSlashConcat(a + "." + IntToString(minor), ".");
    NoSlashConcat(a + "." + IntToString(minor) + ".", IntToString(micro));
    NoSlashConcat(a + "." + IntToString(minor) + "." + IntToString(micro), rest);
  }

  lemma NoSlashDevelopment(major: int, minor: int, rest: string)
    requires NoSlash(rest)
    ensures NoSlash(DevelopmentText(major, minor, rest))
  {
    NoSlashInt(major); NoSlashInt(minor);
    var a := "v" + IntToString(major);
    NoSlashConcat("v", IntToString(major));
    NoSlashConcat(a, ".");
    NoSlashConcat(a + ".", IntToString(minor));
    NoSlashConcat(a + "." + IntToString(minor), rest);
  }

  /**
   * An upstream release, "cloud-hypervisor vM.m.u": the number is
   * 1000000 * M + 1000 * m + u.
   */
  lemma VersionStringRelease(major: int, minor: int, micro: int, rest: string)
    requires NoSlash(rest) && (rest == [] || !IsDigit(rest[0]))
    ensures VersionString(ClhPrefix + ReleaseText(major, minor, micro, rest)) ==
            Ok(VersionNumber(Version(major, minor, micro)))
  {
    NoSlashRelease(major, minor, micro, rest);
    VersionTextPlain(ReleaseText(major, minor, micro, rest));
    ScanThreeFields(major, minor, micro, rest);
  }

  /**
   * An upstream development build, "cloud-hypervisor vM.m-<commits>-g<hash>":
   * the micro field is 0.
   */
  lemma VersionStringDevelopment(major: int, minor: int, rest: string)
    requires NoSlash(rest) && (rest == [] || (!IsDigit(rest[0]) && rest[0] != '.'))
    ensures VersionString(ClhPrefix + DevelopmentText(major, minor, rest)) ==
            Ok(VersionNumber(Version(major, minor, 0)))
  {
    NoSlashDevelopment(major, minor, rest);
    VersionTextPlain(DevelopmentText(major, minor, rest));
    ScanTwoFields(major, minor, rest);
  }

  /**
   * A vendor build, "cloud-hypervisor <vendor>/vM.m.u": the vendor tag is
   * skipped.
   */
  lemma VersionStringVendor(vendor: string, major: int, minor: int, micro: int, rest: string)
    requires NoSlash(vendor) && NoSlash(rest) && (rest == [] || !IsDigit(rest[0]))
    ensures VersionString(ClhPrefix + vendor + "/" + ReleaseText(major, minor, micro, rest)) ==
            Ok(VersionNumber(Version(major, minor, micro)))
  {
    NoSlashRelease(major, minor, micro, rest);
    VersionTextVendor(vendor, ReleaseText(major, minor, micro, rest));
    ScanThreeFields(major, minor, micro, rest);
  }

  // ---------------------------------------------------------------------------
  // Minimum supported version (v0.9.0)

  predicate TooOld(version: nat) {
    U32(version / 1000000) < 1 && U32(version % 1000000) / 1000 < 9
  }

  datatype VersionInfo = VersionInfo(rc: int, version: int)

  /**
   * chExtractVersionInfo given what running `cloud-hypervisor --version`
   * gave (None when the command could not be run): the return code and the
   * value left in *retversion.
   */
  function ExtractVersionInfo(output: Option<string>): (r: VersionInfo)
    ensures r.rc == 0 || r.rc == -1
    ensures r.rc != 0 ==> r.version == 0
    ensures r.rc == 0 <==>
      output.Some? && VersionString(output.value).Ok? && !TooOld(VersionString(output.value).value)
    ensures r.rc == 0 ==> r.version == ToCInt(VersionString(output.value).value)
  {
    if output.None? then VersionInfo(-1, 0)
    else
      match VersionString(output.value)
      case Err => VersionInfo(-1, 0)
      case Ok(v) => if TooOld(v) then VersionInfo(-1, 0) else VersionInfo(0, ToCInt(v))
  }

  /** Below v0.9.0 exactly: the rule refuses every number under 9000. */
  lemma TooOldBelow(version: nat)
    requires version < U32Modulus
    ensures TooOld(version) <==> version < 9000
  {
  }

  /** On unwrapped versions the rule is the order (major, minor) < (0, 9). */
  lemma TooOldVersion(v: Version)
    requires 0 <= v.major && 0 <= v.minor < 1000 && 0 <= v.micro < 1000
    requires 1000000 * v.major + 1000 * v.minor + v.micro < U32Modulus
    ensures TooOld(VersionNumber(v)) <==> v.major == 0 && v.minor < 9
  {
    DecodeVersionNumber(v);
    TooOldBelow(VersionNumber(v));
  }

  /** The driver state chExtractVersion works on. */
  class Driver {
    /** driver->version: 0 until a version has been extracted. */
    var version: int
    /** How many times `cloud-hypervisor --version` has been run. */
    var commandRuns: nat

    constructor ()
      ensures version == 0 && commandRuns == 0
    {
      version := 0;
      commandRuns := 0;
    }

    /**
     * chExtractVersion: a positive cached version is kept and nothing is run;
     * otherwise the command is run once and its version (or 0) is stored.
     */
    method ExtractVersion(output: Option<string>) returns (rc: int)
      modifies this
      ensures old(version) > 0 ==> rc == 0 && version == old(version) && commandRuns == old(commandRuns)
      ensures old(version) <= 0 ==>
        commandRuns == old(commandRuns) + 1 &&
        rc == ExtractVersionInfo(output).rc && version == ExtractVersionInfo(output).version
    {
      if version > 0 {
        return 0;
      }
      version := 0;
      commandRuns := commandRuns + 1;
      var info := ExtractVersionInfo(output);
      if info.rc < 0 {
        return -1;
      }
      version := info.version;
      rc := 0;
    }
  }

  // ---------------------------------------------------------------------------
  // chStrToInt

  const IntMin: int := -0x8000_0000
  const IntMax: int := 0x7FFF_FFFF

  /**
   * chStrToInt: virStrToLong_i with no end pointer, so the whole string must be
   * one base-10 number (leading white space and a sign allowed) that fits in
   * an `int`; anything else gives 0.
   */
  function StrToInt(s: string): (r: int)
    ensures IntMin <= r <= IntMax
  {
    match ScanInt(s)
    case None => 0
    case Some(Scan(v, rest)) => if rest != [] || v < IntMin || v > IntMax then 0 else v
  }

  /** Every `int` printed in base 10 reads back as itself. */
  lemma StrToIntRoundTrip(i: int)
    requires IntMin <= i <= IntMax
    ensures StrToInt(IntToString(i)) == i
  {
    ScanIntToString(i, []);
    assert IntToString(i) + [] == IntToString(i);
  }

  /** A number followed by anything else reads as 0. */
  lemma StrToIntTrailing(i: int, rest: string)
    requires rest != [] && !IsDigit(rest[0])
    ensures StrToInt(IntToString(i) + rest) == 0
  {
    ScanIntToString(i, rest);
  }

  // ---------------------------------------------------------------------------
  // virCHDriverConfigNew

  class DriverConfig {
    var stateDir: string
    var logDir: string
    var configDir: string
    var autostartDir: string
    var logTimestamp: bool
    var stdioLogD: bool
    var cgroupControllers: int

    /**
     * The defaults; the three directories are the build-time CH_STATE_DIR,
     * CH_LOG_DIR and CH_CONF_BASE_DIR.
     */
    constructor (chStateDir: string, chLogDir: string, chConfBaseDir: string)
      ensures stateDir == chStateDir && logDir == chLogDir && configDir == chConfBaseDir
      ensures autostartDir == chConfBaseDir + "/autostart"
      ensures logTimestamp && !stdioLogD
      ensures cgroupControllers == -1
    {
      stateDir := chStateDir;
      logDir := chLogDir;
      configDir := chConfBaseDir;
      autostartDir := configDir + "/autostart";
      logTimestamp := true;
      stdioLogD := false;
      cgroupControllers := -1;
    }
  }
}
