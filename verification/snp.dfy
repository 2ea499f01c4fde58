/**
  The crate root: platform `Version` and `Build` records, their derived
  equality, ordering and default, and their `Display` text.
 */
module Snp {
  import opened Ints
  import opened Wrappers
  import opened Cmp
  import Decimal

  /** Firmware version `major.minor`. */
  datatype Version = Version(major: u8, minor: u8)

  /** Firmware build: a version and a build id. */
  datatype Build = Build(version: Version, build: u32)

  /** `Version::default()`: every field zero. */
  const DEFAULT_VERSION: Version := Version(0, 0)

  /** `Build::default()`: every field zero. */
  const DEFAULT_BUILD: Build := Build(DEFAULT_VERSION, 0)

  // ---------------------------------------------------------------- ordering

  /** The derived `Ord::cmp` of `Version`: by `major`, then by `minor`. */
  function CompareVersions(a: Version, b: Version): (o: Ordering)
    ensures o == Equal <==> a == b
    ensures o == Less <==> a.major < b.major || (a.major == b.major && a.minor < b.minor)
  {
    CompareInts(a.major, b.major).Then(CompareInts(a.minor, b.minor))
  }

  /** The derived `Ord::cmp` of `Build`: by `version`, then by the build id. */
  function CompareBuilds(a: Build, b: Build): (o: Ordering)
    ensures o == Equal <==> a == b
    ensures o == Less <==> (CompareVersions(a.version, b.version) == Less
                            || (a.version == b.version && a.build < b.build))
  {
    CompareVersions(a.version, b.version).Then(CompareInts(a.build, b.build))
  }

  /** A version read as one number: `major` is the high byte. */
  function VersionKey(v: Version): (k: nat)
    ensures k < 0x1_0000
  {
    v.major * 0x100 + v.minor
  }

  /** A build read as one number: the version above the 32-bit build id. */
  function BuildKey(b: Build): nat {
    VersionKey(b.version) * 0x1_0000_0000 + b.build
  }

  /** Versions are ordered exactly as their numeric keys. */
  lemma VersionOrderIsNumeric(a: Version, b: Version)
    ensures CompareVersions(a, b) == CompareInts(VersionKey(a), VersionKey(b))
  {
    LexicographicIsPositional(a.major, a.minor, b.major, b.minor, 0x100);
  }

  /** Builds are ordered exactly as their numeric keys. */
  lemma BuildOrderIsNumeric(a: Build, b: Build)
    ensures CompareBuilds(a, b) == CompareInts(BuildKey(a), BuildKey(b))
  {
    VersionOrderIsNumeric(a.version, b.version);
    LexicographicIsPositional(VersionKey(a.version), a.build, VersionKey(b.version), b.build, 0x1_0000_0000);
  }

  /** `a <= b` for versions. */
  predicate VersionLe(a: Version, b: Version) {
    CompareVersions(a, b) != Greater
  }

  /** `a <= b` for builds. */
  predicate BuildLe(a: Build, b: Build) {
    CompareBuilds(a, b) != Greater
  }

  /** The version order is total: antisymmetric, transitive and connected. */
  lemma VersionOrderIsTotal(a: Version, b: Version, c: Version)
    ensures CompareVersions(a, b) == CompareVersions(b, a).Reverse()
    ensures VersionLe(a, b) || VersionLe(b, a)
    ensures VersionLe(a, b) && VersionLe(b, a) ==> a == b
    ensures VersionLe(a, b) && VersionLe(b, c) ==> VersionLe(a, c)
  {
    VersionOrderIsNumeric(a, b);
    VersionOrderIsNumeric(b, a);
    VersionOrderIsNumeric(b, c);
    VersionOrderIsNumeric(a, c);
  }

  /** The build order is total: antisymmetric, transitive and connected. */
  lemma BuildOrderIsTotal(a: Build, b: Build, c: Build)
    ensures CompareBuilds(a, b) == CompareBuilds(b, a).Reverse()
    ensures BuildLe(a, b) || BuildLe(b, a)
    ensures BuildLe(a, b) && BuildLe(b, a) ==> a == b
    ensures BuildLe(a, b) && BuildLe(b, c) ==> BuildLe(a, c)
  {
    BuildOrderIsNumeric(a, b);
    BuildOrderIsNumeric(b, a);
    BuildOrderIsNumeric(b, c);
    BuildOrderIsNumeric(a, c);
  }

  /** The default version is the least version. */
  lemma DefaultVersionIsLeast(v: Version)
    ensures VersionLe(DEFAULT_VERSION, v)
  {
    VersionOrderIsNumeric(DEFAULT_VERSION, v);
  }

  /** The default build is the least build. */
  lemma DefaultBuildIsLeast(b: Build)
    ensures BuildLe(DEFAULT_BUILD, b)
  {
    DefaultVersionIsLeast(b.version);
  }

  // ----------------------------------------------------------------- display

  /** `Display for Version`: "major.minor" in decimal. */
  function DisplayVersion(v: Version): (s: string)
    ensures SplitOnce(s, '.') == Some((Decimal.Show(v.major), Decimal.Show(v.minor)))
  {
    NumeralHasNoDot(v.major);
    SplitOnceAt(Decimal.Show(v.major), '.', Decimal.Show(v.minor));
    Decimal.Show(v.major) + "." + Decimal.Show(v.minor)
  }

  /** `Display for Build`: the version's text, a dot, and the build id. */
  function DisplayBuild(b: Build): (s: string)
    ensures SplitOnce(s, '.')
              == Some((Decimal.Show(b.version.major), Decimal.Show(b.version.minor) + "." + Decimal.Show(b.build)))
  {
    var major, minor, build := Decimal.Show(b.version.major), Decimal.Show(b.version.minor), Decimal.Show(b.build);
    NumeralHasNoDot(b.version.major);
    SplitOnceAt(major, '.', minor + "." + build);
    assert major + "." + minor + "." + build == major + "." + (minor + "." + build);
    DisplayVersion(b.version) + "." + build
  }

  /** The position of the first `c` in `s`. */
  function IndexOf(s: string, c: char): (r: Option<nat>)
    ensures r.Some? ==> r.value < |s| && s[r.value] == c && c !in s[..r.value]
    ensures r.None? ==> c !in s
  {
    if |s| == 0 then None
    else if s[0] == c then Some(0)
    else match IndexOf(s[1..], c)
      case None => None
      case Some(i) => Some(i + 1)
  }

  /** `s` cut at its first `c`, the `c` dropped. */
  function SplitOnce(s: string, c: char): Option<(string, string)> {
    match IndexOf(s, c)
    case None => None
    case Some(i) => Some((s[..i], s[i + 1..]))
  }

  lemma SplitOnceAt(a: string, c: char, b: string)
    requires c !in a
    ensures SplitOnce(a + [c] + b, c) == Some((a, b))
  {
    var s := a + [c] + b;
    assert s[|a|] == c;
    assert s[..|a|] == a && s[|a| + 1..] == b;
  }

  function ParseNumber(s: string, bound: nat): Option<nat> {
    if |s| > 0 && Decimal.AllDigits(s) && Decimal.Value(s) < bound
    then Some(Decimal.Value(s))
    else None
  }

  /** Reads "major.minor" back; `None` when the text is not two dotted numbers in range. */
  function ParseVersion(s: string): Option<Version> {
    match SplitOnce(s, '.')
    case None => None
    case Some((a, b)) =>
      match (ParseNumber(a, 0x100), ParseNumber(b, 0x100))
      case (Some(major), Some(minor)) => Some(Version(major, minor))
      case _ => None
  }

  /** Reads "major.minor.build" back. */
  function ParseBuild(s: string): Option<Build> {
    match SplitOnce(s, '.')
    case None => None
    case Some((a, rest)) =>
      match SplitOnce(rest, '.')
      case None => None
      case Some((b, c)) =>
        match (ParseNumber(a, 0x100), ParseNumber(b, 0x100), ParseNumber(c, 0x1_0000_0000))
        case (Some(major), Some(minor), Some(build)) => Some(Build(Version(major, minor), build))
        case _ => None
  }

  lemma NumeralHasNoDot(n: nat)
    ensures '.' !in Decimal.Show(n)
  {
    var s := Decimal.Show(n);
    assert forall i :: 0 <= i < |s| ==> s[i] != '.';
  }

  lemma ParseShown(n: nat, bound: nat)
    requires n < bound
    ensures ParseNumber(Decimal.Show(n), bound) == Some(n)
  {
    Decimal.ValueShow(n);
  }

  /** The version text reads back as the version. */
  lemma ParseDisplayVersion(v: Version)
    ensures ParseVersion(DisplayVersion(v)) == Some(v)
  {
    NumeralHasNoDot(v.major);
    SplitOnceAt(Decimal.Show(v.major), '.', Decimal.Show(v.minor));
    ParseShown(v.major, 0x100);
    ParseShown(v.minor, 0x100);
  }

  /** The build text reads back as the build, so "major.minor.build" loses nothing. */
  lemma ParseDisplayBuild(b: Build)
    ensures ParseBuild(DisplayBuild(b)) == Some(b)
  {
    var major := Decimal.Show(b.version.major);
    var minor := Decimal.Show(b.version.minor);
    var build := Decimal.Show(b.build);
    assert DisplayBuild(b) == major + "." + (minor + "." + build);
    NumeralHasNoDot(b.version.major);
    NumeralHasNoDot(b.version.minor);
    SplitOnceAt(major, '.', minor + "." + build);
    SplitOnceAt(minor, '.', build);
    ParseShown(b.version.major, 0x100);
    ParseShown(b.version.minor, 0x100);
    ParseShown(b.build, 0x1_0000_0000);
  }

  /** Two versions print alike only when they are equal. */
  lemma DisplayVersionInjective(a: Version, b: Version)
    requires DisplayVersion(a) == DisplayVersion(b)
    ensures a == b
  {
    ParseDisplayVersion(a);
    ParseDisplayVersion(b);
  }

  /** Two builds print alike only when they are equal. */
  lemma DisplayBuildInjective(a: Build, b: Build)
    requires DisplayBuild(a) == DisplayBuild(b)
    ensures a == b
  {
    ParseDisplayBuild(a);
    ParseDisplayBuild(b);
  }
}
