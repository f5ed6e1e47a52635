/** The plugin's version gate: `major.minor.patch` strings, their
    lexicographic comparison, and the check of the running version
    against the minimum an `.omni` file requires. */
module PluginVersion {
  import opened Wrappers
  import opened Text

  /** `PLUGIN_INFO["version"]`, which is "1.0.1" (`RunningVersionText`),
      written through `FormatVersion` so that the verifier does not try
      to evaluate `split` on a literal. */
  const PLUGIN_VERSION: string := FormatVersion(1, 0, 1)

  const UPDATE_URL: string := "https://learn.omniscient-app.com/tutorial-thridParty/Cinema4D"

  datatype Version = Version(major: int, minor: int, patch: int)

  /** `map(int, s.split('.'))` unpacked into three names: `None` when the
      string has other than three parts or a part is no integer (the
      `ValueError` either raises). */
  function ParseVersion(s: string): (r: Option<Version>)
    ensures r.Some? <==>
      |Split(s, '.')| == 3 && ParseInt(Split(s, '.')[0]).Some? &&
      ParseInt(Split(s, '.')[1]).Some? && ParseInt(Split(s, '.')[2]).Some?
    ensures r.Some? ==>
      r.value == Version(ParseInt(Split(s, '.')[0]).value, ParseInt(Split(s, '.')[1]).value, ParseInt(Split(s, '.')[2]).value)
  {
    var parts := Split(s, '.');
    if |parts| != 3 then None
    else
      var major, minor, patch := ParseInt(parts[0]), ParseInt(parts[1]), ParseInt(parts[2]);
      if major.Some? && minor.Some? && patch.Some? then Some(Version(major.value, minor.value, patch.value))
      else None
  }

  /** The canonical text of a version with natural components. */
  function FormatVersion(major: nat, minor: nat, patch: nat): string {
    NatToString(major) + "." + NatToString(minor) + "." + NatToString(patch)
  }

  lemma NoDotInDigits(s: string)
    requires forall k :: 0 <= k < |s| ==> IsDigit(s[k])
    ensures '.' !in s
  {
  }

  /** Parsing the canonical text gives the version back. */
  lemma ParseFormatVersion(major: nat, minor: nat, patch: nat)
    ensures ParseVersion(FormatVersion(major, minor, patch)) == Some(Version(major, minor, patch))
  {
    var a, b, c := NatToString(major), NatToString(minor), NatToString(patch);
    NoDotInDigits(a);
    NoDotInDigits(b);
    NoDotInDigits(c);
    assert FormatVersion(major, minor, patch) == a + ['.'] + (b + ['.'] + c);
    SplitAtSeparator(a, '.', b + ['.'] + c);
    SplitAtSeparator(b, '.', c);
    SplitNoSeparator(c, '.');
    assert Split(FormatVersion(major, minor, patch), '.') == [a, b, c];
    ParseIntNatToString(major);
    ParseIntNatToString(minor);
    ParseIntNatToString(patch);
  }

  /** Python's tuple order on `(major, minor, patch)`, strict. */
  predicate Less(a: Version, b: Version) {
    || a.major < b.major
    || (a.major == b.major && a.minor < b.minor)
    || (a.major == b.major && a.minor == b.minor && a.patch < b.patch)
  }

  /** `(major_a, minor_a, patch_a) >= (major_b, minor_b, patch_b)`. */
  predicate AtLeast(a: Version, b: Version) {
    if a.major != b.major then a.major > b.major
    else if a.minor != b.minor then a.minor > b.minor
    else a.patch >= b.patch
  }

  /** `>=` on tuples is the negation of the lexicographic `<`. */
  lemma AtLeastIsNotLess(a: Version, b: Version)
    ensures AtLeast(a, b) <==> !Less(a, b)
  {
  }

  lemma AtLeastReflexive(a: Version)
    ensures AtLeast(a, a)
  {
  }

  lemma AtLeastTotal(a: Version, b: Version)
    ensures AtLeast(a, b) || AtLeast(b, a)
  {
  }

  lemma AtLeastAntisymmetric(a: Version, b: Version)
    requires AtLeast(a, b) && AtLeast(b, a)
    ensures a == b
  {
  }

  lemma AtLeastTransitive(a: Version, b: Version, c: Version)
    requires AtLeast(a, b) && AtLeast(b, c)
    ensures AtLeast(a, c)
  {
  }

  /** `version_is_greater_or_equal(a, b)`: `None` when either string is
      malformed, the first being parsed first. */
  function VersionIsGreaterOrEqual(a: string, b: string): (r: Option<bool>)
    ensures r.Some? <==> ParseVersion(a).Some? && ParseVersion(b).Some?
    ensures r.Some? ==> (r.value <==> !Less(ParseVersion(a).value, ParseVersion(b).value))
  {
    var va :- ParseVersion(a);
    var vb :- ParseVersion(b);
    AtLeastIsNotLess(va, vb);
    Some(AtLeast(va, vb))
  }

  /** Why `check_plugin_version` raises: a malformed version string
      (`ValueError`), or an `UnsupportedVersionException` carrying the
      minimum, the running version and the update URL. */
  datatype VersionError =
    | Malformed
    | Unsupported(minimumRequired: string, currentVersion: string, updateUrl: string)

  /** The exception's message; `|` separates the dialog's lines. */
  function UnsupportedMessage(minimumRequired: string, currentVersion: string): string {
    NeededLine(minimumRequired) + "|" + CurrentLine(currentVersion)
  }

  /** The message's first line: the minimum the file asks for. */
  function NeededLine(minimumRequired: string): string {
    "Update needed: version " + minimumRequired + " or higher."
  }

  /** The message's second line: the running version. */
  function CurrentLine(currentVersion: string): string {
    "Current version: " + currentVersion + "."
  }

  /** The running version is 1.0.1. */
  lemma RunningVersionText()
    ensures PLUGIN_VERSION == "1.0.1"
  {
  }

  /** `check_plugin_version`. */
  function CheckPluginVersion(minimumRequired: string): (r: Result<(), VersionError>)
    ensures r.Success? <==> ParseVersion(minimumRequired).Some? && !Less(Version(1, 0, 1), ParseVersion(minimumRequired).value)
    ensures r.Failure? && ParseVersion(minimumRequired).Some? ==>
      r.error == Unsupported(minimumRequired, PLUGIN_VERSION, UPDATE_URL)
    ensures ParseVersion(minimumRequired).None? ==> r == Failure(Malformed)
  {
    ParseFormatVersion(1, 0, 1);
    match VersionIsGreaterOrEqual(PLUGIN_VERSION, minimumRequired)
    case None => Failure(Malformed)
    case Some(ok) => if ok then Success(()) else Failure(Unsupported(minimumRequired, PLUGIN_VERSION, UPDATE_URL))
  }

  /** The texts of the versions the examples below use. */
  lemma ExampleVersionTexts()
    ensures FormatVersion(0, 0, 0) == "0.0.0"
    ensures FormatVersion(9, 9, 9) == "9.9.9"
    ensures NatToString(1) + "_" + NatToString(0) + "." + NatToString(0) + "." + NatToString(0) == "1_0.0.0"
  {
  }

  /** "0.0.0" and "1.0.1" pass the gate. */
  lemma CheckPluginVersionPasses()
    ensures CheckPluginVersion(FormatVersion(1, 0, 1)).Success?
    ensures CheckPluginVersion(FormatVersion(0, 0, 0)).Success?
  {
    ParseFormatVersion(1, 0, 1);
    ParseFormatVersion(0, 0, 0);
  }

  /** "9.9.9" raises, carrying the running version and the update URL. */
  lemma CheckPluginVersionRefuses()
    ensures CheckPluginVersion(FormatVersion(9, 9, 9)) == Failure(Unsupported(FormatVersion(9, 9, 9), PLUGIN_VERSION, UPDATE_URL))
  {
    ParseFormatVersion(9, 9, 9);
  }

  /** The gate passes exactly the minimums the running version is at least. */
  lemma {:induction false} CheckPluginVersionCanonical(major: nat, minor: nat, patch: nat)
    ensures CheckPluginVersion(FormatVersion(major, minor, patch)).Success? <==>
      AtLeast(Version(1, 0, 1), Version(major, minor, patch))
  {
    ParseFormatVersion(major, minor, patch);
    AtLeastIsNotLess(Version(1, 0, 1), Version(major, minor, patch));
  }

  /** Three parts without dots, joined by dots, split back into themselves. */
  lemma SplitThreeParts(a: string, b: string, c: string)
    requires '.' !in a && '.' !in b && '.' !in c
    ensures Split(a + "." + b + "." + c, '.') == [a, b, c]
  {
    assert a + "." + b + "." + c == a + ['.'] + (b + ['.'] + c);
    SplitAtSeparator(a, '.', b + ['.'] + c);
    SplitAtSeparator(b, '.', c);
    SplitNoSeparator(c, '.');
  }

  /** `int` reads an underscore between two digit groups as nothing, so
      a major component written with one ("1_0.0.0") is the version
      without it ("10.0.0"), and the gate treats both alike. */
  lemma {:induction false} CheckPluginVersionUnderscore(a: string, b: string, minor: string, patch: string)
    requires Grouped(a) && Grouped(b) && '.' !in minor && '.' !in patch
    ensures ParseVersion(a + "_" + b + "." + minor + "." + patch) == ParseVersion(a + b + "." + minor + "." + patch)
    ensures ParseVersion(a + "_" + b + "." + minor + "." + patch).Some? ==>
      ParseVersion(a + "_" + b + "." + minor + "." + patch).value.major == DigitsValue(a + b)
    ensures CheckPluginVersion(a + "_" + b + "." + minor + "." + patch).Success? <==>
      CheckPluginVersion(a + b + "." + minor + "." + patch).Success?
  {
    var x, y := a + "_" + b, a + b;
    ParseIntUnderscore(a, b);
    GroupedJoin(a, b);
    NoDotInGrouped(x);
    NoDotInGrouped(y);
    SplitThreeParts(x, minor, patch);
    SplitThreeParts(y, minor, patch);
  }

  /** Hence "1_0.0.0" is version 10.0.0, which the gate refuses as too
      new rather than as malformed. */
  lemma CheckPluginVersionTenUnderscore()
    ensures ParseVersion(NatToString(1) + "_" + NatToString(0) + "." + NatToString(0) + "." + NatToString(0)) ==
      Some(Version(10, 0, 0))
    ensures CheckPluginVersion(NatToString(1) + "_" + NatToString(0) + "." + NatToString(0) + "." + NatToString(0)).Failure?
  {
    var one, z := NatToString(1), NatToString(0);
    CheckPluginVersionUnderscore(one, z, z, z);
    assert NatToString(10) == one + z;
    assert FormatVersion(10, 0, 0) == one + z + "." + z + "." + z;
    ParseFormatVersion(10, 0, 0);
    CheckPluginVersionCanonical(10, 0, 0);
  }

  lemma NoDotInGrouped(s: string)
    requires Grouped(s)
    ensures '.' !in s
  {
  }

  /** A string that does not have exactly three parts is refused, not compared. */
  lemma CheckPluginVersionMalformed()
    ensures CheckPluginVersion("1.0") == Failure(Malformed)
    ensures CheckPluginVersion("") == Failure(Malformed)
  {
    SplitAtSeparator("1", '.', "0");
    SplitNoSeparator("0", '.');
    assert "1.0" == "1" + ['.'] + "0";
    SplitNoSeparator("", '.');
  }

  /** Split at `|`, the message gives exactly the two lines it describes. */
  lemma UnsupportedMessageLines(minimumRequired: string, currentVersion: string)
    requires '|' !in minimumRequired && '|' !in currentVersion
    ensures Split(UnsupportedMessage(minimumRequired, currentVersion), '|') ==
      ["Update needed: version " + minimumRequired + " or higher.",
       "Current version: " + currentVersion + "."]
  {
    NoBarInLines(minimumRequired, currentVersion);
    SplitAtSeparator(NeededLine(minimumRequired), '|', CurrentLine(currentVersion));
    SplitNoSeparator(CurrentLine(currentVersion), '|');
  }

  /** The fixed words of the two lines hold no `|`. */
  lemma NoBarInLines(minimumRequired: string, currentVersion: string)
    requires '|' !in minimumRequired && '|' !in currentVersion
    ensures '|' !in NeededLine(minimumRequired) && '|' !in CurrentLine(currentVersion)
  {
    var a, b := "Update needed: version ", " or higher.";
    assert '|' !in a && '|' !in b;
    assert NeededLine(minimumRequired) == a + minimumRequired + b;
    var c, d := "Current version: ", ".";
    assert '|' !in c && '|' !in d;
    assert CurrentLine(currentVersion) == c + currentVersion + d;
  }
}
