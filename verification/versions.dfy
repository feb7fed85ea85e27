/**
 * The version resolver of src/blockbenchVersionManager.ts: symbolic names
 * (`latest`, `beta`, an optionally `v`-prefixed explicit version) resolved
 * against a snapshot of the release registry, and the validity test with its
 * minimum supported version.
 */
module Versions {
  import opened Results
  import opened Errors
  import opened Text

  /** One entry of the registry's release list. */
  datatype Release = Release(tagName: string, prerelease: bool)

  /**
   * What the release registry answers during one invocation.
   * `latest`: the tag of the latest release, `None` when that request fails.
   * `releases`: the release list in the registry's order, `None` when that request fails.
   * `tags`: for each tag that can be looked up, the `tag_name` of the release returned.
   * `portables`: the resolved versions whose portable download answers with success.
   */
  datatype Registry = Registry(
    latest: Option<string>,
    releases: Option<seq<Release>>,
    tags: map<string, string>,
    portables: set<string>)

  /**
   * `isOnline()`: the stored flag is a string (`'TRUE'` or `'FALSE'` once the
   * probe has run) and any non-empty string is truthy, so both outcomes of
   * the probe count as online; only an unset flag is offline.
   */
  function IsOnline(flag: Option<string>): (online: bool)
    ensures flag == Some("TRUE") || flag == Some("FALSE") ==> online
    ensures flag.None? ==> !online
  {
    flag.Some? && flag.value != ""
  }

  /** `getLatestBlockbenchVersion`: the latest release's tag. */
  function GetLatestBlockbenchVersion(reg: Registry): (r: Result<string, Error>)
    ensures r.Success? <==> reg.latest.Some?
    ensures r.Success? ==> r.value == reg.latest.value
    ensures r.Failure? ==> r.error == RegistryUnavailable
  {
    if reg.latest.Some? then Success(reg.latest.value) else Failure(RegistryUnavailable)
  }

  /** The tag of the first prerelease in list order, if there is one. */
  function FirstPrerelease(rs: seq<Release>): (r: Option<string>)
    ensures r.None? <==> forall i :: 0 <= i < |rs| ==> !rs[i].prerelease
    ensures r.Some? ==> exists i :: 0 <= i < |rs| && rs[i].prerelease && rs[i].tagName == r.value
                          && forall j :: 0 <= j < i ==> !rs[j].prerelease
  {
    if |rs| == 0 then None
    else if rs[0].prerelease then Some(rs[0].tagName)
    else
      var r := FirstPrerelease(rs[1..]);
      if r.Some? then
        ghost var i :| 0 <= i < |rs[1..]| && rs[1..][i].prerelease && rs[1..][i].tagName == r.value
                      && forall j :: 0 <= j < i ==> !rs[1..][j].prerelease;
        assert rs[i + 1] == rs[1..][i];
        assert forall j :: 1 <= j < i + 1 ==> rs[j] == rs[1..][j - 1];
        r
      else
        assert forall i :: 1 <= i < |rs| ==> rs[i] == rs[1..][i - 1];
        r
  }

  /** `getLatestBetaBlockbenchVersion`: the first prerelease's tag, an error when there is none. */
  function GetLatestBetaBlockbenchVersion(reg: Registry): (r: Result<string, Error>)
    ensures reg.releases.None? ==> r == Failure(RegistryUnavailable)
    ensures reg.releases.Some? ==> (r.Failure? <==> forall i :: 0 <= i < |reg.releases.value| ==> !reg.releases.value[i].prerelease)
    ensures reg.releases.Some? && r.Failure? ==> r.error == NoBetaRelease
  {
    if reg.releases.None? then Failure(RegistryUnavailable)
    else
      var tag := FirstPrerelease(reg.releases.value);
      if tag.Some? then Success(tag.value) else Failure(NoBetaRelease)
  }

  const LatestName: string := "latest"
  const BetaName: string := "beta"

  /** Exactly one leading `v` is dropped. */
  function StripV(v: string): (r: string)
    ensures StartsWithChar(v, 'v') ==> v == "v" + r
    ensures !StartsWithChar(v, 'v') ==> r == v
  {
    if StartsWithChar(v, 'v') then v[1..] else v
  }

  /**
   * `resolveVersion`: no version is an error; `latest` and `beta` are looked
   * up in the registry; then one leading `v` is stripped. Nothing else is
   * checked, so any string resolves.
   */
  function ResolveVersion(v: Option<string>, reg: Registry): (r: Result<string, Error>)
    ensures v.None? ==> r == Failure(NoVersionGiven)
    ensures v == Some(LatestName) ==>
      (if reg.latest.Some? then r == Success(StripV(reg.latest.value)) else r == Failure(RegistryUnavailable))
    ensures v == Some(BetaName) ==>
      (r.Success? <==> reg.releases.Some? && FirstPrerelease(reg.releases.value).Some?)
    ensures v == Some(BetaName) && r.Success? ==> r.value == StripV(FirstPrerelease(reg.releases.value).value)
    ensures v.Some? && v.value != LatestName && v.value != BetaName ==> r == Success(StripV(v.value))
  {
    if v.None? then Failure(NoVersionGiven)
    else
      var tag :-
        if v.value == LatestName then GetLatestBlockbenchVersion(reg)
        else if v.value == BetaName then GetLatestBetaBlockbenchVersion(reg)
        else Success(v.value);
      Success(StripV(tag))
  }

  /** An explicit version resolves to itself, with or without one leading `v`. */
  lemma ResolveExplicit(x: string, reg: Registry)
    requires x != LatestName && x != BetaName && !StartsWithChar(x, 'v')
    ensures ResolveVersion(Some(x), reg) == Success(x)
    ensures ResolveVersion(Some("v" + x), reg) == Success(x)
  {
    assert ("v" + x)[1..] == x;
  }

  /** `v` followed by a symbolic name is not symbolic: `vlatest` resolves to the literal `latest`. */
  lemma PrefixedSymbolicIsLiteral(reg: Registry)
    ensures ResolveVersion(Some("vlatest"), reg) == Success(LatestName)
  {
  }

  // ---- numeric comparison -------------------------------------------------

  /** A `major.minor.patch` triple. */
  datatype Triple = Triple(major: nat, minor: nat, patch: nat)

  /** Numeric ordering of triples, most significant part first. */
  predicate Below(a: Triple, b: Triple) {
    || a.major < b.major
    || (a.major == b.major && a.minor < b.minor)
    || (a.major == b.major && a.minor == b.minor && a.patch < b.patch)
  }

  predicate IsDigit(c: char) {
    '0' <= c <= '9'
  }

  predicate AllDigits(s: string) {
    forall i :: 0 <= i < |s| ==> IsDigit(s[i])
  }

  /** The decimal value of a string of digits. */
  function DecimalValue(s: string): nat
    requires AllDigits(s)
  {
    if |s| == 0 then 0 else DecimalValue(s[..|s| - 1]) * 10 + (s[|s| - 1] as int - '0' as int)
  }

  /** A non-empty run of decimal digits. */
  predicate Numeral(s: string) {
    s != "" && AllDigits(s)
  }

  /** Three parts joined by dots. */
  function Dotted(a: string, b: string, c: string): string {
    a + "." + b + "." + c
  }

  /** The dotted form is the dot-join of its three parts. */
  lemma DottedIsJoin(a: string, b: string, c: string)
    ensures Dotted(a, b, c) == Join([a, b, c], '.')
  {
    assert Join([b, c], '.') == b + ['.'] + c by {
      assert [b, c][1..] == [c];
    }
    assert [a, b, c][1..] == [b, c];
    assert Join([a, b, c], '.') == a + ['.'] + Join([b, c], '.');
  }

  /**
   * A `N.N.N` version with non-empty decimal parts, as the comparison reads
   * it: a parse succeeds only on three numerals joined by dots, and yields
   * their decimal values.
   */
  function ParseVersion(s: string): (r: Option<Triple>)
    ensures r.Some? ==> exists a, b, c :: Numeral(a) && Numeral(b) && Numeral(c) && s == Dotted(a, b, c)
                          && r.value == Triple(DecimalValue(a), DecimalValue(b), DecimalValue(c))
  {
    var parts := Split(s, '.');
    if |parts| == 3 && forall i :: 0 <= i < 3 ==> Numeral(parts[i]) then
      JoinSplit(s, '.');
      DottedIsJoin(parts[0], parts[1], parts[2]);
      assert parts == [parts[0], parts[1], parts[2]];
      assert s == Dotted(parts[0], parts[1], parts[2]);
      Some(Triple(DecimalValue(parts[0]), DecimalValue(parts[1]), DecimalValue(parts[2])))
    else None
  }

  /** Every three numerals joined by dots parse, to their decimal values. */
  lemma ParseDotted(a: string, b: string, c: string)
    requires Numeral(a) && Numeral(b) && Numeral(c)
    ensures ParseVersion(Dotted(a, b, c)) == Some(Triple(DecimalValue(a), DecimalValue(b), DecimalValue(c)))
  {
    assert '.' !in a && '.' !in b && '.' !in c by {
      assert !IsDigit('.');
    }
    DottedIsJoin(a, b, c);
    SplitJoin([a, b, c], '.');
    assert Split(Dotted(a, b, c), '.') == [a, b, c];
  }

  /** The oldest Blockbench release that lets envbench move its user-data folder. */
  const MinimumVersion: string := Dotted("4", "10", "0")

  /** The three parts of the floor are numerals with the values 4, 10 and 0. */
  lemma MinimumParts()
    ensures Numeral("4") && Numeral("10") && Numeral("0")
    ensures DecimalValue("4") == 4 && DecimalValue("10") == 10 && DecimalValue("0") == 0
  {
    assert "10"[..1] == "1";
    assert "4"[..0] == "" && "1"[..0] == "" && "0"[..0] == "";
  }

  lemma MinimumVersionParses()
    ensures ParseVersion(MinimumVersion) == Some(Triple(4, 10, 0))
  {
    MinimumParts();
    ParseDotted("4", "10", "0");
  }

  /**
   * `isValidBlockbenchVersion`: always valid while the online flag is
   * unset; otherwise the resolved version must not be older than 4.10.0 and
   * the tag lookup must return a release whose `tag_name` is `v` + version.
   */
  function IsValidBlockbenchVersion(named: string, online: Option<string>, reg: Registry): (r: Result<bool, Error>)
    ensures !IsOnline(online) ==> r == Success(true)
    ensures IsOnline(online) ==> (r.Success? <==>
      ResolveVersion(Some(named), reg).Success? && ParseVersion(ResolveVersion(Some(named), reg).value).Some?)
    ensures IsOnline(online) && r.Success? ==>
      var v := ResolveVersion(Some(named), reg).value;
      (r.value <==> !Below(ParseVersion(v).value, Triple(4, 10, 0)) && "v" + v in reg.tags && reg.tags["v" + v] == "v" + v)
  {
    MinimumVersionParses();
    if !IsOnline(online) then Success(true)
    else
      var v :- ResolveVersion(Some(named), reg);
      match ParseVersion(v)
      case None => Failure(UncomparableVersion(v))
      case Some(t) =>
        if Below(t, ParseVersion(MinimumVersion).value) then Success(false)
        else
          var tag := "v" + v;
          Success(tag in reg.tags && reg.tags[tag] == tag)
  }


  /**
   * The floor, for every version that resolves to three numerals: it is valid
   * exactly when it is not numerically below 4.10.0 and its tag exists and
   * names itself.
   */
  lemma ValidityOfDotted(named: string, online: Option<string>, reg: Registry, a: string, b: string, c: string)
    requires IsOnline(online)
    requires Numeral(a) && Numeral(b) && Numeral(c)
    requires ResolveVersion(Some(named), reg) == Success(Dotted(a, b, c))
    ensures var v := Dotted(a, b, c);
      IsValidBlockbenchVersion(named, online, reg)
        == Success(!Below(Triple(DecimalValue(a), DecimalValue(b), DecimalValue(c)), Triple(4, 10, 0))
                   && "v" + v in reg.tags && reg.tags["v" + v] == "v" + v)
  {
    ParseDotted(a, b, c);
  }

  /** The comparison is numeric, not textual: `4.9.0` is below `4.10.0` and so refused. */
  lemma NumericFloor(named: string, online: Option<string>, reg: Registry)
    requires IsOnline(online)
    requires ResolveVersion(Some(named), reg) == Success("4.9.0")
    ensures IsValidBlockbenchVersion(named, online, reg) == Success(false)
  {
    assert Numeral("4") && Numeral("9") && Numeral("0");
    assert Dotted("4", "9", "0") == "4.9.0";
    ValidityOfDotted(named, online, reg, "4", "9", "0");
  }
}
