/**
 * The decisions `RTXConfiguration` makes while it sets itself up: the
 * instance name read from the installation directory, the maturity of the
 * deployment, whether it runs on ITRB, the version of every database file,
 * the Plover and KG2 URLs, and the neo4j settings. The file system, git, the
 * environment and the JSON configuration files are read outside the model:
 * what they yield comes in as an `Environment`.
 */
module RTXConfiguration {
  import opened Wrappers
  import opened Text

  const Version := "ARAX 1.2.1"
  const Unknown := "??"
  const OrangeboardPrefix := "/mnt/data/orangeboard/"
  const CodeMarker := "/RTX/code"

  const Staging := "staging"
  const Testing := "testing"
  const Production := "production"
  const Development := "development"

  /**
   * What the installation offers: files already read, git's branch, the two
   * JSON configurations. An override file comes as its `readlines()` list,
   * each line still ending in its newline, or `None` when it does not exist.
   */
  datatype Environment = Environment(
    fileDir: string,
    domain: string,
    branch: Option<string>,
    maturityOverride: Option<seq<string>>,
    ploverOverride: Option<seq<string>>,
    kg2Override: Option<seq<string>>,
    databaseDownloads: Option<map<string, string>>,
    plover: Option<map<string, string>>,
    neo4jHosts: Option<map<string, string>>,
    neo4jSecrets: Option<map<string, map<string, string>>>)

  // ---------------------------------------------------------------- instance name

  /**
   * The pattern `/mnt/data/orangeboard/(.+)/RTX/code`, matched at the start
   * of `dir`, can end its group at `k`: the group is non-empty, holds no line
   * break (`.` does not match one) and the marker follows it.
   */
  predicate GroupEndsAt(dir: string, k: nat) {
    && StartsWith(dir, OrangeboardPrefix)
    && |OrangeboardPrefix| < k
    && OccursAt(dir, CodeMarker, k)
    && forall i | |OrangeboardPrefix| <= i < k :: dir[i] != '\n'
  }

  /** The last position at or below `k` where the group can end: greedy `.+` backtracks from the right. */
  function LastGroupEnd(dir: string, k: nat): (r: Option<nat>)
    ensures r.Some? ==> r.value <= k && GroupEndsAt(dir, r.value)
    ensures r.Some? ==> forall j: nat | r.value < j <= k :: !GroupEndsAt(dir, j)
    ensures r.None? ==> forall j: nat | j <= k :: !GroupEndsAt(dir, j)
  {
    if k <= |OrangeboardPrefix| then None
    else if GroupEndsAt(dir, k) then Some(k)
    else LastGroupEnd(dir, k - 1)
  }

  /** `match.group(1)`, or `None` when the directory does not match. */
  function InstanceGroup(dir: string): (r: Option<string>)
    ensures r.None? <==> forall k: nat | k <= |dir| :: !GroupEndsAt(dir, k)
    ensures r.Some? ==> |r.value| > 0 && StartsWith(dir, OrangeboardPrefix + r.value + CodeMarker)
  {
    match LastGroupEnd(dir, |dir|)
    case None => None
    case Some(k) =>
      var g := dir[|OrangeboardPrefix|..k];
      assert dir[..|OrangeboardPrefix + g + CodeMarker|] == OrangeboardPrefix + g + CodeMarker by {
        assert dir[..|OrangeboardPrefix|] == OrangeboardPrefix;
        assert dir[k..k + |CodeMarker|] == CodeMarker;
      }
      Some(g)
  }

  /** The instance name: the group, with `production` renamed `ARAX`, or `??` when there is no match. */
  function InstanceName(dir: string): (r: string)
    ensures r != Production
    ensures InstanceGroup(dir).None? ==> r == Unknown
  {
    match InstanceGroup(dir)
    case None => Unknown
    case Some(g) => if g == Production then "ARAX" else g
  }

  /**
   * The installation directory `/mnt/data/orangeboard/<g>/RTX/code<rest>`
   * gives back `g` (or `ARAX` for `production`) when `g` is one line and
   * `rest` holds no further marker.
   */
  lemma {:induction false} InstanceNameOf(g: string, rest: string)
    requires |g| > 0 && forall i | 0 <= i < |g| :: g[i] != '\n'
    requires !Contains(rest, CodeMarker)
    ensures InstanceName(OrangeboardPrefix + g + CodeMarker + rest) == if g == Production then "ARAX" else g
  {
    var dir := OrangeboardPrefix + g + CodeMarker + rest;
    var k := |OrangeboardPrefix| + |g|;
    assert dir[..|OrangeboardPrefix|] == OrangeboardPrefix;
    assert dir[k..k + |CodeMarker|] == CodeMarker;
    assert dir[|OrangeboardPrefix|..k] == g;
    assert GroupEndsAt(dir, k);
    forall j: nat | k < j <= |dir|
      ensures !GroupEndsAt(dir, j)
    {
      NoLaterMarker(dir, k, rest, j);
    }
    LastGroupEndFinds(dir, |dir|, k);
  }

  /** Past a marker at `k` followed by `rest`, the marker occurs again only inside `rest`. */
  lemma NoLaterMarker(dir: string, k: nat, rest: string, j: nat)
    requires k + |CodeMarker| <= |dir| && dir == dir[..k] + CodeMarker + rest && k < j
    requires !Contains(rest, CodeMarker)
    ensures !OccursAt(dir, CodeMarker, j)
  {
    if j < k + |CodeMarker| {
      // the marker's only other `/` is at offset 4, followed by `c` and not `R`
      var d := j - k;
      assert dir[j] == CodeMarker[d];
      if d == 4 {
        assert dir[j + 1] == CodeMarker[5];
      }
    } else if j + |CodeMarker| <= |dir| {
      var i := j - (k + |CodeMarker|);
      assert rest[i..i + |CodeMarker|] == dir[j..j + |CodeMarker|];
      assert !OccursAt(rest, CodeMarker, i);
    }
  }

  /** The last group end at or below `top` is `k` when `k` is one and none lies above it. */
  lemma {:induction false} LastGroupEndFinds(dir: string, top: nat, k: nat)
    requires k <= top && GroupEndsAt(dir, k)
    requires forall j: nat | k < j <= top :: !GroupEndsAt(dir, j)
    ensures LastGroupEnd(dir, top) == Some(k)
    decreases top
  {
    if top > k {
      LastGroupEndFinds(dir, top - 1, k);
    }
  }

  // ---------------------------------------------------------------- override files

  const OverrideFileEmpty := " exists but does not contain anything! It should be a single-line file containing the override value."

  function OverrideFileError(path: string): string {
    path + OverrideFileEmpty
  }

  /**
   * `_read_override_file` given the file's `readlines()` list (`None` when
   * it does not exist): no file gives `None`, an empty file raises, and
   * otherwise the first line comes back stripped. A blank first line is
   * `"\n"`, which does not raise but strips to `""`, which `Override` then
   * treats as no override.
   */
  function ReadOverrideFile(path: string, file: Option<seq<string>>): (r: Result<Option<string>>)
    ensures file.None? ==> r == Ok(None)
    ensures r.Raise? <==> file.Some? && (|file.value| == 0 || file.value[0] == "")
    ensures r.Raise? ==> r.error == OverrideFileError(path)
    ensures r.Ok? && file.Some? ==> r.value == Some(Strip(file.value[0]))
  {
    match file
    case None => Ok(None)
    case Some(lines) =>
      if |lines| == 0 || lines[0] == "" then Raise(OverrideFileError(path)) else Ok(Some(Strip(lines[0])))
  }

  /** The override as Python's truth test sees it: an empty value does not override. */
  function Override(value: Option<string>): Option<string> {
    if value.Some? && value.value != "" then value else None
  }

  // ---------------------------------------------------------------- maturity

  const StagingDomains := ["arax.ci.transltr.io", "kg2.ci.transltr.io", "Github actions ARAX test suite"]
  const TestingDomains := ["arax.test.transltr.io", "kg2.test.transltr.io"]
  const ProductionDomains := ["arax.transltr.io", "kg2.transltr.io"]
  const NcatsDomain := "arax.ncats.io"

  /** The maturity: the override, or the first rule that applies to the domain, branch and instance. */
  function Maturity(overrideValue: Option<string>, domain: string, branch: Option<string>, instance: string)
    : (r: string)
    ensures Override(overrideValue).Some? ==> r == overrideValue.value
    ensures Override(overrideValue).None? ==> r in {Staging, Testing, Production, Development}
    ensures Override(overrideValue).None? ==> (r == Staging <==> domain in StagingDomains)
    ensures Override(overrideValue).None? ==>
      (r == Testing <==> domain !in StagingDomains && (domain in TestingDomains || branch == Some("itrb-test")))
    ensures Override(overrideValue).None? ==>
      (r == Production <==>
         && domain !in StagingDomains + TestingDomains && branch != Some("itrb-test")
         && (domain in ProductionDomains || branch == Some(Production)
             || (domain == NcatsDomain && (instance == "ARAX" || instance == "kg2"))))
  {
    if Override(overrideValue).Some? then overrideValue.value
    else if domain in StagingDomains then Staging
    else if domain in TestingDomains || branch == Some("itrb-test") then Testing
    else if domain in ProductionDomains || branch == Some(Production) then Production
    else if domain == NcatsDomain then
      if instance in ["ARAX", "kg2"] || branch == Some(Production) then Production else Development
    else Development
  }

  /** On `arax.ncats.io` without an override, production exactly for the ARAX and kg2 instances or the production branch. */
  lemma MaturityNcats(overrideValue: Option<string>, branch: Option<string>, instance: string)
    requires Override(overrideValue).None?
    ensures Maturity(overrideValue, NcatsDomain, branch, instance) ==
      if branch == Some("itrb-test") then Testing
      else if instance == "ARAX" || instance == "kg2" || branch == Some(Production) then Production
      else Development
  {
    assert NcatsDomain !in StagingDomains + TestingDomains + ProductionDomains;
  }

  /** An ITRB deployment is recognised by `transltr.io` anywhere in its domain. */
  function IsItrb(domain: string): bool {
    Contains(domain, "transltr.io")
  }

  /** Any domain under `transltr.io`, such as the ITRB staging, testing and production domains, is an ITRB domain. */
  lemma ItrbDomain(host: string, rest: string)
    ensures IsItrb(host + "transltr.io" + rest)
  {
    var d := host + "transltr.io" + rest;
    assert d[|host|..|host| + |"transltr.io"|] == "transltr.io";
    assert OccursAt(d, "transltr.io", |host|);
  }

  // ---------------------------------------------------------------- database versions

  /** The last element of a split, as Python's `[-1]`. */
  function Last(parts: seq<string>): string
    requires |parts| >= 1
  {
    parts[|parts| - 1]
  }

  /** The version in a database path: the file name, then the text after its last `_v`, then the extension removed. */
  function VersionOf(path: string, extension: string): string
    requires |extension| > 0
  {
    ReplaceAll(Last(Split(Last(Split(path, "/")), "_v")), extension, "")
  }

  /**
   * A path `<dir>/<name>_v<version><extension>` gives back `version` when
   * the file name holds no `/`, no `_v` follows the one before the version,
   * and the extension occurs only at the end.
   */
  lemma VersionOfRoundTrip(dir: string, name: string, version: string, extension: string)
    requires |extension| > 0
    requires !Contains(name + "_v" + version + extension, "/")
    requires !Contains(version + extension, "_v")
    requires forall j: nat | j < |version| :: !OccursAt(version + extension, extension, j)
    ensures VersionOf(dir + "/" + name + "_v" + version + extension, extension) == version
  {
    var file := name + "_v" + version + extension;
    var tail := version + extension;
    assert dir + "/" + name + "_v" + version + extension == dir + "/" + file;
    SplitLastAfter(dir, "/", file);
    assert file == name + "_v" + tail;
    forall j: nat | j < |name| < j + 2
      ensures !OccursAt(file, "_v", j)
    {
      assert file[|name|] == '_';
    }
    assert NoStraddle(name, "_v", tail);
    SplitLastAfter(name, "_v", tail);
    ReplaceSuffixRemoved(version, extension);
  }

  /** The last piece of a split is what follows the last separator, when no separator straddles it. */
  lemma {:induction false} SplitLastAfter(a: string, sep: string, tail: string)
    requires |sep| > 0 && !Contains(tail, sep)
    requires NoStraddle(a, sep, tail)
    ensures Last(Split(a + sep + tail, sep)) == tail
    decreases |a|
  {
    var s := a + sep + tail;
    FirstSeparator(a, sep, tail);
    var i := IndexOf(s, sep).value;
    var rest := s[i + |sep|..];
    assert Split(s, sep) == [s[..i]] + Split(rest, sep);
    if i == |a| {
      assert rest == tail;
      assert Split(rest, sep) == [tail];
    } else {
      ShiftNoStraddle(a, sep, tail, i);
      SplitLastAfter(a[i + |sep|..], sep, tail);
    }
    LastCons(s[..i], Split(rest, sep));
  }

  /** No occurrence of `sep` starts inside `a` and runs into the separator after it. */
  predicate NoStraddle(a: string, sep: string, tail: string) {
    forall j: nat | j < |a| < j + |sep| :: !OccursAt(a + sep + tail, sep, j)
  }

  /** The first separator of `a + sep + tail` lies within `a` or is the one after it. */
  lemma FirstSeparator(a: string, sep: string, tail: string)
    requires |sep| > 0 && NoStraddle(a, sep, tail)
    ensures var s := a + sep + tail;
      IndexOf(s, sep).Some? && IndexOf(s, sep).value <= |a|
      && (IndexOf(s, sep).value < |a| ==> IndexOf(s, sep).value + |sep| <= |a|)
  {
    var s := a + sep + tail;
    assert s[|a|..|a| + |sep|] == sep;
    assert OccursAt(s, sep, |a|);
  }

  /** What follows a separator inside `a` keeps the property. */
  lemma ShiftNoStraddle(a: string, sep: string, tail: string, i: nat)
    requires |sep| > 0 && i + |sep| <= |a| && NoStraddle(a, sep, tail)
    ensures (a + sep + tail)[i + |sep|..] == a[i + |sep|..] + sep + tail
    ensures NoStraddle(a[i + |sep|..], sep, tail)
  {
    var s := a + sep + tail;
    var a' := a[i + |sep|..];
    var rest := a' + sep + tail;
    assert s[i + |sep|..] == rest;
    forall j: nat | j < |a'| < j + |sep|
      ensures !OccursAt(rest, sep, j)
    {
      if j + |sep| <= |rest| {
        forall u | j <= u < j + |sep|
          ensures rest[u] == s[u + i + |sep|]
        {
        }
        assert s[j + i + |sep|..j + i + 2 * |sep|] == rest[j..j + |sep|];
        assert !OccursAt(s, sep, j + i + |sep|);
      }
    }
  }

  /** Putting a piece in front of a list does not change its last piece. */
  lemma LastCons(head: string, pieces: seq<string>)
    requires |pieces| >= 1
    ensures Last([head] + pieces) == Last(pieces)
  {
  }

  /** Removing the extension from `version + extension` leaves `version` when it occurs nowhere earlier. */
  lemma {:induction false} ReplaceSuffixRemoved(version: string, extension: string)
    requires |extension| > 0
    requires forall j: nat | j < |version| :: !OccursAt(version + extension, extension, j)
    ensures ReplaceAll(version + extension, extension, "") == version
    decreases |version|
  {
    var s := version + extension;
    if |version| == 0 {
      assert s == extension;
      assert StartsWith(s, extension);
      assert s[|extension|..] == [];
    } else {
      assert !OccursAt(s, extension, 0);
      var v' := version[1..];
      assert s[1..] == v' + extension;
      forall j: nat | j < |v'|
        ensures !OccursAt(v' + extension, extension, j)
      {
        assert (v' + extension)[j..j + |extension|] == s[j + 1..j + 1 + |extension|] by {
          assert j + 1 + |extension| <= |s| ==> (v' + extension)[j..j + |extension|] == s[j + 1..j + 1 + |extension|];
        }
        assert !OccursAt(s, extension, j + 1);
      }
      ReplaceSuffixRemoved(v', extension);
      assert version == [version[0]] + v';
    }
  }

  /** The database files of `database_downloads`, each with the extension its version drops. */
  const DatabaseFiles: seq<(string, string)> := [
    ("cohd_database", ".db"), ("graph_database", ".sqlite"), ("log_model", ".pkl"),
    ("curie_to_pmids", ".sqlite"), ("node_synonymizer", ".sqlite"), ("dtd_prob", ".db"),
    ("kg2c_sqlite", ".sqlite"), ("kg2c_meta_kg", ".json"), ("fda_approved_drugs", ".pickle"),
    ("autocomplete", ".sqlite"), ("explainable_dtd_db", ".db")]

  function KeyError(key: string): string {
    "KeyError: " + key
  }

  /** The path and version of the first `count` database files, raising at the first one missing. */
  function DatabaseVersions(downloads: map<string, string>, count: nat): Result<map<string, (string, string)>>
    requires count <= |DatabaseFiles|
  {
    if count == 0 then Ok(map[])
    else
      var (key, extension) := DatabaseFiles[count - 1];
      match DatabaseVersions(downloads, count - 1)
      case Raise(e) => Raise(e)
      case Ok(found) =>
        if key !in downloads then Raise(KeyError(key))
        else Ok(found[key := (downloads[key], VersionOf(downloads[key], extension))])
  }

  /** The versions are read exactly when every database file is listed, and each is its path's version. */
  lemma {:induction false} DatabaseVersionsSpec(downloads: map<string, string>, count: nat)
    requires count <= |DatabaseFiles|
    ensures DatabaseVersions(downloads, count).Ok? <==> forall i | 0 <= i < count :: DatabaseFiles[i].0 in downloads
    ensures DatabaseVersions(downloads, count).Ok? ==>
      forall i | 0 <= i < count ::
        var (key, extension) := DatabaseFiles[i];
        key in DatabaseVersions(downloads, count).value
        && DatabaseVersions(downloads, count).value[key] == (downloads[key], VersionOf(downloads[key], extension))
  {
    if count > 0 {
      DatabaseVersionsSpec(downloads, count - 1);
      DatabaseKeysDistinct(count - 1);
    }
  }

  /** No database key is listed twice. */
  lemma DatabaseKeysDistinct(i: nat)
    requires i < |DatabaseFiles|
    ensures forall j | 0 <= j < i :: DatabaseFiles[j].0 != DatabaseFiles[i].0
  {
  }

  // ---------------------------------------------------------------- URLs

  const ItrbKg2Prod := "https://kg2.transltr.io/api/rtxkg2/v1.2"
  const ItrbKg2Test := "https://kg2.test.transltr.io/api/rtxkg2/v1.2"
  const ItrbKg2Ci := "https://kg2.ci.transltr.io/api/rtxkg2/v1.2"
  const NcatsKg2NewFmt := "https://arax.ncats.io/api/rtxkg2/v1.3"
  const NcatsKg2Prod := "https://arax.ncats.io/api/rtxkg2/v1.2"
  const NcatsKg2Beta := "https://arax.ncats.io/beta/api/rtxkg2/v1.2"

  predicate IsProduction(maturity: string) {
    maturity == Production || maturity == "prod"
  }

  predicate IsTesting(maturity: string) {
    maturity == Testing || maturity == "test"
  }

  /** The Plover URL: the override, or the configured one for production, testing or anything else. */
  function PloverUrl(overrideValue: Option<string>, maturity: string, plover: Option<map<string, string>>)
    : (r: Result<string>)
    ensures Override(overrideValue).Some? ==> r == Ok(overrideValue.value)
    ensures Override(overrideValue).None? ==>
      var key := if IsProduction(maturity) then "prod" else if IsTesting(maturity) then "test" else "dev";
      && (r.Ok? <==> plover.Some? && key in plover.value)
      && (r.Ok? ==> r.value == plover.value[key])
  {
    if Override(overrideValue).Some? then Ok(overrideValue.value)
    else if plover.None? then Raise(KeyError("plover"))
    else
      var key := if IsProduction(maturity) then "prod" else if IsTesting(maturity) then "test" else "dev";
      if key !in plover.value then Raise(KeyError(key)) else Ok(plover.value[key])
  }

  /**
   * The KG2 URL: the override; on ITRB one of three `transltr.io` URLs by
   * maturity; elsewhere the v1.3 URL for a `NewFmt` instance or branch, then
   * the production or beta URL.
   */
  function Kg2Url(overrideValue: Option<string>, itrb: bool, maturity: string, instance: string, branch: Option<string>)
    : (r: string)
    ensures Override(overrideValue).Some? ==> r == overrideValue.value
    ensures Override(overrideValue).None? && itrb ==> r in {ItrbKg2Prod, ItrbKg2Test, ItrbKg2Ci}
    ensures Override(overrideValue).None? && !itrb ==> r in {NcatsKg2NewFmt, NcatsKg2Prod, NcatsKg2Beta}
    ensures Override(overrideValue).None? && itrb ==> (r == ItrbKg2Prod <==> IsProduction(maturity))
    ensures Override(overrideValue).None? && itrb ==>
      (r == ItrbKg2Test <==> !IsProduction(maturity) && IsTesting(maturity))
    ensures Override(overrideValue).None? && !itrb ==>
      (r == NcatsKg2NewFmt <==> Contains(instance, "NewFmt") || branch == Some("NewFmt"))
    ensures Override(overrideValue).None? && !itrb ==>
      (r == NcatsKg2Prod <==> !Contains(instance, "NewFmt") && branch != Some("NewFmt") && IsProduction(maturity))
  {
    if Override(overrideValue).Some? then overrideValue.value
    else if itrb then
      if IsProduction(maturity) then ItrbKg2Prod else if IsTesting(maturity) then ItrbKg2Test else ItrbKg2Ci
    else if Contains(instance, "NewFmt") || branch == Some("NewFmt") then NcatsKg2NewFmt
    else if IsProduction(maturity) then NcatsKg2Prod
    else NcatsKg2Beta
  }

  // ---------------------------------------------------------------- the object

  /** The settings the constructor derives before it picks the neo4j instance. */
  datatype Settings = Settings(
    instanceName: string,
    domain: string,
    branch: Option<string>,
    maturity: string,
    itrb: bool,
    databases: map<string, (string, string)>,
    ploverUrl: string,
    kg2Url: string)

  /** The constructor's derivations in its order; the first failure is the exception it raises. */
  function Configure(env: Environment): Result<Settings> {
    var instance := InstanceName(env.fileDir);
    var maturityOverride :- ReadOverrideFile(env.fileDir + "/maturity_override.txt", env.maturityOverride);
    var maturity := Maturity(maturityOverride, env.domain, env.branch, instance);
    var itrb := IsItrb(env.domain);
    var downloads :- if env.databaseDownloads.None? then Raise(KeyError("database_downloads"))
                     else Ok(env.databaseDownloads.value);
    var databases :- DatabaseVersions(downloads, |DatabaseFiles|);
    var ploverOverride :- ReadOverrideFile(env.fileDir + "/plover_url_override.txt", env.ploverOverride);
    var plover :- PloverUrl(ploverOverride, maturity, env.plover);
    var kg2Override :- ReadOverrideFile(env.fileDir + "/kg2_url_override.txt", env.kg2Override);
    Ok(Settings(instance, env.domain, env.branch, maturity, itrb, databases, plover,
                Kg2Url(kg2Override, itrb, maturity, instance, env.branch)))
  }

  /**
   * A configuration whose three override files are absent takes its
   * maturity, Plover URL and KG2 URL from the rules alone.
   */
  lemma ConfigureWithoutOverrides(env: Environment)
    requires env.maturityOverride.None? && env.ploverOverride.None? && env.kg2Override.None?
    requires Configure(env).Ok?
    ensures var s := Configure(env).value;
      && s.maturity == Maturity(None, env.domain, env.branch, s.instanceName)
      && PloverUrl(None, s.maturity, env.plover).Ok? && s.ploverUrl == PloverUrl(None, s.maturity, env.plover).value
      && s.kg2Url == Kg2Url(None, s.itrb, s.maturity, s.instanceName, env.branch)
      && s.maturity in {Staging, Testing, Production, Development}
      && s.instanceName == InstanceName(env.fileDir)
      && s.itrb == IsItrb(env.domain)
      && (s.itrb ==> s.kg2Url in {ItrbKg2Prod, ItrbKg2Test, ItrbKg2Ci})
      && (!s.itrb ==> s.kg2Url in {NcatsKg2NewFmt, NcatsKg2Prod, NcatsKg2Beta})
      && env.plover.Some?
  {
    var maturity := Maturity(None, env.domain, env.branch, InstanceName(env.fileDir));
    assert Configure(env).value.maturity == maturity;
    assert PloverUrl(None, maturity, env.plover).Ok?;
  }

  /** The neo4j bolt and database addresses of a host. */
  function Bolt(host: string): string {
    "bolt://" + host + ":7687"
  }

  function Database(host: string): string {
    host + ":7474/db/data"
  }

  class Configuration {
    var settings: Settings
    var neo4jHosts: Option<map<string, string>>
    var neo4jSecrets: Option<map<string, map<string, string>>>
    var neo4jKg2: string
    var neo4jBolt: Option<string>
    var neo4jDatabase: Option<string>
    var neo4jUsername: Option<string>
    var neo4jPassword: Option<string>

    constructor(settings: Settings, env: Environment)
      ensures this.settings == settings
      ensures neo4jHosts == env.neo4jHosts && neo4jSecrets == env.neo4jSecrets
      ensures neo4jKg2 == "" && neo4jBolt.None? && neo4jDatabase.None? && neo4jUsername.None? && neo4jPassword.None?
    {
      this.settings := settings;
      neo4jHosts := env.neo4jHosts;
      neo4jSecrets := env.neo4jSecrets;
      neo4jKg2 := "";
      neo4jBolt, neo4jDatabase, neo4jUsername, neo4jPassword := None, None, None, None;
    }

    /**
     * The `neo4j_kg2` setter: an instance the configuration does not list
     * clears the four neo4j settings; a listed one sets the addresses of its
     * host, then reads the username and then the password, raising at the
     * first missing key, with whatever was assigned before the failure left
     * in place.
     */
    method SetNeo4jKg2(name: string) returns (r: Outcome)
      modifies this
      ensures neo4jKg2 == name && settings == old(settings)
      ensures neo4jHosts == old(neo4jHosts) && neo4jSecrets == old(neo4jSecrets)
      ensures neo4jHosts.None? ==>
        && r.Fail? && r.error == KeyError("neo4j")
        && neo4jBolt == old(neo4jBolt) && neo4jDatabase == old(neo4jDatabase)
        && neo4jUsername == old(neo4jUsername) && neo4jPassword == old(neo4jPassword)
      ensures neo4jHosts.Some? && name !in neo4jHosts.value ==>
        r.Pass? && neo4jBolt.None? && neo4jDatabase.None? && neo4jUsername.None? && neo4jPassword.None?
      ensures neo4jHosts.Some? && name in neo4jHosts.value ==>
        neo4jBolt == Some(Bolt(neo4jHosts.value[name])) && neo4jDatabase == Some(Database(neo4jHosts.value[name]))
      ensures neo4jHosts.Some? && name in neo4jHosts.value ==>
        && (r.Pass? <==> Credentials(neo4jSecrets, name).Ok?)
        && (r.Fail? ==> r.error == Credentials(neo4jSecrets, name).error)
      ensures neo4jHosts.Some? && name in neo4jHosts.value ==>
        var username := Secret(neo4jSecrets, name, "username");
        && (username.Ok? ==> neo4jUsername == Some(username.value))
        && (username.Raise? ==> neo4jUsername == old(neo4jUsername))
      ensures neo4jHosts.Some? && name in neo4jHosts.value ==>
        && (r.Pass? ==> neo4jPassword == Some(Credentials(neo4jSecrets, name).value.1))
        && (r.Fail? ==> neo4jPassword == old(neo4jPassword))
    {
      neo4jKg2 := name;
      if neo4jHosts.None? {
        return Fail(KeyError("neo4j"));
      }
      if name !in neo4jHosts.value {
        neo4jBolt, neo4jDatabase, neo4jUsername, neo4jPassword := None, None, None, None;
        return Pass;
      }
      var host := neo4jHosts.value[name];
      neo4jBolt := Some(Bolt(host));
      neo4jDatabase := Some(Database(host));
      var username := Secret(neo4jSecrets, name, "username");
      if username.Raise? {
        return Fail(username.error);
      }
      neo4jUsername := Some(username.value);
      var password := Secret(neo4jSecrets, name, "password");
      if password.Raise? {
        return Fail(password.error);
      }
      neo4jPassword := Some(password.value);
      r := Pass;
    }
  }

  /** `config_secrets["neo4j"][name][field]`, raising at the first missing key. */
  function Secret(secrets: Option<map<string, map<string, string>>>, name: string, field: string): (r: Result<string>)
    ensures r.Ok? <==> secrets.Some? && name in secrets.value && field in secrets.value[name]
    ensures r.Ok? ==> r.value == secrets.value[name][field]
    ensures secrets.None? ==> r == Raise(KeyError("neo4j"))
    ensures secrets.Some? && name !in secrets.value ==> r == Raise(KeyError(name))
    ensures secrets.Some? && name in secrets.value && field !in secrets.value[name] ==> r == Raise(KeyError(field))
  {
    if secrets.None? then Raise(KeyError("neo4j"))
    else if name !in secrets.value then Raise(KeyError(name))
    else if field !in secrets.value[name] then Raise(KeyError(field))
    else Ok(secrets.value[name][field])
  }

  /** The username and then the password of `name`, raising at the first missing key. */
  function Credentials(secrets: Option<map<string, map<string, string>>>, name: string): (r: Result<(string, string)>)
    ensures r.Ok? <==> secrets.Some? && name in secrets.value && "username" in secrets.value[name]
                       && "password" in secrets.value[name]
    ensures r.Ok? ==> r.value == (secrets.value[name]["username"], secrets.value[name]["password"])
    ensures r.Raise? && Secret(secrets, name, "username").Ok? ==> r.error == KeyError("password")
  {
    var username :- Secret(secrets, name, "username");
    var password :- Secret(secrets, name, "password");
    Ok((username, password))
  }

  /**
   * The constructor: derive the settings, then set `neo4j_kg2` to `KG2c`;
   * either step may raise.
   */
  method Load(env: Environment) returns (r: Result<Configuration>)
    ensures r.Ok? <==> Configure(env).Ok? && env.neo4jHosts.Some?
                       && ("KG2c" !in env.neo4jHosts.value || Credentials(env.neo4jSecrets, "KG2c").Ok?)
    ensures r.Ok? ==> r.value.settings == Configure(env).value && r.value.neo4jKg2 == "KG2c"
    ensures r.Ok? && env.neo4jHosts.Some? && "KG2c" in env.neo4jHosts.value ==>
      && r.value.neo4jBolt == Some(Bolt(env.neo4jHosts.value["KG2c"]))
      && r.value.neo4jDatabase == Some(Database(env.neo4jHosts.value["KG2c"]))
      && Credentials(env.neo4jSecrets, "KG2c").Ok?
      && r.value.neo4jUsername == Some(Credentials(env.neo4jSecrets, "KG2c").value.0)
      && r.value.neo4jPassword == Some(Credentials(env.neo4jSecrets, "KG2c").value.1)
    ensures r.Ok? && env.neo4jHosts.Some? && "KG2c" !in env.neo4jHosts.value ==>
      && r.value.neo4jBolt.None? && r.value.neo4jDatabase.None?
      && r.value.neo4jUsername.None? && r.value.neo4jPassword.None?
  {
    var settings := Configure(env);
    if settings.Raise? {
      return Raise(settings.error);
    }
    var c := new Configuration(settings.value, env);
    var outcome := c.SetNeo4jKg2("KG2c");
    if outcome.Fail? {
      return Raise(outcome.error);
    }
    r := Ok(c);
  }
}
