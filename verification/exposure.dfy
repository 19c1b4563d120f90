/**
 * Passive exposure checks (backend/scanners/exposure.py): each catalog path
 * is fetched once and classified into at most one finding, and the
 * robots.txt body is then checked for disallowed sensitive paths. Fetching is
 * outside the model: `fetch` gives the response (or none) for each path.
 */
module Exposure {
  import opened Wrappers
  import opened Strings
  import opened Seqs

  datatype Risk = RiskLow | RiskMedium | RiskHigh

  function RiskText(r: Risk): string {
    match r
    case RiskLow => "low"
    case RiskMedium => "medium"
    case RiskHigh => "high"
  }

  datatype Response = Response(status: int, body: string)

  datatype ExposureFinding = ExposureFinding(path: string, risk: Risk, status: string, detail: string)

  /** `COMMON_PATHS`, in its declaration order. */
  const CommonPaths: seq<(string, string)> := [
    ("/robots.txt", "robots.txt exposed"),
    ("/.git/config", "Git repository config exposed"),
    ("/.env", "Environment variables file exposed"),
    ("/.well-known/security.txt", "Security.txt present"),
    ("/admin", "Admin panel directory"),
    ("/login", "Login panel"),
    ("/backup.zip", "Potential backup archive"),
    ("/config.php", "Common PHP config file")
  ]

  const DirectoryMarkers: seq<string> := ["Index of /", "Directory listing for"]

  const ListingDetail: string := "Directory listing enabled"
  const ProtectedDetail: string := "Path protected but accessible"
  const RobotsPath: string := "/robots.txt"
  const RobotsDetail: string := "robots.txt reveals sensitive paths"

  predicate ShowsDirectoryListing(body: string) {
    exists k :: 0 <= k < |DirectoryMarkers| && Contains(body, DirectoryMarkers[k])
  }

  /** Paths whose plain exposure is rated high: source control metadata and environment files. */
  predicate SensitivePath(path: string) {
    StartsWith(path, "/.git") || EndsWith(path, ".env")
  }

  predicate Reportable(resp: Option<Response>) {
    resp.Some? && resp.value.status in {200, 401, 403}
  }

  /** The classification of one catalog path. */
  function ClassifyPath(path: string, description: string, resp: Option<Response>): (r: Option<ExposureFinding>)
    ensures r.Some? <==> Reportable(resp)
    ensures r.Some? ==> r.value.path == path
    ensures r.Some? ==> r.value.status == NatToDecimal(resp.value.status as nat)
    ensures r.Some? && resp.value.status == 200 && ShowsDirectoryListing(resp.value.body) ==>
              r.value.risk == RiskHigh && r.value.detail == ListingDetail
    ensures r.Some? && resp.value.status == 200 && !ShowsDirectoryListing(resp.value.body) ==>
              (r.value.risk == RiskHigh <==> SensitivePath(path)) && r.value.risk != RiskLow && r.value.detail == description
    ensures r.Some? && resp.value.status != 200 ==> r.value.risk == RiskLow && r.value.detail == ProtectedDetail
  {
    match resp
    case None => None
    case Some(rsp) =>
      if rsp.status == 200 then
        var risk := if SensitivePath(path) then RiskHigh else RiskMedium;
        var listing := ShowsDirectoryListing(rsp.body);
        Some(ExposureFinding(path, if listing then RiskHigh else risk, NatToDecimal(200),
                             if listing then ListingDetail else description))
      else if rsp.status in {401, 403} then
        Some(ExposureFinding(path, RiskLow, NatToDecimal(rsp.status as nat), ProtectedDetail))
      else None
  }

  function CatalogPaths(catalog: seq<(string, string)>): seq<string> {
    seq(|catalog|, i requires 0 <= i < |catalog| => catalog[i].0)
  }

  function FindingPaths(fs: seq<ExposureFinding>): seq<string> {
    seq(|fs|, i requires 0 <= i < |fs| => fs[i].path)
  }

  /** `check_common_paths`: at most one finding per catalog entry, in catalog order. */
  function CheckCommonPaths(catalog: seq<(string, string)>, fetch: string -> Option<Response>): (r: seq<ExposureFinding>)
    ensures |r| <= |catalog|
    ensures Subsequence(FindingPaths(r), CatalogPaths(catalog))
    ensures forall f :: f in r <==>
              exists i :: 0 <= i < |catalog| && ClassifyPath(catalog[i].0, catalog[i].1, fetch(catalog[i].0)) == Some(f)
    decreases |catalog|
  {
    if catalog == [] then []
    else
      var head := ClassifyPath(catalog[0].0, catalog[0].1, fetch(catalog[0].0));
      var rest := CheckCommonPaths(catalog[1..], fetch);
      assert CatalogPaths(catalog) == [catalog[0].0] + CatalogPaths(catalog[1..]);
      assert forall i :: 1 <= i < |catalog| ==> catalog[1..][i - 1] == catalog[i];
      match head
      case Some(f) =>
        assert FindingPaths([f] + rest) == [f.path] + FindingPaths(rest);
        SubsequenceKeep(f.path, FindingPaths(rest), CatalogPaths(catalog[1..]));
        [f] + rest
      case None =>
        SubsequenceDrop(catalog[0].0, FindingPaths(rest), CatalogPaths(catalog[1..]));
        rest
  }

  // ---------------------------------------------------------------------
  // robots.txt: a hand-coded matcher for `Disallow:\s*/(admin|backup|config|\.git)`
  // searched anywhere in the body, ignoring ASCII case.

  /** Python's `str.isspace()`, which is what `\s` matches in a `str` pattern. */
  predicate IsSpace(c: char) {
    var n := c as int;
    (0x09 <= n <= 0x0D) || (0x1C <= n <= 0x20) || n == 0x85 || n == 0xA0 || n == 0x1680
    || (0x2000 <= n <= 0x200A) || n == 0x2028 || n == 0x2029 || n == 0x202F || n == 0x205F || n == 0x3000
  }

  /** The end of the run of whitespace starting at `i`. */
  function SkipSpace(s: string, i: nat): (r: nat)
    requires i <= |s|
    ensures i <= r <= |s|
    ensures forall k :: i <= k < r ==> IsSpace(s[k])
    ensures r < |s| ==> !IsSpace(s[r])
    decreases |s| - i
  {
    if i < |s| && IsSpace(s[i]) then SkipSpace(s, i + 1) else i
  }

  /** The case-insensitive literal `w` (given in lower case) occurs at `i`. */
  predicate WordAt(s: string, i: nat, w: string) {
    i + |w| <= |s| && Lower(s[i..i + |w|]) == w
  }

  const SensitiveDirs: seq<string> := ["admin", "backup", "config", ".git"]

  /** The pattern matches starting at index `i`. */
  predicate RobotsMatchAt(s: string, i: nat) {
    && WordAt(s, i, "disallow:")
    && var j := SkipSpace(s, i + 9);
       && j < |s| && s[j] == '/'
       && exists k :: 0 <= k < |SensitiveDirs| && WordAt(s, j + 1, SensitiveDirs[k])
  }

  /** `pattern.search(text)` succeeds. */
  predicate RevealsSensitivePaths(s: string) {
    exists i: nat | i <= |s| :: RobotsMatchAt(s, i)
  }

  /** Left-to-right search for the pattern from index `i`. */
  function SearchFrom(s: string, i: nat): (r: bool)
    requires i <= |s|
    ensures r <==> exists j: nat :: i <= j <= |s| && RobotsMatchAt(s, j)
    decreases |s| - i
  {
    if RobotsMatchAt(s, i) then true
    else if i == |s| then false
    else SearchFrom(s, i + 1)
  }

  /** `parse_robots`: only a 200 robots.txt is examined; a match yields one medium finding. */
  function ParseRobots(resp: Option<Response>): (r: seq<ExposureFinding>)
    ensures r != [] <==> resp.Some? && resp.value.status == 200 && RevealsSensitivePaths(resp.value.body)
    ensures r != [] ==> r == [ExposureFinding(RobotsPath, RiskMedium, "200", RobotsDetail)]
  {
    if resp.None? || resp.value.status != 200 then []
    else if SearchFrom(resp.value.body, 0) then [ExposureFinding(RobotsPath, RiskMedium, "200", RobotsDetail)]
    else []
  }

  /**
   * `run_exposure_checks` over a path catalog (the scanner uses
   * `CommonPaths`): the common-path findings, then the robots.txt findings.
   * `robots` is the response of the second, separate fetch of robots.txt.
   */
  function RunExposureChecks(catalog: seq<(string, string)>, fetch: string -> Option<Response>, robots: Option<Response>): (r: seq<ExposureFinding>)
    ensures |r| <= |catalog| + 1
    ensures var n := |CheckCommonPaths(catalog, fetch)|;
            n <= |r| && r[..n] == CheckCommonPaths(catalog, fetch) && r[n..] == ParseRobots(robots)
  {
    var common := CheckCommonPaths(catalog, fetch);
    var tail := ParseRobots(robots);
    common + tail
  }

  /** The shipped catalog lists robots.txt and names every path once. */
  lemma CommonPathsCatalog()
    ensures RobotsPath in CatalogPaths(CommonPaths)
    ensures Distinct(CatalogPaths(CommonPaths))
  {
    var ps := CatalogPaths(CommonPaths);
    assert ps == ["/robots.txt", "/.git/config", "/.env", "/.well-known/security.txt",
                  "/admin", "/login", "/backup.zip", "/config.php"];
    assert ps[0] == RobotsPath;
    forall i, j | 0 <= i < j < |ps|
      ensures ps[i] != ps[j]
    {
      assert |ps[i]| != |ps[j]| || ps[i][1] != ps[j][1];
    }
  }

  /** Every finding of the exposure checks names a catalog path, given that the catalog lists robots.txt. */
  lemma FindingsNameCatalogPaths(catalog: seq<(string, string)>, fetch: string -> Option<Response>, robots: Option<Response>)
    requires RobotsPath in CatalogPaths(catalog)
    ensures forall k :: 0 <= k < |RunExposureChecks(catalog, fetch, robots)| ==>
              RunExposureChecks(catalog, fetch, robots)[k].path in CatalogPaths(catalog)
  {
    var common := CheckCommonPaths(catalog, fetch);
    var r := RunExposureChecks(catalog, fetch, robots);
    forall k | 0 <= k < |r|
      ensures r[k].path in CatalogPaths(catalog)
    {
      if k < |common| {
        assert r[k] == common[k] && common[k] in common;
        var i :| 0 <= i < |catalog| && ClassifyPath(catalog[i].0, catalog[i].1, fetch(catalog[i].0)) == Some(r[k]);
        assert CatalogPaths(catalog)[i] == r[k].path;
      } else {
        assert r[k].path == RobotsPath;
      }
    }
  }

  /** When the catalog names each path once, no path is reported twice by the common-path check. */
  lemma CatalogPathsOnce(catalog: seq<(string, string)>, fetch: string -> Option<Response>)
    requires Distinct(CatalogPaths(catalog))
    ensures Distinct(FindingPaths(CheckCommonPaths(catalog, fetch)))
  {
    SubsequenceDistinct(FindingPaths(CheckCommonPaths(catalog, fetch)), CatalogPaths(catalog));
  }

  /** A catalog path is reported exactly when its fetch returned 200, 401 or 403. */
  lemma ReportedIffReportable(catalog: seq<(string, string)>, fetch: string -> Option<Response>, i: nat)
    requires i < |catalog|
    ensures (exists f :: f in CheckCommonPaths(catalog, fetch) && f.path == catalog[i].0) <==> Reportable(fetch(catalog[i].0))
  {
    var r := CheckCommonPaths(catalog, fetch);
    if Reportable(fetch(catalog[i].0)) {
      var f := ClassifyPath(catalog[i].0, catalog[i].1, fetch(catalog[i].0)).value;
      assert f in r;
    }
  }

  /** The status text of a finding reads back as the HTTP status of its response. */
  lemma StatusReadsBack(path: string, description: string, resp: Option<Response>)
    requires Reportable(resp)
    ensures var f := ClassifyPath(path, description, resp).value;
            (forall i :: 0 <= i < |f.status| ==> IsDigit(f.status[i])) && DecimalValue(f.status) == resp.value.status
  {
    DecimalRoundTrip(resp.value.status as nat);
  }

  const EnvFinding: ExposureFinding := ExposureFinding("/.env", RiskHigh, "200", "Environment variables file exposed")

  /** A served environment file is a high-risk exposure described by its catalog text. */
  lemma EnvFileServed(body: string)
    requires !ShowsDirectoryListing(body)
    ensures ClassifyPath("/.env", "Environment variables file exposed", Some(Response(200, body))) == Some(EnvFinding)
  {
    assert EndsWith("/.env", ".env");
    assert NatToDecimal(200) == "200" by {
      assert NatToDecimal(2) == "2";
      assert NatToDecimal(20) == "20";
    }
  }

  /** A served environment file is among the findings of the exposure checks, whatever robots.txt says. */
  lemma EnvFileReported(catalog: seq<(string, string)>, fetch: string -> Option<Response>, robots: Option<Response>, body: string)
    requires ("/.env", "Environment variables file exposed") in catalog
    requires fetch("/.env") == Some(Response(200, body)) && !ShowsDirectoryListing(body)
    ensures exists k :: 0 <= k < |RunExposureChecks(catalog, fetch, robots)| && RunExposureChecks(catalog, fetch, robots)[k] == EnvFinding
  {
    EnvFileServed(body);
    var common := CheckCommonPaths(catalog, fetch);
    assert EnvFinding in common;
    var k :| 0 <= k < |common| && common[k] == EnvFinding;
    assert RunExposureChecks(catalog, fetch, robots)[k] == EnvFinding;
  }

  /** The shipped catalog lists the environment file. */
  lemma CommonPathsListEnvFile()
    ensures ("/.env", "Environment variables file exposed") in CommonPaths
  {
    assert CommonPaths[2] == ("/.env", "Environment variables file exposed");
  }
}
