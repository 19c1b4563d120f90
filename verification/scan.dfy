/**
 * The scan pipeline of backend/main.py around the probes: header
 * normalization, the synthetic certificate result for targets not served over
 * HTTPS, and the hand-over of the certificate and exposure findings to the
 * risk verdict. Network probes are parameters: the certificate fields (if
 * retrieved), the per-SAN-entry hostname matcher, and the exposure fetches.
 */
module Scan {
  import opened Wrappers
  import opened Strings
  import opened Dicts
  import RiskEngine
  import RiskProperties
  import SslScan
  import Exposure

  /** A raw response header value: text, or a list of values. */
  datatype HeaderValue = Text(text: string) | Items(items: seq<string>)

  /**
   * A list value joined with ", ", a text value unchanged. The join loses
   * nothing: a non-empty list of comma-free items splits back into itself.
   */
  function Stringify(v: HeaderValue): (r: string)
    ensures v.Text? ==> r == v.text
    ensures v.Items? && v.items == [] ==> r == ""
    ensures v.Items? && |v.items| >= 1 && (forall k :: 0 <= k < |v.items| ==> CommaFree(v.items[k])) ==>
              SplitList(r) == v.items
  {
    match v
    case Text(t) => t
    case Items(xs) =>
      var r := Join(ListSeparator, xs);
      assert |xs| >= 1 && (forall k :: 0 <= k < |xs| ==> CommaFree(xs[k])) ==> SplitList(r) == xs by {
        if |xs| >= 1 && (forall k :: 0 <= k < |xs| ==> CommaFree(xs[k])) {
          SplitJoin(xs);
        }
      }
      r
  }

  /** `normalize_headers`: same keys in the same order, every value turned into one string. */
  function NormalizeHeaders(h: Dict<HeaderValue>): (r: Dict<string>)
    ensures |r| == |h|
    ensures forall i :: 0 <= i < |h| ==> r[i].0 == h[i].0
    ensures forall k :: HasKey(r, k) <==> HasKey(h, k)
    ensures forall i :: 0 <= i < |h| && h[i].1.Text? ==> r[i].1 == h[i].1.text
  {
    var r := seq(|h|, i requires 0 <= i < |h| => (h[i].0, Stringify(h[i].1)));
    assert forall k :: HasKey(r, k) ==> HasKey(h, k) by {
      forall k | HasKey(r, k)
        ensures HasKey(h, k)
      {
        var i :| 0 <= i < |r| && r[i].0 == k;
        assert h[i].0 == k;
      }
    }
    r
  }

  /** A list value of comma-free items can be split back into its items after normalization. */
  lemma NormalizedListReadsBack(h: Dict<HeaderValue>, i: nat)
    requires i < |h| && h[i].1.Items? && |h[i].1.items| >= 1
    requires forall k :: 0 <= k < |h[i].1.items| ==> CommaFree(h[i].1.items[k])
    ensures SplitList(NormalizeHeaders(h)[i].1) == h[i].1.items
  {
    SplitJoin(h[i].1.items);
  }

  /** `final_url.startswith("https")`. */
  predicate IsHttps(url: string) {
    StartsWith(url, "https")
  }

  const NotHttpsMessage: string := "Target not served over HTTPS"

  /** The stand-in certificate result for a target not served over HTTPS. */
  const NotHttpsResult: SslScan.CertResult :=
    SslScan.CertResult(false, None, [SslScan.CertFinding(NotHttpsMessage, SslScan.SevMedium)])

  /**
   * The certificate result of a scan: analyzed only over HTTPS. Absent
   * exactly when the target is not HTTPS or no certificate was retrieved, and
   * an absent result has no summary and exactly one explaining finding.
   */
  function SslInfo(finalUrl: string, hostname: string, cert: Option<SslScan.CertFields>,
                   entry: (string, string) -> SslScan.EntryMatch): (r: SslScan.CertResult)
    ensures !IsHttps(finalUrl) ==> r == NotHttpsResult
    ensures IsHttps(finalUrl) ==> r == SslScan.AnalyzeCertificate(hostname, cert, entry)
    ensures r.present <==> IsHttps(finalUrl) && cert.Some?
    ensures !r.present ==> r.summary.None? && |r.findings| == 1
  {
    if IsHttps(finalUrl) then SslScan.AnalyzeCertificate(hostname, cert, entry) else NotHttpsResult
  }

  /** Certificate findings as the risk pass reads them. */
  function SslRecords(fs: seq<SslScan.CertFinding>): (r: seq<RiskEngine.SslRecord>)
    ensures |r| == |fs|
    ensures forall i :: 0 <= i < |fs| ==> r[i].message == fs[i].message
    ensures forall i :: 0 <= i < |fs| ==>
              RiskEngine.SeverityLevel(r[i].severity) == (if fs[i].severity == SslScan.SevHigh then RiskEngine.High else RiskEngine.Medium)
  {
    var r := seq(|fs|, i requires 0 <= i < |fs| => RiskEngine.SslRecord(fs[i].message, Some(SslScan.SeverityText(fs[i].severity))));
    assert Lower("high") == "high" && Lower("medium") == "medium";
    r
  }

  function RiskLevelOf(r: Exposure.Risk): RiskEngine.Level {
    match r
    case RiskLow => RiskEngine.Low
    case RiskMedium => RiskEngine.Medium
    case RiskHigh => RiskEngine.High
  }

  /** Exposure findings as the risk pass reads them: every key is present. */
  function ExposureRecords(fs: seq<Exposure.ExposureFinding>): (r: seq<RiskEngine.ExposureRecord>)
    ensures |r| == |fs|
    ensures forall i :: 0 <= i < |fs| ==> RiskEngine.ExposureText(r[i]) == fs[i].detail
    ensures forall i :: 0 <= i < |fs| ==> RiskEngine.SeverityLevel(r[i].risk) == RiskLevelOf(fs[i].risk)
  {
    var r := seq(|fs|, i requires 0 <= i < |fs| =>
      RiskEngine.ExposureRecord(Some(fs[i].path), Some(Exposure.RiskText(fs[i].risk)), Some(fs[i].detail)));
    assert Lower("high") == "high" && Lower("medium") == "medium" && Lower("low") == "low";
    r
  }

  /**
   * The verdict `perform_scan` computes: the header records (from the header
   * audit, which is not part of this model), the certificate result and the
   * exposure findings over the path catalog (the scanner uses
   * `Exposure.CommonPaths`). A target not served over HTTPS is reported as
   * such and never rated "Low"; an HTTPS target whose certificate could not
   * be retrieved is reported as such and rated "High".
   */
  function ScanVerdict(catalog: seq<(string, string)>, headerRecords: seq<RiskEngine.HeaderRecord>, finalUrl: string, hostname: string,
                       cert: Option<SslScan.CertFields>, entry: (string, string) -> SslScan.EntryMatch,
                       fetch: string -> Option<Exposure.Response>, robots: Option<Exposure.Response>): (r: RiskEngine.Verdict)
    ensures !IsHttps(finalUrl) ==> RiskEngine.SslPrefix + NotHttpsMessage in r.reasons && r.level != "Low"
    ensures IsHttps(finalUrl) && cert.None? ==> RiskEngine.SslPrefix + SslScan.UnableMessage in r.reasons && r.level == "High"
  {
    var ss := SslRecords(SslInfo(finalUrl, hostname, cert, entry).findings);
    var es := ExposureRecords(Exposure.RunExposureChecks(catalog, fetch, robots));
    var v := RiskEngine.ComputeRisk(headerRecords, ss, es);
    assert !IsHttps(finalUrl) || cert.None? ==> RiskEngine.SslPrefix + ss[0].message in v.reasons && v.level != "Low"
                                                && (RiskEngine.SeverityLevel(ss[0].severity) == RiskEngine.High ==> v.level == "High") by {
      if !IsHttps(finalUrl) || cert.None? {
        RiskProperties.SslFindingInVerdict(headerRecords, ss, es, 0);
      }
    }
    v
  }

  /** An expired certificate on an HTTPS target is reported and makes the level High. */
  lemma ExpiredCertificateReported(catalog: seq<(string, string)>, headerRecords: seq<RiskEngine.HeaderRecord>, finalUrl: string, hostname: string,
                                   cert: SslScan.CertFields, entry: (string, string) -> SslScan.EntryMatch,
                                   fetch: string -> Option<Exposure.Response>, robots: Option<Exposure.Response>)
    requires IsHttps(finalUrl) && cert.microsToExpiry < 0
    ensures var v := ScanVerdict(catalog, headerRecords, finalUrl, hostname, Some(cert), entry, fetch, robots);
            RiskEngine.SslPrefix + SslScan.ExpiredMessage in v.reasons && v.level == "High"
  {
    var fs := SslInfo(finalUrl, hostname, Some(cert), entry).findings;
    assert fs[0] == SslScan.CertFinding(SslScan.ExpiredMessage, SslScan.SevHigh);
    var ss := SslRecords(fs);
    var es := ExposureRecords(Exposure.RunExposureChecks(catalog, fetch, robots));
    RiskProperties.SslFindingInVerdict(headerRecords, ss, es, 0);
  }

  /** A served environment file on the target is reported and makes the level High. */
  lemma EnvFileInVerdict(catalog: seq<(string, string)>, headerRecords: seq<RiskEngine.HeaderRecord>, finalUrl: string, hostname: string,
                         cert: Option<SslScan.CertFields>, entry: (string, string) -> SslScan.EntryMatch,
                         fetch: string -> Option<Exposure.Response>, robots: Option<Exposure.Response>, envBody: string)
    requires ("/.env", "Environment variables file exposed") in catalog
    requires fetch("/.env") == Some(Exposure.Response(200, envBody)) && !Exposure.ShowsDirectoryListing(envBody)
    ensures var v := ScanVerdict(catalog, headerRecords, finalUrl, hostname, cert, entry, fetch, robots);
            RiskEngine.ExposurePrefix + "Environment variables file exposed" in v.reasons && v.level == "High"
  {
    var ss := SslRecords(SslInfo(finalUrl, hostname, cert, entry).findings);
    var findings := Exposure.RunExposureChecks(catalog, fetch, robots);
    var es := ExposureRecords(findings);
    Exposure.EnvFileReported(catalog, fetch, robots, envBody);
    var k :| 0 <= k < |findings| && findings[k] == Exposure.EnvFinding;
    RiskProperties.ExposureInVerdict(headerRecords, ss, es, k);
  }

  /** A header record marked missing is reported and makes the level High. */
  lemma MissingHeaderInVerdict(catalog: seq<(string, string)>, headerRecords: seq<RiskEngine.HeaderRecord>, finalUrl: string, hostname: string,
                               cert: Option<SslScan.CertFields>, entry: (string, string) -> SslScan.EntryMatch,
                               fetch: string -> Option<Exposure.Response>, robots: Option<Exposure.Response>, i: nat)
    requires i < |headerRecords| && headerRecords[i].status == Some("missing")
    ensures var v := ScanVerdict(catalog, headerRecords, finalUrl, hostname, cert, entry, fetch, robots);
            RiskEngine.MissingPrefix + headerRecords[i].header in v.reasons && v.level == "High"
  {
    var ss := SslRecords(SslInfo(finalUrl, hostname, cert, entry).findings);
    var es := ExposureRecords(Exposure.RunExposureChecks(catalog, fetch, robots));
    RiskEngine.MissingStatus(headerRecords[i]);
    RiskProperties.MissingHeaderForcesHigh(headerRecords, ss, es, i);
  }

  /**
   * A missing Content-Security-Policy, an expired certificate and a served
   * environment file in a scan over the shipped catalog.
   */
  lemma ExposedSiteScenarioShipped(headerRecords: seq<RiskEngine.HeaderRecord>, finalUrl: string, hostname: string,
                                   cert: SslScan.CertFields, entry: (string, string) -> SslScan.EntryMatch,
                                   fetch: string -> Option<Exposure.Response>, robots: Option<Exposure.Response>, envBody: string)
    requires |headerRecords| > 0 && headerRecords[0] == RiskEngine.HeaderRecord("Content-Security-Policy", Some("missing"))
    requires IsHttps(finalUrl) && cert.microsToExpiry < 0
    requires fetch("/.env") == Some(Exposure.Response(200, envBody)) && !Exposure.ShowsDirectoryListing(envBody)
    ensures var v := ScanVerdict(Exposure.CommonPaths, headerRecords, finalUrl, hostname, Some(cert), entry, fetch, robots);
            && v.level == "High"
            && RiskEngine.MissingPrefix + "Content-Security-Policy" in v.reasons
            && RiskEngine.SslPrefix + SslScan.ExpiredMessage in v.reasons
            && RiskEngine.ExposurePrefix + "Environment variables file exposed" in v.reasons
  {
    Exposure.CommonPathsListEnvFile();
    ExposedSiteScenario(Exposure.CommonPaths, headerRecords, finalUrl, hostname, cert, entry, fetch, robots, envBody);
  }

  /**
   * A missing Content-Security-Policy, an expired certificate and a served
   * environment file: the level is High and all three are among the reasons.
   */
  lemma ExposedSiteScenario(catalog: seq<(string, string)>, headerRecords: seq<RiskEngine.HeaderRecord>, finalUrl: string, hostname: string,
                            cert: SslScan.CertFields, entry: (string, string) -> SslScan.EntryMatch,
                            fetch: string -> Option<Exposure.Response>, robots: Option<Exposure.Response>, envBody: string)
    requires |headerRecords| > 0 && headerRecords[0] == RiskEngine.HeaderRecord("Content-Security-Policy", Some("missing"))
    requires IsHttps(finalUrl) && cert.microsToExpiry < 0
    requires ("/.env", "Environment variables file exposed") in catalog
    requires fetch("/.env") == Some(Exposure.Response(200, envBody)) && !Exposure.ShowsDirectoryListing(envBody)
    ensures var v := ScanVerdict(catalog, headerRecords, finalUrl, hostname, Some(cert), entry, fetch, robots);
            && v.level == "High"
            && RiskEngine.MissingPrefix + "Content-Security-Policy" in v.reasons
            && RiskEngine.SslPrefix + SslScan.ExpiredMessage in v.reasons
            && RiskEngine.ExposurePrefix + "Environment variables file exposed" in v.reasons
  {
    MissingHeaderInVerdict(catalog, headerRecords, finalUrl, hostname, Some(cert), entry, fetch, robots, 0);
    ExpiredCertificateReported(catalog, headerRecords, finalUrl, hostname, cert, entry, fetch, robots);
    EnvFileInVerdict(catalog, headerRecords, finalUrl, hostname, Some(cert), entry, fetch, robots, envBody);
  }
}
