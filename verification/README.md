# VulnVision scanner core in Dafny

VulnVision is a passive web reconnaissance service. For one target URL it does five things:

- fetches the page;
- fingerprints the technologies behind it, from response headers, `<meta>` tags, script sources and the favicon hash;
- checks the watched security headers;
- analyses the TLS certificate;
- probes a fixed catalog of commonly exposed paths plus `robots.txt`.

It then folds everything into one risk verdict: a level (`Low`, `Medium`, `High`) and a list of reasons.

This project models the decision logic of that pipeline as pure Dafny functions and proves what the logic guarantees. Network access, certificate parsing and HTML parsing are not modelled. Their results arrive as parameters:

- a probe's outcome;
- the certificate's extracted fields;
- the per-entry hostname matcher;
- the page's meta tags and script sources;
- the favicon hash.

Modules, one per source component:

- `RiskEngine` (`compute_risk`) is one pass over a combined sequence of header, certificate and exposure records. `RiskProperties` proves the pass correct against separate reference definitions:
  - the final level is the highest weight of any record;
  - the level never drops;
  - the reasons are the header reasons, then the certificate reasons, then the exposure reasons, in order;
  - the default reason appears exactly when nothing else contributed.
- `SslScan` (`analyze_certificate`) holds the four issue rules (expiry, weak RSA key, SAN mismatch, weak signature) and the unretrievable-certificate result.
- `Exposure` (`check_common_paths`, `parse_robots`, `run_exposure_checks`) holds:
  - the per-path classification;
  - a hand-written matcher for the case-insensitive robots pattern;
  - the guarantee that findings follow catalog order, with at most one per path.
- `HeaderScan` (`scan_domain`) holds the first-response-wins probe loop and the present/missing partition of the watched headers.
- `TechDetect` (`detect_technologies` and its helpers) holds the case-insensitive first-wins de-duplication, the signature tables, and the combination of the per-source findings.
- `Scan` (`normalize_headers` and the scan wiring in `perform_scan`, read as if its imports resolved; see "Left out") holds:
  - header normalization;
  - the synthetic certificate result for targets not served over HTTPS;
  - end-to-end facts about the verdict of a scan.
- Shared helpers:
  - `Strings`: ASCII lower-casing, substring search, `", "` joining and splitting, decimal rendering of integers;
  - `Dicts`: ordered association lists standing in for Python dicts, with the last-wins lowered-key lookup;
  - `Seqs`: order-preserving subsequences;
  - `Wrappers`: `Option`.

The fixed tables of the source are passed to the operations as parameters, and the shipped tables are constants next to them:

- the technology signature tables: `TechDetect.Signatures`, shipped as `TechDetect.Builtin`;
- the exposure path catalog: shipped as `Exposure.CommonPaths`;
- the watched security headers: shipped as `HeaderScan.ImportantHeaders`.

The properties are therefore proved for every table. Where a property depends on the tables' contents, a separate lemma proves it of the shipped constants, for example that every catalog path is distinct.

How the code combines results, as modelled:

- Certificate reasons are prefixed `SSL: `.
- Exposure reasons use the finding's `detail` text, or its path when the record has no `detail` key.
- Reasons are never de-duplicated.
- The default reason `No significant issues detected` does not reset the level. A high-severity certificate finding with an empty message yields `High` with the default reason (`RiskProperties.DefaultReasonWithHighLevel`).
- Technology findings are de-duplicated only within each source (headers, meta, scripts), never across sources (`TechDetect.CrossSourceDuplicatesKept`).

The weak-signature rule compares the whole lower-cased signature algorithm name with exactly `md5` or `sha1`. The model keeps that comparison as written. `SslScan.CompositeSignatureNameNotFlagged` shows that a composite name such as `sha1WithRSAEncryption` is not flagged. The cryptography library's names for signature OIDs have that composite form, so the rule rarely fires in practice. This is recorded as behaviour, not claimed as a defect, because the intent cannot be read from the code alone.

## Model

| member | source | states |
|---|---|---|
| RiskEngine.Max | backend/main.py:103-126 | the combined level is at least each of the two levels and is one of them |
| RiskEngine.TitleInjective | backend/main.py:133 | distinct levels get distinct title-cased names |
| RiskEngine.SeverityLevel | backend/main.py:111-126 | a severity or risk label calls for High iff it lowers to "high", Medium iff it lowers to "medium", and nothing when absent |
| RiskEngine.SeverityIgnoresCase | backend/main.py:111-121 | the case of a severity or risk label never changes the level it calls for |
| RiskEngine.Weight | backend/main.py:101-126 | a header record weighs High iff it is missing and Medium iff it needs review; a certificate finding or exposure weighs what its label calls for |
| RiskEngine.MissingStatus | backend/main.py:102-103 | a header record with status "missing" counts as missing |
| RiskEngine.Step | backend/main.py:101-128 | one record raises the level to the maximum of the old level and the record's weight, and appends at most one reason while keeping the earlier ones |
| RiskEngine.Run | backend/main.py:98-128 | the pass never lowers the level and never removes or changes an earlier reason |
| RiskEngine.ComputeRisk | backend/main.py:93-133 | the verdict always has at least one reason, and its level is one of "Low", "Medium", "High" |
| RiskProperties.RunAppend | backend/main.py:101-128 | running the three loops one after the other is the same as one pass over the concatenated records |
| RiskProperties.LevelNeverLowered | backend/main.py:98-128 | the level after any prefix of the records is at most the final level, and the reasons so far form a prefix of the final reasons |
| RiskProperties.AppendRecord | backend/main.py:120-128 | appending a record moves the level to the maximum of the previous level and that record's weight |
| RiskProperties.MaxWeight | backend/main.py:103-126 | the reference maximum bounds every record's weight and is attained by some record, or is Low |
| RiskProperties.LevelIsMaxWeight | backend/main.py:98-128 | the pass's level is the starting level combined with the highest record weight |
| RiskProperties.FinalLevel | backend/main.py:98-133 | the verdict is "High" iff some record weighs High, and "Low" iff every record weighs Low |
| RiskProperties.MissingHeaderForcesHigh | backend/main.py:103-105 | any missing header forces level "High" and is named in the reasons |
| RiskProperties.MoreExposuresNeverLower | backend/main.py:120-128 | an extra exposure never lowers the level, and a high-risk one forces "High" |
| RiskProperties.HeaderReasons | backend/main.py:101-108 | reference header reasons: every reason carries a source tag |
| RiskProperties.SslReasons | backend/main.py:110-118 | reference certificate reasons: every reason carries a source tag |
| RiskProperties.ExposureReasons | backend/main.py:120-128 | reference exposure reasons: every reason carries a source tag |
| RiskProperties.HeaderPhase | backend/main.py:101-108 | the header loop yields exactly the reference header reasons, and reaches High iff some header is missing |
| RiskProperties.SslPhase | backend/main.py:110-118 | the certificate loop appends exactly the reference certificate reasons, whatever the level before |
| RiskProperties.ExposurePhase | backend/main.py:120-128 | the exposure loop appends exactly the reference exposure reasons, whatever the level before |
| RiskProperties.ReasonsInOrder | backend/main.py:99-131 | the reasons are the header reasons, then the certificate reasons, then the exposure reasons, with nothing dropped or reordered |
| RiskProperties.MissingReasonListed | backend/main.py:103-105 | every missing header has its reason |
| RiskProperties.ReviewReasonListed | backend/main.py:106-108 | a header needing review is reported exactly when no missing header precedes it |
| RiskProperties.SslReasonListed | backend/main.py:117-118 | every certificate finding with a non-empty message has its "SSL: " reason |
| RiskProperties.ExposureReasonListed | backend/main.py:122-128 | every exposure with non-empty detail (or, lacking the key, path) has its "Exposure: " reason |
| RiskProperties.HeaderReasonsEmpty | backend/main.py:101-108 | there are no header reasons iff no header is missing or needs review |
| RiskProperties.SslReasonsEmpty | backend/main.py:110-118 | there are no certificate reasons iff every message is empty |
| RiskProperties.ExposureReasonsEmpty | backend/main.py:120-128 | there are no exposure reasons iff every exposure text is empty |
| RiskProperties.DefaultReason | backend/main.py:130-133 | the reasons are exactly the default reason iff no record contributes one, and the level is the pass's level, not reset |
| RiskProperties.DefaultReasonWithHighLevel | backend/main.py:113-133 | a message-less high certificate finding yields level "High" with only the default reason |
| RiskProperties.SslFindingInVerdict | backend/main.py:110-118 | a certificate finding's message is among the verdict's reasons; high severity forces "High", and medium rules out "Low" |
| RiskProperties.ExposureInVerdict | backend/main.py:120-128 | an exposure's text is among the verdict's reasons, and high risk forces "High" |
| SslScan.FormatNameRoundTrip | backend/scanners/sslscan.py:40-41 | the "oid=value" pairs of a name can be split back out of the formatted string when no part contains a comma |
| SslScan.DaysRemaining | backend/scanners/sslscan.py:86 | whole days to expiry rounded toward minus infinity, negative iff the certificate is past its end |
| SslScan.FormatName | backend/scanners/sslscan.py:40-41 | an empty name renders as "", a single attribute as its "oid=value" pair with no separator |
| SslScan.SignatureRuleReadsName | backend/scanners/sslscan.py:92-96 | the weak-signature rule sees "Unknown" (never flagged) without an OID, the OID's name when it has one, and its text form otherwise |
| SslScan.CertificateIssues | backend/scanners/sslscan.py:110-141 | the findings are exactly the expiry, weak-key, SAN and signature rule outputs in that order, nothing else; so expired iff days < 0, near expiry iff 0 <= days < 14, weak key iff RSA below 2048 bits, SAN mismatch iff the hostname is not accepted, weak signature iff the name is md5 or sha1 |
| SslScan.Summarize | backend/scanners/sslscan.py:84-108 | subject and issuer are the formatted names, the validity bounds and key and SAN fields are the certificate's, the algorithm is the signature name; the days are negative iff the certificate has ended and are the floor of the time left in days |
| SslScan.ExpiryIssues | backend/scanners/sslscan.py:111-118 | expired iff days < 0, near expiry iff 0 <= days < 14, nothing otherwise; never both |
| SslScan.WeakKeyIssues | backend/scanners/sslscan.py:120-125 | a weak-key finding (naming the bit count) iff the key is RSA with a known non-zero size below 2048 |
| SslScan.SanAccepts | backend/scanners/sslscan.py:127-128 | the hostname is accepted iff some SAN entry matches and every earlier entry is a plain non-match; an empty list never accepts |
| SslScan.SanIssues | backend/scanners/sslscan.py:127-132 | the SAN-mismatch finding appears iff the SAN list does not accept the hostname |
| SslScan.SignatureIssues | backend/scanners/sslscan.py:134-141 | a weak-signature finding iff the lower-cased name is exactly "md5" or "sha1" |
| SslScan.AnalyzeCertificate | backend/scanners/sslscan.py:64-147 | no certificate gives an absent result with the single high "unable to retrieve" finding; otherwise a present result with the summary and the rule findings in order |
| SslScan.IssueSeverities | backend/scanners/sslscan.py:110-141 | at most four findings; a finding is medium iff it is the near-expiry one |
| SslScan.EmptySanMismatch | backend/scanners/sslscan.py:127-132 | a certificate without SAN entries is always reported as not matching |
| SslScan.ExpiredYesterday | backend/scanners/sslscan.py:86-114 | a certificate that ended one day ago has -1 days remaining and is reported expired |
| SslScan.ExpiredJustNow | backend/scanners/sslscan.py:86 | one microsecond past the end already counts as -1 days |
| SslScan.ExpiryExamples | backend/scanners/sslscan.py:111-118 | ten days left gives the near-expiry finding; thirty days left gives none |
| SslScan.CompositeSignatureNameNotFlagged | backend/scanners/sslscan.py:135-136 | "sha1WithRSAEncryption" is not flagged, "SHA1" is |
| Exposure.ClassifyPath | backend/scanners/exposure.py:59-77 | a finding iff the response status is 200, 401 or 403; its status text is the decimal code; a 200 is high iff the path is sensitive or the body shows a directory listing; 401/403 is low "protected" |
| Exposure.CheckCommonPaths | backend/scanners/exposure.py:54-78 | at most one finding per catalog entry, in catalog order; a finding is present iff some entry classifies to it |
| Exposure.SkipSpace | backend/scanners/exposure.py:29 | the matcher's `\s*` consumes exactly the maximal run of whitespace |
| Exposure.SearchFrom | backend/scanners/exposure.py:88 | the left-to-right search succeeds iff the pattern matches at some later position |
| Exposure.ParseRobots | backend/scanners/exposure.py:81-97 | one medium robots finding iff robots.txt answered 200 and its body matches the sensitive-path pattern; otherwise none |
| Exposure.RunExposureChecks | backend/scanners/exposure.py:100-103 | the common-path findings come first, then the robots findings, nine at most |
| Exposure.CommonPathsCatalog | backend/scanners/exposure.py:12-21 | the shipped catalog lists `/robots.txt` and names each of its eight paths once |
| Exposure.FindingsNameCatalogPaths | backend/scanners/exposure.py:54-103 | every reported path is a catalog path, for any catalog that lists `/robots.txt` |
| Exposure.CatalogPathsOnce | backend/scanners/exposure.py:54-78 | no path is reported twice by the common-path check when the catalog names each path once |
| Exposure.ReportedIffReportable | backend/scanners/exposure.py:59-77 | a catalog path is reported iff its fetch returned 200, 401 or 403 |
| Exposure.StatusReadsBack | backend/scanners/exposure.py:68-74 | a finding's status text is all digits and reads back as the HTTP status |
| Exposure.EnvFileServed | backend/scanners/exposure.py:15 | a served `/.env` without a listing is a high finding with its catalog description |
| Exposure.EnvFileReported | backend/scanners/exposure.py:100-103 | a served `/.env` is among the exposure findings whatever robots.txt says |
| Exposure.CommonPathsListEnvFile | backend/scanners/exposure.py:15 | the shipped catalog lists `/.env` with its description |
| HeaderScan.PresenceIgnoresCase | backend/scanners/headers.py:47-51 | a watched header is present iff some response header equals it up to case |
| HeaderScan.Partition | backend/scanners/headers.py:48-54 | every watched header lands in exactly one of present or missing; both lists keep watchlist order and hold nothing else |
| HeaderScan.FromResponse | backend/scanners/headers.py:43-56 | the result carries the response's headers and status, and lists each watched header as present or missing by that response, in watchlist order |
| HeaderScan.ScanProbes | backend/scanners/headers.py:36-57 | the first probe with a response decides the result; with no response the result stays at its defaults |
| HeaderScan.ScanDomain | backend/scanners/headers.py:23-59 | "/" decides if it answered, else "/index.html" if it answered, else the empty defaults |
| HeaderScan.ReportClassifiesWatchlist | backend/scanners/headers.py:26-57 | with a response, each watched header is present xor missing; without one, both lists and the headers are empty |
| HeaderScan.FirstResponse | backend/scanners/headers.py:36-57 | the first probe that got a response: every earlier probe failed |
| TechDetect.AddFinding | backend/scanners/techdetect.py:69-73 | the finding is appended iff no finding of the same name up to case exists; distinctness is kept |
| TechDetect.Dedup | backend/scanners/techdetect.py:69-73 | feeding candidates through the add step gives distinct names, covers every candidate name, and keeps only candidates in their original order |
| TechDetect.FirstOccurrenceWins | backend/scanners/techdetect.py:69-73 | every kept finding is the first candidate of its name |
| TechDetect.DuplicateNamesCollapse | backend/scanners/techdetect.py:70-72 | "WordPress" then "wordpress" keeps only the first |
| TechDetect.Hits | backend/scanners/techdetect.py:84-86 | the findings for one text are exactly the table entries whose pattern is hit |
| TechDetect.HeaderCandidates | backend/scanners/techdetect.py:79-86 | a candidate iff some header entry's non-empty lowered value contains one of its patterns |
| TechDetect.DetectFromHeaders | backend/scanners/techdetect.py:76-87 | distinct "medium" findings, each justified by a header signature, covering every matched technology name |
| TechDetect.SlotCandidates | backend/scanners/techdetect.py:94-100 | for one meta attribute, the candidates are exactly the signatures found in the content or the key, when the content is non-empty |
| TechDetect.MetaCandidates | backend/scanners/techdetect.py:92-100 | a candidate iff some meta tag under the name or property slot yields it |
| TechDetect.DetectFromMeta | backend/scanners/techdetect.py:90-101 | distinct "high" findings, each justified by a meta tag, covering every matched name |
| TechDetect.ScriptCandidates | backend/scanners/techdetect.py:106-113 | a candidate iff some non-empty script source contains a signature pattern |
| TechDetect.DetectFromScripts | backend/scanners/techdetect.py:104-114 | distinct "medium" findings, each justified by a script source, covering every matched name |
| TechDetect.FaviconLookup | backend/scanners/techdetect.py:143 | a technology iff the hash is in the table, and it is the table's entry for the hash |
| TechDetect.DetectFromFavicon | backend/scanners/techdetect.py:134-146 | one "low" finding citing the hash iff a hash is known and its table entry names a technology; the name is the table's |
| TechDetect.DetectTechnologies | backend/scanners/techdetect.py:149-166 | without a non-empty page only the header findings; with one, the header, meta, script and favicon findings concatenated in that order |
| TechDetect.ConfidenceLabels | backend/scanners/techdetect.py:86-146 | by position: header findings "medium", then meta findings "high", script findings "medium", and at most one trailing "low" favicon finding |
| TechDetect.CrossSourceDuplicatesKept | backend/scanners/techdetect.py:150-157 | a technology found by a header and again by a meta tag appears twice in the combined list, header first, so the list is not name-distinct |
| TechDetect.CandidateListed | backend/scanners/techdetect.py:80-86 | a matching header pattern puts its technology among the candidates |
| TechDetect.HeaderSignatureReported | backend/scanners/techdetect.py:76-87 | a header signature that matches is reported, under the spelling of its first detection |
| TechDetect.HeaderCaseIgnored | backend/scanners/techdetect.py:78-80 | header candidates depend only on the lowered-key lookups |
| TechDetect.HeaderDetectionIgnoresCase | backend/scanners/techdetect.py:78 | renaming headers by case changes nothing the header detector reports |
| TechDetect.SameLoweredValues | backend/scanners/techdetect.py:78 | header dicts with the same keys up to case and the same values give the same lowered lookups |
| TechDetect.ScriptCandidateListed | backend/scanners/techdetect.py:110-113 | a script source containing a pattern puts its technology among the candidates |
| TechDetect.ScriptSignatureReported | backend/scanners/techdetect.py:104-114 | a script signature found in a non-empty src is reported |
| TechDetect.MetaSignatureReported | backend/scanners/techdetect.py:90-101 | a meta signature in the non-empty content or in the key is reported |
| Scan.Stringify | backend/main.py:139-142 | a text value is kept as is, an empty list becomes "", and a non-empty list of comma-free items splits back into its items |
| Scan.NormalizeHeaders | backend/main.py:136-143 | the same keys in the same order; text values unchanged |
| Scan.NormalizedListReadsBack | backend/main.py:139-140 | a list value of comma-free items splits back into its items after joining |
| Scan.SslInfo | backend/main.py:162-172 | over HTTPS the certificate analysis; otherwise the absent result with the single "not served over HTTPS" medium finding; present iff HTTPS and a certificate was retrieved |
| Scan.SslRecords | backend/main.py:110-113 | certificate findings reach the risk pass with their messages, at their own severity |
| Scan.ExposureRecords | backend/main.py:120-123 | exposure findings reach the risk pass with their detail and risk level |
| Scan.ScanVerdict | backend/main.py:162-174 | a non-HTTPS target is reported as such and never rated "Low"; an HTTPS target whose certificate cannot be retrieved is reported as such and rated "High" |
| Scan.ExpiredCertificateReported | backend/main.py:166-174 | an expired certificate over HTTPS is reported and forces "High" |
| Scan.EnvFileInVerdict | backend/main.py:173-174 | a served `/.env` is reported and forces "High" |
| Scan.MissingHeaderInVerdict | backend/main.py:165-174 | a header record with status "missing" is reported and forces "High" |
| Scan.ExposedSiteScenario | backend/main.py:146-174 | a missing Content-Security-Policy, an expired certificate and a served `/.env` together give "High" with all three reasons |
| Scan.ExposedSiteScenarioShipped | backend/main.py:146-174 | the same scenario over the shipped path catalog |
| Dicts.GetLowered | backend/scanners/techdetect.py:78-80 | the lowered-key lookup finds a value iff some key lowers to the name, and then it is the value of the last such key |
| Strings.SplitJoin | backend/main.py:140 | joining comma-free items with ", " and splitting gives the items back |
| Strings.NatToDecimal | backend/scanners/exposure.py:68 | `str()` of a status code is non-empty, all digits, and without leading zeros |
| Strings.DecimalRoundTrip | backend/scanners/exposure.py:68 | the decimal rendering reads back as the number |
| Strings.IntToDecimal | backend/scanners/techdetect.py:146 | `str()` of a hash has a leading '-' iff it is negative, followed by the digits of its magnitude |

## Left out

- Network I/O (page fetch, probes, TLS handshake, favicon download): every outcome is a parameter, and timeouts, redirects and `urljoin` resolution are not modelled.
- X.509 parsing: the certificate arrives as its extracted fields. The subject and issuer are attribute lists, and the time to expiry is an integer number of microseconds. Float rounding in `total_seconds()` is not modelled.
- `ssl.match_hostname`: wildcard and IP-address rules are abstracted into a per-SAN-entry outcome (match, no match, malformed). Only the first-decisive-entry logic is modelled. The function no longer exists in Python 3.12 and later, where the call itself would fail.
- The favicon hash (base64 plus MurmurHash3) is a parameter. A failed download or hashing is the absent hash.
- HTML parsing (BeautifulSoup): a page arrives as its meta tags and script sources. A missing attribute reads as "".
- `perform_scan`'s URL and hostname validation, IP resolution and `ScanResult` assembly, and the FastAPI endpoints.
- `audit_security_headers` and the report renderer are not part of this model. The header records the risk pass reads are taken as given.
- Scan.ScanVerdict: models the `perform_scan` wiring as if its imports resolved to the evident functions. As written, backend/main.py:16 imports `audit_security_headers`, which backend/scanners/headers.py does not define, and backend/main.py:19 imports `render_report`, where backend/utils/report.py defines `render_html`; the module would fail to import.
- The content-type gate of `perform_scan` (backend/main.py:160): the page body reaches technology detection only when the response's content type starts with "text". It is modelled through the `page` parameter of `TechDetect.DetectTechnologies`: a non-text response is passed as the absent page.
- `str()` of non-string header values: values are text or lists of text.
- Duplicate header keys stay separate entries of the association list, with lookups resolving to the last. A Python dict would merge them in place.
- Case folding beyond ASCII: `Lower` maps only `A`-`Z`.
- The `isinstance(v, str)` filter in `detect_from_headers`: header values are strings by construction.
- `robots` in `Exposure.RunExposureChecks` is the response to the second, separate fetch of `/robots.txt`. It may differ from the catalog fetch of the same path.
- `scan_domain`'s `headers` field keeps the response headers as given. Building the dict by comprehension is not modelled further.
- `backend/utils/report.py` is not part of this model.
