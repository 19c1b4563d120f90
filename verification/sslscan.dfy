/**
 * Certificate issue rules of `analyze_certificate` (backend/scanners/sslscan.py),
 * over fields already extracted from the peer certificate. The TLS handshake
 * and X.509 parsing are outside the model: the certificate arrives as an
 * optional `CertFields`, and hostname matching per SAN entry as a parameter.
 */
module SslScan {
  import opened Wrappers
  import opened Strings

  datatype Severity = SevHigh | SevMedium

  function SeverityText(s: Severity): string {
    match s
    case SevHigh => "high"
    case SevMedium => "medium"
  }

  datatype CertFinding = CertFinding(message: string, severity: Severity)

  /** One relative distinguished name attribute: the OID's short name and the value. */
  datatype NameAttribute = NameAttribute(oidName: string, value: string)

  /** The signature algorithm OID: its registered name ("" if unnamed) and its `str()` form. */
  datatype SignatureOid = SignatureOid(name: string, text: string)

  /**
   * The certificate as the analyzer reads it. `microsToExpiry` is
   * `not_after - now` in microseconds; `keySize` is absent when the key type
   * has no `key_size` attribute.
   */
  datatype CertFields = CertFields(
    subject: seq<NameAttribute>,
    issuer: seq<NameAttribute>,
    san: seq<string>,
    notBefore: string,
    notAfter: string,
    microsToExpiry: int,
    keyType: string,
    keySize: Option<nat>,
    signatureOid: Option<SignatureOid>)

  datatype CertSummary = CertSummary(
    subject: string,
    issuer: string,
    notBefore: string,
    notAfter: string,
    daysRemaining: int,
    signatureAlgorithm: string,
    keyType: string,
    keySize: Option<nat>,
    san: seq<string>)

  /** The dictionary returned by `analyze_certificate` (and its synthetic stand-ins). */
  datatype CertResult = CertResult(present: bool, summary: Option<CertSummary>, findings: seq<CertFinding>)

  /** Outcome of matching one SAN DNS entry against the hostname. */
  datatype EntryMatch = Matches | NoMatch | Malformed

  const MicrosPerDay: int := 86_400_000_000
  const RsaKeyTypeName: string := "RSAPublicKey"
  const WeakKeyBits: nat := 2048
  const NearExpiryDays: int := 14

  const UnableMessage: string := "Unable to retrieve certificate (host may not support HTTPS)"
  const ExpiredMessage: string := "Certificate has expired"
  const NearExpiryMessage: string := "Certificate expires within 14 days"
  const SanMismatchMessage: string := "Certificate SAN does not match hostname"

  function RenderAttributes(attrs: seq<NameAttribute>): seq<string> {
    seq(|attrs|, i requires 0 <= i < |attrs| => attrs[i].oidName + "=" + attrs[i].value)
  }

  /**
   * `_format_name`: "oid=value" pairs joined by ", ". An empty name renders
   * as "", a single attribute without a separator; `FormatNameRoundTrip`
   * reads the pairs back.
   */
  function FormatName(attrs: seq<NameAttribute>): (r: string)
    ensures attrs == [] ==> r == ""
    ensures |attrs| == 1 ==> r == attrs[0].oidName + "=" + attrs[0].value
    ensures |attrs| >= 1 ==> |r| >= 1
  {
    Join(ListSeparator, RenderAttributes(attrs))
  }

  /** The rendered pairs can be read back from the formatted name when none of them holds a comma. */
  lemma FormatNameRoundTrip(attrs: seq<NameAttribute>)
    requires |attrs| >= 1
    requires forall i :: 0 <= i < |attrs| ==> CommaFree(attrs[i].oidName) && CommaFree(attrs[i].value)
    ensures SplitList(FormatName(attrs)) == RenderAttributes(attrs)
    ensures |SplitList(FormatName(attrs))| == |attrs|
  {
    var parts := RenderAttributes(attrs);
    forall k | 0 <= k < |parts|
      ensures CommaFree(parts[k])
    {
      var a := attrs[k];
      assert parts[k] == a.oidName + "=" + a.value;
      forall j | 0 <= j < |parts[k]|
        ensures parts[k][j] != ','
      {
        if j < |a.oidName| {
          assert parts[k][j] == a.oidName[j];
        } else if j > |a.oidName| {
          assert parts[k][j] == a.value[j - |a.oidName| - 1];
        }
      }
    }
    SplitJoin(parts);
  }

  /** `int(seconds // 86400)`: whole days until expiry, rounded toward minus infinity. */
  function DaysRemaining(micros: int): (d: int)
    ensures d * MicrosPerDay <= micros < (d + 1) * MicrosPerDay
    ensures d < 0 <==> micros < 0
  {
    micros / MicrosPerDay
  }

  /**
   * The signature algorithm name: "Unknown" without an OID, else its name,
   * else its text form. This is the definition the weak-signature rule reads;
   * `SignatureRuleReadsName` states what that means for the rule.
   */
  function SignatureName(oid: Option<SignatureOid>): (r: string)
    ensures oid.None? ==> r == "Unknown"
    ensures oid.Some? && oid.value.name != "" ==> r == oid.value.name
    ensures oid.Some? && oid.value.name == "" ==> r == oid.value.text
  {
    match oid
    case None => "Unknown"
    case Some(o) => if o.name != "" then o.name else o.text
  }

  /** The expiry rules: expired, near expiry, or nothing — never more than one. */
  function ExpiryIssues(days: int): (r: seq<CertFinding>)
    ensures |r| <= 1
    ensures r == [CertFinding(ExpiredMessage, SevHigh)] <==> days < 0
    ensures r == [CertFinding(NearExpiryMessage, SevMedium)] <==> 0 <= days < NearExpiryDays
    ensures r == [] <==> days >= NearExpiryDays
  {
    if days < 0 then [CertFinding(ExpiredMessage, SevHigh)]
    else if days < NearExpiryDays then [CertFinding(NearExpiryMessage, SevMedium)]
    else []
  }

  function WeakKeyMessage(bits: nat): string {
    "RSA key size is weak (" + NatToDecimal(bits) + " bits)"
  }

  /** The weak-key rule: an RSA key with a known, non-zero size below 2048 bits. */
  function WeakKeyIssues(keyType: string, keySize: Option<nat>): (r: seq<CertFinding>)
    ensures |r| <= 1
    ensures r != [] <==> keyType == RsaKeyTypeName && keySize.Some? && 0 < keySize.value < WeakKeyBits
    ensures r != [] ==> r[0] == CertFinding(WeakKeyMessage(keySize.value), SevHigh)
  {
    if keyType == RsaKeyTypeName && keySize.Some? && keySize.value != 0 && keySize.value < WeakKeyBits
    then [CertFinding(WeakKeyMessage(keySize.value), SevHigh)]
    else []
  }

  /**
   * `ssl.match_hostname` over DNS-only SAN entries: entries are tried in
   * order; the first match accepts, a malformed wildcard rejects at once, and
   * running out of entries rejects.
   */
  function SanAccepts(san: seq<string>, hostname: string, entry: (string, string) -> EntryMatch): (r: bool)
    ensures r <==> exists i :: 0 <= i < |san| && entry(san[i], hostname) == Matches
                              && forall j :: 0 <= j < i ==> entry(san[j], hostname) == NoMatch
    ensures san == [] ==> !r
    decreases |san|
  {
    if san == [] then false
    else
      match entry(san[0], hostname)
      case Matches => true
      case Malformed => false
      case NoMatch =>
        var rest := SanAccepts(san[1..], hostname, entry);
        assert forall i :: 1 <= i < |san| ==> san[1..][i - 1] == san[i];
        rest
  }

  /** The hostname rule: a mismatch finding exactly when the SAN list does not accept the hostname. */
  function SanIssues(san: seq<string>, hostname: string, entry: (string, string) -> EntryMatch): (r: seq<CertFinding>)
    ensures r == [] <==> SanAccepts(san, hostname, entry)
    ensures r != [] ==> r == [CertFinding(SanMismatchMessage, SevHigh)]
  {
    if SanAccepts(san, hostname, entry) then [] else [CertFinding(SanMismatchMessage, SevHigh)]
  }

  /** The exact names the weak-signature rule compares against (`hashes.MD5.name`, `hashes.SHA1.name`). */
  predicate IsWeakSignatureName(name: string) {
    Lower(name) == "md5" || Lower(name) == "sha1"
  }

  function WeakSignatureMessage(name: string): string {
    "Weak signature algorithm in use (" + name + ")"
  }

  /** The weak-signature rule: fires iff the lower-cased name is exactly "md5" or "sha1". */
  function SignatureIssues(name: string): (r: seq<CertFinding>)
    ensures r != [] <==> IsWeakSignatureName(name)
    ensures r != [] ==> r == [CertFinding(WeakSignatureMessage(name), SevHigh)]
  {
    if name != "" && IsWeakSignatureName(name) then [CertFinding(WeakSignatureMessage(name), SevHigh)] else []
  }

  /** The four rule outputs of a certificate, concatenated in rule order. */
  function RuleFindings(c: CertFields, hostname: string, entry: (string, string) -> EntryMatch): seq<CertFinding> {
    ExpiryIssues(DaysRemaining(c.microsToExpiry))
    + WeakKeyIssues(c.keyType, c.keySize)
    + SanIssues(c.san, hostname, entry)
    + SignatureIssues(SignatureName(c.signatureOid))
  }

  lemma ExpiryRuleFindings(c: CertFields, hostname: string, entry: (string, string) -> EntryMatch)
    ensures var r := RuleFindings(c, hostname, entry);
            (CertFinding(ExpiredMessage, SevHigh) in r <==> DaysRemaining(c.microsToExpiry) < 0)
            && (CertFinding(NearExpiryMessage, SevMedium) in r <==> 0 <= DaysRemaining(c.microsToExpiry) < NearExpiryDays)
  {
    assert WeakSignatureMessage(SignatureName(c.signatureOid))[0] == 'W';
    assert c.keySize.Some? ==> WeakKeyMessage(c.keySize.value)[0] == 'R';
    assert ExpiredMessage[0] == 'C' && NearExpiryMessage[0] == 'C';
  }

  lemma KeyRuleFindings(c: CertFields, hostname: string, entry: (string, string) -> EntryMatch)
    ensures var r := RuleFindings(c, hostname, entry);
            (c.keySize.Some? ==>
               (CertFinding(WeakKeyMessage(c.keySize.value), SevHigh) in r <==>
                c.keyType == RsaKeyTypeName && 0 < c.keySize.value < WeakKeyBits))
            && (c.keySize.None? ==> forall b: nat :: CertFinding(WeakKeyMessage(b), SevHigh) !in r)
  {
    assert forall b: nat :: WeakKeyMessage(b)[0] == 'R';
    assert WeakSignatureMessage(SignatureName(c.signatureOid))[0] == 'W';
    assert ExpiredMessage[0] == 'C' && NearExpiryMessage[0] == 'C' && SanMismatchMessage[0] == 'C';
  }

  lemma NameRuleFindings(c: CertFields, hostname: string, entry: (string, string) -> EntryMatch)
    ensures var r := RuleFindings(c, hostname, entry);
            (CertFinding(SanMismatchMessage, SevHigh) in r <==> !SanAccepts(c.san, hostname, entry))
            && (var name := SignatureName(c.signatureOid);
                CertFinding(WeakSignatureMessage(name), SevHigh) in r <==> IsWeakSignatureName(name))
  {
    assert WeakSignatureMessage(SignatureName(c.signatureOid))[0] == 'W';
    assert c.keySize.Some? ==> WeakKeyMessage(c.keySize.value)[0] == 'R';
    assert ExpiredMessage[0] == 'C' && NearExpiryMessage[0] == 'C' && SanMismatchMessage[0] == 'C';
  }

  /**
   * All issue findings of a retrieved certificate: the four rules' outputs in
   * rule order (expiry, weak key, SAN, signature) and nothing else, so each
   * rule's finding is present exactly under that rule's condition.
   */
  function CertificateIssues(c: CertFields, hostname: string, entry: (string, string) -> EntryMatch): (r: seq<CertFinding>)
    ensures r == ExpiryIssues(DaysRemaining(c.microsToExpiry)) + WeakKeyIssues(c.keyType, c.keySize)
                 + SanIssues(c.san, hostname, entry) + SignatureIssues(SignatureName(c.signatureOid))
    ensures CertFinding(ExpiredMessage, SevHigh) in r <==> DaysRemaining(c.microsToExpiry) < 0
    ensures CertFinding(NearExpiryMessage, SevMedium) in r <==> 0 <= DaysRemaining(c.microsToExpiry) < NearExpiryDays
    ensures c.keySize.Some? ==>
              (CertFinding(WeakKeyMessage(c.keySize.value), SevHigh) in r <==>
               c.keyType == RsaKeyTypeName && 0 < c.keySize.value < WeakKeyBits)
    ensures c.keySize.None? ==> forall b: nat :: CertFinding(WeakKeyMessage(b), SevHigh) !in r
    ensures CertFinding(SanMismatchMessage, SevHigh) in r <==> !SanAccepts(c.san, hostname, entry)
    ensures var name := SignatureName(c.signatureOid);
            CertFinding(WeakSignatureMessage(name), SevHigh) in r <==> IsWeakSignatureName(name)
  {
    ExpiryRuleFindings(c, hostname, entry);
    KeyRuleFindings(c, hostname, entry);
    NameRuleFindings(c, hostname, entry);
    RuleFindings(c, hostname, entry)
  }

  /**
   * The certificate summary: both names formatted, the validity bounds and
   * the signature algorithm name, the whole days to expiry (negative exactly
   * for an expired certificate), and the key and SAN list as read from the
   * certificate.
   */
  function Summarize(c: CertFields): (r: CertSummary)
    ensures r.subject == FormatName(c.subject) && r.issuer == FormatName(c.issuer)
    ensures r.notBefore == c.notBefore && r.notAfter == c.notAfter
    ensures r.signatureAlgorithm == SignatureName(c.signatureOid)
    ensures r.daysRemaining < 0 <==> c.microsToExpiry < 0
    ensures r.daysRemaining * MicrosPerDay <= c.microsToExpiry < (r.daysRemaining + 1) * MicrosPerDay
    ensures r.san == c.san && r.keyType == c.keyType && r.keySize == c.keySize
    ensures r.signatureAlgorithm != "" || (c.signatureOid.Some? && c.signatureOid.value.text == "")
  {
    CertSummary(FormatName(c.subject), FormatName(c.issuer), c.notBefore, c.notAfter,
                DaysRemaining(c.microsToExpiry), SignatureName(c.signatureOid),
                c.keyType, c.keySize, c.san)
  }

  const Unretrieved: CertResult := CertResult(false, None, [CertFinding(UnableMessage, SevHigh)])

  /**
   * `analyze_certificate`: without certificate bytes, an absent result with
   * one high finding; otherwise a present result with the summary and the
   * findings of the four rules in order expiry, weak key, SAN, signature.
   */
  function AnalyzeCertificate(hostname: string, cert: Option<CertFields>, entry: (string, string) -> EntryMatch): (r: CertResult)
    ensures cert.None? ==> !r.present && r.summary.None? && r.findings == [CertFinding(UnableMessage, SevHigh)]
    ensures cert.Some? ==> r.present && r.summary == Some(Summarize(cert.value))
    ensures cert.Some? ==> r.findings == CertificateIssues(cert.value, hostname, entry)
  {
    match cert
    case None => Unretrieved
    case Some(c) => CertResult(true, Some(Summarize(c)), CertificateIssues(c, hostname, entry))
  }

  /** Every finding is high severity except the near-expiry one, which is medium; there are at most four. */
  lemma IssueSeverities(c: CertFields, hostname: string, entry: (string, string) -> EntryMatch)
    ensures |CertificateIssues(c, hostname, entry)| <= 4
    ensures forall f :: f in CertificateIssues(c, hostname, entry) ==>
              (f.severity == SevMedium <==> f.message == NearExpiryMessage)
  {
    var a := ExpiryIssues(DaysRemaining(c.microsToExpiry));
    var b := WeakKeyIssues(c.keyType, c.keySize);
    var s := SanIssues(c.san, hostname, entry);
    var g := SignatureIssues(SignatureName(c.signatureOid));
    assert CertificateIssues(c, hostname, entry) == a + b + s + g;
    if b != [] {
      assert WeakKeyMessage(c.keySize.value)[0] == 'R';
    }
    if g != [] {
      assert WeakSignatureMessage(SignatureName(c.signatureOid))[0] == 'W';
    }
    assert NearExpiryMessage[0] == 'C';
    assert NearExpiryMessage != ExpiredMessage;
    assert NearExpiryMessage != SanMismatchMessage;
  }

  /** A certificate with an empty SAN list is always reported as not matching. */
  lemma EmptySanMismatch(c: CertFields, hostname: string, entry: (string, string) -> EntryMatch)
    requires c.san == []
    ensures CertFinding(SanMismatchMessage, SevHigh) in CertificateIssues(c, hostname, entry)
  {
  }

  /** Expired one day ago: `days_remaining` is -1 and the expired finding is reported. */
  lemma ExpiredYesterday()
    ensures DaysRemaining(-MicrosPerDay) == -1
    ensures ExpiryIssues(DaysRemaining(-MicrosPerDay)) == [CertFinding(ExpiredMessage, SevHigh)]
  {
  }

  /** Expired one microsecond ago already counts as expired: the division rounds down. */
  lemma ExpiredJustNow()
    ensures DaysRemaining(-1) == -1
  {
  }

  /** Ten days left gives the near-expiry finding; thirty days left gives no expiry finding. */
  lemma ExpiryExamples()
    ensures ExpiryIssues(DaysRemaining(10 * MicrosPerDay)) == [CertFinding(NearExpiryMessage, SevMedium)]
    ensures ExpiryIssues(DaysRemaining(30 * MicrosPerDay)) == []
  {
  }

  /**
   * What the weak-signature rule judges: without an OID nothing is flagged
   * ("Unknown" is not weak); an OID with a name is judged by the name, one
   * without a name by its text form.
   */
  lemma SignatureRuleReadsName(oid: Option<SignatureOid>)
    ensures oid.None? ==> SignatureIssues(SignatureName(oid)) == []
    ensures oid.Some? && oid.value.name != "" ==>
              (SignatureIssues(SignatureName(oid)) != [] <==> IsWeakSignatureName(oid.value.name))
    ensures oid.Some? && oid.value.name == "" ==>
              (SignatureIssues(SignatureName(oid)) != [] <==> IsWeakSignatureName(oid.value.text))
  {
    if oid.None? {
      assert |Lower("Unknown")| == 7;
    }
  }

  /** OpenSSL-style composite names are not caught by the exact weak-signature comparison. */
  lemma CompositeSignatureNameNotFlagged()
    ensures SignatureIssues("sha1WithRSAEncryption") == []
    ensures SignatureIssues("SHA1") == [CertFinding(WeakSignatureMessage("SHA1"), SevHigh)]
  {
    assert Lower("SHA1") == "sha1";
  }
}
