/**
 * The aggregate risk verdict of a scan (`compute_risk` in backend/main.py).
 *
 * The verdict is one deterministic pass over the header records, then the
 * certificate findings, then the exposure findings. Each record may raise the
 * ordinal level (low < medium < high) and may append one reason string. The
 * records arrive as loosely-typed dictionaries, so their labels are optional
 * strings compared after `(label or "").lower()`.
 */
module RiskEngine {
  import opened Wrappers
  import opened Strings

  datatype Level = Low | Medium | High

  function Rank(l: Level): nat {
    match l
    case Low => 0
    case Medium => 1
    case High => 2
  }

  predicate AtMost(a: Level, b: Level) {
    Rank(a) <= Rank(b)
  }

  /** The higher of two levels. */
  function Max(a: Level, b: Level): (r: Level)
    ensures AtMost(a, r) && AtMost(b, r)
    ensures r == a || r == b
  {
    if Rank(a) >= Rank(b) then a else b
  }

  /** `level.title()` of the lower-case level name. */
  function Title(l: Level): string {
    match l
    case Low => "Low"
    case Medium => "Medium"
    case High => "High"
  }

  lemma TitleInjective(a: Level, b: Level)
    ensures Title(a) == Title(b) <==> a == b
  {
  }

  const NoIssues: string := "No significant issues detected"

  /** One entry of the header audit: the header name and its status label. */
  datatype HeaderRecord = HeaderRecord(header: string, status: Option<string>)

  /** One certificate finding; a missing `message` key reads as "". */
  datatype SslRecord = SslRecord(message: string, severity: Option<string>)

  /** One exposure finding; each of its keys may be absent. */
  datatype ExposureRecord = ExposureRecord(path: Option<string>, risk: Option<string>, detail: Option<string>)

  /** The records of the three loops, in the order the pass visits them. */
  datatype Signal =
    | HeaderSignal(h: HeaderRecord)
    | SslSignal(f: SslRecord)
    | ExposureSignal(e: ExposureRecord)

  /** The state carried through the pass. */
  datatype Pass = Pass(level: Level, reasons: seq<string>)

  /** The returned dictionary `{"level": ..., "reasons": ...}`. */
  datatype Verdict = Verdict(level: string, reasons: seq<string>)

  const Start: Pass := Pass(Low, [])

  /** `(label or "").lower()`. */
  function Label(o: Option<string>): string {
    Lower(o.GetOr(""))
  }

  predicate IsMissing(h: HeaderRecord) {
    Label(h.status) == "missing"
  }

  /** The audit's own "missing" status counts as missing. */
  lemma MissingStatus(h: HeaderRecord)
    requires h.status == Some("missing")
    ensures IsMissing(h)
  {
    assert Lower("missing") == "missing";
  }

  predicate NeedsReview(h: HeaderRecord) {
    Label(h.status) == "needs_review"
  }

  /** The level a severity or risk label calls for: an absent or unknown label calls for nothing. */
  function SeverityLevel(o: Option<string>): (r: Level)
    ensures r == High <==> Label(o) == "high"
    ensures r == Medium <==> Label(o) == "medium"
    ensures o.None? ==> r == Low
  {
    if Label(o) == "high" then High else if Label(o) == "medium" then Medium else Low
  }

  /** Labels are compared after lower-casing, so the case of a label never matters. */
  lemma SeverityIgnoresCase(s: string)
    ensures SeverityLevel(Some(s)) == SeverityLevel(Some(Lower(s)))
  {
    LowerIdempotent(s);
  }

  /**
   * The level a record calls for on its own: a missing header High, a header
   * needing review Medium, a certificate finding or exposure its label's level.
   */
  function Weight(sig: Signal): (r: Level)
    ensures sig.HeaderSignal? ==> (r == High <==> IsMissing(sig.h)) && (r == Medium <==> NeedsReview(sig.h))
    ensures sig.SslSignal? ==> (r == High <==> Label(sig.f.severity) == "high") && (r == Medium <==> Label(sig.f.severity) == "medium")
    ensures sig.ExposureSignal? ==> (r == High <==> Label(sig.e.risk) == "high") && (r == Medium <==> Label(sig.e.risk) == "medium")
  {
    match sig
    case HeaderSignal(h) => if IsMissing(h) then High else if NeedsReview(h) then Medium else Low
    case SslSignal(f) => SeverityLevel(f.severity)
    case ExposureSignal(e) => SeverityLevel(e.risk)
  }

  /** `exposure.get("detail", exposure.get("path", ""))`. */
  function ExposureText(e: ExposureRecord): string {
    match e.detail
    case Some(d) => d
    case None => e.path.GetOr("")
  }

  const MissingPrefix: string := "Missing security header: "
  const ReviewPrefix: string := "Header needs review: "
  const SslPrefix: string := "SSL: "
  const ExposurePrefix: string := "Exposure: "

  /**
   * One iteration of one of the three loops. Whatever the record, the level
   * becomes the higher of the current level and the record's weight, and at
   * most one reason is appended.
   */
  function Step(st: Pass, sig: Signal): (r: Pass)
    ensures r.level == Max(st.level, Weight(sig))
    ensures |st.reasons| <= |r.reasons| <= |st.reasons| + 1
    ensures r.reasons[..|st.reasons|] == st.reasons
  {
    match sig
    case HeaderSignal(h) =>
      if IsMissing(h) then Pass(High, st.reasons + [MissingPrefix + h.header])
      else if NeedsReview(h) && st.level != High then Pass(Medium, st.reasons + [ReviewPrefix + h.header])
      else st
    case SslSignal(f) =>
      var severity := Label(f.severity);
      var level :=
        if severity == "high" then High
        else if severity == "medium" && st.level == Low then Medium
        else st.level;
      Pass(level, if f.message != "" then st.reasons + [SslPrefix + f.message] else st.reasons)
    case ExposureSignal(e) =>
      var risk := Label(e.risk);
      var detail := ExposureText(e);
      var level :=
        if risk == "high" then High
        else if risk == "medium" && st.level == Low then Medium
        else st.level;
      Pass(level, if detail != "" then st.reasons + [ExposurePrefix + detail] else st.reasons)
  }

  /** Runs the pass over a sequence of records: the level never drops and reasons are only appended. */
  function Run(st: Pass, sigs: seq<Signal>): (r: Pass)
    ensures AtMost(st.level, r.level)
    ensures |st.reasons| <= |r.reasons| && r.reasons[..|st.reasons|] == st.reasons
    decreases |sigs|
  {
    if sigs == [] then st else Run(Step(st, sigs[0]), sigs[1..])
  }

  function HeaderSignals(hs: seq<HeaderRecord>): seq<Signal> {
    seq(|hs|, i requires 0 <= i < |hs| => HeaderSignal(hs[i]))
  }

  function SslSignals(ss: seq<SslRecord>): seq<Signal> {
    seq(|ss|, i requires 0 <= i < |ss| => SslSignal(ss[i]))
  }

  function ExposureSignals(es: seq<ExposureRecord>): seq<Signal> {
    seq(|es|, i requires 0 <= i < |es| => ExposureSignal(es[i]))
  }

  /** All records in the order the three loops visit them. */
  function Signals(hs: seq<HeaderRecord>, ss: seq<SslRecord>, es: seq<ExposureRecord>): seq<Signal> {
    HeaderSignals(hs) + SslSignals(ss) + ExposureSignals(es)
  }

  /** The state after the three loops. */
  function PassOf(hs: seq<HeaderRecord>, ss: seq<SslRecord>, es: seq<ExposureRecord>): Pass {
    Run(Start, Signals(hs, ss, es))
  }

  /** `compute_risk`: the verdict always carries at least one reason. */
  function ComputeRisk(hs: seq<HeaderRecord>, ss: seq<SslRecord>, es: seq<ExposureRecord>): (v: Verdict)
    ensures v.reasons != []
    ensures v.level in {"Low", "Medium", "High"}
  {
    var p := PassOf(hs, ss, es);
    Verdict(Title(p.level), if p.reasons == [] then [NoIssues] else p.reasons)
  }
}
