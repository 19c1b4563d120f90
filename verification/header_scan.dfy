/**
 * Security-header reconnaissance (`scan_domain` in backend/scanners/headers.py):
 * the first probe that gets a response decides the result, and its headers
 * are split into the watched headers that are present and those that are
 * missing. Fetching is outside the model: each probe's outcome is given.
 */
module HeaderScan {
  import opened Wrappers
  import opened Strings
  import opened Seqs
  import opened Dicts

  /** `IMPORTANT_HEADERS`, in watchlist order. */
  const ImportantHeaders: seq<string> := [
    "Content-Security-Policy",
    "X-Frame-Options",
    "X-Content-Type-Options",
    "Strict-Transport-Security",
    "Referrer-Policy",
    "Permissions-Policy"
  ]

  /** `DEFAULT_PROBES`, tried in this order. */
  const DefaultProbes: seq<string> := ["/", "/index.html"]

  datatype ProbeResponse = ProbeResponse(status: int, headers: Dict<string>)

  datatype HeaderReport = HeaderReport(
    headers: Dict<string>,
    present: seq<string>,
    missing: seq<string>,
    status: Option<int>)

  /** The result when no probe got a response. */
  const Unprobed: HeaderReport := HeaderReport([], [], [], None)

  /** `header in headers or header.lower() in lowered`. */
  predicate IsPresent(name: string, headers: Dict<string>) {
    HasKey(headers, name) || Lower(name) in LoweredKeys(headers)
  }

  /** Presence ignores case: a watched header is present iff some key equals it up to case. */
  lemma PresenceIgnoresCase(name: string, headers: Dict<string>)
    ensures IsPresent(name, headers) <==> exists i :: 0 <= i < |headers| && Lower(headers[i].0) == Lower(name)
  {
    if HasKey(headers, name) {
      var i :| 0 <= i < |headers| && headers[i].0 == name;
      assert Lower(headers[i].0) == Lower(name);
    }
  }

  /**
   * The present/missing split of a watchlist: every watched header lands in
   * exactly one of the two lists, each list keeps watchlist order, and
   * nothing else appears.
   */
  function Partition(watch: seq<string>, headers: Dict<string>): (r: (seq<string>, seq<string>))
    ensures |r.0| + |r.1| == |watch|
    ensures forall h :: h in watch ==> (h in r.0 <==> IsPresent(h, headers)) && (h in r.1 <==> !IsPresent(h, headers))
    ensures forall h :: h in r.0 || h in r.1 ==> h in watch
    ensures Subsequence(r.0, watch) && Subsequence(r.1, watch)
    decreases |watch|
  {
    if watch == [] then ([], [])
    else
      var rest := Partition(watch[1..], headers);
      var h := watch[0];
      assert watch == [h] + watch[1..];
      if IsPresent(h, headers) then
        SubsequenceKeep(h, rest.0, watch[1..]);
        SubsequenceDrop(h, rest.1, watch[1..]);
        ([h] + rest.0, rest.1)
      else
        SubsequenceDrop(h, rest.0, watch[1..]);
        SubsequenceKeep(h, rest.1, watch[1..]);
        (rest.0, [h] + rest.1)
  }

  /**
   * The result built from the first response, for the watchlist `watch` (the
   * scanner uses `ImportantHeaders`): the response's headers and status, and
   * every watched header listed as present or as missing according to that
   * response, in watchlist order.
   */
  function FromResponse(watch: seq<string>, p: ProbeResponse): (r: HeaderReport)
    ensures r.headers == p.headers && r.status == Some(p.status)
    ensures forall h :: h in watch ==> (h in r.present <==> IsPresent(h, p.headers)) && (h in r.missing <==> !IsPresent(h, p.headers))
    ensures forall h :: h in r.present || h in r.missing ==> h in watch
    ensures Subsequence(r.present, watch) && Subsequence(r.missing, watch)
  {
    var parts := Partition(watch, p.headers);
    HeaderReport(p.headers, parts.0, parts.1, Some(p.status))
  }

  /** The probe loop: the first response wins and later probes are never looked at. */
  function ScanProbes(watch: seq<string>, outcomes: seq<Option<ProbeResponse>>): (r: HeaderReport)
    ensures (forall i :: 0 <= i < |outcomes| ==> outcomes[i].None?) ==> r == Unprobed
    ensures forall k :: 0 <= k < |outcomes| && outcomes[k].Some? && (forall j :: 0 <= j < k ==> outcomes[j].None?) ==>
              r == FromResponse(watch, outcomes[k].value)
    decreases |outcomes|
  {
    if outcomes == [] then Unprobed
    else
      match outcomes[0]
      case Some(p) => FromResponse(watch, p)
      case None =>
        assert forall i :: 1 <= i < |outcomes| ==> outcomes[1..][i - 1] == outcomes[i];
        ScanProbes(watch, outcomes[1..])
  }

  /** `scan_domain`, with `fetch` giving the outcome of each probe path. */
  function ScanDomain(watch: seq<string>, fetch: string -> Option<ProbeResponse>): (r: HeaderReport)
    ensures fetch("/").Some? ==> r == FromResponse(watch, fetch("/").value)
    ensures fetch("/").None? && fetch("/index.html").Some? ==> r == FromResponse(watch, fetch("/index.html").value)
    ensures fetch("/").None? && fetch("/index.html").None? ==> r == Unprobed
  {
    var outcomes := seq(|DefaultProbes|, i requires 0 <= i < |DefaultProbes| => fetch(DefaultProbes[i]));
    assert outcomes == [fetch("/"), fetch("/index.html")];
    var r := ScanProbes(watch, outcomes);
    assert outcomes[0].Some? ==> r == FromResponse(watch, outcomes[0].value);
    assert outcomes[0].None? && outcomes[1].Some? ==> r == FromResponse(watch, outcomes[1].value);
    r
  }

  /** With a response, every watched header is classified; without one, both lists stay empty. */
  lemma ReportClassifiesWatchlist(watch: seq<string>, outcomes: seq<Option<ProbeResponse>>)
    ensures var r := ScanProbes(watch, outcomes);
            r.status.Some? ==> forall h :: h in watch ==> (h in r.present <==> h !in r.missing)
    ensures var r := ScanProbes(watch, outcomes);
            r.status.None? ==> r.present == [] && r.missing == [] && r.headers == []
  {
    var r := ScanProbes(watch, outcomes);
    if exists i :: 0 <= i < |outcomes| && outcomes[i].Some? {
      var k := FirstResponse(outcomes);
      assert r == FromResponse(watch, outcomes[k].value);
    }
  }

  /** The index of the first probe that got a response. */
  ghost function FirstResponse(outcomes: seq<Option<ProbeResponse>>): (k: nat)
    requires exists i :: 0 <= i < |outcomes| && outcomes[i].Some?
    ensures k < |outcomes| && outcomes[k].Some?
    ensures forall j :: 0 <= j < k ==> outcomes[j].None?
    decreases |outcomes|
  {
    if outcomes[0].Some? then 0
    else
      var i :| 0 <= i < |outcomes| && outcomes[i].Some?;
      assert outcomes[1..][i - 1] == outcomes[i];
      1 + FirstResponse(outcomes[1..])
  }
}
