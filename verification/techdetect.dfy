/**
 * Technology fingerprinting (backend/scanners/techdetect.py): substring
 * signature tables matched against response headers, `<meta>` attributes and
 * `<script src>` values, a favicon-hash lookup, and the case-insensitive
 * first-wins de-duplication of each source's findings. HTML parsing is
 * outside the model: a page arrives as its meta tags and script sources, and
 * the favicon as the hash value computed for it (if any).
 */
module TechDetect {
  import opened Wrappers
  import opened Strings
  import opened Dicts
  import opened Seqs

  datatype TechnologyFinding = TechnologyFinding(name: string, evidence: string, confidence: string)

  /** A `<meta>` tag; an absent attribute reads as "", as `meta.get(attr, "")` does. */
  datatype MetaTag = MetaTag(name: string, property: string, content: string)

  /** A fetched page: its raw text and what the parser finds in it. A script without `src` has src "". */
  datatype Page = Page(text: string, metas: seq<MetaTag>, scripts: seq<string>)

  /** `HEADER_SIGNATURES`: for each lower-case header name, (pattern, technology) pairs in order. */
  const HeaderSignatures: seq<(string, seq<(string, string)>)> := [
    ("server", [("cloudflare", "Cloudflare Edge"), ("nginx", "Nginx"), ("apache", "Apache HTTP Server"), ("iis", "Microsoft IIS")]),
    ("x-powered-by", [("php", "PHP"), ("express", "Express.js"), ("asp.net", "ASP.NET")]),
    ("set-cookie", [("wordpress", "WordPress"), ("laravel", "Laravel"), ("drupal", "Drupal")])
  ]

  const MetaSignatures: seq<(string, string)> := [
    ("wordpress", "WordPress"), ("drupal", "Drupal"), ("joomla", "Joomla!"),
    ("gatsby", "Gatsby"), ("next.js", "Next.js"), ("nuxt", "Nuxt.js")
  ]

  const ScriptSignatures: seq<(string, string)> := [
    ("wp-includes", "WordPress"), ("wp-content", "WordPress"), ("jquery", "jQuery"),
    ("react", "React"), ("angular", "AngularJS"), ("vue", "Vue.js")
  ]

  const FaviconSignatures: seq<(int, string)> := [
    (-247388890, "Apache Tomcat"), (-1372965829, "WordPress"), (-1520217781, "phpMyAdmin"),
    (116323821, "Django"), (968422740, "Nginx")
  ]

  /**
   * The signature tables the detectors consult. The detectors take them as a
   * parameter; `Builtin` holds the tables the scanner ships with.
   */
  datatype Signatures = Signatures(
    headers: seq<(string, seq<(string, string)>)>,
    meta: seq<(string, string)>,
    scripts: seq<(string, string)>,
    favicons: seq<(int, string)>)

  const Builtin: Signatures := Signatures(HeaderSignatures, MetaSignatures, ScriptSignatures, FaviconSignatures)

  // ---------------------------------------------------------------------
  // De-duplication

  function LowerNames(fs: seq<TechnologyFinding>): set<string> {
    set i | 0 <= i < |fs| :: Lower(fs[i].name)
  }

  /** No two findings share a name up to case. */
  predicate DistinctNames(fs: seq<TechnologyFinding>) {
    forall i, j :: 0 <= i < j < |fs| ==> Lower(fs[i].name) != Lower(fs[j].name)
  }

  /** `_add_finding`: append unless a finding of the same name up to case is already there. */
  function AddFinding(fs: seq<TechnologyFinding>, name: string, evidence: string, confidence: string): (r: seq<TechnologyFinding>)
    ensures Lower(name) in LowerNames(fs) ==> r == fs
    ensures Lower(name) !in LowerNames(fs) ==> r == fs + [TechnologyFinding(name, evidence, confidence)]
    ensures LowerNames(r) == LowerNames(fs) + {Lower(name)}
    ensures DistinctNames(fs) ==> DistinctNames(r)
  {
    if Lower(name) in LowerNames(fs) then fs
    else
      var r := fs + [TechnologyFinding(name, evidence, confidence)];
      assert LowerNames(r) == LowerNames(fs) + {Lower(name)} by {
        assert forall i :: 0 <= i < |fs| ==> r[i] == fs[i];
        assert r[|fs|].name == name;
        forall x | x in LowerNames(r)
          ensures x in LowerNames(fs) || x == Lower(name)
        {
          var i :| 0 <= i < |r| && x == Lower(r[i].name);
          if i < |fs| {
            assert x == Lower(fs[i].name);
          }
        }
      }
      r
  }

  /** Feeding `cands` in order through `_add_finding`, starting from no findings. */
  function Dedup(cands: seq<TechnologyFinding>): (r: seq<TechnologyFinding>)
    ensures DistinctNames(r)
    ensures LowerNames(r) == LowerNames(cands)
    ensures forall f :: f in r ==> f in cands
    ensures Subsequence(r, cands)
    decreases |cands|
  {
    if cands == [] then []
    else
      var before := cands[..|cands| - 1];
      var c := cands[|cands| - 1];
      assert cands == before + [c];
      assert LowerNames(cands) == LowerNames(before) + {Lower(c.name)} by {
        assert forall i :: 0 <= i < |before| ==> cands[i] == before[i];
      }
      assert forall f :: f in before ==> f in cands;
      var kept := Dedup(before);
      var r := AddFinding(kept, c.name, c.evidence, c.confidence);
      assert Subsequence(r, cands) by {
        assert TechnologyFinding(c.name, c.evidence, c.confidence) == c;
        if r == kept {
          SubsequenceExtend(kept, before, c);
        } else {
          SubsequenceAppendBoth(kept, before, c);
        }
      }
      r
  }

  /** `cands[i]` is the first candidate with its name, up to case. */
  predicate FirstOfItsName(cands: seq<TechnologyFinding>, i: int) {
    0 <= i < |cands| && forall j :: 0 <= j < i ==> Lower(cands[j].name) != Lower(cands[i].name)
  }

  /** Every element of `r` is the first candidate of its name. */
  ghost predicate KeepsFirstOccurrences(cands: seq<TechnologyFinding>, r: seq<TechnologyFinding>) {
    forall k :: 0 <= k < |r| ==> exists i :: FirstOfItsName(cands, i) && r[k] == cands[i]
  }

  /** Each kept finding is the first candidate of its name (up to case). */
  lemma {:induction false} FirstOccurrenceWins(cands: seq<TechnologyFinding>)
    ensures KeepsFirstOccurrences(cands, Dedup(cands))
    decreases |cands|
  {
    if cands != [] {
      var before := cands[..|cands| - 1];
      var c := cands[|cands| - 1];
      FirstOccurrenceWins(before);
      var prev := Dedup(before);
      var r := Dedup(cands);
      assert r == AddFinding(prev, c.name, c.evidence, c.confidence);
      forall k | 0 <= k < |r|
        ensures exists i :: FirstOfItsName(cands, i) && r[k] == cands[i]
      {
        if k < |prev| {
          assert r[k] == prev[k];
          var i :| FirstOfItsName(before, i) && prev[k] == before[i];
          assert cands[i] == before[i];
          assert forall j :: 0 <= j < i ==> cands[j] == before[j];
        } else {
          assert Lower(c.name) !in LowerNames(prev);
          assert r == prev + [TechnologyFinding(c.name, c.evidence, c.confidence)];
          assert r[k] == c;
          var i := |cands| - 1;
          forall j | 0 <= j < i
            ensures Lower(cands[j].name) != Lower(cands[i].name)
          {
            assert cands[j] == before[j];
            assert Lower(before[j].name) in LowerNames(before);
          }
          assert r[k] == cands[i];
          assert FirstOfItsName(cands, i);
        }
      }
      assert KeepsFirstOccurrences(cands, r);
    }
  }

  /** Two detections of "WordPress" and "wordpress" collapse into the first. */
  lemma DuplicateNamesCollapse(e1: string, e2: string)
    ensures Dedup([TechnologyFinding("WordPress", e1, "medium"), TechnologyFinding("wordpress", e2, "high")])
            == [TechnologyFinding("WordPress", e1, "medium")]
  {
    var a := TechnologyFinding("WordPress", e1, "medium");
    var b := TechnologyFinding("wordpress", e2, "high");
    assert [a, b][..1] == [a];
    assert [a][..0] == [];
    assert Lower("WordPress") == "wordpress" == Lower("wordpress");
    assert [a][0] == a;
    assert Lower(b.name) in LowerNames([a]);
    assert Dedup([a]) == [a];
  }

  // ---------------------------------------------------------------------
  // Candidate detections of one text against one signature table

  /** The signature pairs whose pattern is hit, as findings with the given evidence and confidence, in table order. */
  function Hits(sigs: seq<(string, string)>, hit: string -> bool, evidence: string, confidence: string): (r: seq<TechnologyFinding>)
    ensures forall f :: f in r <==> exists j :: 0 <= j < |sigs| && hit(sigs[j].0)
                                              && f == TechnologyFinding(sigs[j].1, evidence, confidence)
    decreases |sigs|
  {
    if sigs == [] then []
    else
      var rest := Hits(sigs[1..], hit, evidence, confidence);
      assert forall j :: 1 <= j < |sigs| ==> sigs[1..][j - 1] == sigs[j];
      (if hit(sigs[0].0) then [TechnologyFinding(sigs[0].1, evidence, confidence)] else []) + rest
  }

  // ---------------------------------------------------------------------
  // Headers

  /** The header value the detector examines: `lowered.get(header)`. */
  function HeaderValue(headers: Dict<string>, header: string): Option<string> {
    GetLowered(headers, header)
  }

  /** A finding the header table entry `entry` yields: a pattern found in the lower-cased, non-empty value. */
  predicate HeaderYields(entry: (string, seq<(string, string)>), headers: Dict<string>, f: TechnologyFinding) {
    var v := HeaderValue(headers, entry.0);
    && v.Some? && v.value != ""
    && exists j :: 0 <= j < |entry.1| && Contains(Lower(v.value), entry.1[j].0)
                   && f == TechnologyFinding(entry.1[j].1, entry.0 + ": " + v.value, "medium")
  }

  function HeaderCandidates(table: seq<(string, seq<(string, string)>)>, headers: Dict<string>): (r: seq<TechnologyFinding>)
    ensures forall f :: f in r <==> exists i :: 0 <= i < |table| && HeaderYields(table[i], headers, f)
    decreases |table|
  {
    if table == [] then []
    else
      var header := table[0].0;
      var v := HeaderValue(headers, header);
      var here :=
        if v.Some? && v.value != "" then
          var text := Lower(v.value);
          Hits(table[0].1, p => Contains(text, p), header + ": " + v.value, "medium")
        else [];
      var rest := HeaderCandidates(table[1..], headers);
      assert forall i :: 1 <= i < |table| ==> table[1..][i - 1] == table[i];
      assert forall f :: f in here <==> HeaderYields(table[0], headers, f);
      here + rest
  }

  /** `detect_from_headers`. */
  function DetectFromHeaders(table: seq<(string, seq<(string, string)>)>, headers: Dict<string>): (r: seq<TechnologyFinding>)
    ensures DistinctNames(r)
    ensures forall f :: f in r ==> f.confidence == "medium"
    ensures forall f :: f in r ==> exists i :: 0 <= i < |table| && HeaderYields(table[i], headers, f)
    ensures LowerNames(r) == LowerNames(HeaderCandidates(table, headers))
  {
    var cands := HeaderCandidates(table, headers);
    var r := Dedup(cands);
    assert forall f :: f in r ==> f in cands;
    r
  }

  // ---------------------------------------------------------------------
  // Meta tags

  /** The (attribute, lower-cased key) slots a meta tag is examined under, in order. */
  function MetaSlots(m: MetaTag): seq<(string, string)> {
    [("name", Lower(m.name)), ("property", Lower(m.property))]
  }

  predicate MetaYields(sigs: seq<(string, string)>, m: MetaTag, slot: (string, string), f: TechnologyFinding) {
    && m.content != ""
    && exists j :: 0 <= j < |sigs|
                   && (Contains(Lower(m.content), sigs[j].0) || Contains(slot.1, sigs[j].0))
                   && f == TechnologyFinding(sigs[j].1, "meta " + slot.0 + "=" + slot.1 + ": " + m.content, "high")
  }

  function SlotCandidates(sigs: seq<(string, string)>, m: MetaTag, slot: (string, string)): (r: seq<TechnologyFinding>)
    ensures forall f :: f in r <==> MetaYields(sigs, m, slot, f)
  {
    if m.content == "" then []
    else
      var text := Lower(m.content);
      var key := slot.1;
      Hits(sigs, p => Contains(text, p) || Contains(key, p),
           "meta " + slot.0 + "=" + key + ": " + m.content, "high")
  }

  function MetaCandidates(sigs: seq<(string, string)>, metas: seq<MetaTag>): (r: seq<TechnologyFinding>)
    ensures forall f :: f in r <==> exists i, s :: 0 <= i < |metas| && 0 <= s < 2 && MetaYields(sigs, metas[i], MetaSlots(metas[i])[s], f)
    decreases |metas|
  {
    if metas == [] then []
    else
      var m := metas[0];
      var here := SlotCandidates(sigs, m, MetaSlots(m)[0]) + SlotCandidates(sigs, m, MetaSlots(m)[1]);
      var rest := MetaCandidates(sigs, metas[1..]);
      assert forall i :: 1 <= i < |metas| ==> metas[1..][i - 1] == metas[i];
      here + rest
  }

  /** `detect_from_meta`. */
  function DetectFromMeta(sigs: seq<(string, string)>, metas: seq<MetaTag>): (r: seq<TechnologyFinding>)
    ensures DistinctNames(r)
    ensures forall f :: f in r ==> f.confidence == "high"
    ensures forall f :: f in r ==> exists i, s :: 0 <= i < |metas| && 0 <= s < 2 && MetaYields(sigs, metas[i], MetaSlots(metas[i])[s], f)
    ensures LowerNames(r) == LowerNames(MetaCandidates(sigs, metas))
  {
    var cands := MetaCandidates(sigs, metas);
    var r := Dedup(cands);
    assert forall f :: f in r ==> f in cands;
    r
  }

  // ---------------------------------------------------------------------
  // Script sources

  predicate ScriptYields(sigs: seq<(string, string)>, src: string, f: TechnologyFinding) {
    && src != ""
    && exists j :: 0 <= j < |sigs| && Contains(Lower(src), sigs[j].0)
                   && f == TechnologyFinding(sigs[j].1, "script src=" + src, "medium")
  }

  function ScriptCandidates(sigs: seq<(string, string)>, srcs: seq<string>): (r: seq<TechnologyFinding>)
    ensures forall f :: f in r <==> exists i :: 0 <= i < |srcs| && ScriptYields(sigs, srcs[i], f)
    decreases |srcs|
  {
    if srcs == [] then []
    else
      var src := srcs[0];
      var here :=
        if src == "" then []
        else
          var text := Lower(src);
          Hits(sigs, p => Contains(text, p), "script src=" + src, "medium");
      var rest := ScriptCandidates(sigs, srcs[1..]);
      assert forall i :: 1 <= i < |srcs| ==> srcs[1..][i - 1] == srcs[i];
      here + rest
  }

  /** `detect_from_scripts`. */
  function DetectFromScripts(sigs: seq<(string, string)>, srcs: seq<string>): (r: seq<TechnologyFinding>)
    ensures DistinctNames(r)
    ensures forall f :: f in r ==> f.confidence == "medium"
    ensures forall f :: f in r ==> exists i :: 0 <= i < |srcs| && ScriptYields(sigs, srcs[i], f)
    ensures LowerNames(r) == LowerNames(ScriptCandidates(sigs, srcs))
  {
    var cands := ScriptCandidates(sigs, srcs);
    var r := Dedup(cands);
    assert forall f :: f in r ==> f in cands;
    r
  }

  // ---------------------------------------------------------------------
  // Favicon and the whole detector

  function FaviconLookup(table: seq<(int, string)>, hash: int): (r: Option<string>)
    ensures r.Some? <==> exists i :: 0 <= i < |table| && table[i].0 == hash
    ensures r.Some? ==> exists i :: 0 <= i < |table| && table[i] == (hash, r.value)
                                    && forall j :: 0 <= j < i ==> table[j].0 != hash
    decreases |table|
  {
    if table == [] then None
    else if table[0].0 == hash then Some(table[0].1)
    else
      assert forall i :: 1 <= i < |table| ==> table[1..][i - 1] == table[i];
      FaviconLookup(table[1..], hash)
  }

  /** `detect_from_favicon`, given the hash of the downloaded icon (none when download or hashing failed). */
  function DetectFromFavicon(table: seq<(int, string)>, hash: Option<int>): (r: seq<TechnologyFinding>)
    ensures |r| <= 1
    ensures r != [] <==> hash.Some? && exists i :: 0 <= i < |table| && table[i].0 == hash.value && table[i].1 != ""
                                                   && forall j :: 0 <= j < i ==> table[j].0 != hash.value
    ensures r != [] ==> r[0].confidence == "low" && r[0].evidence == "favicon hash " + IntToDecimal(hash.value)
    ensures r != [] ==> (hash.value, r[0].name) in table
  {
    match hash
    case None => []
    case Some(h) =>
      match FaviconLookup(table, h)
      case None => []
      case Some(tech) =>
        if tech == "" then [] else [TechnologyFinding(tech, "favicon hash " + IntToDecimal(h), "low")]
  }

  /**
   * `detect_technologies`: header findings, then (only when a non-empty page
   * was fetched) meta, script and favicon findings, concatenated without
   * de-duplication across sources.
   */
  function DetectTechnologies(t: Signatures, headers: Dict<string>, page: Option<Page>, faviconHash: Option<int>): (r: seq<TechnologyFinding>)
    ensures page.None? || page.value.text == "" ==> r == DetectFromHeaders(t.headers, headers)
    ensures page.Some? && page.value.text != "" ==>
              r == DetectFromHeaders(t.headers, headers) + DetectFromMeta(t.meta, page.value.metas)
                   + DetectFromScripts(t.scripts, page.value.scripts) + DetectFromFavicon(t.favicons, faviconHash)
    ensures var n := |DetectFromHeaders(t.headers, headers)|; n <= |r| && r[..n] == DetectFromHeaders(t.headers, headers)
  {
    var fromHeaders := DetectFromHeaders(t.headers, headers);
    match page
    case None => fromHeaders
    case Some(p) =>
      if p.text == "" then fromHeaders
      else fromHeaders + DetectFromMeta(t.meta, p.metas) + DetectFromScripts(t.scripts, p.scripts) + DetectFromFavicon(t.favicons, faviconHash)
  }

  /** Positional confidences of four concatenated segments, each uniform in its label. */
  lemma SegmentConfidences(a: seq<TechnologyFinding>, b: seq<TechnologyFinding>, c: seq<TechnologyFinding>, d: seq<TechnologyFinding>)
    requires forall f :: f in a ==> f.confidence == "medium"
    requires forall f :: f in b ==> f.confidence == "high"
    requires forall f :: f in c ==> f.confidence == "medium"
    requires |d| <= 1 && forall f :: f in d ==> f.confidence == "low"
    ensures var r := a + b + c + d;
            var m := |a| + |b|;
            var s := m + |c|;
            s <= |r| <= s + 1
            && (forall k :: 0 <= k < |a| ==> r[k].confidence == "medium")
            && (forall k :: |a| <= k < m ==> r[k].confidence == "high")
            && (forall k :: m <= k < s ==> r[k].confidence == "medium")
            && (forall k :: s <= k < |r| ==> r[k].confidence == "low")
  {
    var r := a + b + c + d;
    var m := |a| + |b|;
    var s := m + |c|;
    forall k | 0 <= k < |a|
      ensures r[k].confidence == "medium"
    {
      assert r[k] == a[k];
    }
    forall k | |a| <= k < m
      ensures r[k].confidence == "high"
    {
      assert r[k] == b[k - |a|];
    }
    forall k | m <= k < s
      ensures r[k].confidence == "medium"
    {
      assert r[k] == c[k - m];
    }
    forall k | s <= k < |r|
      ensures r[k].confidence == "low"
    {
      assert r[k] == d[k - s];
    }
  }

  /**
   * Confidence by position: the header findings come first and are "medium";
   * with a page body they are followed by the "high" meta findings, the
   * "medium" script findings and at most one "low" favicon finding.
   */
  lemma ConfidenceLabels(t: Signatures, headers: Dict<string>, page: Option<Page>, faviconHash: Option<int>)
    ensures var r := DetectTechnologies(t, headers, page, faviconHash);
            var h := |DetectFromHeaders(t.headers, headers)|;
            h <= |r| && forall k :: 0 <= k < h ==> r[k].confidence == "medium"
    ensures page.Some? && page.value.text != "" ==>
              var r := DetectTechnologies(t, headers, page, faviconHash);
              var h := |DetectFromHeaders(t.headers, headers)|;
              var m := h + |DetectFromMeta(t.meta, page.value.metas)|;
              var s := m + |DetectFromScripts(t.scripts, page.value.scripts)|;
              s <= |r| <= s + 1
              && (forall k :: h <= k < m ==> r[k].confidence == "high")
              && (forall k :: m <= k < s ==> r[k].confidence == "medium")
              && (forall k :: s <= k < |r| ==> r[k].confidence == "low")
  {
    var fromHeaders := DetectFromHeaders(t.headers, headers);
    if page.Some? && page.value.text != "" {
      SegmentConfidences(fromHeaders, DetectFromMeta(t.meta, page.value.metas),
                         DetectFromScripts(t.scripts, page.value.scripts), DetectFromFavicon(t.favicons, faviconHash));
    } else {
      assert DetectTechnologies(t, headers, page, faviconHash) == fromHeaders;
    }
  }

  /** A finding of `a` and a same-named finding of `b` both survive in `a + b + c + d`, in that order. */
  lemma RepeatAcrossSegments(a: seq<TechnologyFinding>, b: seq<TechnologyFinding>, c: seq<TechnologyFinding>,
                             d: seq<TechnologyFinding>, f1: TechnologyFinding, f2: TechnologyFinding)
    requires f1 in a && f2 in b && Lower(f1.name) == Lower(f2.name)
    ensures var r := a + b + c + d;
            (exists i, j :: 0 <= i < j < |r| && r[i] == f1 && r[j] == f2) && !DistinctNames(r)
  {
    var r := a + b + c + d;
    var i :| 0 <= i < |a| && a[i] == f1;
    var j :| 0 <= j < |b| && b[j] == f2;
    var k := |a| + j;
    assert r[i] == f1 && r[k] == f2;
    assert i < k && Lower(r[i].name) == Lower(r[k].name);
  }

  /**
   * De-duplication is per source: a technology reported by a header and
   * again by a meta tag appears twice in the combined list, header first.
   */
  lemma CrossSourceDuplicatesKept(t: Signatures, headers: Dict<string>, p: Page, faviconHash: Option<int>,
                                  f1: TechnologyFinding, f2: TechnologyFinding)
    requires p.text != ""
    requires f1 in DetectFromHeaders(t.headers, headers)
    requires f2 in DetectFromMeta(t.meta, p.metas)
    requires Lower(f1.name) == Lower(f2.name)
    ensures var r := DetectTechnologies(t, headers, Some(p), faviconHash);
            (exists i, j :: 0 <= i < j < |r| && r[i] == f1 && r[j] == f2) && !DistinctNames(r)
  {
    RepeatAcrossSegments(DetectFromHeaders(t.headers, headers), DetectFromMeta(t.meta, p.metas),
                         DetectFromScripts(t.scripts, p.scripts), DetectFromFavicon(t.favicons, faviconHash), f1, f2);
  }

  lemma CandidateListed(table: seq<(string, seq<(string, string)>)>, headers: Dict<string>, i: nat, j: nat)
    requires i < |table| && j < |table[i].1|
    requires var v := HeaderValue(headers, table[i].0);
             v.Some? && v.value != "" && Contains(Lower(v.value), table[i].1[j].0)
    ensures Lower(table[i].1[j].1) in LowerNames(HeaderCandidates(table, headers))
  {
    var entry := table[i];
    var v := HeaderValue(headers, entry.0).value;
    var f := TechnologyFinding(entry.1[j].1, entry.0 + ": " + v, "medium");
    assert HeaderYields(entry, headers, f);
    var cands := HeaderCandidates(table, headers);
    assert f in cands;
    var k :| 0 <= k < |cands| && cands[k] == f;
    assert Lower(f.name) in LowerNames(cands);
  }

  /** A header signature that matches is reported (under the spelling of its first detection). */
  lemma HeaderSignatureReported(table: seq<(string, seq<(string, string)>)>, headers: Dict<string>, i: nat, j: nat)
    requires i < |table| && j < |table[i].1|
    requires var v := HeaderValue(headers, table[i].0);
             v.Some? && v.value != "" && Contains(Lower(v.value), table[i].1[j].0)
    ensures Lower(table[i].1[j].1) in LowerNames(DetectFromHeaders(table, headers))
  {
    CandidateListed(table, headers, i, j);
  }

  /** Header detection sees header names only through their lower-cased form. */
  lemma {:induction false} HeaderCaseIgnored(table: seq<(string, seq<(string, string)>)>, h1: Dict<string>, h2: Dict<string>)
    requires forall i :: 0 <= i < |table| ==> HeaderValue(h1, table[i].0) == HeaderValue(h2, table[i].0)
    ensures HeaderCandidates(table, h1) == HeaderCandidates(table, h2)
    decreases |table|
  {
    if table != [] {
      assert forall i :: 1 <= i < |table| ==> table[1..][i - 1] == table[i];
      HeaderCaseIgnored(table[1..], h1, h2);
      assert HeaderValue(h1, table[0].0) == HeaderValue(h2, table[0].0);
    }
  }

  /** Renaming headers by case changes nothing the header detector reports. */
  lemma HeaderDetectionIgnoresCase(table: seq<(string, seq<(string, string)>)>, h1: Dict<string>, h2: Dict<string>)
    requires |h1| == |h2|
    requires forall i :: 0 <= i < |h1| ==> Lower(h1[i].0) == Lower(h2[i].0) && h1[i].1 == h2[i].1
    ensures DetectFromHeaders(table, h1) == DetectFromHeaders(table, h2)
  {
    forall lk | true
      ensures GetLowered(h1, lk) == GetLowered(h2, lk)
    {
      SameLoweredValues(h1, h2, lk);
    }
    HeaderCaseIgnored(table, h1, h2);
  }

  lemma {:induction false} SameLoweredValues(h1: Dict<string>, h2: Dict<string>, lk: string)
    requires |h1| == |h2|
    requires forall i :: 0 <= i < |h1| ==> Lower(h1[i].0) == Lower(h2[i].0) && h1[i].1 == h2[i].1
    ensures GetLowered(h1, lk) == GetLowered(h2, lk)
    decreases |h1|
  {
    if h1 != [] {
      SameLoweredValues(h1[..|h1| - 1], h2[..|h2| - 1], lk);
    }
  }

  lemma ScriptCandidateListed(sigs: seq<(string, string)>, srcs: seq<string>, i: nat, j: nat)
    requires i < |srcs| && j < |sigs|
    requires srcs[i] != "" && Contains(Lower(srcs[i]), sigs[j].0)
    ensures Lower(sigs[j].1) in LowerNames(ScriptCandidates(sigs, srcs))
  {
    var f := TechnologyFinding(sigs[j].1, "script src=" + srcs[i], "medium");
    assert ScriptYields(sigs, srcs[i], f);
    var cands := ScriptCandidates(sigs, srcs);
    assert f in cands;
    var k :| 0 <= k < |cands| && cands[k] == f;
    assert Lower(f.name) in LowerNames(cands);
  }

  /** A script signature found in a non-empty `src` is reported. */
  lemma ScriptSignatureReported(sigs: seq<(string, string)>, srcs: seq<string>, i: nat, j: nat)
    requires i < |srcs| && j < |sigs|
    requires srcs[i] != "" && Contains(Lower(srcs[i]), sigs[j].0)
    ensures Lower(sigs[j].1) in LowerNames(DetectFromScripts(sigs, srcs))
  {
    ScriptCandidateListed(sigs, srcs, i, j);
  }

  /** A meta signature found in the non-empty content, or in the name/property key, is reported. */
  lemma MetaSignatureReported(sigs: seq<(string, string)>, metas: seq<MetaTag>, i: nat, s: nat, j: nat)
    requires i < |metas| && s < 2 && j < |sigs|
    requires metas[i].content != ""
    requires Contains(Lower(metas[i].content), sigs[j].0) || Contains(MetaSlots(metas[i])[s].1, sigs[j].0)
    ensures Lower(sigs[j].1) in LowerNames(DetectFromMeta(sigs, metas))
  {
    var slot := MetaSlots(metas[i])[s];
    var f := TechnologyFinding(sigs[j].1, "meta " + slot.0 + "=" + slot.1 + ": " + metas[i].content, "high");
    assert MetaYields(sigs, metas[i], slot, f);
    var cands := MetaCandidates(sigs, metas);
    assert f in cands;
    var k :| 0 <= k < |cands| && cands[k] == f;
    assert Lower(f.name) in LowerNames(cands);
  }
}
