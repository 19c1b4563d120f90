/**
 * What the risk pass of `compute_risk` guarantees, stated against reference
 * definitions that do not mention the pass: the final level is the highest
 * weight of any record, the level never drops, and the reasons are the header
 * reasons, then the certificate reasons, then the exposure reasons.
 */
module RiskProperties {
  import opened Wrappers
  import opened Strings
  import opened RiskEngine

  // ---------------------------------------------------------------------
  // Structure of the pass

  lemma {:induction false} RunAppend(st: Pass, a: seq<Signal>, b: seq<Signal>)
    ensures Run(st, a + b) == Run(Run(st, a), b)
    decreases |a|
  {
    if a == [] {
      assert a + b == b;
    } else {
      assert (a + b)[0] == a[0];
      assert (a + b)[1..] == a[1..] + b;
      RunAppend(Step(st, a[0]), a[1..], b);
    }
  }

  lemma RunSingle(st: Pass, x: Signal)
    ensures Run(st, [x]) == Step(st, x)
  {
    assert [x][1..] == [];
  }

  /** The level after any prefix of the records is at most the final level, and its reasons are a prefix of the final reasons. */
  lemma {:induction false} LevelNeverLowered(sigs: seq<Signal>, k: nat)
    requires k <= |sigs|
    ensures AtMost(Run(Start, sigs[..k]).level, Run(Start, sigs).level)
    ensures var early := Run(Start, sigs[..k]).reasons;
            |early| <= |Run(Start, sigs).reasons| && Run(Start, sigs).reasons[..|early|] == early
  {
    assert sigs == sigs[..k] + sigs[k..];
    RunAppend(Start, sigs[..k], sigs[k..]);
  }

  /** One more record at the end lifts the final level to at least that record's weight and never lowers it. */
  lemma AppendRecord(sigs: seq<Signal>, x: Signal)
    ensures Run(Start, sigs + [x]).level == Max(Run(Start, sigs).level, Weight(x))
  {
    RunAppend(Start, sigs, [x]);
    RunSingle(Run(Start, sigs), x);
  }

  // ---------------------------------------------------------------------
  // The final level

  /** The highest weight among the records; `Low` when there are none. */
  function MaxWeight(sigs: seq<Signal>): (r: Level)
    ensures forall i :: 0 <= i < |sigs| ==> AtMost(Weight(sigs[i]), r)
    ensures r == Low || exists i :: 0 <= i < |sigs| && Weight(sigs[i]) == r
    decreases |sigs|
  {
    if sigs == [] then Low else Max(Weight(sigs[0]), MaxWeight(sigs[1..]))
  }

  lemma {:induction false} LevelIsMaxWeight(st: Pass, sigs: seq<Signal>)
    ensures Run(st, sigs).level == Max(st.level, MaxWeight(sigs))
    decreases |sigs|
  {
    if sigs != [] {
      LevelIsMaxWeight(Step(st, sigs[0]), sigs[1..]);
    }
  }

  /** The verdict's level is the title-cased highest weight among all records. */
  lemma FinalLevel(hs: seq<HeaderRecord>, ss: seq<SslRecord>, es: seq<ExposureRecord>)
    ensures PassOf(hs, ss, es).level == MaxWeight(Signals(hs, ss, es))
    ensures ComputeRisk(hs, ss, es).level == Title(MaxWeight(Signals(hs, ss, es)))
    ensures ComputeRisk(hs, ss, es).level == "High" <==>
              exists i :: 0 <= i < |Signals(hs, ss, es)| && Weight(Signals(hs, ss, es)[i]) == High
    ensures ComputeRisk(hs, ss, es).level == "Low" <==>
              forall i :: 0 <= i < |Signals(hs, ss, es)| ==> Weight(Signals(hs, ss, es)[i]) == Low
  {
    LevelIsMaxWeight(Start, Signals(hs, ss, es));
  }

  /** A missing header forces the level to High and is always reported. */
  lemma MissingHeaderForcesHigh(hs: seq<HeaderRecord>, ss: seq<SslRecord>, es: seq<ExposureRecord>, i: nat)
    requires i < |hs| && IsMissing(hs[i])
    ensures ComputeRisk(hs, ss, es).level == "High"
    ensures MissingPrefix + hs[i].header in ComputeRisk(hs, ss, es).reasons
  {
    FinalLevel(hs, ss, es);
    assert Signals(hs, ss, es)[i] == HeaderSignal(hs[i]);
    ReasonsInOrder(hs, ss, es);
    MissingReasonListed(hs, i);
  }

  /** Adding an exposure never lowers the level; a high-risk one makes it High. */
  lemma MoreExposuresNeverLower(hs: seq<HeaderRecord>, ss: seq<SslRecord>, es: seq<ExposureRecord>, e: ExposureRecord)
    ensures AtMost(PassOf(hs, ss, es).level, PassOf(hs, ss, es + [e]).level)
    ensures SeverityLevel(e.risk) == High ==> ComputeRisk(hs, ss, es + [e]).level == "High"
  {
    assert ExposureSignals(es + [e]) == ExposureSignals(es) + [ExposureSignal(e)];
    assert Signals(hs, ss, es + [e]) == Signals(hs, ss, es) + [ExposureSignal(e)];
    AppendRecord(Signals(hs, ss, es), ExposureSignal(e));
  }

  // ---------------------------------------------------------------------
  // The reasons

  /** A reason produced by the pass: its first letter tells its source and is never that of `NoIssues`. */
  predicate Tagged(r: string) {
    |r| > 0 && r[0] in {'M', 'H', 'S', 'E'}
  }

  predicate AnyMissing(hs: seq<HeaderRecord>) {
    exists i :: 0 <= i < |hs| && IsMissing(hs[i])
  }

  /**
   * Reference for the header loop: a missing header is always reported; a
   * header needing review is reported only if no missing header precedes it
   * (a missing header is the only header record that can raise the level to High).
   */
  function HeaderReasons(hs: seq<HeaderRecord>): (r: seq<string>)
    ensures forall k :: 0 <= k < |r| ==> Tagged(r[k])
    decreases |hs|
  {
    if hs == [] then []
    else
      var before := hs[..|hs| - 1];
      var h := hs[|hs| - 1];
      HeaderReasons(before)
      + (if IsMissing(h) then [MissingPrefix + h.header]
         else if NeedsReview(h) && !AnyMissing(before) then [ReviewPrefix + h.header]
         else [])
  }

  /** Reference for the certificate loop: one reason per non-empty message, whatever the severity. */
  function SslReasons(ss: seq<SslRecord>): (r: seq<string>)
    ensures forall k :: 0 <= k < |r| ==> Tagged(r[k])
    decreases |ss|
  {
    if ss == [] then []
    else (if ss[0].message != "" then [SslPrefix + ss[0].message] else []) + SslReasons(ss[1..])
  }

  /** Reference for the exposure loop: one reason per non-empty detail (or path when detail is absent). */
  function ExposureReasons(es: seq<ExposureRecord>): (r: seq<string>)
    ensures forall k :: 0 <= k < |r| ==> Tagged(r[k])
    decreases |es|
  {
    if es == [] then []
    else (if ExposureText(es[0]) != "" then [ExposurePrefix + ExposureText(es[0])] else []) + ExposureReasons(es[1..])
  }

  lemma HeaderSignalsSnoc(before: seq<HeaderRecord>, h: HeaderRecord)
    ensures HeaderSignals(before + [h]) == HeaderSignals(before) + [HeaderSignal(h)]
  {
  }

  lemma AnyMissingSnoc(before: seq<HeaderRecord>, h: HeaderRecord)
    ensures AnyMissing(before + [h]) <==> AnyMissing(before) || IsMissing(h)
  {
    var hs := before + [h];
    if AnyMissing(hs) && !IsMissing(h) {
      var i :| 0 <= i < |hs| && IsMissing(hs[i]);
      assert i < |before| && before[i] == hs[i];
    }
    if AnyMissing(before) {
      var i :| 0 <= i < |before| && IsMissing(before[i]);
      assert hs[i] == before[i];
    }
    if IsMissing(h) {
      assert hs[|before|] == h;
    }
  }

  lemma {:induction false} HeaderPhase(hs: seq<HeaderRecord>)
    ensures Run(Start, HeaderSignals(hs)).reasons == HeaderReasons(hs)
    ensures Run(Start, HeaderSignals(hs)).level == High <==> AnyMissing(hs)
    decreases |hs|
  {
    if hs != [] {
      var before := hs[..|hs| - 1];
      var h := hs[|hs| - 1];
      assert hs == before + [h];
      HeaderSignalsSnoc(before, h);
      AnyMissingSnoc(before, h);
      RunAppend(Start, HeaderSignals(before), [HeaderSignal(h)]);
      RunSingle(Run(Start, HeaderSignals(before)), HeaderSignal(h));
      HeaderPhase(before);
    }
  }

  lemma {:induction false} SslPhase(st: Pass, ss: seq<SslRecord>)
    ensures Run(st, SslSignals(ss)).reasons == st.reasons + SslReasons(ss)
    decreases |ss|
  {
    if ss != [] {
      assert SslSignals(ss) == [SslSignal(ss[0])] + SslSignals(ss[1..]);
      RunAppend(st, [SslSignal(ss[0])], SslSignals(ss[1..]));
      RunSingle(st, SslSignal(ss[0]));
      SslPhase(Step(st, SslSignal(ss[0])), ss[1..]);
    }
  }

  lemma {:induction false} ExposurePhase(st: Pass, es: seq<ExposureRecord>)
    ensures Run(st, ExposureSignals(es)).reasons == st.reasons + ExposureReasons(es)
    decreases |es|
  {
    if es != [] {
      assert ExposureSignals(es) == [ExposureSignal(es[0])] + ExposureSignals(es[1..]);
      RunAppend(st, [ExposureSignal(es[0])], ExposureSignals(es[1..]));
      RunSingle(st, ExposureSignal(es[0]));
      ExposurePhase(Step(st, ExposureSignal(es[0])), es[1..]);
    }
  }

  /** The reasons are the header reasons, then the certificate reasons, then the exposure reasons, with nothing removed. */
  lemma ReasonsInOrder(hs: seq<HeaderRecord>, ss: seq<SslRecord>, es: seq<ExposureRecord>)
    ensures PassOf(hs, ss, es).reasons == HeaderReasons(hs) + SslReasons(ss) + ExposureReasons(es)
    ensures PassOf(hs, ss, es).reasons != [] ==>
              ComputeRisk(hs, ss, es).reasons == HeaderReasons(hs) + SslReasons(ss) + ExposureReasons(es)
  {
    var H, S, E := HeaderSignals(hs), SslSignals(ss), ExposureSignals(es);
    RunAppend(Start, H + S, E);
    RunAppend(Start, H, S);
    HeaderPhase(hs);
    SslPhase(Run(Start, H), ss);
    ExposurePhase(Run(Start, H + S), es);
  }

  lemma {:induction false} MissingReasonListed(hs: seq<HeaderRecord>, i: nat)
    requires i < |hs| && IsMissing(hs[i])
    ensures MissingPrefix + hs[i].header in HeaderReasons(hs)
    decreases |hs|
  {
    if i < |hs| - 1 {
      assert hs[..|hs| - 1][i] == hs[i];
      MissingReasonListed(hs[..|hs| - 1], i);
    }
  }

  /** A header needing review is reported exactly when no missing header comes before it. */
  lemma {:induction false} ReviewReasonListed(hs: seq<HeaderRecord>, i: nat)
    requires i < |hs| && NeedsReview(hs[i])
    ensures HeaderReasons(hs[..i + 1]) ==
              HeaderReasons(hs[..i]) + (if AnyMissing(hs[..i]) then [] else [ReviewPrefix + hs[i].header])
  {
    assert hs[..i + 1][..i] == hs[..i];
    assert !IsMissing(hs[i]);
  }

  /** Every certificate finding with a message is reported, whatever its severity. */
  lemma {:induction false} SslReasonListed(ss: seq<SslRecord>, i: nat)
    requires i < |ss| && ss[i].message != ""
    ensures SslPrefix + ss[i].message in SslReasons(ss)
    decreases |ss|
  {
    if i > 0 {
      SslReasonListed(ss[1..], i - 1);
    }
  }

  /** Every exposure with a non-empty detail (or path, when detail is absent) is reported. */
  lemma {:induction false} ExposureReasonListed(es: seq<ExposureRecord>, i: nat)
    requires i < |es| && ExposureText(es[i]) != ""
    ensures ExposurePrefix + ExposureText(es[i]) in ExposureReasons(es)
    decreases |es|
  {
    if i > 0 {
      ExposureReasonListed(es[1..], i - 1);
    }
  }

  // ---------------------------------------------------------------------
  // The default reason

  lemma {:induction false} HeaderReasonsEmpty(hs: seq<HeaderRecord>)
    ensures HeaderReasons(hs) == [] <==> forall i :: 0 <= i < |hs| ==> !IsMissing(hs[i]) && !NeedsReview(hs[i])
    decreases |hs|
  {
    if hs != [] {
      var before := hs[..|hs| - 1];
      HeaderReasonsEmpty(before);
      if HeaderReasons(before) == [] {
        assert !AnyMissing(before);
      }
      assert forall i :: 0 <= i < |before| ==> before[i] == hs[i];
    }
  }

  lemma {:induction false} SslReasonsEmpty(ss: seq<SslRecord>)
    ensures SslReasons(ss) == [] <==> forall i :: 0 <= i < |ss| ==> ss[i].message == ""
    decreases |ss|
  {
    if ss != [] {
      var head := if ss[0].message != "" then [SslPrefix + ss[0].message] else [];
      assert SslReasons(ss) == head + SslReasons(ss[1..]);
      assert |SslReasons(ss)| == |head| + |SslReasons(ss[1..])|;
      SslReasonsEmpty(ss[1..]);
      assert forall i :: 1 <= i < |ss| ==> ss[1..][i - 1] == ss[i];
    }
  }

  lemma {:induction false} ExposureReasonsEmpty(es: seq<ExposureRecord>)
    ensures ExposureReasons(es) == [] <==> forall i :: 0 <= i < |es| ==> ExposureText(es[i]) == ""
    decreases |es|
  {
    if es != [] {
      var head := if ExposureText(es[0]) != "" then [ExposurePrefix + ExposureText(es[0])] else [];
      assert ExposureReasons(es) == head + ExposureReasons(es[1..]);
      assert |ExposureReasons(es)| == |head| + |ExposureReasons(es[1..])|;
      ExposureReasonsEmpty(es[1..]);
      assert forall i :: 1 <= i < |es| ==> es[1..][i - 1] == es[i];
    }
  }

  /**
   * The verdict's reasons are exactly the default reason precisely when no
   * header is missing or needs review, every certificate message is empty and
   * every exposure text is empty. The level is not reset in that case.
   */
  lemma DefaultReason(hs: seq<HeaderRecord>, ss: seq<SslRecord>, es: seq<ExposureRecord>)
    ensures ComputeRisk(hs, ss, es).reasons == [NoIssues] <==>
              && (forall i :: 0 <= i < |hs| ==> !IsMissing(hs[i]) && !NeedsReview(hs[i]))
              && (forall i :: 0 <= i < |ss| ==> ss[i].message == "")
              && (forall i :: 0 <= i < |es| ==> ExposureText(es[i]) == "")
    ensures ComputeRisk(hs, ss, es).level == Title(PassOf(hs, ss, es).level)
  {
    ReasonsInOrder(hs, ss, es);
    HeaderReasonsEmpty(hs);
    SslReasonsEmpty(ss);
    ExposureReasonsEmpty(es);
    var rs := PassOf(hs, ss, es).reasons;
    if rs != [] {
      var H, S, E := HeaderReasons(hs), SslReasons(ss), ExposureReasons(es);
      assert rs == H + S + E;
      assert Tagged(rs[0]) by {
        if |H| > 0 { assert rs[0] == H[0]; }
        else if |S| > 0 { assert rs[0] == S[0]; }
        else { assert rs[0] == E[0]; }
      }
      assert NoIssues[0] == 'N';
    }
  }

  /** A high-severity certificate finding without a message yields the default reason next to level High. */
  lemma DefaultReasonWithHighLevel()
    ensures ComputeRisk([], [SslRecord("", Some("high"))], []) == Verdict("High", [NoIssues])
  {
    var sigs := Signals([], [SslRecord("", Some("high"))], []);
    assert sigs == [SslSignal(SslRecord("", Some("high")))];
    RunSingle(Start, sigs[0]);
  }

  /** A certificate finding with a message appears in the verdict's reasons; a high one makes the level High. */
  lemma SslFindingInVerdict(hs: seq<HeaderRecord>, ss: seq<SslRecord>, es: seq<ExposureRecord>, i: nat)
    requires i < |ss| && ss[i].message != ""
    ensures SslPrefix + ss[i].message in ComputeRisk(hs, ss, es).reasons
    ensures SeverityLevel(ss[i].severity) == High ==> ComputeRisk(hs, ss, es).level == "High"
    ensures SeverityLevel(ss[i].severity) == Medium ==> ComputeRisk(hs, ss, es).level != "Low"
  {
    ReasonsInOrder(hs, ss, es);
    SslReasonListed(ss, i);
    FinalLevel(hs, ss, es);
    assert Signals(hs, ss, es)[|hs| + i] == SslSignal(ss[i]);
  }

  /** An exposure with a non-empty text appears in the verdict's reasons; a high one makes the level High. */
  lemma ExposureInVerdict(hs: seq<HeaderRecord>, ss: seq<SslRecord>, es: seq<ExposureRecord>, i: nat)
    requires i < |es| && ExposureText(es[i]) != ""
    ensures ExposurePrefix + ExposureText(es[i]) in ComputeRisk(hs, ss, es).reasons
    ensures SeverityLevel(es[i].risk) == High ==> ComputeRisk(hs, ss, es).level == "High"
  {
    ReasonsInOrder(hs, ss, es);
    ExposureReasonListed(es, i);
    FinalLevel(hs, ss, es);
    assert Signals(hs, ss, es)[|hs| + |ss| + i] == ExposureSignal(es[i]);
  }
}
