/**
 * `summarize_metrics` of llm_summary.py: send-metric records are grouped by
 * audience, each audience's two newest sends are compared, and either a fixed
 * message is returned or one LLM call is made with a recap prompt.
 *
 * The prompt is kept as a sequence of lines; a recap line carries the numbers the
 * source formats into text (percent figures with one or two decimals), so number
 * formatting is not part of the model.
 */
module MetricsSummary {
  import opened Wrappers
  import opened PyJson
  import opened StableSort
  import opened Llm

  /** One line of the recap prompt. `Recap` holds the rates of the newest send, the
      two deltas in percentage points and the newest unsubscribe rate. */
  datatype PromptLine =
    | Line(text: string)
    | Recap(audience: string, openLast: real, deltaOpen: real, clickLast: real, deltaClick: real, unsubLast: real)

  /** What the function does: answer with a fixed text, or ask the LLM with a prompt. */
  datatype Plan = Direct(text: string) | AskLlm(prompt: seq<PromptLine>)

  /** The Python conversions the model leaves open: `str()` of a non-string
      audience and `float()` of a string metric. */
  datatype Coercions = Coercions(repr: Repr, parseFloat: string -> Option<real>)

  const NoValidMessage: string := "No valid metrics to summarize."
  /** The source's message, with its apostrophe stored as three mis-decoded characters. */
  const NotEnoughHistoryMessage: string :=
    "Not enough history yet. Log a second send, then I\U{E2}\U{20AC}\U{2122}ll compare deltas and recommend next steps."
  const Header: seq<PromptLine> := [
    Line("Write a brief, blunt performance recap and 3 recommendations."),
    Line("Use one sentence per audience for the recap."),
    Line("")
  ]
  const Footer: seq<PromptLine> := [Line(""), Line("Now produce exactly 3 crisp recommendations based on these deltas.")]
  const InsightSystem: string := "You produce short, tactical B2B marketing insights with clear next steps."
  /** Only the newest six sends of an audience are kept after sorting. */
  const HistoryWindow: nat := 6

  /** A record that passes the minimal validation: a dict with "audience" and "ts". */
  predicate WellFormed(r: Json)
  {
    r.JObj? && "audience" in r.fields && "ts" in r.fields
  }

  /** The documented input contract: timestamps of valid records are numbers, so the
      sort by timestamp never compares incomparable values. */
  predicate NumericTimestamps(records: seq<Json>)
  {
    forall i :: 0 <= i < |records| && WellFormed(records[i]) ==>
      records[i].fields["ts"].JNum? || records[i].fields["ts"].JBool?
  }

  /** `str(r["audience"])`. */
  function AudienceOf(r: Json, co: Coercions): string
    requires WellFormed(r)
  {
    Str(r.fields["audience"], co.repr)
  }

  /** The sort key `x.get("ts", 0)` as a number. */
  function Ts(r: Json): real
  {
    if r.JObj? && "ts" in r.fields then
      match r.fields["ts"]
      case JNum(n) => n
      case JBool(b) => if b then 1.0 else 0.0
      case _ => 0.0
    else 0.0
  }

  /** The keys of `by_aud`, in the order their first valid record appears. */
  function Audiences(records: seq<Json>, co: Coercions): seq<string>
  {
    if records == [] then []
    else
      var prior, r := Audiences(records[..|records| - 1], co), records[|records| - 1];
      if WellFormed(r) && AudienceOf(r, co) !in prior then prior + [AudienceOf(r, co)] else prior
  }

  /** No audience is a key of `by_aud` twice. */
  lemma {:induction false} AudiencesDistinct(records: seq<Json>, co: Coercions)
    ensures forall i, j :: 0 <= i < j < |Audiences(records, co)| ==> Audiences(records, co)[i] != Audiences(records, co)[j]
  {
    if records != [] {
      var prior, r := Audiences(records[..|records| - 1], co), records[|records| - 1];
      AudiencesDistinct(records[..|records| - 1], co);
      if WellFormed(r) && AudienceOf(r, co) !in prior {
        var auds := prior + [AudienceOf(r, co)];
        assert Audiences(records, co) == auds;
        forall i, j | 0 <= i < j < |auds|
          ensures auds[i] != auds[j]
        {
          assert auds[i] == prior[i] && prior[i] in prior;
          if j < |prior| {
            assert auds[j] == prior[j];
          }
        }
      } else {
        assert Audiences(records, co) == prior;
      }
    }
  }

  /** The keys of `by_aud` are exactly the audiences of the valid records. */
  lemma {:induction false} AudiencesExactly(records: seq<Json>, co: Coercions)
    ensures forall a :: a in Audiences(records, co) <==>
      exists i :: 0 <= i < |records| && WellFormed(records[i]) && AudienceOf(records[i], co) == a
  {
    if records != [] {
      var init, last := records[..|records| - 1], |records| - 1;
      AudiencesExactly(init, co);
      forall a | a in Audiences(records, co)
        ensures exists i :: 0 <= i < |records| && WellFormed(records[i]) && AudienceOf(records[i], co) == a
      {
        if a in Audiences(init, co) {
          var i :| 0 <= i < |init| && WellFormed(init[i]) && AudienceOf(init[i], co) == a;
          assert records[i] == init[i];
        } else {
          assert WellFormed(records[last]) && AudienceOf(records[last], co) == a;
        }
      }
      forall i | 0 <= i < |records| && WellFormed(records[i])
        ensures AudienceOf(records[i], co) in Audiences(records, co)
      {
        if i < last {
          assert init[i] == records[i];
        }
      }
    }
  }

  /** `by_aud[aud]`: the valid records of one audience, in input order. */
  function Group(records: seq<Json>, co: Coercions, aud: string): seq<Json>
  {
    if records == [] then []
    else
      var r := records[|records| - 1];
      Group(records[..|records| - 1], co, aud) + (if WellFormed(r) && AudienceOf(r, co) == aud then [r] else [])
  }

  /** An audience's list holds only valid records of that audience, and no more
      records than were read. */
  lemma {:induction false} GroupMembers(records: seq<Json>, co: Coercions, aud: string)
    ensures forall r :: r in Group(records, co, aud) ==> WellFormed(r) && AudienceOf(r, co) == aud
    ensures |Group(records, co, aud)| <= |records|
  {
    if records != [] {
      GroupMembers(records[..|records| - 1], co, aud);
    }
  }

  /** `arr[-6:]`. */
  function Newest(s: seq<Json>): (w: seq<Json>)
    ensures |w| == if |s| <= HistoryWindow then |s| else HistoryWindow
    ensures w == s[|s| - |w|..]
  {
    if |s| <= HistoryWindow then s else s[|s| - HistoryWindow..]
  }

  /** `float(r[name])`, with `None` where the lookup or the conversion raises. */
  function Metric(r: Json, name: string, co: Coercions): Option<real>
  {
    if r.JObj? && name in r.fields then Float(r.fields[name], co.parseFloat) else None
  }

  /** The recap line comparing send `prev` with the later send `last`: none when any
      of the five conversions raises. */
  function ComparePair(aud: string, prev: Json, last: Json, co: Coercions): (line: Option<PromptLine>)
    ensures line.Some? <==> (
      && Metric(last, "open_rate", co).Some? && Metric(prev, "open_rate", co).Some?
      && Metric(last, "click_rate", co).Some? && Metric(prev, "click_rate", co).Some?
      && Metric(last, "unsub_rate", co).Some?)
    ensures line.Some? ==> (
      && line.value.Recap? && line.value.audience == aud
      && line.value.openLast == Metric(last, "open_rate", co).value
      && line.value.deltaOpen == (line.value.openLast - Metric(prev, "open_rate", co).value) * 100.0
      && line.value.clickLast == Metric(last, "click_rate", co).value
      && line.value.deltaClick == (line.value.clickLast - Metric(prev, "click_rate", co).value) * 100.0
      && line.value.unsubLast == Metric(last, "unsub_rate", co).value)
  {
    var oLast, oPrev := Metric(last, "open_rate", co), Metric(prev, "open_rate", co);
    var cLast, cPrev := Metric(last, "click_rate", co), Metric(prev, "click_rate", co);
    var uLast := Metric(last, "unsub_rate", co);
    if oLast.Some? && oPrev.Some? && cLast.Some? && cPrev.Some? && uLast.Some? then
      Some(Recap(aud, oLast.value, (oLast.value - oPrev.value) * 100.0, cLast.value,
                 (cLast.value - cPrev.value) * 100.0, uLast.value))
    else None
  }

  /** The recap line for a time-ordered history `arr`: the last two sends are compared,
      and a history of fewer than two sends has no line. */
  function CompareSorted(aud: string, arr: seq<Json>, co: Coercions): (line: Option<PromptLine>)
    ensures |arr| < 2 ==> line.None?
  {
    if |arr| < 2 then None else ComparePair(aud, arr[|arr| - 2], arr[|arr| - 1], co)
  }

  /** The line one audience contributes, if any. */
  function Compare(aud: string, group: seq<Json>, co: Coercions): Option<PromptLine>
  {
    CompareSorted(aud, Newest(SortBy(group, Ts)), co)
  }

  /** `Compare` for each audience of `records`, as a function of the audience. */
  function LineOf(records: seq<Json>, co: Coercions): string -> Option<PromptLine>
  {
    a => Compare(a, Group(records, co, a), co)
  }

  /** A line function that only ever yields a recap line about its own argument. */
  ghost predicate Labelled(lineOf: string -> Option<PromptLine>)
  {
    forall a :: lineOf(a).Some? ==> lineOf(a).value.Recap? && lineOf(a).value.audience == a
  }

  lemma LineOfLabelled(records: seq<Json>, co: Coercions)
    ensures Labelled(LineOf(records, co))
  {
    forall a | LineOf(records, co)(a).Some?
      ensures LineOf(records, co)(a).value.Recap? && LineOf(records, co)(a).value.audience == a
    {
      assert LineOf(records, co)(a) == Compare(a, Group(records, co, a), co);
    }
  }

  /** The recap lines of the audiences `auds`, in their order. */
  function RecapLines(auds: seq<string>, lineOf: string -> Option<PromptLine>): seq<PromptLine>
  {
    if auds == [] then []
    else
      var a := auds[|auds| - 1];
      RecapLines(auds[..|auds| - 1], lineOf) + (match lineOf(a) case Some(l) => [l] case None => [])
  }

  /** Extending the audience prefix by one adds at most that audience's line. */
  lemma RecapLinesStep(auds: seq<string>, j: nat, lineOf: string -> Option<PromptLine>)
    requires j < |auds|
    ensures RecapLines(auds[..j + 1], lineOf) == RecapLines(auds[..j], lineOf)
      + (if lineOf(auds[j]).Some? then [lineOf(auds[j]).value] else [])
  {
    assert auds[..j + 1][..j] == auds[..j];
  }

  /** What `summarize_metrics(records)` does. */
  function SummaryPlan(records: seq<Json>, co: Coercions): Plan
  {
    var auds := Audiences(records, co);
    if auds == [] then Direct(NoValidMessage)
    else
      var lines := RecapLines(auds, LineOf(records, co));
      if lines == [] then Direct(NotEnoughHistoryMessage) else AskLlm(Header + lines + Footer)
  }

  /** The position of the first occurrence of `x` in `s`. */
  function Position(s: seq<string>, x: string): (p: nat)
    requires x in s
    ensures p < |s| && s[p] == x && x !in s[..p]
  {
    if s[0] == x then 0 else 1 + Position(s[1..], x)
  }

  lemma {:induction false} PositionSnoc(s: seq<string>, a: string, x: string)
    requires x in s + [a]
    ensures x in s ==> Position(s + [a], x) == Position(s, x)
    ensures x !in s ==> Position(s + [a], x) == |s|
  {
    if s != [] && s[0] != x {
      assert (s + [a])[1..] == s[1..] + [a];
      PositionSnoc(s[1..], a, x);
    }
  }

  /** Every recap line belongs to one of the audiences and is exactly that
      audience's line. */
  lemma {:induction false} RecapLineSound(auds: seq<string>, lineOf: string -> Option<PromptLine>, l: PromptLine)
    requires l in RecapLines(auds, lineOf)
    ensures exists a :: a in auds && lineOf(a) == Some(l)
  {
    var init, a := auds[..|auds| - 1], auds[|auds| - 1];
    if l in RecapLines(init, lineOf) {
      RecapLineSound(init, lineOf, l);
      var b :| b in init && lineOf(b) == Some(l);
      assert b in auds by { var k :| 0 <= k < |init| && init[k] == b; assert auds[k] == b; }
    } else {
      assert a in auds;
    }
  }

  /** Every audience that has a line contributes it. */
  lemma {:induction false} RecapLineComplete(auds: seq<string>, lineOf: string -> Option<PromptLine>, a: string)
    requires a in auds && lineOf(a).Some?
    ensures lineOf(a).value in RecapLines(auds, lineOf)
  {
    var init := auds[..|auds| - 1];
    if auds[|auds| - 1] != a {
      assert a in init by { var k :| 0 <= k < |auds| && auds[k] == a; assert init[k] == a; }
      RecapLineComplete(init, lineOf, a);
    }
  }

  /** Each line is a recap about one of `auds`, and the lines name those audiences in
      the order of their first position in `auds`. */
  predicate LinesInOrder(auds: seq<string>, lines: seq<PromptLine>)
  {
    && (forall p :: 0 <= p < |lines| ==> lines[p].Recap? && lines[p].audience in auds)
    && (forall p, q :: 0 <= p < q < |lines| ==>
          Position(auds, lines[p].audience) < Position(auds, lines[q].audience))
  }

  /** The recap lines follow the order in which the audiences first appear. */
  lemma {:induction false} RecapLinesOrdered(auds: seq<string>, lineOf: string -> Option<PromptLine>)
    requires Labelled(lineOf)
    requires forall i, j :: 0 <= i < j < |auds| ==> auds[i] != auds[j]
    ensures LinesInOrder(auds, RecapLines(auds, lineOf))
  {
    if auds != [] {
      var init, a := auds[..|auds| - 1], auds[|auds| - 1];
      assert auds == init + [a];
      RecapLinesOrdered(init, lineOf);
      var prior, lines := RecapLines(init, lineOf), RecapLines(auds, lineOf);
      assert a !in init;
      forall p | 0 <= p < |lines|
        ensures lines[p].Recap? && lines[p].audience in auds
      {
        if p < |prior| {
          assert lines[p] == prior[p];
        }
      }
      forall p, q | 0 <= p < q < |lines|
        ensures Position(auds, lines[p].audience) < Position(auds, lines[q].audience)
      {
        assert lines[p] == prior[p];
        PositionSnoc(init, a, prior[p].audience);
        if q < |prior| {
          assert lines[q] == prior[q];
          PositionSnoc(init, a, prior[q].audience);
        } else {
          assert lines[q].audience == a;
          PositionSnoc(init, a, a);
        }
      }
    }
  }

  /** Keeping only the newest six sends never changes the comparison. */
  lemma WindowIrrelevant(aud: string, group: seq<Json>, co: Coercions)
    ensures Compare(aud, group, co) == CompareSorted(aud, SortBy(group, Ts), co)
  {
    var t := SortBy(group, Ts);
    var w := Newest(t);
    if |t| >= 2 {
      assert w[|w| - 1] == t[|t| - 1] && w[|w| - 2] == t[|t| - 2];
    }
  }

  /** The send whose rates a recap line reports as "last" is the newest of its audience
      in stable timestamp order: `StableSort.LastIsNewest` shows it has the greatest
      timestamp and, among sends sharing that timestamp, is the one logged last. */
  lemma ComparedSendIsNewest(aud: string, group: seq<Json>, co: Coercions)
    requires group != []
    ensures var t := SortBy(group, Ts);
      Compare(aud, group, co).Some? ==>
        && Metric(t[|t| - 1], "open_rate", co) == Some(Compare(aud, group, co).value.openLast)
        && Metric(t[|t| - 1], "unsub_rate", co) == Some(Compare(aud, group, co).value.unsubLast)
  {
    var t := SortBy(group, Ts);
    WindowIrrelevant(aud, group, co);
    NewestRates(aud, t, co);
  }

  /** A recap line reports the open and unsubscribe rates of the last send of the history. */
  lemma NewestRates(aud: string, t: seq<Json>, co: Coercions)
    requires t != []
    ensures var line := CompareSorted(aud, t, co);
      line.Some? ==>
        && line.value.openLast == Metric(t[|t| - 1], "open_rate", co).value
        && line.value.unsubLast == Metric(t[|t| - 1], "unsub_rate", co).value
  {
  }

  /** An audience with fewer than two valid sends gets no recap line. */
  lemma TooFewSendsNoLine(records: seq<Json>, co: Coercions, aud: string)
    requires |Group(records, co, aud)| < 2
    ensures forall l :: l in RecapLines(Audiences(records, co), LineOf(records, co)) ==> l.Recap? && l.audience != aud
  {
    LineOfLabelled(records, co);
    forall l | l in RecapLines(Audiences(records, co), LineOf(records, co))
      ensures l.Recap? && l.audience != aud
    {
      RecapLineSound(Audiences(records, co), LineOf(records, co), l);
      assert LineOf(records, co)(aud) == Compare(aud, Group(records, co, aud), co);
    }
  }

  /** There is no audience exactly when no record passes validation. */
  lemma {:induction false} NoAudiences(records: seq<Json>, co: Coercions)
    ensures Audiences(records, co) == [] <==> forall i :: 0 <= i < |records| ==> !WellFormed(records[i])
  {
    if records != [] {
      var init := records[..|records| - 1];
      NoAudiences(init, co);
      assert forall i :: 0 <= i < |init| ==> init[i] == records[i];
    }
  }

  /** The "no valid metrics" text is returned exactly when no record passes validation. */
  lemma NoValidMetricsExactly(records: seq<Json>, co: Coercions)
    ensures SummaryPlan(records, co) == Direct(NoValidMessage)
        <==> forall i :: 0 <= i < |records| ==> !WellFormed(records[i])
  {
    NoAudiences(records, co);
    assert |NotEnoughHistoryMessage| != |NoValidMessage|;
  }

  /** The LLM is asked exactly when some audience can be compared, and then with the
      header, the recap lines and the closing instruction. */
  lemma AskExactlyWhenComparable(records: seq<Json>, co: Coercions)
    ensures SummaryPlan(records, co).AskLlm?
        <==> exists a :: a in Audiences(records, co) && Compare(a, Group(records, co, a), co).Some?
    ensures SummaryPlan(records, co).AskLlm? ==>
        SummaryPlan(records, co).prompt == Header + RecapLines(Audiences(records, co), LineOf(records, co)) + Footer
  {
    var auds := Audiences(records, co);
    var lineOf := LineOf(records, co);
    var lines := RecapLines(auds, lineOf);
    if lines != [] {
      RecapLineSound(auds, lineOf, lines[0]);
      var a :| a in auds && lineOf(a) == Some(lines[0]);
      assert lineOf(a) == Compare(a, Group(records, co, a), co);
    }
    if exists a :: a in auds && Compare(a, Group(records, co, a), co).Some? {
      var a :| a in auds && Compare(a, Group(records, co, a), co).Some?;
      assert lineOf(a) == Compare(a, Group(records, co, a), co);
      RecapLineComplete(auds, lineOf, a);
    }
  }

  /** A logged send with all five fields, as `simulate_metrics` writes it. */
  function Send(aud: string, ts: real, openRate: real, clickRate: real, unsubRate: real): Json
  {
    JObj(map["audience" := JStr(aud), "ts" := JNum(ts), "open_rate" := JNum(openRate),
             "click_rate" := JNum(clickRate), "unsub_rate" := JNum(unsubRate)])
  }

  lemma SendFields(aud: string, ts: real, openRate: real, clickRate: real, unsubRate: real, co: Coercions)
    ensures var r := Send(aud, ts, openRate, clickRate, unsubRate);
      && WellFormed(r) && AudienceOf(r, co) == aud && Ts(r) == ts
      && Metric(r, "open_rate", co) == Some(openRate)
      && Metric(r, "click_rate", co) == Some(clickRate)
      && Metric(r, "unsub_rate", co) == Some(unsubRate)
  {
    var m := Send(aud, ts, openRate, clickRate, unsubRate).fields;
    assert m["open_rate"] == JNum(openRate) by { assert "open_rate" != "click_rate" && "open_rate" != "unsub_rate"; }
    assert m["click_rate"] == JNum(clickRate) by { assert "click_rate" != "unsub_rate"; }
    assert m["ts"] == JNum(ts);
    assert m["audience"] == JStr(aud);
  }

  /** Two sends of one audience, logged in either order, are compared oldest to newest. */
  lemma TwoSendsCompared(aud: string, older: Json, newer: Json, co: Coercions)
    requires WellFormed(older) && WellFormed(newer) && Ts(older) < Ts(newer)
    ensures Compare(aud, [newer, older], co) == CompareSorted(aud, [older, newer], co)
    ensures Compare(aud, [older, newer], co) == CompareSorted(aud, [older, newer], co)
  {
    SortTwo(older, newer, Ts);
    assert Newest([older, newer]) == [older, newer];
  }

  lemma RecapLinesSingle(a: string, lineOf: string -> Option<PromptLine>)
    ensures RecapLines([a], lineOf) == if lineOf(a).Some? then [lineOf(a).value] else []
  {
    assert [a][..0] == [];
  }

  /** Two valid records of the same audience form one group. */
  lemma OneAudience(aud: string, r1: Json, r2: Json, co: Coercions)
    requires WellFormed(r1) && WellFormed(r2) && AudienceOf(r1, co) == aud && AudienceOf(r2, co) == aud
    ensures Audiences([r1, r2], co) == [aud] && Group([r1, r2], co, aud) == [r1, r2]
  {
    assert [r1, r2][..1] == [r1];
    assert [r1][..0] == [];
    assert Audiences([r1], co) == [aud];
    assert Group([r1], co, aud) == [r1];
  }

  /** The founder comparison of `DeltaExample`: +5 and -1 percentage points. */
  lemma FounderDeltas(co: Coercions)
    ensures Compare("founder", [Send("founder", 2.0, 0.35, 0.04, 0.002), Send("founder", 1.0, 0.3, 0.05, 0.001)], co)
         == Some(Recap("founder", 0.35, 5.0, 0.04, -1.0, 0.002))
  {
    SendFields("founder", 2.0, 0.35, 0.04, 0.002, co);
    SendFields("founder", 1.0, 0.3, 0.05, 0.001, co);
    TwoSendsCompared("founder", Send("founder", 1.0, 0.3, 0.05, 0.001), Send("founder", 2.0, 0.35, 0.04, 0.002), co);
  }

  /** Two founder sends: open rate 30% then 35%, click rate 5% then 4%. The recap
      carries +5 and -1 percentage points; the sends are logged newest first, so the
      comparison relies on the sort by timestamp. */
  lemma DeltaExample(co: Coercions)
    ensures SummaryPlan([Send("founder", 2.0, 0.35, 0.04, 0.002), Send("founder", 1.0, 0.3, 0.05, 0.001)], co)
         == AskLlm(Header + [Recap("founder", 0.35, 5.0, 0.04, -1.0, 0.002)] + Footer)
  {
    var records := [Send("founder", 2.0, 0.35, 0.04, 0.002), Send("founder", 1.0, 0.3, 0.05, 0.001)];
    SendFields("founder", 2.0, 0.35, 0.04, 0.002, co);
    SendFields("founder", 1.0, 0.3, 0.05, 0.001, co);
    OneAudience("founder", records[0], records[1], co);
    FounderDeltas(co);
    assert LineOf(records, co)("founder") == Some(Recap("founder", 0.35, 5.0, 0.04, -1.0, 0.002));
    RecapLinesSingle("founder", LineOf(records, co));
  }

  /** A single send: nothing to compare, so the fixed message and no LLM call. */
  lemma SingleSendExample(co: Coercions)
    ensures SummaryPlan([Send("ops", 5.0, 0.2, 0.02, 0.0)], co) == Direct(NotEnoughHistoryMessage)
  {
    var r := Send("ops", 5.0, 0.2, 0.02, 0.0);
    SendFields("ops", 5.0, 0.2, 0.02, 0.0, co);
    assert Audiences([r], co) == ["ops"];
    assert Group([r], co, "ops") == [r];
    assert LineOf([r], co)("ops") == None;
    RecapLinesSingle("ops", LineOf([r], co));
  }

  /** `order` and `byAud` are `by_aud`'s key order and lists for the records `rs`. */
  ghost predicate Grouped(rs: seq<Json>, co: Coercions, order: seq<string>, byAud: map<string, seq<Json>>)
  {
    && order == Audiences(rs, co)
    && (forall a :: a in byAud <==> a in order)
    && (forall a :: a in byAud ==> byAud[a] == Group(rs, co, a))
    && (forall a :: a !in order ==> Group(rs, co, a) == [])
  }

  /** The grouping loop: `by_aud` as its key order and its lists. */
  method GroupByAudience(records: seq<Json>, co: Coercions) returns (order: seq<string>, byAud: map<string, seq<Json>>)
    ensures order == Audiences(records, co)
    ensures forall a :: a in byAud <==> a in order
    ensures forall a :: a in byAud ==> byAud[a] == Group(records, co, a)
  {
    order, byAud := [], map[];
    for i := 0 to |records|
      invariant Grouped(records[..i], co, order, byAud)
    {
      order, byAud := AddRecord(records, co, i, order, byAud);
    }
    assert records[..|records|] == records;
  }

  /** One iteration of the grouping loop: a valid record joins its audience's list,
      which is created, and its audience appended to the key order, on first sight. */
  method AddRecord(records: seq<Json>, co: Coercions, i: nat, order: seq<string>, byAud: map<string, seq<Json>>)
    returns (order': seq<string>, byAud': map<string, seq<Json>>)
    requires i < |records| && Grouped(records[..i], co, order, byAud)
    ensures Grouped(records[..i + 1], co, order', byAud')
  {
    var r := records[i];
    if !r.JObj? || "audience" !in r.fields || "ts" !in r.fields {
      SkipInvalid(records, co, i, order, byAud);
      return order, byAud;
    }
    var aud := Str(r.fields["audience"], co.repr);
    if aud in byAud {
      AppendToGroup(records, co, i, order, byAud);
      order', byAud' := order, byAud[aud := byAud[aud] + [r]];
    } else {
      StartGroup(records, co, i, order, byAud);
      order', byAud' := order + [aud], byAud[aud := [r]];
    }
  }

  /** An invalid record changes nothing. */
  lemma SkipInvalid(records: seq<Json>, co: Coercions, i: nat, order: seq<string>, byAud: map<string, seq<Json>>)
    requires i < |records| && Grouped(records[..i], co, order, byAud) && !WellFormed(records[i])
    ensures Grouped(records[..i + 1], co, order, byAud)
  {
    GroupingStep(records, co, i);
    assert forall a :: Group(records[..i + 1], co, a) == Group(records[..i], co, a) + [];
  }

  /** A valid record of an audience already seen joins the end of its list. */
  lemma AppendToGroup(records: seq<Json>, co: Coercions, i: nat, order: seq<string>, byAud: map<string, seq<Json>>)
    requires i < |records| && Grouped(records[..i], co, order, byAud)
    requires WellFormed(records[i]) && AudienceOf(records[i], co) in byAud
    ensures var aud := AudienceOf(records[i], co);
      Grouped(records[..i + 1], co, order, byAud[aud := byAud[aud] + [records[i]]])
  {
    GroupingStep(records, co, i);
    var aud, rs := AudienceOf(records[i], co), records[..i + 1];
    forall a | a != aud
      ensures Group(rs, co, a) == Group(records[..i], co, a)
    {
      assert Group(rs, co, a) == Group(records[..i], co, a) + [];
    }
  }

  /** A valid record of a new audience starts that audience's list and is appended to
      the key order. */
  lemma StartGroup(records: seq<Json>, co: Coercions, i: nat, order: seq<string>, byAud: map<string, seq<Json>>)
    requires i < |records| && Grouped(records[..i], co, order, byAud)
    requires WellFormed(records[i]) && AudienceOf(records[i], co) !in byAud
    ensures var aud := AudienceOf(records[i], co);
      Grouped(records[..i + 1], co, order + [aud], byAud[aud := [records[i]]])
  {
    GroupingStep(records, co, i);
    var aud, rs := AudienceOf(records[i], co), records[..i + 1];
    assert Group(rs, co, aud) == [] + [records[i]];
    forall a | a != aud
      ensures Group(rs, co, a) == Group(records[..i], co, a)
    {
      assert Group(rs, co, a) == Group(records[..i], co, a) + [];
    }
  }

  /** What the `i`-th record adds to the audiences and the groups of the records before it. */
  lemma GroupingStep(records: seq<Json>, co: Coercions, i: nat)
    requires i < |records|
    ensures var r, prior := records[i], Audiences(records[..i], co);
      Audiences(records[..i + 1], co)
        == if WellFormed(r) && AudienceOf(r, co) !in prior then prior + [AudienceOf(r, co)] else prior
    ensures var r := records[i];
      forall a :: Group(records[..i + 1], co, a)
        == Group(records[..i], co, a) + (if WellFormed(r) && AudienceOf(r, co) == a then [r] else [])
  {
    assert records[..i + 1][..i] == records[..i];
  }

  /** One iteration of the comparison loop: sort by timestamp, keep the newest six,
      and compare the last two sends. */
  method CompareNewest(aud: string, group: seq<Json>, co: Coercions) returns (line: Option<PromptLine>)
    ensures line == Compare(aud, group, co)
  {
    var arr := Newest(SortBy(group, Ts));
    if |arr| < 2 {
      return None;
    }
    var last, prev := arr[|arr| - 1], arr[|arr| - 2];
    var oLast, oPrev := Metric(last, "open_rate", co), Metric(prev, "open_rate", co);
    var cLast, cPrev := Metric(last, "click_rate", co), Metric(prev, "click_rate", co);
    var uLast := Metric(last, "unsub_rate", co);
    if oLast.None? || oPrev.None? || cLast.None? || cPrev.None? || uLast.None? {
      return None;
    }
    var deltaOpen := (oLast.value - oPrev.value) * 100.0;
    var deltaClick := (cLast.value - cPrev.value) * 100.0;
    line := Some(Recap(aud, oLast.value, deltaOpen, cLast.value, deltaClick, uLast.value));
  }

  /** The comparison loop: the prompt built so far and whether any line was added. */
  method CollectRecaps(records: seq<Json>, co: Coercions, order: seq<string>, byAud: map<string, seq<Json>>)
    returns (promptLines: seq<PromptLine>, haveAny: bool)
    requires forall a :: a in order ==> a in byAud && byAud[a] == Group(records, co, a)
    ensures promptLines == Header + RecapLines(order, LineOf(records, co))
    ensures haveAny <==> RecapLines(order, LineOf(records, co)) != []
  {
    var recaps: seq<PromptLine> := [];
    haveAny := false;
    for j := 0 to |order|
      invariant recaps == RecapLines(order[..j], LineOf(records, co))
      invariant haveAny <==> recaps != []
    {
      var aud := order[j];
      RecapLinesStep(order, j, LineOf(records, co));
      var line := CompareNewest(aud, byAud[aud], co);
      if line.Some? {
        recaps := recaps + [line.value];
        haveAny := true;
      }
    }
    promptLines := Header + recaps;
    assert order[..|order|] == order;
  }

  /** `summarize_metrics`: group, compare, and make at most one LLM call. */
  method SummarizeMetrics(records: seq<Json>, co: Coercions, gen: TextGenerator<seq<PromptLine>>)
    returns (summary: string)
    requires NumericTimestamps(records)
    modifies gen
    ensures SummaryPlan(records, co).Direct? ==>
      summary == SummaryPlan(records, co).text && gen.calls == old(gen.calls)
    ensures SummaryPlan(records, co).AskLlm? ==>
      && gen.calls == old(gen.calls) + [(SummaryPlan(records, co).prompt, InsightSystem)]
      && summary == gen.Reply(|old(gen.calls)|, SummaryPlan(records, co).prompt, InsightSystem)
  {
    var order, byAud := GroupByAudience(records, co);
    if |order| == 0 {
      return NoValidMessage;
    }
    var promptLines, haveAny := CollectRecaps(records, co, order, byAud);
    if !haveAny {
      return NotEnoughHistoryMessage;
    }
    promptLines := promptLines + Footer;
    summary := gen.Complete(promptLines, InsightSystem);
  }
}
