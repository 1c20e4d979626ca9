/**
 * Quality thresholds and bounded regeneration (quality/quality_control.py).
 *
 * Content generation is an oracle `generate(attempt, temperature)`: attempt 0
 * is the first-time generation, attempts 1.. are the regenerations; `None`
 * means generation failed, `Some(file)` is the file it wrote. Status updates
 * are returned as the list of statuses written, in order.
 */
module QualityControl {
  import opened Wrappers
  import opened Items
  import CE = ContentEvaluation
  import SE = SourceEvaluation

  const DefaultThresholds: map<string, real> :=
    map["average_score" := 3.5, "accuracy_score" := 3.0, "relevance_score" := 3.0,
        "engagement_score" := 3.0, "mission_alignment_score" := 3.0, "source_quality_score" := 3.0,
        "min_word_count" := 1000.0, "min_source_count" := 3.0]

  /** The score keys looked up in the evaluation, in the order they are checked. */
  const ScoreChecks: seq<string> :=
    ["average_score", "accuracy_score", "relevance_score", "engagement_score",
     "mission_alignment_score", "source_quality_score"]

  /** `self.thresholds.update(thresholds)` on the defaults: supplied keys win, the rest stay. */
  function Thresholds(supplied: map<string, real>): (t: map<string, real>)
    ensures t.Keys == DefaultThresholds.Keys + supplied.Keys
    ensures forall k :: k in supplied ==> t[k] == supplied[k]
    ensures forall k :: k in DefaultThresholds && k !in supplied ==> t[k] == DefaultThresholds[k]
  {
    if |supplied| > 0 then DefaultThresholds + supplied else DefaultThresholds
  }

  /** One failed check: the metric, its value and the threshold it fell below. */
  datatype Failure = Failure(metric: string, value: real, threshold: real)

  /** `evaluate_content`'s result: the evaluation plus `passes_thresholds` and `failures`. */
  datatype Checked = Checked(report: CE.Report, passes: bool, failures: seq<Failure>)

  /** A content file as the evaluator reads it: its text and the texts of its rendered `h1`–`h4` headings. */
  datatype ContentFile = ContentFile(content: string, headings: seq<string>)

  /** The score checks among `keys` that fail, in order. */
  function ScoreFailures(t: map<string, real>, scores: map<string, real>, keys: seq<string>): (r: seq<Failure>)
    ensures |r| <= |keys|
    ensures forall f :: f in r ==> f.metric in keys && f.value < f.threshold
  {
    if keys == [] then []
    else
      var k := keys[|keys| - 1];
      ScoreFailures(t, scores, keys[..|keys| - 1])
      + (if k in t && k in scores && scores[k] < t[k] then [Failure(k, scores[k], t[k])] else [])
  }

  /** No score failure iff every checked key present in both tables meets its threshold. */
  lemma {:induction false} ScoreFailuresEmpty(t: map<string, real>, scores: map<string, real>, keys: seq<string>)
    ensures ScoreFailures(t, scores, keys) == [] <==>
      forall i :: 0 <= i < |keys| && keys[i] in t && keys[i] in scores ==> scores[keys[i]] >= t[keys[i]]
  {
    if keys != [] {
      var init := keys[..|keys| - 1];
      ScoreFailuresEmpty(t, scores, init);
      assert forall i :: 0 <= i < |init| ==> init[i] == keys[i];
    }
  }

  /** The word- and source-count checks. */
  function CountFailures(t: map<string, real>, r: CE.Report): seq<Failure>
  {
    (if "min_word_count" in t && (r.wordCount as real) < t["min_word_count"]
     then [Failure("word_count", r.wordCount as real, t["min_word_count"])] else [])
    + (if "min_source_count" in t && (r.sourceCount as real) < t["min_source_count"]
       then [Failure("source_count", r.sourceCount as real, t["min_source_count"])] else [])
  }

  function Failures(t: map<string, real>, r: CE.Report): seq<Failure>
  {
    ScoreFailures(t, r.scores, ScoreChecks) + CountFailures(t, r)
  }

  /** The content evaluated and checked against `t`. */
  function Check(t: map<string, real>, file: ContentFile, contentPath: string, currentYear: int): (c: Checked)
    ensures c.passes <==> c.failures == []
    ensures c.failures == Failures(t, c.report)
  {
    var report := CE.ReportOf(contentPath, CE.ContentIdFromPath(contentPath), file.content, file.headings, currentYear);
    var failures := Failures(t, report);
    Checked(report, failures == [], failures)
  }

  /** `best_score`: the evaluation's `average_score`, 0 when it has none. */
  function ScoreOf(c: Checked): real
  {
    if "average_score" in c.report.scores then c.report.scores["average_score"] else 0.0
  }

  /**
   * The evaluator writes `average`, not `average_score`, and none of the
   * `*_score` keys either: every score lookup misses, so only the word and
   * source counts decide `passes_thresholds`, and the tracked best score is 0.
   */
  lemma ScoreKeysNeverMatch(t: map<string, real>, file: ContentFile, contentPath: string, currentYear: int)
    ensures ScoreOf(Check(t, file, contentPath, currentYear)) == 0.0
    ensures Check(t, file, contentPath, currentYear).failures
      == CountFailures(t, Check(t, file, contentPath, currentYear).report)
  {
    var r := Check(t, file, contentPath, currentYear).report;
    NoScoreCheckKey(r.scores);
    ScoreFailuresEmpty(t, r.scores, ScoreChecks);
  }

  lemma NoScoreCheckKey(scores: map<string, real>)
    requires scores.Keys == CE.InitialScores.Keys
    ensures forall i :: 0 <= i < |ScoreChecks| ==> ScoreChecks[i] !in scores
    ensures "average_score" !in scores
  {
  }

  /** `min(0.9, temperature + attempt * 0.1)`. */
  function AdjustedTemperature(temperature: real, attempt: nat): (r: real)
    ensures r <= 0.9 && r <= temperature + attempt as real * 0.1
    ensures r == 0.9 || r == temperature + attempt as real * 0.1
  {
    var raised := temperature + attempt as real * 0.1;
    if raised < 0.9 then raised else 0.9
  }

  /** The file the first evaluation reads: the existing one, or a first-time generation unless forced. */
  function InitialFile(existing: Option<ContentFile>, generate: (nat, real) -> Option<ContentFile>,
                       temperature: real, force: bool): Option<ContentFile>
  {
    if existing.Some? then existing
    else if force then None
    else generate(0, temperature)
  }

  function Max0(n: int): nat
  {
    if n < 0 then 0 else n
  }

  const RegeneratingStatus := "Regenerating"
  const CompletedStatus := "Completed"
  const FailedStatus := "Quality Check Failed"

  /** Where `check_and_regenerate` keeps a content item's file. */
  function GeneratedPath(contentId: string): string
  {
    "generated_content/" + contentId + ".md"
  }

  /** `n` copies of "Regenerating". */
  function Regenerating(n: nat): (r: seq<string>)
    ensures |r| == n && forall i :: 0 <= i < n ==> r[i] == RegeneratingStatus
  {
    if n == 0 then [] else Regenerating(n - 1) + [RegeneratingStatus]
  }

  /** The items kept by `p`, in order. */
  function Select(items: seq<Item>, p: Item -> bool): (r: seq<Item>)
    ensures |r| <= |items|
    ensures forall x :: x in r <==> x in items && p(x)
  {
    if items == [] then []
    else (if p(items[0]) then [items[0]] else []) + Select(items[1..], p)
  }

  lemma {:induction false} SelectTwice(items: seq<Item>, p: Item -> bool, q: Item -> bool, pq: Item -> bool)
    requires forall x :: pq(x) == (p(x) && q(x))
    ensures Select(Select(items, p), q) == Select(items, pq)
  {
    if items != [] {
      SelectTwice(items[1..], p, q, pq);
      var rest := Select(items[1..], p);
      if p(items[0]) {
        assert Select(items, p) == [items[0]] + rest;
        assert ([items[0]] + rest)[0] == items[0];
        assert ([items[0]] + rest)[1..] == rest;
        assert Select([items[0]] + rest, q) == (if q(items[0]) then [items[0]] else []) + Select(rest, q);
      } else {
        assert Select(items, p) == rest;
      }
    }
  }

  /** Pointwise equal filters select the same items. */
  lemma {:induction false} SelectSame(items: seq<Item>, p: Item -> bool, q: Item -> bool)
    requires forall x :: p(x) == q(x)
    ensures Select(items, p) == Select(items, q)
  {
    if items != [] {
      SelectSame(items[1..], p, q);
    }
  }

  lemma SelectAll(items: seq<Item>, p: Item -> bool)
    requires forall x :: p(x)
    ensures Select(items, p) == items
  {
  }

  /** A filter applied only when `on` holds. */
  function Filtered(items: seq<Item>, on: bool, p: Item -> bool): seq<Item>
  {
    if on then Select(items, p) else items
  }

  /** A conditional filter is the filter by `on ==> p`. */
  lemma FilteredSelect(items: seq<Item>, on: bool, p: Item -> bool, q: Item -> bool)
    requires forall x :: q(x) == (on ==> p(x))
    ensures Filtered(items, on, p) == Select(items, q)
  {
    if on {
      SelectSame(items, p, q);
    } else {
      SelectAll(items, q);
    }
  }

  predicate IdIn(ids: seq<string>, item: Item)
  {
    Field(item, "content_id").Some? && Field(item, "content_id").value in ids
  }

  /** The field `key` is present and equal to the wanted value. */
  predicate FieldIs(key: string, want: Option<string>, item: Item)
  {
    want.Some? && Field(item, key) == Some(want.value)
  }

  /** The filters of `batch_quality_check`, each applied only when truthy. */
  predicate Wanted(ids: seq<string>, status: Option<string>, section: Option<string>, item: Item)
  {
    (ids != [] ==> IdIn(ids, item))
    && (Truthy(status) ==> FieldIs("status", status, item))
    && (Truthy(section) ==> FieldIs("section", section, item))
  }

  /** `batch_quality_check`'s three successive filters. */
  function BatchFilter(items: seq<Item>, ids: seq<string>, status: Option<string>, section: Option<string>): seq<Item>
  {
    var byId := Filtered(items, ids != [], x => IdIn(ids, x));
    var byStatus := Filtered(byId, Truthy(status), x => FieldIs("status", status, x));
    Filtered(byStatus, Truthy(section), x => FieldIs("section", section, x))
  }

  /** The three filters are one conjunctive, order-preserving filter. */
  lemma BatchFilterConjunctive(items: seq<Item>, ids: seq<string>, status: Option<string>, section: Option<string>)
    ensures BatchFilter(items, ids, status, section) == Select(items, x => Wanted(ids, status, section, x))
  {
    var pId: Item -> bool := x => ids != [] ==> IdIn(ids, x);
    var pSt: Item -> bool := x => Truthy(status) ==> FieldIs("status", status, x);
    var pSe: Item -> bool := x => Truthy(section) ==> FieldIs("section", section, x);
    var pIdSt: Item -> bool := x => pId(x) && pSt(x);
    var all: Item -> bool := x => Wanted(ids, status, section, x);
    FilteredSelect(items, ids != [], x => IdIn(ids, x), pId);
    var byId := Select(items, pId);
    FilteredSelect(byId, Truthy(status), x => FieldIs("status", status, x), pSt);
    SelectTwice(items, pId, pSt, pIdSt);
    var byStatus := Select(items, pIdSt);
    FilteredSelect(byStatus, Truthy(section), x => FieldIs("section", section, x), pSe);
    SelectTwice(items, pIdSt, pSe, all);
  }

  /** `QualityControl`: the thresholds, fixed at construction. */
  class QualityControl {
    const thresholds: map<string, real>

    ghost predicate Valid()
    {
      DefaultThresholds.Keys <= thresholds.Keys
    }

    constructor (supplied: map<string, real>)
      ensures thresholds == Thresholds(supplied)
      ensures Valid()
    {
      thresholds := Thresholds(supplied);
    }

    /** The score checks of `evaluate_content`, one key at a time. */
    method CheckScores(scores: map<string, real>, keys: seq<string>) returns (failures: seq<Failure>)
      ensures failures == ScoreFailures(thresholds, scores, keys)
    {
      failures := [];
      var i := 0;
      while i < |keys|
        invariant 0 <= i <= |keys|
        invariant failures == ScoreFailures(thresholds, scores, keys[..i])
      {
        var k := keys[i];
        if k in thresholds && k in scores && scores[k] < thresholds[k] {
          failures := failures + [Failure(k, scores[k], thresholds[k])];
        }
        assert keys[..i + 1][..i] == keys[..i];
        i := i + 1;
      }
      assert keys[..i] == keys;
    }

    /** The threshold checks of `evaluate_content` on one evaluation, in order. */
    method CheckReport(report: CE.Report) returns (passes: bool, failures: seq<Failure>)
      ensures failures == Failures(thresholds, report)
      ensures passes <==> failures == []
    {
      failures := CheckScores(report.scores, ScoreChecks);
      passes := failures == [];
      if "min_word_count" in thresholds && (report.wordCount as real) < thresholds["min_word_count"] {
        passes := false;
        failures := failures + [Failure("word_count", report.wordCount as real, thresholds["min_word_count"])];
      }
      if "min_source_count" in thresholds && (report.sourceCount as real) < thresholds["min_source_count"] {
        passes := false;
        failures := failures + [Failure("source_count", report.sourceCount as real, thresholds["min_source_count"])];
      }
    }

    /** `evaluate_content`: a missing file fails with no results; otherwise every check is run. */
    method EvaluateContent(file: Option<ContentFile>, contentPath: string, currentYear: int)
      returns (passes: bool, results: Option<Checked>)
      ensures file.None? ==> !passes && results.None?
      ensures file.Some? ==> results == Some(Check(thresholds, file.value, contentPath, currentYear))
      ensures passes <==> results.Some? && results.value.passes
      ensures results.Some? ==> ScoreOf(results.value) == 0.0
    {
      if file.None? {
        return false, None;
      }
      ScoreKeysNeverMatch(thresholds, file.value, contentPath, currentYear);
      var report := CE.EvaluateFile(contentPath, file.value.content, file.value.headings, currentYear);
      var failures;
      passes, failures := CheckReport(report);
      results := Some(Checked(report, passes, failures));
    }

    /** `evaluate_content` on a file that exists. */
    method EvaluateExisting(file: ContentFile, path: string, currentYear: int) returns (checked: Checked)
      ensures checked == Check(thresholds, file, path, currentYear)
      ensures ScoreOf(checked) == 0.0
    {
      var passes, results := EvaluateContent(Some(file), path, currentYear);
      checked := results.value;
    }

    /** `evaluate_content` on a regenerated file, seen only through the best-score tracking it feeds. */
    method Reevaluate(file: ContentFile, path: string, currentYear: int) returns (passes: bool, checked: Checked)
      ensures passes == checked.passes && ScoreOf(checked) == 0.0
    {
      checked := EvaluateExisting(file, path, currentYear);
      passes := checked.passes;
    }

    /** The regeneration loop of `check_and_regenerate`, from the first evaluation on. */
    method Regenerate(first: Checked, generate: (nat, real) -> Option<ContentFile>, path: string,
                      temperature: real, maxAttempts: int, currentYear: int)
      returns (success: bool, best: Checked, statuses: seq<string>)
      requires Valid() && ScoreOf(first) == 0.0
      ensures statuses != [] && |statuses| - 1 <= Max0(maxAttempts)
      ensures statuses[..|statuses| - 1] == Regenerating(|statuses| - 1)
      ensures success <==> statuses[|statuses| - 1] == CompletedStatus
      ensures !success ==> statuses[|statuses| - 1] == FailedStatus && ScoreOf(best) < thresholds["average_score"]
      ensures ScoreOf(best) >= ScoreOf(first)
      ensures thresholds["average_score"] > 0.0 ==> !success
    {
      statuses := [];
      var attempt := 1;
      best := first;
      var bestScore := ScoreOf(best);
      while attempt <= maxAttempts
        invariant 1 <= attempt <= Max0(maxAttempts) + 1
        invariant statuses == Regenerating(attempt - 1)
        invariant bestScore == ScoreOf(best) >= ScoreOf(first)
        invariant bestScore == 0.0
        decreases maxAttempts - attempt
      {
        statuses := statuses + [RegeneratingStatus];
        var regenerated := generate(attempt, AdjustedTemperature(temperature, attempt));
        if regenerated.Some? {
          var nowPasses, next := Reevaluate(regenerated.value, path, currentYear);
          var newScore := ScoreOf(next);
          if newScore > bestScore {
            best := next;
            bestScore := newScore;
            if nowPasses {
              statuses := statuses + [CompletedStatus];
              return true, best, statuses;
            }
          }
        }
        attempt := attempt + 1;
      }
      if bestScore >= thresholds["average_score"] {
        statuses := statuses + [CompletedStatus];
        success := true;
      } else {
        statuses := statuses + [FailedStatus];
        success := false;
      }
    }

    /**
     * `check_and_regenerate`: evaluate; return at once if the content
     * passes and regeneration is not forced; otherwise regenerate up to
     * `maxAttempts` times, keeping the best-scoring version.
     */
    method CheckAndRegenerate(connected: bool, itemFound: bool, existing: Option<ContentFile>,
                              generate: (nat, real) -> Option<ContentFile>, contentId: string,
                              temperature: real, maxAttempts: int, force: bool, currentYear: int)
      returns (success: bool, evaluation: Option<Checked>, statuses: seq<string>)
      requires Valid()
      ensures !connected || !itemFound ==> !success && evaluation.None? && statuses == []
      ensures InitialFile(existing, generate, temperature, force).None? ==> !success && evaluation.None? && statuses == []
      ensures connected && itemFound && InitialFile(existing, generate, temperature, force).Some? && !force &&
        Check(thresholds, InitialFile(existing, generate, temperature, force).value, GeneratedPath(contentId), currentYear).passes
        ==> success && statuses == [] &&
            evaluation == Some(Check(thresholds, InitialFile(existing, generate, temperature, force).value, GeneratedPath(contentId), currentYear))
      ensures success ==> evaluation.Some?
      ensures statuses != [] ==> statuses[..|statuses| - 1] == Regenerating(|statuses| - 1) && |statuses| - 1 <= Max0(maxAttempts)
      ensures statuses != [] && success ==> statuses[|statuses| - 1] == CompletedStatus
      ensures statuses != [] && !success ==> statuses[|statuses| - 1] == FailedStatus
      ensures !success && evaluation.Some? ==> ScoreOf(evaluation.value) < thresholds["average_score"]
      ensures thresholds["average_score"] > 0.0 && statuses != [] ==> !success
    {
      statuses := [];
      if !connected || !itemFound {
        return false, None, [];
      }
      var path := GeneratedPath(contentId);
      var file := existing;
      if existing.None? {
        if !force {
          file := generate(0, temperature);
          if file.None? {
            return false, None, [];
          }
        } else {
          return false, None, [];
        }
      }
      success, evaluation, statuses := CheckFile(file.value, generate, path, temperature, maxAttempts, force, currentYear);
    }

    /** `check_and_regenerate` once the content file exists: evaluate it, and regenerate unless it passes unforced. */
    method CheckFile(file: ContentFile, generate: (nat, real) -> Option<ContentFile>, path: string,
                     temperature: real, maxAttempts: int, force: bool, currentYear: int)
      returns (success: bool, evaluation: Option<Checked>, statuses: seq<string>)
      requires Valid()
      ensures evaluation.Some?
      ensures !force && Check(thresholds, file, path, currentYear).passes ==>
        success && statuses == [] && evaluation == Some(Check(thresholds, file, path, currentYear))
      ensures statuses == [] ==> success
      ensures statuses != [] ==> statuses[..|statuses| - 1] == Regenerating(|statuses| - 1) && |statuses| - 1 <= Max0(maxAttempts)
      ensures statuses != [] && success ==> statuses[|statuses| - 1] == CompletedStatus
      ensures statuses != [] && !success ==> statuses[|statuses| - 1] == FailedStatus
      ensures !success ==> ScoreOf(evaluation.value) < thresholds["average_score"]
      ensures thresholds["average_score"] > 0.0 && statuses != [] ==> !success
    {
      var first := EvaluateExisting(file, path, currentYear);
      if first.passes && !force {
        return true, Some(first), [];
      }
      var best;
      success, best, statuses := Regenerate(first, generate, path, temperature, maxAttempts, currentYear);
      evaluation := Some(best);
    }
  }
}
