/**
 * Coverage classification in backend/app/main.py: the per-requirement loops of
 * `analyze_documents` and `get_llm_feedback`, the `matched_design_items` filter
 * and the summary tallies.
 *
 * The TF-IDF vectorizer and cosine similarity are not modelled. Their outcome
 * is an input: `Ok(scores)` with `scores[i][j]` the similarity of requirement i
 * and design item j, or `Err(e)` when the vectorizer raised (the endpoint then
 * answers with an error carrying `str(e)`).
 */
module Analysis {
  import opened Wrappers
  import LlmService

  const PRESENT: string := "Present"
  const MISSING: string := "Missing"
  const NOT_FOUND: string := "Requirement not found in design"
  /** The threshold an `AnalysisRequest` takes when none is given. */
  const DEFAULT_THRESHOLD: real := 0.3

  datatype AnalysisRequest =
    AnalysisRequest(requirements: seq<string>, design: seq<string>, threshold: real := DEFAULT_THRESHOLD)

  /** An entry of the `analyze_documents` response. */
  datatype AnalysisResponse = AnalysisResponse(requirement: string, coverage: string, issue: string,
                                               similarityScore: real)

  /** An entry of `semantic_results` in `get_llm_feedback`. */
  datatype SemanticResult = SemanticResult(requirement: string, coverage: string, issue: string,
                                           similarityScore: real, matchedDesignItems: seq<string>,
                                           totalDesignItems: nat)

  datatype Summary = Summary(totalRequirements: nat, totalDesignItems: nat,
                             coveredRequirements: nat, missingRequirements: nat)

  /** The body `get_llm_feedback` returns. */
  datatype LlmFeedback = LlmFeedback(semanticAnalysis: seq<SemanticResult>, llmFeedback: string, summary: Summary)

  /** The similarity matrix has one row per requirement and one column per design item. */
  predicate WellShaped(request: AnalysisRequest, scores: seq<seq<real>>) {
    && |scores| == |request.requirements|
    && forall i :: 0 <= i < |scores| ==> |scores[i]| == |request.design|
  }

  /** `max(similarity_scores) if len(similarity_scores) > 0 else 0`. */
  function MaxScore(row: seq<real>): (m: real)
    ensures row == [] ==> m == 0.0
    ensures row != [] ==> m in row
    ensures forall j :: 0 <= j < |row| ==> row[j] <= m
  {
    if row == [] then 0.0
    else if |row| == 1 then row[0]
    else
      var m := MaxScore(row[..|row| - 1]);
      if row[|row| - 1] > m then row[|row| - 1] else m
  }

  datatype Verdict = Verdict(coverage: string, issue: string)

  /** The two-way decision both endpoints make from a best score. */
  function Classify(maxSim: real, threshold: real): (v: Verdict)
    ensures v.coverage == PRESENT <==> maxSim >= threshold
    ensures v.coverage == PRESENT ==> v.issue == ""
    ensures v.coverage != PRESENT ==> v.coverage == MISSING && v.issue == NOT_FOUND
  {
    if maxSim >= threshold then Verdict(PRESENT, "") else Verdict(MISSING, NOT_FOUND)
  }

  /** The scores of requirement `i`: none at all when there are no design items. */
  function SimilarityRow(request: AnalysisRequest, scores: seq<seq<real>>, i: nat): (row: seq<real>)
    requires WellShaped(request, scores) && i < |request.requirements|
    ensures |row| == |request.design|
    ensures row == scores[i]
  {
    if |request.design| == 0 then [] else scores[i]
  }

  /** `[design[j] for j, score in enumerate(row) if score >= threshold]`. */
  function MatchedDesignItems(design: seq<string>, row: seq<real>, threshold: real): (m: seq<string>)
    requires |row| == |design|
    ensures |m| <= |design|
    ensures forall k :: 0 <= k < |m| ==> m[k] in design
  {
    if design == [] then []
    else
      MatchedDesignItems(design[..|design| - 1], row[..|row| - 1], threshold)
      + (if row[|row| - 1] >= threshold then [design[|design| - 1]] else [])
  }

  /** The positions, in increasing order, of the scores at or above the threshold. */
  function AboveIndices(row: seq<real>, threshold: real): (idx: seq<nat>)
    ensures forall a, b :: 0 <= a < b < |idx| ==> idx[a] < idx[b]
    ensures forall k :: 0 <= k < |idx| ==> idx[k] < |row| && row[idx[k]] >= threshold
    ensures forall j :: 0 <= j < |row| && row[j] >= threshold ==> j in idx
  {
    if row == [] then []
    else
      var prefix := AboveIndices(row[..|row| - 1], threshold);
      prefix + (if row[|row| - 1] >= threshold then [|row| - 1] else [])
  }

  /**
   * The matched items are exactly the design items whose score reaches the
   * threshold, in design-list order: position k holds the design item at the
   * k-th such index.
   */
  lemma {:induction false} MatchedSelectsAboveThreshold(design: seq<string>, row: seq<real>, threshold: real)
    requires |row| == |design|
    ensures |MatchedDesignItems(design, row, threshold)| == |AboveIndices(row, threshold)|
    ensures forall k :: 0 <= k < |AboveIndices(row, threshold)| ==>
              MatchedDesignItems(design, row, threshold)[k] == design[AboveIndices(row, threshold)[k]]
  {
    if design != [] {
      var n := |design|;
      MatchedSelectsAboveThreshold(design[..n - 1], row[..n - 1], threshold);
      var before := AboveIndices(row[..n - 1], threshold);
      forall k | 0 <= k < |before|
        ensures design[..n - 1][before[k]] == design[before[k]]
      {
      }
    }
  }

  /** With design items present, some item is matched iff the best score reaches the threshold. */
  lemma MatchedNonEmptyIffAboveMax(design: seq<string>, row: seq<real>, threshold: real)
    requires |row| == |design| && |design| > 0
    ensures MatchedDesignItems(design, row, threshold) != [] <==> MaxScore(row) >= threshold
  {
    MatchedSelectsAboveThreshold(design, row, threshold);
    var idx := AboveIndices(row, threshold);
    if MaxScore(row) >= threshold {
      var j :| 0 <= j < |row| && row[j] == MaxScore(row);
      assert j in idx;
    }
  }

  /** The response `analyze_documents` gives for one requirement. */
  function Assess(requirement: string, row: seq<real>, threshold: real): AnalysisResponse {
    var m := MaxScore(row);
    var v := Classify(m, threshold);
    AnalysisResponse(requirement, v.coverage, v.issue, m)
  }

  /** The full response of `analyze_documents`: one entry per requirement, in input order. */
  function Feedback(request: AnalysisRequest, scores: seq<seq<real>>): (r: seq<AnalysisResponse>)
    requires WellShaped(request, scores)
    ensures |r| == |request.requirements|
    ensures forall i :: 0 <= i < |r| ==> r[i].requirement == request.requirements[i]
  {
    seq(|request.requirements|, i requires 0 <= i < |request.requirements| =>
      Assess(request.requirements[i], SimilarityRow(request, scores, i), request.threshold))
  }

  /** The entry `get_llm_feedback` builds for requirement `i`. */
  function SemanticResultFor(request: AnalysisRequest, scores: seq<seq<real>>, i: nat): SemanticResult
    requires WellShaped(request, scores) && i < |request.requirements|
  {
    var row := SimilarityRow(request, scores, i);
    var matched := if |request.design| == 0 then [] else MatchedDesignItems(request.design, row, request.threshold);
    var m := MaxScore(row);
    var v := Classify(m, request.threshold);
    SemanticResult(request.requirements[i], v.coverage, v.issue, m, matched, |request.design|)
  }

  /** All of `semantic_results`: one entry per requirement, in input order. */
  function SemanticResults(request: AnalysisRequest, scores: seq<seq<real>>): (r: seq<SemanticResult>)
    requires WellShaped(request, scores)
    ensures |r| == |request.requirements|
    ensures forall i :: 0 <= i < |r| ==>
              r[i].requirement == request.requirements[i] && r[i].totalDesignItems == |request.design|
  {
    seq(|request.requirements|, i requires 0 <= i < |request.requirements| => SemanticResultFor(request, scores, i))
  }

  /** For the same scores the two endpoints give each requirement the same coverage, issue and score. */
  lemma EndpointsAgree(request: AnalysisRequest, scores: seq<seq<real>>, i: nat)
    requires WellShaped(request, scores) && i < |request.requirements|
    ensures Feedback(request, scores)[i].coverage == SemanticResults(request, scores)[i].coverage
    ensures Feedback(request, scores)[i].issue == SemanticResults(request, scores)[i].issue
    ensures Feedback(request, scores)[i].similarityScore == SemanticResults(request, scores)[i].similarityScore
  {
  }

  /** Coverage is Present with no issue iff the best score reaches the threshold, and Missing with the not-found issue otherwise. */
  lemma CoverageDecision(request: AnalysisRequest, scores: seq<seq<real>>, i: nat)
    requires WellShaped(request, scores) && i < |request.requirements|
    ensures var r := SemanticResults(request, scores)[i];
            && (r.coverage == PRESENT && r.issue == "" <==> r.similarityScore >= request.threshold)
            && (r.coverage == MISSING && r.issue == NOT_FOUND <==> r.similarityScore < request.threshold)
            && r.similarityScore == MaxScore(SimilarityRow(request, scores, i))
  {
    assert PRESENT != MISSING by { assert PRESENT[0] != MISSING[0]; }
  }

  /** Without design items every score is 0, nothing is matched, and a positive threshold makes every requirement Missing. */
  lemma NoDesignItems(request: AnalysisRequest, scores: seq<seq<real>>, i: nat)
    requires WellShaped(request, scores) && i < |request.requirements| && |request.design| == 0
    ensures SemanticResults(request, scores)[i].similarityScore == 0.0
    ensures SemanticResults(request, scores)[i].matchedDesignItems == []
    ensures Feedback(request, scores)[i].similarityScore == 0.0
    ensures request.threshold > 0.0 ==> SemanticResults(request, scores)[i].coverage == MISSING
                                        && Feedback(request, scores)[i].coverage == MISSING
  {
  }

  /** With design items present, a requirement has matched items iff it is Present. */
  lemma MatchedIffPresent(request: AnalysisRequest, scores: seq<seq<real>>, i: nat)
    requires WellShaped(request, scores) && i < |request.requirements| && |request.design| > 0
    ensures SemanticResults(request, scores)[i].matchedDesignItems != [] <==>
            SemanticResults(request, scores)[i].coverage == PRESENT
  {
    MatchedNonEmptyIffAboveMax(request.design, SimilarityRow(request, scores, i), request.threshold);
  }

  // ---------------------------------------------------------------------
  // Summary
  // ---------------------------------------------------------------------

  /** `sum(1 for r in results if r["coverage"] == verdict)`. */
  function CountCoverage(results: seq<SemanticResult>, verdict: string): (n: nat)
    ensures n <= |results|
  {
    if results == [] then 0
    else (if results[0].coverage == verdict then 1 else 0) + CountCoverage(results[1..], verdict)
  }

  /** The `summary` of `get_llm_feedback`. */
  function SummaryOf(request: AnalysisRequest, results: seq<SemanticResult>): Summary {
    Summary(|request.requirements|, |request.design|, CountCoverage(results, PRESENT), CountCoverage(results, MISSING))
  }

  /** When every verdict is Present or Missing, the two tallies add up to the number of results. */
  lemma {:induction false} TalliesPartition(results: seq<SemanticResult>)
    requires forall k :: 0 <= k < |results| ==> results[k].coverage == PRESENT || results[k].coverage == MISSING
    ensures CountCoverage(results, PRESENT) + CountCoverage(results, MISSING) == |results|
  {
    if results != [] {
      assert PRESENT != MISSING by { assert PRESENT[0] != MISSING[0]; }
      TalliesPartition(results[1..]);
    }
  }

  /** The summary echoes the input sizes, and every requirement is counted exactly once as covered or missing. */
  lemma SummaryFacts(request: AnalysisRequest, scores: seq<seq<real>>)
    requires WellShaped(request, scores)
    ensures var s := SummaryOf(request, SemanticResults(request, scores));
            && s.totalRequirements == |request.requirements|
            && s.totalDesignItems == |request.design|
            && s.coveredRequirements + s.missingRequirements == s.totalRequirements
  {
    TalliesPartition(SemanticResults(request, scores));
  }

  /** If every Present in `b` is a Present in `a`, then `b` has no more Presents than `a`. */
  lemma {:induction false} PresentCountMonotone(a: seq<SemanticResult>, b: seq<SemanticResult>)
    requires |a| == |b|
    requires forall k :: 0 <= k < |b| && b[k].coverage == PRESENT ==> a[k].coverage == PRESENT
    ensures CountCoverage(b, PRESENT) <= CountCoverage(a, PRESENT)
  {
    if b != [] {
      PresentCountMonotone(a[1..], b[1..]);
    }
  }

  /** Raising the threshold never increases the number of covered requirements for the same scores. */
  lemma ThresholdMonotone(requirements: seq<string>, design: seq<string>, scores: seq<seq<real>>, low: real, high: real)
    requires WellShaped(AnalysisRequest(requirements, design, low), scores)
    requires low <= high
    ensures var lenient := SummaryOf(AnalysisRequest(requirements, design, low),
                                     SemanticResults(AnalysisRequest(requirements, design, low), scores));
            var strict := SummaryOf(AnalysisRequest(requirements, design, high),
                                    SemanticResults(AnalysisRequest(requirements, design, high), scores));
            strict.coveredRequirements <= lenient.coveredRequirements
  {
    var a := SemanticResults(AnalysisRequest(requirements, design, low), scores);
    var b := SemanticResults(AnalysisRequest(requirements, design, high), scores);
    assert WellShaped(AnalysisRequest(requirements, design, high), scores);
    PresentCountMonotone(a, b);
  }

  /** A `semantic_results` entry as the feedback service reads it: every key is present. */
  function AsAnalysisItem(r: SemanticResult): LlmService.AnalysisItem {
    LlmService.AnalysisItem(r.requirement, r.coverage, r.similarityScore, Some(r.matchedDesignItems), Some(r.issue))
  }

  function AsAnalysisItems(rs: seq<SemanticResult>): (items: seq<LlmService.AnalysisItem>)
    ensures |items| == |rs|
    ensures forall k :: 0 <= k < |rs| ==> items[k] == AsAnalysisItem(rs[k])
  {
    seq(|rs|, k requires 0 <= k < |rs| => AsAnalysisItem(rs[k]))
  }

  /** The tallies the model is told about are the tallies of the summary. */
  lemma {:induction false} PromptTalliesMatchSummary(rs: seq<SemanticResult>, verdict: string)
    ensures LlmService.CountCoverage(AsAnalysisItems(rs), verdict) == CountCoverage(rs, verdict)
  {
    if rs != [] {
      PromptTalliesMatchSummary(rs[1..], verdict);
      assert AsAnalysisItems(rs)[1..] == AsAnalysisItems(rs[1..]);
    }
  }

  // ---------------------------------------------------------------------
  // The two endpoints
  // ---------------------------------------------------------------------

  /** `analyze_documents`. */
  method AnalyzeDocuments(request: AnalysisRequest, scores: Result<seq<seq<real>>>)
    returns (r: Result<seq<AnalysisResponse>>)
    requires scores.Ok? ==> WellShaped(request, scores.value)
    ensures scores.Err? ==> r == Err(scores.error)
    ensures scores.Ok? ==> r == Ok(Feedback(request, scores.value))
  {
    if scores.Err? {
      return Err(scores.error);
    }
    var matrix := scores.value;
    var feedback := [];
    var i := 0;
    while i < |request.requirements|
      invariant i <= |request.requirements|
      invariant |feedback| == i
      invariant forall k :: 0 <= k < i ==>
                  feedback[k] == Assess(request.requirements[k], SimilarityRow(request, matrix, k), request.threshold)
    {
      var similarityScores := if |request.design| == 0 then [] else matrix[i];
      var maxSim := MaxScore(similarityScores);
      var coverage, issue;
      if maxSim >= request.threshold {
        coverage, issue := PRESENT, "";
      } else {
        coverage, issue := MISSING, NOT_FOUND;
      }
      feedback := feedback + [AnalysisResponse(request.requirements[i], coverage, issue, maxSim)];
      i := i + 1;
    }
    assert feedback == Feedback(request, matrix);
    r := Ok(feedback);
  }

  /**
   * `get_llm_feedback`: the per-requirement results, the model's feedback on
   * them and the summary. With no requirements the feedback service raises
   * `ZeroDivisionError`, so the endpoint fails.
   */
  method GetLlmFeedback(request: AnalysisRequest, scores: Result<seq<seq<real>>>,
                        complete: LlmService.FeedbackPrompt -> LlmService.ModelOutcome)
    returns (r: Result<LlmFeedback>)
    requires scores.Ok? ==> WellShaped(request, scores.value)
    ensures scores.Err? ==> r == Err(scores.error)
    ensures scores.Ok? && |request.requirements| == 0 ==> r == Err(LlmService.ZERO_DIVISION)
    ensures scores.Ok? && |request.requirements| > 0 ==>
              var results := SemanticResults(request, scores.value);
              r == Ok(LlmFeedback(
                     results,
                     LlmService.ReplyText(
                       complete(LlmService.FeedbackPromptFor(request.requirements, request.design, AsAnalysisItems(results))),
                       LlmService.FEEDBACK_ERROR_PREFIX),
                     SummaryOf(request, results)))
  {
    if scores.Err? {
      return Err(scores.error);
    }
    var matrix := scores.value;
    var semanticResults := [];
    var i := 0;
    while i < |request.requirements|
      invariant i <= |request.requirements|
      invariant |semanticResults| == i
      invariant forall k :: 0 <= k < i ==> semanticResults[k] == SemanticResultFor(request, matrix, k)
    {
      var similarityScores, matched;
      if |request.design| == 0 {
        similarityScores, matched := [], [];
      } else {
        similarityScores := matrix[i];
        matched := MatchedDesignItems(request.design, similarityScores, request.threshold);
      }
      var maxSim := MaxScore(similarityScores);
      semanticResults := semanticResults + [SemanticResult(
        request.requirements[i],
        if maxSim >= request.threshold then PRESENT else MISSING,
        if maxSim >= request.threshold then "" else NOT_FOUND,
        maxSim, matched, |request.design|)];
      i := i + 1;
    }
    assert semanticResults == SemanticResults(request, matrix);
    var feedback := LlmService.GenerateImprovedFeedback(request.requirements, request.design,
                                                        AsAnalysisItems(semanticResults), complete);
    if feedback.Err? {
      return Err(feedback.error);
    }
    var summary := Summary(|request.requirements|, |request.design|,
                           CountCoverage(semanticResults, PRESENT), CountCoverage(semanticResults, MISSING));
    r := Ok(LlmFeedback(semanticResults, feedback.value, summary));
  }
}
