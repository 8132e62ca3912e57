/**
 * The keyword and threshold scorers behind leave requests: the burnout flag
 * and risk level of a leave reason with the recommendations built from them,
 * the label-and-flag analyser of free text, and the additive attrition score
 * of an employee. Text polarity and subjectivity come from a sentiment
 * library the model does not include; they are inputs here.
 */
module Sentiment {
  import opened Common
  import opened Dates

  datatype RiskLevel = Low | Medium | High

  /** Risk levels in increasing order of concern. */
  function Rank(l: RiskLevel): nat {
    match l
    case Low => 0
    case Medium => 1
    case High => 2
  }

  // ---------------------------------------------------------------------
  // Keyword search

  /** The words whose presence in a leave reason flags a burnout risk. */
  const LeaveBurnoutKeywords: seq<string> := [
    "stress", "stressed", "overwhelmed", "exhausted", "burnout",
    "tired", "anxiety", "anxious", "pressure", "cannot cope",
    "mental health", "depression", "depressed", "breakdown"
  ]

  /** The words the free-text analyser looks for. */
  const TextBurnoutKeywords: seq<string> := [
    "stress", "burnout", "exhausted", "overwhelmed", "tired",
    "mental health", "anxiety", "depression", "pressure", "overworked"
  ]

  /** Some keyword of the list occurs in `text`, the list scanned in order. */
  function AnyKeywordIn(keywords: seq<string>, text: string): bool
    decreases |keywords|
  {
    if keywords == [] then false
    else Contains(keywords[0], text) || AnyKeywordIn(keywords[1..], text)
  }

  /** One of the keywords is a substring of the text. */
  ghost predicate HasKeyword(keywords: seq<string>, text: string) {
    exists k, i :: k in keywords && OccursAt(k, text, i)
  }

  /** The scan succeeds exactly when one of the keywords is a substring of the text. */
  lemma {:induction false} AnyKeywordInIff(keywords: seq<string>, text: string)
    ensures AnyKeywordIn(keywords, text) <==> HasKeyword(keywords, text)
    decreases |keywords|
  {
    if keywords != [] {
      AnyKeywordInIff(keywords[1..], text);
      ContainsIff(keywords[0], text);
      if AnyKeywordIn(keywords, text) {
        if Contains(keywords[0], text) {
          var i :| OccursAt(keywords[0], text, i);
          assert keywords[0] in keywords;
        } else {
          var k, i :| k in keywords[1..] && OccursAt(k, text, i);
          assert k in keywords;
        }
      }
    }
  }

  /** Lower-casing forgets the case a letter had. */
  lemma LowerOfUpper(s: string)
    ensures Lower(Upper(s)) == Lower(s)
  {
    assert forall i :: 0 <= i < |s| ==> Lower(Upper(s))[i] == LowerChar(UpperChar(s[i]));
  }

  // ---------------------------------------------------------------------
  // Leave reasons (Backend/leaves/ml_sentiment.py)

  /** What `analyze_leave_sentiment` returns. */
  datatype LeaveSentiment = LeaveSentiment(polarity: real, subjectivity: real, riskLevel: RiskLevel, burnoutRisk: bool)

  /** The risk level of a polarity: high below -0.3, medium below 0, low from 0 on. */
  function LeaveRiskLevel(polarity: real): (r: RiskLevel)
    ensures r == High <==> polarity < -0.3
    ensures r == Medium <==> -0.3 <= polarity < 0.0
    ensures r == Low <==> 0.0 <= polarity
  {
    if polarity < -0.3 then High else if polarity < 0.0 then Medium else Low
  }

  /** A more negative polarity never gives a lower risk level. */
  lemma LeaveRiskLevelAntitone(p1: real, p2: real)
    requires p1 <= p2
    ensures Rank(LeaveRiskLevel(p2)) <= Rank(LeaveRiskLevel(p1))
  {
  }

  /**
   * `analyze_leave_sentiment`: polarity and subjectivity pass through, the
   * level follows the polarity, and the burnout flag is set exactly when a
   * keyword occurs in the lower-cased reason.
   */
  function AnalyzeLeaveSentiment(reason: string, polarity: real, subjectivity: real): (s: LeaveSentiment)
    ensures s.polarity == polarity && s.subjectivity == subjectivity
    ensures s.riskLevel == LeaveRiskLevel(polarity)
    ensures s.burnoutRisk <==> HasKeyword(LeaveBurnoutKeywords, Lower(reason))
  {
    AnyKeywordInIff(LeaveBurnoutKeywords, Lower(reason));
    LeaveSentiment(polarity, subjectivity, LeaveRiskLevel(polarity), AnyKeywordIn(LeaveBurnoutKeywords, Lower(reason)))
  }

  /** The flag does not depend on the case the reason is written in. */
  lemma LeaveBurnoutIgnoresCase(reason: string, polarity: real, subjectivity: real)
    ensures AnalyzeLeaveSentiment(Upper(reason), polarity, subjectivity).burnoutRisk
            == AnalyzeLeaveSentiment(reason, polarity, subjectivity).burnoutRisk
  {
    LowerOfUpper(reason);
  }

  const RecommendWellnessCheckIn := "\U{26A0}\U{FE0F} Burnout risk detected - Schedule wellness check-in"
  const RecommendMentalHealthSupport := "Consider mental health support resources"
  const RecommendImmediateAttention := "High negative sentiment - Immediate attention required"
  const RecommendReviewWorkload := "Review workload and stress factors"
  const RecommendExtendedLeave := "Very negative sentiment - Consider extended leave approval"

  /** The recommendations for one analysis: two for burnout, two for high risk, one for very negative polarity, in that order. */
  function RecommendationsFor(s: LeaveSentiment): seq<string> {
    (if s.burnoutRisk then [RecommendWellnessCheckIn, RecommendMentalHealthSupport] else [])
    + (if s.riskLevel == High then [RecommendImmediateAttention, RecommendReviewWorkload] else [])
    + (if s.polarity < -0.5 then [RecommendExtendedLeave] else [])
  }

  /** `get_sentiment_recommendation`: the list is built by appending entry by entry. */
  method GetSentimentRecommendation(s: LeaveSentiment) returns (recommendations: seq<string>)
    ensures recommendations == RecommendationsFor(s)
    ensures |recommendations| == (if s.burnoutRisk then 2 else 0) + (if s.riskLevel == High then 2 else 0)
                                 + (if s.polarity < -0.5 then 1 else 0)
  {
    recommendations := [];
    if s.burnoutRisk {
      recommendations := recommendations + [RecommendWellnessCheckIn];
      recommendations := recommendations + [RecommendMentalHealthSupport];
    }
    if s.riskLevel == High {
      recommendations := recommendations + [RecommendImmediateAttention];
      recommendations := recommendations + [RecommendReviewWorkload];
    }
    if s.polarity < -0.5 {
      recommendations := recommendations + [RecommendExtendedLeave];
    }
  }

  /** A very negative reason always draws the two high-risk entries and the extended-leave one, last. */
  lemma VeryNegativeGetsThree(reason: string, polarity: real, subjectivity: real)
    requires polarity < -0.5
    ensures var r := RecommendationsFor(AnalyzeLeaveSentiment(reason, polarity, subjectivity));
            |r| >= 3 && r[|r| - 1] == RecommendExtendedLeave
            && r[|r| - 3] == RecommendImmediateAttention && r[|r| - 2] == RecommendReviewWorkload
  {
    var s := AnalyzeLeaveSentiment(reason, polarity, subjectivity);
    assert s.riskLevel == High;
    var burnout: seq<string> := if s.burnoutRisk then [RecommendWellnessCheckIn, RecommendMentalHealthSupport] else [];
    assert RecommendationsFor(s) == burnout + [RecommendImmediateAttention, RecommendReviewWorkload, RecommendExtendedLeave];
  }

  /** No recommendation at all exactly when no keyword occurs and the polarity is -0.3 or more
      (a medium risk alone draws none). */
  lemma NoRecommendationsIff(reason: string, polarity: real, subjectivity: real)
    ensures RecommendationsFor(AnalyzeLeaveSentiment(reason, polarity, subjectivity)) == []
            <==> !AnalyzeLeaveSentiment(reason, polarity, subjectivity).burnoutRisk && polarity >= -0.3
  {
  }

  // ---------------------------------------------------------------------
  // Free text (Backend/leaves/ml_utils.py)

  datatype Label = Positive | Negative | Neutral

  /** What `analyze_sentiment` returns: score, label, burnout flag. */
  datatype TextSentiment = TextSentiment(score: real, sentimentLabel: Label, burnoutRisk: bool)

  /** Positive above 0.1, negative below -0.1, neutral in between and at both bounds. */
  function LabelOf(score: real): (l: Label)
    ensures l == Positive <==> score > 0.1
    ensures l == Negative <==> score < -0.1
    ensures l == Neutral <==> -0.1 <= score <= 0.1
  {
    if score > 0.1 then Positive else if score < -0.1 then Negative else Neutral
  }

  /**
   * `analyze_sentiment`: absent or empty text is neutral with score 0 and no
   * flag; otherwise the score is the polarity, labelled by its thresholds, and
   * the flag says whether a keyword occurs in the lower-cased text.
   */
  function AnalyzeSentiment(text: Option<string>, polarity: real): (r: TextSentiment)
    ensures text == None || text == Some("") ==> r == TextSentiment(0.0, Neutral, false)
    ensures text.Some? && text.value != "" ==>
              r.score == polarity && r.sentimentLabel == LabelOf(polarity)
              && (r.burnoutRisk <==> HasKeyword(TextBurnoutKeywords, Lower(text.value)))
  {
    match text
    case None => TextSentiment(0.0, Neutral, false)
    case Some(t) =>
      if t == "" then TextSentiment(0.0, Neutral, false)
      else
        AnyKeywordInIff(TextBurnoutKeywords, Lower(t));
        TextSentiment(polarity, LabelOf(polarity), AnyKeywordIn(TextBurnoutKeywords, Lower(t)))
  }

  /** Every keyword of the free-text list but "overworked" is also a leave-reason keyword. */
  lemma SharedKeywords()
    ensures forall k :: k in TextBurnoutKeywords && k != "overworked" ==> k in LeaveBurnoutKeywords
  {
  }

  /** So the two flags can only disagree on a text that says "overworked" or uses one of the leave
      list's extra words ("stressed", "anxious", "cannot cope", "depressed", "breakdown"). */
  lemma TextFlagImpliesLeaveFlag(text: string)
    requires HasKeyword(TextBurnoutKeywords, Lower(text))
    ensures HasKeyword(LeaveBurnoutKeywords, Lower(text)) || exists i :: OccursAt("overworked", Lower(text), i)
  {
    var k, i :| k in TextBurnoutKeywords && OccursAt(k, Lower(text), i);
    SharedKeywords();
    if k != "overworked" {
      assert k in LeaveBurnoutKeywords;
    }
  }

  /** The label never goes down as the score goes up. */
  lemma LabelMonotone(s1: real, s2: real)
    requires s1 <= s2
    ensures LabelOf(s1) == Positive ==> LabelOf(s2) == Positive
    ensures LabelOf(s2) == Negative ==> LabelOf(s1) == Negative
  {
  }

  // ---------------------------------------------------------------------
  // Attrition score (Backend/leaves/ml_utils.py)

  /** Whole months of tenure: days floor-divided by 30 (Python's `//`, which `/` matches for a positive divisor). */
  function TenureMonths(tenureDays: int): int {
    tenureDays / 30
  }

  function TenureWeight(tenureMonths: int): (w: int)
    ensures w == 30 <==> tenureMonths < 6
    ensures w == 20 <==> 6 <= tenureMonths < 12
    ensures w == 0 <==> tenureMonths >= 12
  {
    if tenureMonths < 6 then 30 else if tenureMonths < 12 then 20 else 0
  }

  /** The score as the sum of the four independent weights. */
  function AttritionScore(tenureDays: int, recentLeaves: nat, latestTrend: Option<string>, basicSalary: real): (score: int)
    ensures 0 <= score <= 100
  {
    TenureWeight(TenureMonths(tenureDays))
    + (if recentLeaves > 5 then 25 else 0)
    + (if latestTrend == Some("declining") then 30 else 0)
    + (if basicSalary < 30000.0 then 15 else 0)
  }

  function AttritionLevel(score: int): (l: RiskLevel)
    ensures l == High <==> score >= 60
    ensures l == Medium <==> 30 <= score < 60
    ensures l == Low <==> score < 30
  {
    if score >= 60 then High else if score >= 30 then Medium else Low
  }

  const AdviseIntervention := "Immediate intervention required. Schedule 1-on-1 meeting."
  const AdviseMonitoring := "Monitor closely. Consider career development discussion."
  const AdviseEngagement := "Continue regular engagement."

  function AttritionRecommendation(l: RiskLevel): string {
    match l
    case High => AdviseIntervention
    case Medium => AdviseMonitoring
    case Low => AdviseEngagement
  }

  /**
   * `calculate_attrition_risk` given its facts: the employee's join date and
   * today (both from the clock and the user row), the number of leave
   * requests in the last 90 days, the trend of the latest sentiment row (if
   * any) and the basic salary. The score is accumulated factor by factor.
   */
  method CalculateAttritionRisk(today: Date, joined: Date, recentLeaves: nat, latestTrend: Option<string>, basicSalary: real)
    returns (riskScore: int, riskLevel: RiskLevel, recommendation: string)
    requires Valid(today) && Valid(joined)
    ensures riskScore == AttritionScore(DaysBetween(joined, today), recentLeaves, latestTrend, basicSalary)
    ensures 0 <= riskScore <= 100
    ensures riskLevel == AttritionLevel(riskScore)
    ensures recommendation == AttritionRecommendation(riskLevel)
  {
    riskScore := 0;
    var tenureDays := DaysBetween(joined, today);
    var tenureMonths := tenureDays / 30;
    if tenureMonths < 6 {
      riskScore := riskScore + 30;
    } else if tenureMonths < 12 {
      riskScore := riskScore + 20;
    }
    assert riskScore == TenureWeight(TenureMonths(tenureDays));
    if recentLeaves > 5 {
      riskScore := riskScore + 25;
    }
    var sofar := riskScore;
    if latestTrend == Some("declining") {
      riskScore := riskScore + 30;
    }
    assert riskScore == sofar + if latestTrend == Some("declining") then 30 else 0;
    if basicSalary < 30000.0 {
      riskScore := riskScore + 15;
    }
    if riskScore >= 60 {
      riskLevel := High;
      recommendation := AdviseIntervention;
    } else if riskScore >= 30 {
      riskLevel := Medium;
      recommendation := AdviseMonitoring;
    } else {
      riskLevel := Low;
      recommendation := AdviseEngagement;
    }
  }

  /** A shorter tenure, more recent leaves, a declining trend or a lower salary never lower the score. */
  lemma AttritionScoreMonotone(d1: int, d2: int, l1: nat, l2: nat, t1: Option<string>, t2: Option<string>, b1: real, b2: real)
    requires d1 <= d2 && l2 <= l1 && b1 <= b2
    requires t2 == Some("declining") ==> t1 == Some("declining")
    ensures AttritionScore(d2, l2, t2, b2) <= AttritionScore(d1, l1, t1, b1)
  {
    assert TenureMonths(d1) <= TenureMonths(d2);
  }

  /** A higher score never gives a lower level. */
  lemma AttritionLevelMonotone(s1: int, s2: int)
    requires s1 <= s2
    ensures Rank(AttritionLevel(s1)) <= Rank(AttritionLevel(s2))
  {
  }

  /** The number of factors that add to the score. */
  function ActiveFactors(tenureDays: int, recentLeaves: nat, latestTrend: Option<string>, basicSalary: real): nat {
    (if TenureMonths(tenureDays) < 12 then 1 else 0)
    + (if recentLeaves > 5 then 1 else 0)
    + (if latestTrend == Some("declining") then 1 else 0)
    + (if basicSalary < 30000.0 then 1 else 0)
  }

  /** No single factor reaches the high level: each weight is at most 30, so it takes two. */
  lemma HighNeedsTwoFactors(tenureDays: int, recentLeaves: nat, latestTrend: Option<string>, basicSalary: real)
    requires AttritionLevel(AttritionScore(tenureDays, recentLeaves, latestTrend, basicSalary)) == High
    ensures ActiveFactors(tenureDays, recentLeaves, latestTrend, basicSalary) >= 2
  {
  }
}
