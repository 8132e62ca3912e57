/**
 * The analytics app of the Django back end: the risk level shown for an
 * attrition score, the placeholder attrition heuristic that rescores every
 * employee, and the Employee of the Month award.
 */
module Analytics {
  import opened Common
  import opened Dates
  import opened HrRecords
  import Leaves
  import Sentiment

  // ---------------------------------------------------------------------
  // AttritionRiskSerializer.get_risk_level
  // ---------------------------------------------------------------------

  /** High above 0.7, medium above 0.4, low otherwise. */
  function RiskLevelOfScore(riskScore: real): (l: Sentiment.RiskLevel)
    ensures l == Sentiment.High <==> riskScore > 0.7
    ensures l == Sentiment.Medium <==> 0.4 < riskScore <= 0.7
    ensures l == Sentiment.Low <==> riskScore <= 0.4
  {
    if riskScore > 0.7 then Sentiment.High
    else if riskScore > 0.4 then Sentiment.Medium
    else Sentiment.Low
  }

  /** A higher score never shows a lower level. */
  lemma RiskLevelMonotone(s1: real, s2: real)
    requires s1 <= s2
    ensures Sentiment.Rank(RiskLevelOfScore(s1)) <= Sentiment.Rank(RiskLevelOfScore(s2))
  {
  }

  // ---------------------------------------------------------------------
  // Sentiment rows and averages
  // ---------------------------------------------------------------------

  /** An `EmployeeSentiment` row. */
  datatype SentimentRow = SentimentRow(employee: int, date: Date, score: real)

  /** `Avg(...) or 0`: the mean, or 0 for no rows. */
  function Average(xs: seq<real>): real {
    if |xs| == 0 then 0.0 else SumReals(xs) / |xs| as real
  }

  lemma {:induction false} SumWithin(xs: seq<real>, lo: real, hi: real)
    requires forall i :: 0 <= i < |xs| ==> lo <= xs[i] <= hi
    ensures |xs| as real * lo <= SumReals(xs) <= |xs| as real * hi
  {
    if xs != [] {
      SumWithin(xs[..|xs| - 1], lo, hi);
    }
  }

  /** The mean of values in a range stays in that range, when the range holds 0 for the empty case. */
  lemma AverageWithin(xs: seq<real>, lo: real, hi: real)
    requires lo <= 0.0 <= hi
    requires forall i :: 0 <= i < |xs| ==> lo <= xs[i] <= hi
    ensures lo <= Average(xs) <= hi
  {
    if |xs| > 0 {
      SumWithin(xs, lo, hi);
      var n := |xs| as real;
      assert SumReals(xs) / n * n == SumReals(xs);
    }
  }

  /** The scores of one employee's sentiment rows, in table order. */
  function ScoresOf(rows: seq<SentimentRow>, employee: int): (r: seq<real>)
    ensures |r| <= |rows|
    ensures forall x :: x in r ==> exists i :: 0 <= i < |rows| && rows[i].employee == employee && rows[i].score == x
    ensures forall i :: 0 <= i < |rows| && rows[i].employee == employee ==> rows[i].score in r
  {
    if rows == [] then []
    else ScoresOf(rows[..|rows| - 1], employee)
         + (if rows[|rows| - 1].employee == employee then [rows[|rows| - 1].score] else [])
  }

  /** The same, restricted to rows dated in `month` of `year`. */
  function ScoresInMonth(rows: seq<SentimentRow>, employee: int, month: int, year: int): (r: seq<real>)
    ensures |r| <= |rows|
    ensures forall x :: x in r ==> exists i :: 0 <= i < |rows| && rows[i].employee == employee && rows[i].score == x
    ensures forall i :: 0 <= i < |rows| && rows[i].employee == employee
                        && rows[i].date.month == month && rows[i].date.year == year
                        ==> rows[i].score in r
  {
    if rows == [] then []
    else ScoresInMonth(rows[..|rows| - 1], employee, month, year)
         + (var s := rows[|rows| - 1];
            if s.employee == employee && s.date.month == month && s.date.year == year then [s.score] else [])
  }

  /**
   * The scores of two tables read one after the other are the scores of
   * each, in order; with the one-row case this fixes `ScoresOf` completely.
   */
  lemma {:induction false} ScoresOfAppend(a: seq<SentimentRow>, b: seq<SentimentRow>, employee: int)
    ensures ScoresOf(a + b, employee) == ScoresOf(a, employee) + ScoresOf(b, employee)
    decreases |b|
  {
    if b == [] {
      assert a + b == a;
    } else {
      var b' := b[..|b| - 1];
      assert (a + b)[..|a + b| - 1] == a + b';
      assert (a + b)[|a + b| - 1] == b[|b| - 1];
      ScoresOfAppend(a, b', employee);
    }
  }

  /** One row contributes its score exactly when it is the employee's. */
  lemma ScoresOfSingle(s: SentimentRow, employee: int)
    ensures ScoresOf([s], employee) == if s.employee == employee then [s.score] else []
  {
    assert [s][..0] == [];
  }

  /** The month's scores of two tables read one after the other are those of each, in order. */
  lemma {:induction false} ScoresInMonthAppend(a: seq<SentimentRow>, b: seq<SentimentRow>, employee: int, month: int, year: int)
    ensures ScoresInMonth(a + b, employee, month, year)
            == ScoresInMonth(a, employee, month, year) + ScoresInMonth(b, employee, month, year)
    decreases |b|
  {
    if b == [] {
      assert a + b == a;
    } else {
      var b' := b[..|b| - 1];
      assert (a + b)[..|a + b| - 1] == a + b';
      assert (a + b)[|a + b| - 1] == b[|b| - 1];
      ScoresInMonthAppend(a, b', employee, month, year);
    }
  }

  /** One row contributes its score exactly when it is the employee's and dated in the month. */
  lemma ScoresInMonthSingle(s: SentimentRow, employee: int, month: int, year: int)
    ensures ScoresInMonth([s], employee, month, year)
            == if s.employee == employee && s.date.month == month && s.date.year == year then [s.score] else []
  {
    assert [s][..0] == [];
  }

  /** Sentiment scores lie in [-1, 1]. */
  predicate ScoresInRange(rows: seq<SentimentRow>) {
    forall i :: 0 <= i < |rows| ==> -1.0 <= rows[i].score <= 1.0
  }

  // ---------------------------------------------------------------------
  // calculate_attrition
  // ---------------------------------------------------------------------

  const AdviseMonitor := "Monitor employee engagement"
  const AdviseNothing := "No immediate action required"

  /** An `AttritionRisk` row: score, the two recorded factors, and the recommendation. */
  datatype RiskRow = RiskRow(riskScore: real, avgSentiment: real, tenureMonths: int, recommendation: string)

  /** The placeholder heuristic: 0.5, plus 0.3 when average sentiment is below -0.2, capped at 1. */
  function RiskFor(employee: int, sentiments: seq<SentimentRow>): (r: RiskRow)
    ensures r.avgSentiment == Average(ScoresOf(sentiments, employee)) && r.tenureMonths == 12
    ensures r.riskScore == (if r.avgSentiment < -0.2 then 0.8 else 0.5)
    ensures r.recommendation == AdviseMonitor <==> r.avgSentiment < -0.2
    ensures r.recommendation == AdviseMonitor || r.recommendation == AdviseNothing
  {
    var avg := Average(ScoresOf(sentiments, employee));
    var risk := 0.5 + (if avg < -0.2 then 0.3 else 0.0);
    RiskRow(if risk < 1.0 then risk else 1.0, avg, 12, if risk > 0.7 then AdviseMonitor else AdviseNothing)
  }

  /** The heuristic never shows low: negative employees show high, everyone else medium. */
  lemma HeuristicLevels(employee: int, sentiments: seq<SentimentRow>)
    ensures var r := RiskFor(employee, sentiments);
            RiskLevelOfScore(r.riskScore) == (if r.avgSentiment < -0.2 then Sentiment.High else Sentiment.Medium)
  {
  }

  /** The ids of a list of users. */
  function Ids(users: seq<UserRecord>): set<int> {
    set u | u in users :: u.id
  }

  /** The rows `calculate_attrition` writes: one per employee id. */
  function RiskRows(employees: seq<UserRecord>, sentiments: seq<SentimentRow>): map<int, RiskRow> {
    map k | k in Ids(employees) :: RiskFor(k, sentiments)
  }

  /** Taking one more employee into the prefix adds their row. */
  lemma RiskRowsStep(employees: seq<UserRecord>, i: nat, sentiments: seq<SentimentRow>)
    requires i < |employees|
    ensures RiskRows(employees[..i + 1], sentiments)
            == RiskRows(employees[..i], sentiments)[employees[i].id := RiskFor(employees[i].id, sentiments)]
  {
    assert employees[..i + 1] == employees[..i] + [employees[i]];
    assert Ids(employees[..i + 1]) == Ids(employees[..i]) + {employees[i].id};
  }

  /** Writing a key after an override is the same as overriding with the written map. */
  lemma OverrideThenWrite<K, V>(base: map<K, V>, m: map<K, V>, k: K, v: V)
    ensures (base + m)[k := v] == base + m[k := v]
  {
  }

  // ---------------------------------------------------------------------
  // get_employee_of_month
  // ---------------------------------------------------------------------

  /** The tables the award reads. */
  datatype Tables = Tables(
    attendance: seq<AttendanceRow>,
    sentiments: seq<SentimentRow>,
    leaves: seq<Leaves.LeaveRequest>)

  /** All attendance rows of `employee` in the month, whatever their status. */
  function RecordsInMonth(rows: seq<AttendanceRow>, employee: int, month: int, year: int): nat {
    if rows == [] then 0
    else RecordsInMonth(rows[..|rows| - 1], employee, month, year)
         + (if InMonth(rows[|rows| - 1], employee, month, year) then 1 else 0)
  }

  lemma {:induction false} StatusCountWithinRecords(rows: seq<AttendanceRow>, employee: int, month: int, year: int, status: string)
    ensures CountInMonth(rows, employee, month, year, status) <= RecordsInMonth(rows, employee, month, year)
  {
    if rows != [] {
      StatusCountWithinRecords(rows[..|rows| - 1], employee, month, year, status);
    }
  }

  /** Present days as a percentage of recorded days, 0 when nothing is recorded. */
  function AttendancePct(present: nat, total: nat): (pct: real)
    requires present <= total
    ensures 0.0 <= pct <= 100.0
    ensures total == 0 ==> pct == 0.0
    ensures present == total && total > 0 ==> pct == 100.0
  {
    if total > 0 then present as real / total as real * 100.0 else 0.0
  }

  /** Approved leaves of `employee` starting in the month. */
  function ApprovedLeavesStarting(leaves: seq<Leaves.LeaveRequest>, employee: int, month: int, year: int): nat {
    if leaves == [] then 0
    else ApprovedLeavesStarting(leaves[..|leaves| - 1], employee, month, year)
         + (var l := leaves[|leaves| - 1];
            if l.employee == employee && l.startDate.month == month && l.startDate.year == year
               && l.status == Leaves.Approved then 1 else 0)
  }

  /** The weighted score: 40% attendance, 30% sentiment mapped to 0..100, 30% of eight points per leave under twelve. */
  function AwardScore(pct: real, avgSentiment: real, leaves: int): real {
    pct * 0.4 + (avgSentiment + 1.0) * 50.0 * 0.3 + (12 - leaves) as real * 8.0 * 0.3
  }

  /** With sentiment in [-1, 1] and at most twelve leaves, the score lies between 0 and 98.8. */
  lemma AwardScoreBounds(pct: real, avgSentiment: real, leaves: nat)
    requires 0.0 <= pct <= 100.0 && -1.0 <= avgSentiment <= 1.0 && leaves <= 12
    ensures 0.0 <= AwardScore(pct, avgSentiment, leaves) <= 98.8
  {
  }

  /** Each further leave costs 2.4 points; each attendance point is worth 0.4. */
  lemma AwardScoreRates(pct: real, avgSentiment: real, leaves: int)
    ensures AwardScore(pct, avgSentiment, leaves + 1) == AwardScore(pct, avgSentiment, leaves) - 2.4
    ensures AwardScore(pct + 1.0, avgSentiment, leaves) == AwardScore(pct, avgSentiment, leaves) + 0.4
  {
  }

  /** One employee's score for the month. */
  function EmployeeScore(employee: int, month: int, year: int, t: Tables): real {
    var present := CountInMonth(t.attendance, employee, month, year, StatusPresent);
    var total := RecordsInMonth(t.attendance, employee, month, year);
    StatusCountWithinRecords(t.attendance, employee, month, year, StatusPresent);
    AwardScore(AttendancePct(present, total),
               Average(ScoresInMonth(t.sentiments, employee, month, year)),
               ApprovedLeavesStarting(t.leaves, employee, month, year))
  }

  /** With sentiment scores in [-1, 1] and at most twelve approved leaves, an employee's score lies in [0, 98.8]. */
  lemma EmployeeScoreBounds(employee: int, month: int, year: int, t: Tables)
    requires ScoresInRange(t.sentiments)
    requires ApprovedLeavesStarting(t.leaves, employee, month, year) <= 12
    ensures 0.0 <= EmployeeScore(employee, month, year, t) <= 98.8
  {
    var xs := ScoresInMonth(t.sentiments, employee, month, year);
    forall i | 0 <= i < |xs| ensures -1.0 <= xs[i] <= 1.0 {
      assert xs[i] in xs;
    }
    AverageWithin(xs, -1.0, 1.0);
    var present := CountInMonth(t.attendance, employee, month, year, StatusPresent);
    var total := RecordsInMonth(t.attendance, employee, month, year);
    StatusCountWithinRecords(t.attendance, employee, month, year, StatusPresent);
    AwardScoreBounds(AttendancePct(present, total), Average(xs), ApprovedLeavesStarting(t.leaves, employee, month, year));
  }

  /** `x` to one decimal place, ties to even, as a number of tenths. */
  function Tenths(x: real): (n: int)
    ensures -0.5 <= n as real - x * 10.0 <= 0.5
  {
    var y := x * 10.0;
    var f := y.Floor;
    var frac := y - f as real;
    if frac < 0.5 then f
    else if frac > 0.5 then f + 1
    else if f % 2 == 0 then f else f + 1
  }

  /** `format(x, '.1f')`: sign, whole part, a point and one digit. */
  function Fixed1Text(x: real): (s: string)
    ensures |s| >= 3 && s[|s| - 2] == '.' && '0' <= s[|s| - 1] <= '9'
    ensures s[0] == '-' <==> x < 0.0
  {
    var n := Tenths(x);
    var a := if n < 0 then -n else n;
    (if x < 0.0 then "-" else "") + NatToString(a / 10) + "." + [DigitChar(a % 10)]
  }

  const AwardMonth := "month"
  const ReasonPrefix := "Top performer with score "

  /** An `EmployeeAward` row. */
  datatype Award = Award(employee: int, awardType: string, month: Option<int>, year: int, reason: string)

  /** The award a new winner receives. */
  function MonthAward(employee: int, month: int, year: int, score: real): (a: Award)
    ensures a.awardType == AwardMonth && a.month == Some(month) && a.year == year && a.employee == employee
    ensures |a.reason| > |ReasonPrefix| && a.reason[..|ReasonPrefix|] == ReasonPrefix
  {
    Award(employee, AwardMonth, Some(month), year, ReasonPrefix + Fixed1Text(score))
  }

  predicate IsMonthAward(a: Award, month: int, year: int) {
    a.awardType == AwardMonth && a.month == Some(month) && a.year == year
  }

  /** `.filter(award_type='month', month=…, year=…).first()` with awards ordered newest first: the last matching row created. */
  function LatestAward(awards: seq<Award>, month: int, year: int): (r: Option<Award>)
    ensures r.None? <==> forall i :: 0 <= i < |awards| ==> !IsMonthAward(awards[i], month, year)
    ensures r.Some? ==> r.value in awards && IsMonthAward(r.value, month, year)
  {
    if awards == [] then None
    else if IsMonthAward(awards[|awards| - 1], month, year) then Some(awards[|awards| - 1])
    else LatestAward(awards[..|awards| - 1], month, year)
  }

  /** Answers of the award endpoint: an award already given, a new award with its score, or 404. */
  datatype AwardOutcome = Existing(award: Award) | Awarded(award: Award, score: real) | NoEligibleEmployees

  /** `w` is the first employee with the highest score, the one `max(scores, key=scores.get)` picks. */
  predicate FirstBest(es: seq<UserRecord>, w: int, month: int, year: int, t: Tables) {
    0 <= w < |es|
    && (forall j :: 0 <= j < |es| ==> EmployeeScore(es[j].id, month, year, t) <= EmployeeScore(es[w].id, month, year, t))
    && (forall j :: 0 <= j < w ==> EmployeeScore(es[j].id, month, year, t) < EmployeeScore(es[w].id, month, year, t))
  }

  /** The award goes to the first best employee `w`, with their score in the reason. */
  predicate Winner(es: seq<UserRecord>, w: int, month: int, year: int, t: Tables, award: Award, score: real) {
    FirstBest(es, w, month, year, t)
    && score == EmployeeScore(es[w].id, month, year, t)
    && award == MonthAward(es[w].id, month, year, score)
  }

  /** There is one first best employee at most. */
  lemma FirstBestUnique(es: seq<UserRecord>, w1: int, w2: int, month: int, year: int, t: Tables)
    requires FirstBest(es, w1, month, year, t) && FirstBest(es, w2, month, year, t)
    ensures w1 == w2
  {
    var s1, s2 := EmployeeScore(es[w1].id, month, year, t), EmployeeScore(es[w2].id, month, year, t);
    assert s1 == s2;
  }

  /** The loop of `max(scores, key=scores.get)`: a later employee replaces the best only with a strictly higher score. */
  method FirstBestIndex(es: seq<UserRecord>, month: int, year: int, t: Tables) returns (best: int, bestScore: real)
    requires es != []
    ensures FirstBest(es, best, month, year, t)
    ensures bestScore == EmployeeScore(es[best].id, month, year, t)
  {
    best := 0;
    bestScore := EmployeeScore(es[0].id, month, year, t);
    var i := 1;
    while i < |es|
      invariant 1 <= i <= |es|
      invariant 0 <= best < i && bestScore == EmployeeScore(es[best].id, month, year, t)
      invariant forall j :: 0 <= j < i ==> EmployeeScore(es[j].id, month, year, t) <= bestScore
      invariant forall j :: 0 <= j < best ==> EmployeeScore(es[j].id, month, year, t) < bestScore
    {
      var s := EmployeeScore(es[i].id, month, year, t);
      if s > bestScore {
        best, bestScore := i, s;
      }
      i := i + 1;
    }
  }

  class AnalyticsStore {
    /** Attrition rows by employee id (`update_or_create` keeps one per employee). */
    var risks: map<int, RiskRow>
    /** Award rows in creation order. */
    var awards: seq<Award>

    constructor(risks: map<int, RiskRow>, awards: seq<Award>)
      ensures this.risks == risks && this.awards == awards
    {
      this.risks := risks;
      this.awards := awards;
    }

    /**
     * `POST calculate-attrition`: every employee's row is written afresh,
     * other rows stay, and the answer counts the employees.
     */
    method CalculateAttrition(users: seq<UserRecord>, sentiments: seq<SentimentRow>) returns (analyzed: nat)
      modifies this
      ensures analyzed == |WithRoleEmployee(users)|
      ensures risks == old(risks) + RiskRows(WithRoleEmployee(users), sentiments)
      ensures awards == old(awards)
    {
      var employees := WithRoleEmployee(users);
      analyzed := 0;
      var i := 0;
      while i < |employees|
        invariant 0 <= i <= |employees| && analyzed == i
        invariant risks == old(risks) + RiskRows(employees[..i], sentiments)
        invariant awards == old(awards)
      {
        var e := employees[i];
        RiskRowsStep(employees, i, sentiments);
        OverrideThenWrite(old(risks), RiskRows(employees[..i], sentiments), e.id, RiskFor(e.id, sentiments));
        risks := risks[e.id := RiskFor(e.id, sentiments)];
        analyzed := analyzed + 1;
        i := i + 1;
      }
      assert employees[..i] == employees;
    }

    /**
     * `GET employee-of-month`: an award already given for the month is
     * returned as it is; otherwise the first employee with the highest
     * score gets a new award, and with no employees the answer is 404.
     */
    method EmployeeOfMonth(month: int, year: int, users: seq<UserRecord>, t: Tables) returns (outcome: AwardOutcome)
      modifies this
      ensures risks == old(risks)
      ensures LatestAward(old(awards), month, year).Some? ==>
                outcome == Existing(LatestAward(old(awards), month, year).value) && awards == old(awards)
      ensures LatestAward(old(awards), month, year).None? && WithRoleEmployee(users) == [] ==>
                outcome == NoEligibleEmployees && awards == old(awards)
      ensures LatestAward(old(awards), month, year).None? && WithRoleEmployee(users) != [] ==>
                outcome.Awarded? && awards == old(awards) + [outcome.award]
                && exists w :: Winner(WithRoleEmployee(users), w, month, year, t, outcome.award, outcome.score)
    {
      var existing := LatestAward(awards, month, year);
      if existing.Some? {
        return Existing(existing.value);
      }
      var employees := WithRoleEmployee(users);
      if employees == [] {
        return NoEligibleEmployees;
      }
      var best, bestScore := FirstBestIndex(employees, month, year, t);
      var award := MonthAward(employees[best].id, month, year, bestScore);
      awards := awards + [award];
      outcome := Awarded(award, bestScore);
      assert Winner(employees, best, month, year, t, award, bestScore);
    }
  }
}
