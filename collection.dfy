/**
 * Collection optimisation (AICollectionOptimizationService): per-branch
 * recovery rate and portfolio at risk with a performance category, the
 * villages and addresses where defaults concentrate, the forecast of next
 * month's collection, and the recommendations drawn from all of these.
 *
 * The rows the service loads (branches with their members' loans and those
 * loans' installments, members with their loans, installments with their
 * member's branch) are given as sequences; the clock is the parameter `now`.
 */
module Collection {
  import opened Domain
  import Codes
  import Sorting

  // ---------------------------------------------------------------------------
  // Branch performance

  /** A loan with its installments. */
  datatype LoanRecord = LoanRecord(loan: Loan, installments: seq<Installment>)

  /** A branch with the loans of its members. */
  datatype BranchRecord = BranchRecord(branchId: Id, branchName: string, loans: seq<LoanRecord>)

  datatype BranchCategory = Excellent | Good | NeedsImprovement | Critical

  datatype Issue = LowRecoveryRate(rate: real) | HighPar(par: real)

  datatype Strength = ExcellentRecoveryRate(rate: real) | LowPar(par: real)

  datatype BranchInsight = BranchInsight(
    branchId: Id,
    branchName: string,
    recoveryRate: real,
    portfolioAtRisk: real,
    category: BranchCategory,
    issues: seq<Issue>,
    strengths: seq<Strength>)

  /** A loan some installment of which is more than 30 days late and not paid. */
  predicate Overdue(l: LoanRecord)
  {
    exists i :: i in l.installments && i.lateDays > 30 && i.status != Paid
  }

  function DueOf(l: LoanRecord): real { l.loan.totalPayable }

  function PaidOf(l: LoanRecord): real { l.loan.paidAmount }

  /** The balance of an overdue loan, 0 for the others. */
  function AtRiskOf(l: LoanRecord): real { if Overdue(l) then l.loan.remainingBalance else 0.0 }

  /** The balance of an active loan, 0 for the others. */
  function OutstandingOf(l: LoanRecord): real { if l.loan.status == Active then l.loan.remainingBalance else 0.0 }

  function SumOf(ls: seq<LoanRecord>, f: LoanRecord -> real): real
  {
    if ls == [] then 0.0 else SumOf(ls[..|ls| - 1], f) + f(ls[|ls| - 1])
  }

  /** `part / whole * 100`, or 0 when the whole is not positive. */
  function Percent(part: real, whole: real): real
  {
    if whole > 0.0 then part / whole * 100.0 else 0.0
  }

  function RecoveryRate(ls: seq<LoanRecord>): real
  {
    Percent(SumOf(ls, PaidOf), SumOf(ls, DueOf))
  }

  function PortfolioAtRisk(ls: seq<LoanRecord>): real
  {
    Percent(SumOf(ls, AtRiskOf), SumOf(ls, OutstandingOf))
  }

  /** The category of a branch: each branch gets exactly one. */
  function Classify(rate: real, par: real): (c: BranchCategory)
    ensures c == Excellent <==> rate >= 90.0 && par < 5.0
    ensures c == Good <==> !(rate >= 90.0 && par < 5.0) && rate >= 75.0 && par < 10.0
    ensures c == NeedsImprovement <==> (rate < 75.0 || par >= 10.0) && rate >= 60.0
    ensures c == Critical <==> rate < 60.0
  {
    if rate >= 90.0 && par < 5.0 then Excellent
    else if rate >= 75.0 && par < 10.0 then Good
    else if rate >= 60.0 then NeedsImprovement
    else Critical
  }

  function IssuesOf(rate: real, par: real): seq<Issue>
  {
    (if rate < 70.0 then [LowRecoveryRate(rate)] else []) + (if par > 10.0 then [HighPar(par)] else [])
  }

  function StrengthsOf(rate: real, par: real): seq<Strength>
  {
    (if rate > 90.0 then [ExcellentRecoveryRate(rate)] else []) + (if par < 5.0 then [LowPar(par)] else [])
  }

  function InsightOf(b: BranchRecord): BranchInsight
  {
    var rate := RecoveryRate(b.loans);
    var par := PortfolioAtRisk(b.loans);
    BranchInsight(b.branchId, b.branchName, rate, par, Classify(rate, par), IssuesOf(rate, par), StrengthsOf(rate, par))
  }

  /** The branches asked for: all of them, or the one with the given id. */
  function Selected(branches: seq<BranchRecord>, branchId: Option<Id>): (r: seq<BranchRecord>)
    ensures forall b :: b in r <==> b in branches && (branchId.None? || b.branchId == branchId.value)
  {
    if branches == [] then []
    else
      var b := branches[|branches| - 1];
      assert branches == branches[..|branches| - 1] + [b];
      Selected(branches[..|branches| - 1], branchId) + (if branchId.None? || b.branchId == branchId.value then [b] else [])
  }

  /** The insights of the branches that have loans, in order. */
  function Insights(bs: seq<BranchRecord>): seq<BranchInsight>
  {
    if bs == [] then []
    else
      var b := bs[|bs| - 1];
      Insights(bs[..|bs| - 1]) + (if b.loans != [] then [InsightOf(b)] else [])
  }

  /** Exactly the branches with loans have an insight. */
  lemma {:induction false} InsightsCover(bs: seq<BranchRecord>, id: Id)
    ensures (exists k :: 0 <= k < |Insights(bs)| && Insights(bs)[k].branchId == id)
      <==> (exists j :: 0 <= j < |bs| && bs[j].branchId == id && bs[j].loans != [])
    decreases |bs|
  {
    if bs != [] {
      var n := |bs| - 1;
      var init := bs[..n];
      InsightsCover(init, id);
      var before := Insights(init);
      var after := Insights(bs);
      assert after == before + (if bs[n].loans != [] then [InsightOf(bs[n])] else []);
      if exists k :: 0 <= k < |after| && after[k].branchId == id {
        var k :| 0 <= k < |after| && after[k].branchId == id;
        if k < |before| {
          assert before[k] == after[k];
          var j :| 0 <= j < n && init[j].branchId == id && init[j].loans != [];
          assert bs[j] == init[j];
        }
      }
      if exists j :: 0 <= j < |bs| && bs[j].branchId == id && bs[j].loans != [] {
        var j :| 0 <= j < |bs| && bs[j].branchId == id && bs[j].loans != [];
        if j < n {
          assert init[j] == bs[j];
          var k :| 0 <= k < |before| && before[k].branchId == id;
          assert after[k] == before[k];
        } else {
          assert after[|before|] == InsightOf(bs[n]);
        }
      }
    }
  }

  lemma InsightsSnoc(bs: seq<BranchRecord>, i: nat)
    requires i < |bs|
    ensures Insights(bs[..i + 1]) == Insights(bs[..i]) + (if bs[i].loans != [] then [InsightOf(bs[i])] else [])
  {
    assert bs[..i + 1][..i] == bs[..i];
  }

  /** The insight of a branch with loans, computed as `GetBranchInsightsAsync` does. */
  method BranchInsightOf(b: BranchRecord) returns (insight: BranchInsight)
    ensures insight == InsightOf(b)
  {
    var totalDue := SumOf(b.loans, DueOf);
    var totalPaid := SumOf(b.loans, PaidOf);
    var recoveryRate := if totalDue > 0.0 then totalPaid / totalDue * 100.0 else 0.0;
    var parValue := SumOf(b.loans, AtRiskOf);
    var totalOutstanding := SumOf(b.loans, OutstandingOf);
    var par := if totalOutstanding > 0.0 then parValue / totalOutstanding * 100.0 else 0.0;
    var issues, strengths := [], [];
    if recoveryRate < 70.0 {
      issues := issues + [LowRecoveryRate(recoveryRate)];
    } else if recoveryRate > 90.0 {
      strengths := strengths + [ExcellentRecoveryRate(recoveryRate)];
    }
    if par > 10.0 {
      issues := issues + [HighPar(par)];
    } else if par < 5.0 {
      strengths := strengths + [LowPar(par)];
    }
    var category;
    if recoveryRate >= 90.0 && par < 5.0 {
      category := Excellent;
    } else if recoveryRate >= 75.0 && par < 10.0 {
      category := Good;
    } else if recoveryRate >= 60.0 {
      category := NeedsImprovement;
    } else {
      category := Critical;
    }
    insight := BranchInsight(b.branchId, b.branchName, recoveryRate, par, category, issues, strengths);
  }

  /** The loop of `GetBranchInsightsAsync`: branches without loans are skipped. */
  method CollectInsights(branches: seq<BranchRecord>) returns (insights: seq<BranchInsight>)
    ensures insights == Insights(branches)
  {
    insights := [];
    var i := 0;
    while i < |branches|
      invariant 0 <= i <= |branches|
      invariant insights == Insights(branches[..i])
    {
      InsightsSnoc(branches, i);
      if branches[i].loans != [] {
        var insight := BranchInsightOf(branches[i]);
        insights := insights + [insight];
      }
      i := i + 1;
    }
    assert branches[..|branches|] == branches;
  }

  function RateKey(i: BranchInsight): real { i.recoveryRate }

  /** `GetBranchInsightsAsync`: the insights of the selected branches, lowest recovery rate first. */
  method GetBranchInsights(branches: seq<BranchRecord>, branchId: Option<Id>) returns (r: seq<BranchInsight>)
    ensures r == Sorting.SortBy(Insights(Selected(branches, branchId)), RateKey)
  {
    var selected := Selected(branches, branchId);
    var insights := CollectInsights(selected);
    r := Sorting.SortBy(insights, RateKey);
  }

  /** The insights are ordered by recovery rate, lowest first, and are those of the selected branches, each kept as often as it occurs. */
  lemma BranchInsightsOrdered(branches: seq<BranchRecord>, branchId: Option<Id>)
    ensures var r := Sorting.SortBy(Insights(Selected(branches, branchId)), RateKey);
      && multiset(r) == multiset(Insights(Selected(branches, branchId)))
      && forall i, j :: 0 <= i < j < |r| ==> r[i].recoveryRate <= r[j].recoveryRate
  {
    var r := Sorting.SortBy(Insights(Selected(branches, branchId)), RateKey);
    forall i, j | 0 <= i < j < |r|
      ensures r[i].recoveryRate <= r[j].recoveryRate
    {
      assert RateKey(r[i]) <= RateKey(r[j]);
    }
  }

  /** `GetUnderperformingBranchesAsync`: the insights of category NeedsImprovement or Critical, in order. */
  function Underperforming(insights: seq<BranchInsight>): (r: seq<BranchInsight>)
    ensures forall x :: x in r <==> x in insights && (x.category == NeedsImprovement || x.category == Critical)
  {
    if insights == [] then []
    else
      var i := insights[|insights| - 1];
      assert insights == insights[..|insights| - 1] + [i];
      Underperforming(insights[..|insights| - 1]) + (if i.category == NeedsImprovement || i.category == Critical then [i] else [])
  }

  /** A branch underperforms exactly when its recovery rate is below 75 or its portfolio at risk at least 10. */
  lemma {:induction false} UnderperformingMembers(insights: seq<BranchInsight>, x: BranchInsight)
    requires forall k :: 0 <= k < |insights| ==> insights[k].category == Classify(insights[k].recoveryRate, insights[k].portfolioAtRisk)
    ensures x in Underperforming(insights) <==> x in insights && (x.recoveryRate < 75.0 || x.portfolioAtRisk >= 10.0)
    decreases |insights|
  {
    if insights != [] {
      var init := insights[..|insights| - 1];
      UnderperformingMembers(init, x);
      assert insights == init + [insights[|insights| - 1]];
    }
  }

  /** Every insight's category is the one its figures call for. */
  lemma {:induction false} InsightsClassified(bs: seq<BranchRecord>)
    ensures forall k :: 0 <= k < |Insights(bs)| ==>
      Insights(bs)[k].category == Classify(Insights(bs)[k].recoveryRate, Insights(bs)[k].portfolioAtRisk)
    decreases |bs|
  {
    if bs != [] {
      InsightsClassified(bs[..|bs| - 1]);
    }
  }

  /** The rates the branch figures give lie in [0, 100] when no loan is paid beyond what it owes. */
  lemma {:induction false} SumPaidWithinDue(ls: seq<LoanRecord>)
    requires forall l :: l in ls ==> 0.0 <= l.loan.paidAmount <= l.loan.totalPayable
    ensures 0.0 <= SumOf(ls, PaidOf) <= SumOf(ls, DueOf)
    decreases |ls|
  {
    if ls != [] {
      SumPaidWithinDue(ls[..|ls| - 1]);
      assert ls[|ls| - 1] in ls;
    }
  }

  lemma PercentRange(part: real, whole: real)
    requires 0.0 <= part <= whole
    ensures 0.0 <= Percent(part, whole) <= 100.0
  {
    if whole > 0.0 {
      var q := part / whole;
      assert q * whole == part;
    }
  }

  lemma RecoveryRateRange(ls: seq<LoanRecord>)
    requires forall l :: l in ls ==> 0.0 <= l.loan.paidAmount <= l.loan.totalPayable
    ensures 0.0 <= RecoveryRate(ls) <= 100.0
  {
    SumPaidWithinDue(ls);
    PercentRange(SumOf(ls, PaidOf), SumOf(ls, DueOf));
  }

  // ---------------------------------------------------------------------------
  // Officers

  datatype OfficerRating = RatedExcellent | RatedGood | RatedAverage | RatedPoor

  datatype OfficerInsight = OfficerInsight(officerId: Id, performanceRating: OfficerRating)

  /** `GetOfficerInsightsAsync` computes nothing yet: the list is always empty. */
  function OfficerInsights(officerId: Option<Id>): (r: seq<OfficerInsight>)
    ensures r == []
  {
    []
  }

  /** `GetUnderperformingOfficersAsync`'s filter: the officers rated Average or Poor, in order. */
  function UnderperformingOfficers(officers: seq<OfficerInsight>): (r: seq<OfficerInsight>)
    ensures forall o :: o in r <==> o in officers && (o.performanceRating == RatedAverage || o.performanceRating == RatedPoor)
  {
    if officers == [] then []
    else
      var o := officers[|officers| - 1];
      assert officers == officers[..|officers| - 1] + [o];
      UnderperformingOfficers(officers[..|officers| - 1])
        + (if o.performanceRating == RatedAverage || o.performanceRating == RatedPoor then [o] else [])
  }

  // ---------------------------------------------------------------------------
  // High-risk areas

  /** A member with their village, address and the statuses of their loans. */
  datatype Resident = Resident(village: string, address: string, loanStatuses: seq<LoanStatus>)

  datatype AreaRiskLevel = AreaMedium | AreaHigh | AreaCritical

  datatype HighRiskArea = HighRiskArea(
    areaName: string,
    village: string,
    totalMembers: nat,
    defaultedMembers: nat,
    defaultRate: real,
    riskLevel: AreaRiskLevel)

  function Reason(level: AreaRiskLevel): string
  {
    match level
    case AreaCritical => "More than 50% members have defaulted"
    case AreaHigh => "High concentration of defaults"
    case AreaMedium => "Elevated default rate"
  }

  function KeyOf(m: Resident): (string, string) { (m.village, m.address) }

  /** The distinct (village, address) pairs, in order of first appearance, as `GroupBy` yields them. */
  function Keys(ms: seq<Resident>): (ks: seq<(string, string)>)
    ensures forall i, j :: 0 <= i < j < |ks| ==> ks[i] != ks[j]
    ensures forall m :: m in ms ==> KeyOf(m) in ks
    ensures forall k :: k in ks ==> exists m :: m in ms && KeyOf(m) == k
  {
    if ms == [] then []
    else
      var init := ms[..|ms| - 1];
      var last := ms[|ms| - 1];
      assert ms == init + [last];
      var ks := Keys(init);
      if KeyOf(last) in ks then ks else ks + [KeyOf(last)]
  }

  /** The members at one (village, address), in order. */
  function At(ms: seq<Resident>, key: (string, string)): (r: seq<Resident>)
    ensures forall m :: m in r <==> m in ms && KeyOf(m) == key
    ensures |r| <= |ms|
  {
    if ms == [] then []
    else
      var last := ms[|ms| - 1];
      assert ms == ms[..|ms| - 1] + [last];
      At(ms[..|ms| - 1], key) + (if KeyOf(last) == key then [last] else [])
  }

  predicate Defaulted(m: Resident)
  {
    WrittenOff in m.loanStatuses
  }

  function DefaultedCount(ms: seq<Resident>): (n: nat)
    ensures n <= |ms|
  {
    if ms == [] then 0 else DefaultedCount(ms[..|ms| - 1]) + (if Defaulted(ms[|ms| - 1]) then 1 else 0)
  }

  function Level(rate: real): (l: AreaRiskLevel)
    ensures l == AreaCritical <==> rate > 50.0
    ensures l == AreaHigh <==> 35.0 < rate <= 50.0
    ensures l == AreaMedium <==> rate <= 35.0
  {
    if rate > 50.0 then AreaCritical else if rate > 35.0 then AreaHigh else AreaMedium
  }

  /** The row of one area: its members, those with a written-off loan and their share. */
  function AreaRow(key: (string, string), members: seq<Resident>): HighRiskArea
  {
    var rate := Percent(DefaultedCount(members) as real, |members| as real);
    HighRiskArea(key.1, key.0, |members|, DefaultedCount(members), rate, Level(rate))
  }

  /** Every area, in `GroupBy` order. */
  function AreaRows(ms: seq<Resident>): (rows: seq<HighRiskArea>)
    ensures |rows| == |Keys(ms)|
    ensures forall k :: 0 <= k < |rows| ==> rows[k] == AreaRow(Keys(ms)[k], At(ms, Keys(ms)[k]))
  {
    var ks := Keys(ms);
    seq(|ks|, k requires 0 <= k < |ks| => AreaRow(ks[k], At(ms, ks[k])))
  }

  predicate HighRisk(a: HighRiskArea)
  {
    a.totalMembers >= 3 && a.defaultRate > 20.0
  }

  /** The areas of at least three members whose default rate exceeds 20, in order. */
  function Risky(rows: seq<HighRiskArea>): seq<HighRiskArea>
  {
    if rows == [] then []
    else Risky(rows[..|rows| - 1]) + (if HighRisk(rows[|rows| - 1]) then [rows[|rows| - 1]] else [])
  }

  lemma {:induction false} RiskyMembers(rows: seq<HighRiskArea>, a: HighRiskArea)
    ensures a in Risky(rows) <==> a in rows && HighRisk(a)
    decreases |rows|
  {
    if rows != [] {
      var init := rows[..|rows| - 1];
      RiskyMembers(init, a);
      assert rows == init + [rows[|rows| - 1]];
    }
  }

  lemma RiskySnoc(rows: seq<HighRiskArea>, i: nat)
    requires i < |rows|
    ensures Risky(rows[..i + 1]) == Risky(rows[..i]) + (if HighRisk(rows[i]) then [rows[i]] else [])
  {
    assert rows[..i + 1][..i] == rows[..i];
  }

  /** The loop of `GetHighRiskAreasAsync`: small areas skipped, the others kept when their default rate exceeds 20. */
  method CollectRiskyAreas(ms: seq<Resident>) returns (highRiskAreas: seq<HighRiskArea>)
    ensures highRiskAreas == Risky(AreaRows(ms))
  {
    var keys := Keys(ms);
    ghost var rows := AreaRows(ms);
    highRiskAreas := [];
    var i := 0;
    while i < |keys|
      invariant 0 <= i <= |keys|
      invariant highRiskAreas == Risky(rows[..i])
    {
      RiskySnoc(rows, i);
      var members := At(ms, keys[i]);
      if |members| >= 3 {
        var defaultedCount := DefaultedCount(members);
        var defaultRate := defaultedCount as real / |members| as real * 100.0;
        if defaultRate > 20.0 {
          var riskLevel;
          if defaultRate > 50.0 {
            riskLevel := AreaCritical;
          } else if defaultRate > 35.0 {
            riskLevel := AreaHigh;
          } else {
            riskLevel := AreaMedium;
          }
          highRiskAreas := highRiskAreas + [HighRiskArea(keys[i].1, keys[i].0, |members|, defaultedCount, defaultRate, riskLevel)];
        }
      }
      i := i + 1;
    }
    assert rows[..|keys|] == rows;
  }

  function DescendingRate(a: HighRiskArea): real { -a.defaultRate }

  /** `GetHighRiskAreasAsync`: the high-risk areas, highest default rate first. */
  method GetHighRiskAreas(ms: seq<Resident>) returns (r: seq<HighRiskArea>)
    ensures r == Sorting.SortBy(Risky(AreaRows(ms)), DescendingRate)
  {
    var areas := CollectRiskyAreas(ms);
    r := Sorting.SortBy(areas, DescendingRate);
  }

  /**
   * Each area listed has at least three members, a default rate above 20 and
   * at most 100, and the level its rate calls for; the list is ordered by
   * default rate, highest first, and holds exactly the high-risk areas.
   */
  lemma HighRiskAreasListed(ms: seq<Resident>)
    ensures var r := Sorting.SortBy(Risky(AreaRows(ms)), DescendingRate);
      && (forall i, j :: 0 <= i < j < |r| ==> r[i].defaultRate >= r[j].defaultRate)
      && (forall a :: a in r <==> a in AreaRows(ms) && HighRisk(a))
      && (forall a :: a in r ==>
            (a.totalMembers >= 3 && 20.0 < a.defaultRate <= 100.0 && a.riskLevel == Level(a.defaultRate)
             && a.defaultedMembers <= a.totalMembers))
  {
    var rows := AreaRows(ms);
    var r := Sorting.SortBy(Risky(rows), DescendingRate);
    forall i, j | 0 <= i < j < |r|
      ensures r[i].defaultRate >= r[j].defaultRate
    {
      assert DescendingRate(r[i]) <= DescendingRate(r[j]);
    }
    forall a | a in r
      ensures a in rows && HighRisk(a)
      ensures a.totalMembers >= 3 && 20.0 < a.defaultRate <= 100.0 && a.riskLevel == Level(a.defaultRate)
      ensures a.defaultedMembers <= a.totalMembers
    {
      Sorting.SortByMembers(Risky(rows), DescendingRate, a);
      RiskyMembers(rows, a);
      var k :| 0 <= k < |rows| && rows[k] == a;
      var members := At(ms, Keys(ms)[k]);
      PercentRange(DefaultedCount(members) as real, |members| as real);
    }
    forall a | a in rows && HighRisk(a)
      ensures a in r
    {
      Sorting.SortByMembers(Risky(rows), DescendingRate, a);
      RiskyMembers(rows, a);
    }
  }

  /** Every member falls in the area of their own village and address, and no area is listed twice. */
  lemma AreasPartitionMembers(ms: seq<Resident>, m: Resident)
    requires m in ms
    ensures exists k :: 0 <= k < |Keys(ms)| && m in At(ms, Keys(ms)[k])
    ensures forall k :: 0 <= k < |Keys(ms)| && m in At(ms, Keys(ms)[k]) ==> Keys(ms)[k] == KeyOf(m)
  {
    var ks := Keys(ms);
    var k :| 0 <= k < |ks| && ks[k] == KeyOf(m);
    assert m in At(ms, ks[k]);
  }

  // ---------------------------------------------------------------------------
  // The forecast

  /** An installment with the branch of its loan's member. */
  datatype DueItem = DueItem(installment: Installment, branchId: Id)

  /** Pending installments due in the next 30 days, of the given branch when there is one. */
  function Upcoming(items: seq<DueItem>, branchId: Option<Id>, now: Date): (r: seq<Installment>)
    ensures forall i :: i in r ==> now <= i.dueDate <= now + 30.0 && i.status == InstallmentPending
  {
    if items == [] then []
    else
      var d := items[|items| - 1];
      Upcoming(items[..|items| - 1], branchId, now)
        + (if now <= d.installment.dueDate <= now + 30.0 && d.installment.status == InstallmentPending
             && (branchId.None? || d.branchId == branchId.value) then [d.installment] else [])
  }

  /** Installments due in the 30 days before now, of every branch. */
  function LastMonth(items: seq<DueItem>, now: Date): (r: seq<Installment>)
    ensures forall i :: i in r ==> now - 30.0 <= i.dueDate < now
  {
    if items == [] then []
    else
      var d := items[|items| - 1];
      LastMonth(items[..|items| - 1], now) + (if now - 30.0 <= d.installment.dueDate < now then [d.installment] else [])
  }

  /**
   * An installment is counted exactly when some item carries it, it is
   * pending and due in the next 30 days, and the item is of the branch asked for.
   */
  lemma {:induction false} UpcomingMembers(items: seq<DueItem>, branchId: Option<Id>, now: Date, i: Installment)
    ensures i in Upcoming(items, branchId, now) <==>
      exists d :: d in items && d.installment == i && now <= i.dueDate <= now + 30.0 && i.status == InstallmentPending
                  && (branchId.None? || d.branchId == branchId.value)
    decreases |items|
  {
    if items != [] {
      var init, last := items[..|items| - 1], items[|items| - 1];
      assert items == init + [last];
      UpcomingMembers(init, branchId, now, i);
    }
  }

  /** An installment is counted exactly when some item carries it and it fell due in the 30 days before now. */
  lemma {:induction false} LastMonthMembers(items: seq<DueItem>, now: Date, i: Installment)
    ensures i in LastMonth(items, now) <==>
      (exists d :: d in items && d.installment == i) && now - 30.0 <= i.dueDate < now
    decreases |items|
  {
    if items != [] {
      var init, last := items[..|items| - 1], items[|items| - 1];
      assert items == init + [last];
      LastMonthMembers(init, now, i);
    }
  }

  function TotalAmount(s: seq<Installment>): real
  {
    if s == [] then 0.0 else TotalAmount(s[..|s| - 1]) + s[|s| - 1].totalAmount
  }

  /** What was paid into the installments that are fully paid. */
  function PaidAmount(s: seq<Installment>): real
  {
    if s == [] then 0.0 else PaidAmount(s[..|s| - 1]) + (if s[|s| - 1].status == Paid then s[|s| - 1].paidAmount else 0.0)
  }

  const DefaultCollectionRate: real := 0.85
  const RateCeiling: real := 0.95

  /** `CalculateHistoricalCollectionRateAsync`: paid over due last month, 0.85 without installments or without anything due. */
  function HistoricalRate(items: seq<DueItem>, now: Date): real
  {
    var last := LastMonth(items, now);
    if last == [] then DefaultCollectionRate
    else if TotalAmount(last) > 0.0 then PaidAmount(last) / TotalAmount(last)
    else DefaultCollectionRate
  }

  /** `PredictNextMonthCollectionAsync`: what is due next month times the historical rate, the rate taken at most 0.95. */
  function PredictedCollection(items: seq<DueItem>, branchId: Option<Id>, now: Date): real
  {
    Forecast(TotalAmount(Upcoming(items, branchId, now)), HistoricalRate(items, now))
  }

  function Forecast(expected: real, historical: real): real
  {
    expected * Min(historical, RateCeiling)
  }

  /** An installment paid no more than its amount. */
  predicate WithinAmount(i: Installment)
  {
    0.0 <= i.paidAmount <= i.totalAmount
  }

  lemma {:induction false} AmountsBounded(s: seq<Installment>)
    requires forall i :: i in s ==> WithinAmount(i)
    ensures 0.0 <= PaidAmount(s) <= TotalAmount(s)
    decreases |s|
  {
    if s != [] {
      AmountsBounded(s[..|s| - 1]);
      assert s[|s| - 1] in s;
    }
  }

  /** When no installment is paid beyond its amount, the historical rate lies in [0, 1]. */
  lemma HistoricalRateRange(items: seq<DueItem>, now: Date)
    requires forall d :: d in items ==> WithinAmount(d.installment)
    ensures 0.0 <= HistoricalRate(items, now) <= 1.0
  {
    var last := LastMonth(items, now);
    LastMonthWithin(items, now);
    AmountsBounded(last);
    if last != [] && TotalAmount(last) > 0.0 {
      RatioRange(PaidAmount(last), TotalAmount(last));
    }
  }

  lemma RatioRange(part: real, whole: real)
    requires 0.0 <= part <= whole && whole > 0.0
    ensures 0.0 <= part / whole <= 1.0
  {
    var q := part / whole;
    assert q * whole == part;
  }

  /**
   * When no installment is paid beyond its amount, the forecast lies between
   * 0 and 95 per cent of what is due.
   */
  lemma ForecastBounds(items: seq<DueItem>, branchId: Option<Id>, now: Date)
    requires forall d :: d in items ==> WithinAmount(d.installment)
    ensures 0.0 <= PredictedCollection(items, branchId, now) <= RateCeiling * TotalAmount(Upcoming(items, branchId, now))
  {
    var up := Upcoming(items, branchId, now);
    HistoricalRateRange(items, now);
    UpcomingWithin(items, branchId, now);
    AmountsBounded(up);
    ForecastRange(TotalAmount(up), HistoricalRate(items, now));
  }

  /** The rate used is the historical one, taken at most 0.95. */
  lemma ForecastRange(expected: real, historical: real)
    requires 0.0 <= expected && 0.0 <= historical
    ensures 0.0 <= Forecast(expected, historical) <= RateCeiling * expected
    ensures historical <= RateCeiling ==> Forecast(expected, historical) == expected * historical
  {
    var m := Min(historical, RateCeiling);
    assert 0.0 <= m <= RateCeiling;
    assert 0.0 <= expected * m;
    assert RateCeiling * expected - expected * m == expected * (RateCeiling - m);
    assert 0.0 <= expected * (RateCeiling - m);
  }

  /** With no installment due last month, the forecast is 85 per cent of what is due. */
  lemma NoHistoryForecast(items: seq<DueItem>, branchId: Option<Id>, now: Date)
    requires LastMonth(items, now) == []
    ensures PredictedCollection(items, branchId, now) == DefaultCollectionRate * TotalAmount(Upcoming(items, branchId, now))
  {
    assert HistoricalRate(items, now) == DefaultCollectionRate;
  }

  lemma {:induction false} LastMonthWithin(items: seq<DueItem>, now: Date)
    requires forall d :: d in items ==> WithinAmount(d.installment)
    ensures forall i :: i in LastMonth(items, now) ==> WithinAmount(i)
    decreases |items|
  {
    if items != [] {
      var init := items[..|items| - 1];
      assert forall d :: d in init ==> d in items;
      LastMonthWithin(init, now);
      assert items[|items| - 1] in items;
    }
  }

  lemma {:induction false} UpcomingWithin(items: seq<DueItem>, branchId: Option<Id>, now: Date)
    requires forall d :: d in items ==> WithinAmount(d.installment)
    ensures forall i :: i in Upcoming(items, branchId, now) ==> WithinAmount(i)
    decreases |items|
  {
    if items != [] {
      var init := items[..|items| - 1];
      assert forall d :: d in init ==> d in items;
      UpcomingWithin(init, branchId, now);
      assert items[|items| - 1] in items;
    }
  }

  // ---------------------------------------------------------------------------
  // Recommendations

  /** The service words each as a sentence, given by `RecommendationText`. */
  datatype Recommendation =
    | InterveneInBranches(count: nat) | TrainOfficers(count: nat) | AvoidAreas(count: nat)
    | StricterFollowUp | SmsReminders | ReducePar | KeepStandards

  function RecommendationText(r: Recommendation): string
  {
    match r
    case InterveneInBranches(n) => Codes.NatToDigits(n) + " branch(es) need immediate intervention"
    case TrainOfficers(n) => Codes.NatToDigits(n) + " field officer(s) require training and support"
    case AvoidAreas(n) => "Avoid new lending in " + Codes.NatToDigits(n) + " high-risk area(s)"
    case StricterFollowUp => "Implement stricter follow-up procedures"
    case SmsReminders => "Consider SMS reminder system"
    case ReducePar => "Focus on reducing Portfolio at Risk (PAR)"
    case KeepStandards => "Overall performance is good. Maintain current standards."
  }

  function CriticalBranches(bs: seq<BranchInsight>): nat
  {
    if bs == [] then 0 else CriticalBranches(bs[..|bs| - 1]) + (if bs[|bs| - 1].category == Critical then 1 else 0)
  }

  function PoorOfficers(os: seq<OfficerInsight>): nat
  {
    if os == [] then 0 else PoorOfficers(os[..|os| - 1]) + (if os[|os| - 1].performanceRating == RatedPoor then 1 else 0)
  }

  function CriticalAreas(areas: seq<HighRiskArea>): nat
  {
    if areas == [] then 0 else CriticalAreas(areas[..|areas| - 1]) + (if areas[|areas| - 1].riskLevel == AreaCritical then 1 else 0)
  }

  function SumRates(bs: seq<BranchInsight>): real
  {
    if bs == [] then 0.0 else SumRates(bs[..|bs| - 1]) + bs[|bs| - 1].recoveryRate
  }

  function SumPar(bs: seq<BranchInsight>): real
  {
    if bs == [] then 0.0 else SumPar(bs[..|bs| - 1]) + bs[|bs| - 1].portfolioAtRisk
  }

  /** The mean recovery rate, 0 without branches. */
  function AverageRecovery(bs: seq<BranchInsight>): real
  {
    if bs == [] then 0.0 else SumRates(bs) / |bs| as real
  }

  function AveragePar(bs: seq<BranchInsight>): real
  {
    if bs == [] then 0.0 else SumPar(bs) / |bs| as real
  }

  function CountNote(n: nat, r: Recommendation): seq<Recommendation>
  {
    if n > 0 then [r] else []
  }

  /** The advice drawn from the findings, before the fallback. */
  function Advice(bs: seq<BranchInsight>, os: seq<OfficerInsight>, areas: seq<HighRiskArea>): seq<Recommendation>
  {
    CountNote(CriticalBranches(bs), InterveneInBranches(CriticalBranches(bs)))
      + CountNote(PoorOfficers(os), TrainOfficers(PoorOfficers(os)))
      + CountNote(CriticalAreas(areas), AvoidAreas(CriticalAreas(areas)))
      + (if AverageRecovery(bs) < 80.0 then [StricterFollowUp, SmsReminders] else [])
      + (if AveragePar(bs) > 10.0 then [ReducePar] else [])
  }

  /** `GenerateRecommendations`: the advice, or the single note that all is well when there is none. */
  function Recommendations(bs: seq<BranchInsight>, os: seq<OfficerInsight>, areas: seq<HighRiskArea>): seq<Recommendation>
  {
    var advice := Advice(bs, os, areas);
    if advice == [] then [KeepStandards] else advice
  }

  method GenerateRecommendations(bs: seq<BranchInsight>, os: seq<OfficerInsight>, areas: seq<HighRiskArea>)
    returns (recommendations: seq<Recommendation>)
    ensures recommendations == Recommendations(bs, os, areas)
  {
    recommendations := CountedNotes(bs, os, areas);
    recommendations := AverageNotes(bs, recommendations);
    if recommendations == [] {
      recommendations := recommendations + [KeepStandards];
    }
  }

  /** The recommendations that count critical branches, poor officers and critical areas. */
  method CountedNotes(bs: seq<BranchInsight>, os: seq<OfficerInsight>, areas: seq<HighRiskArea>)
    returns (recommendations: seq<Recommendation>)
    ensures recommendations == CountNote(CriticalBranches(bs), InterveneInBranches(CriticalBranches(bs)))
      + CountNote(PoorOfficers(os), TrainOfficers(PoorOfficers(os)))
      + CountNote(CriticalAreas(areas), AvoidAreas(CriticalAreas(areas)))
  {
    recommendations := [];
    var criticalBranches := CriticalBranches(bs);
    if criticalBranches > 0 {
      recommendations := recommendations + [InterveneInBranches(criticalBranches)];
    }
    var poorOfficers := PoorOfficers(os);
    if poorOfficers > 0 {
      recommendations := recommendations + [TrainOfficers(poorOfficers)];
    }
    var criticalAreas := CriticalAreas(areas);
    if criticalAreas > 0 {
      recommendations := recommendations + [AvoidAreas(criticalAreas)];
    }
  }

  /** The recommendations that follow from the mean recovery rate and the mean portfolio at risk. */
  method AverageNotes(bs: seq<BranchInsight>, before: seq<Recommendation>) returns (recommendations: seq<Recommendation>)
    ensures recommendations == before + (if AverageRecovery(bs) < 80.0 then [StricterFollowUp, SmsReminders] else [])
      + (if AveragePar(bs) > 10.0 then [ReducePar] else [])
  {
    recommendations := before;
    var avgRecovery := if bs != [] then SumRates(bs) / |bs| as real else 0.0;
    if avgRecovery < 80.0 {
      recommendations := recommendations + [StricterFollowUp, SmsReminders];
    }
    var avgPar := if bs != [] then SumPar(bs) / |bs| as real else 0.0;
    if avgPar > 10.0 {
      recommendations := recommendations + [ReducePar];
    }
  }

  /**
   * There is always a recommendation; the note that all is well comes alone
   * and only when nothing else applies; without branches, stricter follow-up
   * and SMS reminders are always advised; officers are never mentioned.
   */
  lemma RecommendationsShape(bs: seq<BranchInsight>, areas: seq<HighRiskArea>)
    ensures var r := Recommendations(bs, OfficerInsights(None), areas);
      && r != []
      && (KeepStandards in r <==> r == [KeepStandards])
      && (KeepStandards in r <==> Advice(bs, OfficerInsights(None), areas) == [])
      && (bs == [] ==> StricterFollowUp in r && SmsReminders in r)
      && forall k :: 0 <= k < |r| ==> !r[k].TrainOfficers?
  {
    var os := OfficerInsights(None);
    var advice := Advice(bs, os, areas);
    assert PoorOfficers(os) == 0;
    assert KeepStandards !in advice;
    if bs == [] {
      assert advice == CountNote(CriticalAreas(areas), AvoidAreas(CriticalAreas(areas))) + [StricterFollowUp, SmsReminders];
    }
  }

  // ---------------------------------------------------------------------------
  // The whole response

  datatype CollectionResponse = CollectionResponse(
    branchInsights: seq<BranchInsight>,
    officerInsights: seq<OfficerInsight>,
    highRiskAreas: seq<HighRiskArea>,
    recommendations: seq<Recommendation>,
    overallRecoveryRate: real,
    predictedNextMonthRecovery: real)

  /** Paid over payable across every loan past the Pending stage, as a percentage. */
  function OverallRecoveryRate(loans: seq<Loan>): real
  {
    var started := Started(loans);
    Percent(SumLoans(started, true), SumLoans(started, false))
  }

  function Started(loans: seq<Loan>): (r: seq<Loan>)
    ensures forall l :: l in r <==> l in loans && l.status != Pending
  {
    if loans == [] then []
    else
      var l := loans[|loans| - 1];
      assert loans == loans[..|loans| - 1] + [l];
      Started(loans[..|loans| - 1]) + (if l.status != Pending then [l] else [])
  }

  /** The sum of the paid amounts (`paid`), or of the payable totals. */
  function SumLoans(loans: seq<Loan>, paid: bool): real
  {
    if loans == [] then 0.0
    else SumLoans(loans[..|loans| - 1], paid) + (if paid then loans[|loans| - 1].paidAmount else loans[|loans| - 1].totalPayable)
  }

  /** `GetCollectionInsightsAsync`: every part of the report, for the requested branch or all of them. */
  method GetCollectionInsights(branches: seq<BranchRecord>, ms: seq<Resident>, loans: seq<Loan>, items: seq<DueItem>,
                               branchId: Option<Id>, officerId: Option<Id>, now: Date)
    returns (r: CollectionResponse)
    ensures r.branchInsights == Sorting.SortBy(Insights(Selected(branches, branchId)), RateKey)
    ensures r.officerInsights == []
    ensures r.highRiskAreas == Sorting.SortBy(Risky(AreaRows(ms)), DescendingRate)
    ensures r.recommendations == Recommendations(r.branchInsights, [], r.highRiskAreas)
    ensures r.recommendations != []
    ensures r.overallRecoveryRate == OverallRecoveryRate(loans)
    ensures r.predictedNextMonthRecovery == PredictedCollection(items, branchId, now)
  {
    var branchInsights := GetBranchInsights(branches, branchId);
    var officerInsights := OfficerInsights(officerId);
    var highRiskAreas := GetHighRiskAreas(ms);
    var overallRecoveryRate := OverallRecoveryRate(loans);
    var predictedCollection := PredictedCollection(items, branchId, now);
    var recommendations := GenerateRecommendations(branchInsights, officerInsights, highRiskAreas);
    RecommendationsShape(branchInsights, highRiskAreas);
    r := CollectionResponse(branchInsights, officerInsights, highRiskAreas, recommendations, overallRecoveryRate, predictedCollection);
  }
}
