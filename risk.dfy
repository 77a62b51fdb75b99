/**
 * The credit-risk score (AIRiskAssessmentService): a base of 50 moved by
 * fixed weights, capped to [0, 100], mapped to a category, and the batch
 * that assesses many members and counts them by band.
 *
 * The aggregates the service queries (savings balance, late payments, loan
 * statuses, group rating) are given as a `MemberProfile`.
 */
module Risk {
  import opened Domain
  import Codes

  /** What `AssessRiskAsync` reads about a member. */
  datatype MemberProfile = MemberProfile(
    savingsBalance: real,      // balance of the member's savings account, 0 without one
    latePaymentCount: nat,     // payments of the member's loans into installments with LateDays > 0
    hasClosedLoan: bool,       // some loan of the member is Closed
    hasRunningLoan: bool,      // some loan of the member is Active or Disbursed
    groupRating: Option<real>, // the group's performance rating, None without a group
    loanCycle: int)

  datatype RiskCategory = LowRisk | MediumRisk | HighRisk | VeryHighRisk

  datatype RiskAssessment = RiskAssessment(
    memberId: Id,
    riskScore: real,
    category: RiskCategory,
    approvalRecommended: bool,
    riskFactors: seq<Factor>,
    positiveFactors: seq<Factor>)

  const BaseScore: int := 50

  function CategoryLabel(c: RiskCategory): string
  {
    match c
    case LowRisk => "Low Risk"
    case MediumRisk => "Medium Risk"
    case HighRisk => "High Risk"
    case VeryHighRisk => "Very High Risk"
  }

  // ---------------------------------------------------------------------------
  // The weights, one per rule; all of them are whole numbers

  function SavingsWeight(balance: real): int
  {
    if balance < 100.0 then 15 else if balance > 1000.0 then -10 else 0
  }

  function HistoryWeight(p: MemberProfile): int
  {
    if p.latePaymentCount > 5 then 20 else if p.latePaymentCount == 0 && p.hasClosedLoan then -15 else 0
  }

  /** Requested amount over savings; 100 when there are no savings. */
  function LoanToSavings(requested: real, balance: real): real
  {
    if balance > 0.0 then requested / balance else 100.0
  }

  function RatioWeight(requested: real, balance: real): int
  {
    if LoanToSavings(requested, balance) > 10.0 then 15 else 0
  }

  function RunningLoanWeight(p: MemberProfile): int
  {
    if p.hasRunningLoan then 25 else 0
  }

  /** A comparison with a missing group is false in both directions: no adjustment. */
  function GroupWeight(rating: Option<real>): int
  {
    match rating
    case None => 0
    case Some(r) => if r < 0.5 then 10 else if r > 0.8 then -10 else 0
  }

  function CycleWeight(cycle: int): int
  {
    if cycle > 3 then -5 else 0
  }

  /** The score before the cap: the base plus every weight. */
  function RawScore(p: MemberProfile, requested: real): int
  {
    BaseScore + SavingsWeight(p.savingsBalance) + HistoryWeight(p) + RatioWeight(requested, p.savingsBalance)
      + RunningLoanWeight(p) + GroupWeight(p.groupRating) + CycleWeight(p.loanCycle)
  }

  /** `Math.Max(0, Math.Min(100, x))`. */
  function Clamp(x: int): (c: int)
    ensures 0 <= c <= 100
    ensures 0 <= x <= 100 ==> c == x
  {
    if x > 100 then 100 else if x < 0 then 0 else x
  }

  /** The band of a score: below 30, below 60, below 80, the rest. */
  function Categorize(score: real): (c: RiskCategory)
    ensures c == LowRisk <==> score < 30.0
    ensures c == MediumRisk <==> 30.0 <= score < 60.0
    ensures c == HighRisk <==> 60.0 <= score < 80.0
    ensures c == VeryHighRisk <==> 80.0 <= score
  {
    if score < 30.0 then LowRisk else if score < 60.0 then MediumRisk else if score < 80.0 then HighRisk else VeryHighRisk
  }

  function Recommendation(c: RiskCategory): string
  {
    match c
    case LowRisk => "APPROVE - Low risk borrower with strong indicators."
    case MediumRisk => "APPROVE WITH MONITORING - Acceptable risk, monitor payment behavior."
    case HighRisk => "REVIEW REQUIRED - High risk factors detected. Manual review recommended."
    case VeryHighRisk => "REJECT - Too many risk factors. Consider after improving financial position."
  }

  /**
   * The factors the rules report. The service reports each as a sentence,
   * given by `FactorText`; the model keeps the factor itself, so that the
   * lists compare as values.
   */
  datatype Factor =
    | LowSavings | LatePayments(times: nat) | HighLoanToSavings | RunningLoan | PoorGroup
    | StrongSavings | PerfectHistory | ExcellentGroup | Experienced(cycle: nat)

  function FactorText(f: Factor): string
  {
    match f
    case LowSavings => "Low savings balance (below minimum)"
    case LatePayments(n) => "History of late payments (" + Codes.NatToDigits(n) + " times)"
    case HighLoanToSavings => "Loan amount too high compared to savings"
    case RunningLoan => "Already has an active loan"
    case PoorGroup => "Group has poor performance rating"
    case StrongSavings => "Strong savings balance"
    case PerfectHistory => "Perfect payment history"
    case ExcellentGroup => "Group has excellent performance"
    case Experienced(c) => "Experienced borrower (cycle " + Codes.NatToDigits(c) + ")"
  }

  /** The factor of a rule that applies, none otherwise. */
  function Note(applies: bool, f: Factor): seq<Factor>
  {
    if applies then [f] else []
  }

  function SavingsNotes(p: MemberProfile): (seq<Factor>, seq<Factor>)
  {
    (Note(p.savingsBalance < 100.0, LowSavings), Note(SavingsWeight(p.savingsBalance) < 0, StrongSavings))
  }

  function HistoryNotes(p: MemberProfile): (seq<Factor>, seq<Factor>)
  {
    (Note(p.latePaymentCount > 5, LatePayments(p.latePaymentCount)), Note(HistoryWeight(p) < 0, PerfectHistory))
  }

  function GroupNotes(p: MemberProfile): (seq<Factor>, seq<Factor>)
  {
    (Note(GroupWeight(p.groupRating) > 0, PoorGroup), Note(GroupWeight(p.groupRating) < 0, ExcellentGroup))
  }

  function CycleNotes(p: MemberProfile): seq<Factor>
  {
    if p.loanCycle > 3 then [Experienced(p.loanCycle)] else []
  }

  /** The rules that raise the score, each with its factor, in the order they are checked. */
  function RiskFactors(p: MemberProfile, requested: real): seq<Factor>
  {
    SavingsNotes(p).0 + HistoryNotes(p).0 + Note(RatioWeight(requested, p.savingsBalance) > 0, HighLoanToSavings)
      + Note(p.hasRunningLoan, RunningLoan) + GroupNotes(p).0
  }

  /** The rules that lower the score, each with its factor. */
  function PositiveFactors(p: MemberProfile): seq<Factor>
  {
    SavingsNotes(p).1 + HistoryNotes(p).1 + GroupNotes(p).1 + CycleNotes(p)
  }

  /** The assessment of one member, as a value. */
  function Assessment(memberId: Id, p: MemberProfile, requested: real): RiskAssessment
  {
    var score := Clamp(RawScore(p, requested)) as real;
    var c := Categorize(score);
    RiskAssessment(memberId, score, c, score < 60.0, RiskFactors(p, requested), PositiveFactors(p))
  }

  // ---------------------------------------------------------------------------
  // Properties

  /**
   * The weights keep the raw score within [10, 135]: the cap at 100 can bite,
   * the floor at 0 never does; the final score is a whole number in [10, 100],
   * so rounding it to two places changes nothing.
   */
  lemma ScoreRange(memberId: Id, p: MemberProfile, requested: real)
    ensures 10 <= RawScore(p, requested) <= 135
    ensures var s := Assessment(memberId, p, requested).riskScore;
      && 10.0 <= s <= 100.0
      && s == (if RawScore(p, requested) > 100 then 100 else RawScore(p, requested)) as real
  {
  }

  /** The category follows the thresholds 30, 60 and 80, and approval is recommended exactly below 60. */
  lemma CategoryThresholds(memberId: Id, p: MemberProfile, requested: real)
    ensures var a := Assessment(memberId, p, requested);
      && (a.category == LowRisk <==> a.riskScore < 30.0)
      && (a.category == MediumRisk <==> 30.0 <= a.riskScore < 60.0)
      && (a.category == HighRisk <==> 60.0 <= a.riskScore < 80.0)
      && (a.category == VeryHighRisk <==> 80.0 <= a.riskScore)
      && (a.approvalRecommended <==> a.riskScore < 60.0)
      && (a.approvalRecommended <==> a.category == LowRisk || a.category == MediumRisk)
  {
    var a := Assessment(memberId, p, requested);
    assert a.category == Categorize(a.riskScore) && a.approvalRecommended == (a.riskScore < 60.0);
  }

  /** Without savings the loan-to-savings ratio is 100, so the ratio rule always adds 15, whatever is requested. */
  lemma NoSavingsRatio(p: MemberProfile, requested: real)
    requires p.savingsBalance == 0.0
    ensures RatioWeight(requested, p.savingsBalance) == 15
    ensures SavingsWeight(p.savingsBalance) == 15
  {
  }

  /** A member without a group is assessed exactly like one whose group has a middling rating. */
  lemma NoGroupNoAdjustment(memberId: Id, p: MemberProfile, requested: real)
    requires p.groupRating.None?
    ensures GroupWeight(p.groupRating) == 0
    ensures Assessment(memberId, p, requested) == Assessment(memberId, p.(groupRating := Some(0.65)), requested)
  {
    var q := p.(groupRating := Some(0.65));
    assert GroupNotes(p) == GroupNotes(q) == ([], []);
    assert RawScore(p, requested) == RawScore(q, requested);
    assert RiskFactors(p, requested) == RiskFactors(q, requested);
    assert PositiveFactors(p) == PositiveFactors(q);
  }

  /** With no risk factor listed the score is at most the base, and with no positive factor at least the base. */
  lemma FactorsExplainScore(memberId: Id, p: MemberProfile, requested: real)
    ensures Assessment(memberId, p, requested).riskFactors == [] ==> Assessment(memberId, p, requested).riskScore <= BaseScore as real
    ensures Assessment(memberId, p, requested).positiveFactors == [] ==> Assessment(memberId, p, requested).riskScore >= BaseScore as real
  {
    var rf, pf := RiskFactors(p, requested), PositiveFactors(p);
    assert |rf| == (if p.savingsBalance < 100.0 then 1 else 0) + (if p.latePaymentCount > 5 then 1 else 0)
      + (if LoanToSavings(requested, p.savingsBalance) > 10.0 then 1 else 0) + (if p.hasRunningLoan then 1 else 0)
      + (if GroupWeight(p.groupRating) > 0 then 1 else 0);
    assert |pf| == (if SavingsWeight(p.savingsBalance) < 0 then 1 else 0) + (if HistoryWeight(p) < 0 then 1 else 0)
      + (if GroupWeight(p.groupRating) < 0 then 1 else 0) + (if p.loanCycle > 3 then 1 else 0);
  }

  // ---------------------------------------------------------------------------
  // Batches

  function LowCount(s: seq<RiskAssessment>): nat
  {
    if s == [] then 0 else LowCount(s[..|s| - 1]) + (if s[|s| - 1].riskScore < 30.0 then 1 else 0)
  }

  function MediumCount(s: seq<RiskAssessment>): nat
  {
    if s == [] then 0 else MediumCount(s[..|s| - 1]) + (if 30.0 <= s[|s| - 1].riskScore < 60.0 then 1 else 0)
  }

  function HighCount(s: seq<RiskAssessment>): nat
  {
    if s == [] then 0 else HighCount(s[..|s| - 1]) + (if s[|s| - 1].riskScore >= 60.0 then 1 else 0)
  }

  /** The three bands cover every assessment exactly once. */
  lemma {:induction false} BandsPartition(s: seq<RiskAssessment>)
    ensures LowCount(s) + MediumCount(s) + HighCount(s) == |s|
    decreases |s|
  {
    if s != [] {
      BandsPartition(s[..|s| - 1]);
    }
  }

  datatype BatchAssessment = BatchAssessment(
    assessments: seq<RiskAssessment>,
    totalProcessed: nat,
    lowRiskCount: nat,
    mediumRiskCount: nat,
    highRiskCount: nat)

  /** The assessments of the members that were found, in request order, at the batch's fixed request of 10000. */
  function Assessed(members: seq<(Id, Option<MemberProfile>)>): seq<RiskAssessment>
  {
    if members == [] then []
    else
      var last := members[|members| - 1];
      Assessed(members[..|members| - 1]) + (if last.1.Some? then [Assessment(last.0, last.1.value, BatchRequestedAmount)] else [])
  }

  const BatchRequestedAmount: real := 10000.0

  lemma AssessedSnoc(members: seq<(Id, Option<MemberProfile>)>, i: nat)
    requires i < |members|
    ensures Assessed(members[..i + 1]) == Assessed(members[..i])
      + (if members[i].1.Some? then [Assessment(members[i].0, members[i].1.value, BatchRequestedAmount)] else [])
  {
    assert members[..i + 1][..i] == members[..i];
  }

  /** `AssessRiskAsync`: the score accumulated rule by rule, the factor lists appended alongside. */
  method AssessRisk(memberId: Id, profile: Option<MemberProfile>, requested: real) returns (r: Result<RiskAssessment>)
    ensures profile.None? ==> r == Err(NotFound("Member"))
    ensures profile.Some? ==> r == Ok(Assessment(memberId, profile.value, requested))
  {
    if profile.None? {
      return Err(NotFound("Member"));
    }
    var p := profile.value;
    var riskScore, riskFactors, positiveFactors := MemberRules(p);
    riskScore, riskFactors, positiveFactors := LoanAndGroupRules(p, requested, riskScore, riskFactors, positiveFactors);
    riskScore := if riskScore > 100 then 100 else if riskScore < 0 then 0 else riskScore;
    var category, approved;
    if riskScore < 30 {
      category, approved := LowRisk, true;
    } else if riskScore < 60 {
      category, approved := MediumRisk, true;
    } else if riskScore < 80 {
      category, approved := HighRisk, false;
    } else {
      category, approved := VeryHighRisk, false;
    }
    r := Ok(RiskAssessment(memberId, riskScore as real, category, approved, riskFactors, positiveFactors));
  }

  /** The savings and payment-history rules, from the base score. */
  method MemberRules(p: MemberProfile) returns (riskScore: int, riskFactors: seq<Factor>, positiveFactors: seq<Factor>)
    ensures riskScore == BaseScore + SavingsWeight(p.savingsBalance) + HistoryWeight(p)
    ensures riskFactors == SavingsNotes(p).0 + HistoryNotes(p).0
    ensures positiveFactors == SavingsNotes(p).1 + HistoryNotes(p).1
  {
    riskFactors, positiveFactors := [], [];
    riskScore := 50;
    var savings := p.savingsBalance;
    if savings < 100.0 {
      riskFactors := riskFactors + [LowSavings];
      riskScore := riskScore + 15;
    } else if savings > 1000.0 {
      positiveFactors := positiveFactors + [StrongSavings];
      riskScore := riskScore - 10;
    }
    assert riskFactors == SavingsNotes(p).0 && positiveFactors == SavingsNotes(p).1;
    if p.latePaymentCount > 5 {
      riskFactors := riskFactors + [LatePayments(p.latePaymentCount)];
      riskScore := riskScore + 20;
    } else if p.latePaymentCount == 0 && p.hasClosedLoan {
      positiveFactors := positiveFactors + [PerfectHistory];
      riskScore := riskScore - 15;
    }
  }

  /** The loan-to-savings, running-loan, group and cycle rules, added to a score and its factor lists. */
  method LoanAndGroupRules(p: MemberProfile, requested: real, score: int, risks: seq<Factor>, positives: seq<Factor>)
    returns (riskScore: int, riskFactors: seq<Factor>, positiveFactors: seq<Factor>)
    ensures riskScore == score + RatioWeight(requested, p.savingsBalance) + RunningLoanWeight(p)
      + GroupWeight(p.groupRating) + CycleWeight(p.loanCycle)
    ensures riskFactors == risks + Note(RatioWeight(requested, p.savingsBalance) > 0, HighLoanToSavings)
      + Note(p.hasRunningLoan, RunningLoan) + GroupNotes(p).0
    ensures positiveFactors == positives + GroupNotes(p).1 + CycleNotes(p)
  {
    riskScore, riskFactors, positiveFactors := score, risks, positives;
    var savings := p.savingsBalance;
    var ratio := if savings > 0.0 then requested / savings else 100.0;
    if ratio > 10.0 {
      riskFactors := riskFactors + [HighLoanToSavings];
      riskScore := riskScore + 15;
    }
    if p.hasRunningLoan {
      riskFactors := riskFactors + [RunningLoan];
      riskScore := riskScore + 25;
    }
    assert riskFactors == risks + Note(RatioWeight(requested, p.savingsBalance) > 0, HighLoanToSavings)
      + Note(p.hasRunningLoan, RunningLoan);
    ghost var before := riskFactors;
    if p.groupRating.Some? && p.groupRating.value < 0.5 {
      riskFactors := riskFactors + [PoorGroup];
      riskScore := riskScore + 10;
    } else if p.groupRating.Some? && p.groupRating.value > 0.8 {
      positiveFactors := positiveFactors + [ExcellentGroup];
      riskScore := riskScore - 10;
    }
    assert riskFactors == before + GroupNotes(p).0 && positiveFactors == positives + GroupNotes(p).1;
    if p.loanCycle > 3 {
      positiveFactors := positiveFactors + [Experienced(p.loanCycle)];
      riskScore := riskScore - 5;
    }
  }

  /** The loop of `BatchAssessRiskAsync`: each member assessed in turn, the failures skipped. */
  method AssessAll(members: seq<(Id, Option<MemberProfile>)>) returns (assessments: seq<RiskAssessment>)
    ensures assessments == Assessed(members)
  {
    assessments := [];
    var i := 0;
    while i < |members|
      invariant 0 <= i <= |members|
      invariant assessments == Assessed(members[..i])
    {
      var a := AssessRisk(members[i].0, members[i].1, BatchRequestedAmount);
      AssessedSnoc(members, i);
      if a.Ok? {
        assessments := assessments + [a.value];
      }
      i := i + 1;
    }
    assert members[..|members|] == members;
  }

  /** `BatchAssessRiskAsync`: members that fail to assess are skipped; the bands are counted over the rest. */
  method BatchAssessRisk(members: seq<(Id, Option<MemberProfile>)>) returns (b: BatchAssessment)
    ensures b.assessments == Assessed(members)
    ensures b.totalProcessed == |b.assessments|
    ensures b.lowRiskCount + b.mediumRiskCount + b.highRiskCount == b.totalProcessed
    ensures b.lowRiskCount == LowCount(b.assessments) && b.mediumRiskCount == MediumCount(b.assessments)
    ensures b.highRiskCount == HighCount(b.assessments)
  {
    var assessments := AssessAll(members);
    BandsPartition(assessments);
    b := BatchAssessment(assessments, |assessments|, LowCount(assessments), MediumCount(assessments), HighCount(assessments));
  }

  /** One assessment per member found, none for the others. */
  lemma {:induction false} AssessedCount(members: seq<(Id, Option<MemberProfile>)>)
    ensures |Assessed(members)| == |set k | 0 <= k < |members| && members[k].1.Some?|
    decreases |members|
  {
    if members != [] {
      var n := |members| - 1;
      var init := members[..n];
      AssessedCount(init);
      var before := set k | 0 <= k < n && init[k].1.Some?;
      var after := set k | 0 <= k < |members| && members[k].1.Some?;
      assert before == set k | 0 <= k < n && members[k].1.Some?;
      if members[n].1.Some? {
        assert after == before + {n};
      } else {
        assert after == before;
      }
    }
  }
}
