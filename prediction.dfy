/**
 * The late-payment prediction (AIPaymentPredictionService): a probability of
 * delay that starts at 20 and grows with the member's history, the season, the
 * stage of the loan, the group and the recent trend; its category and reminder
 * plan; and the list of upcoming high-risk installments, highest first.
 *
 * What the service queries about the member (their installments, their
 * group's rating, their payments newest first) is given as a `History`; the
 * calendar month of the due date is given with the installment.
 */
module Prediction {
  import opened Domain
  import Codes
  import Sorting

  /** What `PredictLatePaymentAsync` reads about the installment's member. */
  datatype History = History(
    memberInstallments: seq<Installment>, // every installment of every loan of the member
    groupRating: Option<real>,            // the group's performance rating, None without a group
    paymentsLate: seq<bool>)              // the member's payments, newest first: is the paid installment late?

  datatype PredictionCategory = OnTime | MayDelay | HighRisk

  /** The factors that raise the probability; the service reports each as a sentence, given by `FactorText`. */
  datatype DelayFactor =
    | LatePaymentRate(rate: real) | HighSpendingSeason | LateStage | WeakGroup | RecentTrend(lateCount: nat)

  datatype Prediction = Prediction(
    installmentId: Id,
    dueDate: Date,
    amount: real,
    probabilityOfDelay: real,
    category: PredictionCategory,
    shouldSendReminder: bool,
    reminderDaysBefore: int,
    delayRiskFactors: seq<DelayFactor>)

  const BaseProbability: real := 20.0

  function CategoryName(c: PredictionCategory): string
  {
    match c
    case OnTime => "OnTime"
    case MayDelay => "MayDelay"
    case HighRisk => "HighRisk"
  }

  /** The response's message: a function of the category and of nothing else. */
  function Message(c: PredictionCategory): string
  {
    match c
    case OnTime => "Member has strong payment track record. Standard reminder is sufficient."
    case MayDelay => "Member shows some delay risk factors. Send early reminder."
    case HighRisk => "High probability of delay. Send multiple reminders and consider field visit."
  }

  /** The rate is shown as a whole percentage, halves rounded up. */
  function FactorText(f: DelayFactor): string
  {
    match f
    case LatePaymentRate(r) =>
      var pct := (r * 100.0 + 0.5).Floor;
      "Previous late payment rate: " + (if pct >= 0 then Codes.NatToDigits(pct) else "-" + Codes.NatToDigits(-pct)) + "%"
    case HighSpendingSeason => "Due date in high-spending season"
    case LateStage => "Late stage of loan repayment"
    case WeakGroup => "Group has below-average performance"
    case RecentTrend(n) => "Recent trend: " + Codes.NatToDigits(n) + " of last 5 payments were late"
  }

  // ---------------------------------------------------------------------------
  // The history

  /** An installment that was paid late. */
  predicate PaidLate(i: Installment)
  {
    i.lateDays > 0 && i.status == Paid
  }

  /** The number of the member's installments that were paid late. */
  function LateCount(s: seq<Installment>): nat
  {
    if s == [] then 0 else LateCount(s[..|s| - 1]) + (if PaidLate(s[|s| - 1]) then 1 else 0)
  }

  /** The late installments are some of the member's installments. */
  lemma {:induction false} LateCountBound(s: seq<Installment>)
    ensures LateCount(s) <= |s|
    ensures LateCount(s) > 0 ==> exists k :: 0 <= k < |s| && PaidLate(s[k])
    decreases |s|
  {
    if s != [] {
      var init := s[..|s| - 1];
      LateCountBound(init);
      if LateCount(init) > 0 {
        var k :| 0 <= k < |init| && PaidLate(init[k]);
        assert s[k] == init[k];
      }
    }
  }

  /**
   * Late installments over all installments, counted only when some are late:
   * the divisor is then positive, and the rate lies in [0, 1].
   */
  function LateRate(s: seq<Installment>): (r: real)
    ensures 0.0 <= r <= 1.0
    ensures r == 0.0 <==> LateCount(s) == 0
  {
    LateCountBound(s);
    if LateCount(s) > 0 then
      var r := LateCount(s) as real / |s| as real;
      assert r * (|s| as real) == LateCount(s) as real;
      r
    else 0.0
  }

  /** How many of the (at most five) newest payments were into a late installment. */
  function CountLate(s: seq<bool>): nat
  {
    if s == [] then 0 else CountLate(s[..|s| - 1]) + (if s[|s| - 1] then 1 else 0)
  }

  function RecentLateCount(paymentsLate: seq<bool>): nat
  {
    CountLate(if |paymentsLate| <= 5 then paymentsLate else paymentsLate[..5])
  }

  lemma {:induction false} CountLateBound(s: seq<bool>)
    ensures CountLate(s) <= |s|
    decreases |s|
  {
    if s != [] {
      CountLateBound(s[..|s| - 1]);
    }
  }

  /** Only the five newest payments count: the recent trend is at most 5 and ignores older payments. */
  lemma RecentLateCountBound(paymentsLate: seq<bool>, older: seq<bool>)
    ensures RecentLateCount(paymentsLate) <= 5
    ensures |paymentsLate| >= 5 ==> RecentLateCount(paymentsLate + older) == RecentLateCount(paymentsLate)
  {
    var window := if |paymentsLate| <= 5 then paymentsLate else paymentsLate[..5];
    CountLateBound(window);
    if |paymentsLate| >= 5 {
      assert (paymentsLate + older)[..5] == paymentsLate[..5];
      if older == [] {
        assert paymentsLate + older == paymentsLate;
      } else if |paymentsLate| == 5 {
        assert paymentsLate[..5] == paymentsLate;
      }
    }
  }

  // ---------------------------------------------------------------------------
  // The rules

  predicate HighSpendingMonth(month: int)
  {
    month == 12 || month == 1 || month == 4
  }

  function RateWeight(h: History): real
  {
    if LateCount(h.memberInstallments) > 0 then LateRate(h.memberInstallments) * 40.0 else 0.0
  }

  function SeasonWeight(month: int): real
  {
    if HighSpendingMonth(month) then 15.0 else 0.0
  }

  function StageWeight(installmentNumber: int): real
  {
    if installmentNumber > 40 then 10.0 else 0.0
  }

  /** A missing group compares false: no weight. */
  function GroupWeight(rating: Option<real>): real
  {
    if rating.Some? && rating.value < 0.6 then 15.0 else 0.0
  }

  function TrendWeight(h: History): real
  {
    if RecentLateCount(h.paymentsLate) >= 3 then 20.0 else 0.0
  }

  /** The probability before the cap. */
  function RawProbability(i: Installment, dueMonth: int, h: History): real
  {
    BaseProbability + RateWeight(h) + SeasonWeight(dueMonth) + StageWeight(i.installmentNumber)
      + GroupWeight(h.groupRating) + TrendWeight(h)
  }

  function Probability(i: Installment, dueMonth: int, h: History): real
  {
    Min(100.0, RawProbability(i, dueMonth, h))
  }

  /** The bands of the probability: below 30, below 60, the rest. */
  function Categorize(p: real): (c: PredictionCategory)
    ensures c == OnTime <==> p < 30.0
    ensures c == MayDelay <==> 30.0 <= p < 60.0
    ensures c == HighRisk <==> 60.0 <= p
  {
    if p < 30.0 then OnTime else if p < 60.0 then MayDelay else HighRisk
  }

  function ShouldRemind(c: PredictionCategory): bool
  {
    c != OnTime
  }

  function ReminderDays(c: PredictionCategory): int
  {
    match c
    case OnTime => 1
    case MayDelay => 3
    case HighRisk => 5
  }

  function Note(applies: bool, f: DelayFactor): seq<DelayFactor>
  {
    if applies then [f] else []
  }

  /** The factors of the history rules: the late rate, the season and the stage. */
  function HistoryFactors(i: Installment, dueMonth: int, h: History): seq<DelayFactor>
  {
    Note(LateCount(h.memberInstallments) > 0, LatePaymentRate(LateRate(h.memberInstallments)))
      + Note(HighSpendingMonth(dueMonth), HighSpendingSeason) + Note(i.installmentNumber > 40, LateStage)
  }

  /** The factors of the group and trend rules. */
  function TrendFactors(h: History): seq<DelayFactor>
  {
    Note(GroupWeight(h.groupRating) > 0.0, WeakGroup)
      + Note(RecentLateCount(h.paymentsLate) >= 3, RecentTrend(RecentLateCount(h.paymentsLate)))
  }

  function DelayFactors(i: Installment, dueMonth: int, h: History): seq<DelayFactor>
  {
    HistoryFactors(i, dueMonth, h) + TrendFactors(h)
  }

  /** The prediction for a found installment, as a value. */
  function PredictionOf(installmentId: Id, i: Installment, dueMonth: int, h: History): Prediction
  {
    var p := Probability(i, dueMonth, h);
    var c := Categorize(p);
    Prediction(installmentId, i.dueDate, i.totalAmount, p, c, ShouldRemind(c), ReminderDays(c), DelayFactors(i, dueMonth, h))
  }

  // ---------------------------------------------------------------------------
  // The prediction, computed rule by rule

  /** `PredictLatePaymentAsync`: an unknown installment is an error; otherwise the probability is accumulated rule by rule. */
  method PredictLatePayment(installmentId: Id, installment: Option<Installment>, dueMonth: int, h: History)
    returns (r: Result<Prediction>)
    ensures installment.None? ==> r == Err(NotFound("Installment"))
    ensures installment.Some? ==> r == Ok(PredictionOf(installmentId, installment.value, dueMonth, h))
  {
    if installment.None? {
      return Err(NotFound("Installment"));
    }
    var i := installment.value;
    var delayProbability, delayRiskFactors := HistoryRules(i, dueMonth, h);
    delayProbability, delayRiskFactors := GroupAndTrendRules(h, delayProbability, delayRiskFactors);
    delayProbability := if delayProbability <= 100.0 then delayProbability else 100.0;
    var category, shouldRemind, reminderDays;
    if delayProbability < 30.0 {
      category, shouldRemind, reminderDays := OnTime, false, 1;
    } else if delayProbability < 60.0 {
      category, shouldRemind, reminderDays := MayDelay, true, 3;
    } else {
      category, shouldRemind, reminderDays := HighRisk, true, 5;
    }
    r := Ok(Prediction(installmentId, i.dueDate, i.totalAmount, delayProbability, category, shouldRemind, reminderDays, delayRiskFactors));
  }

  /** The late-rate, season and stage rules, from the base probability. */
  method HistoryRules(i: Installment, dueMonth: int, h: History) returns (delayProbability: real, delayRiskFactors: seq<DelayFactor>)
    ensures delayProbability == BaseProbability + RateWeight(h) + SeasonWeight(dueMonth) + StageWeight(i.installmentNumber)
    ensures delayRiskFactors == HistoryFactors(i, dueMonth, h)
  {
    delayRiskFactors := [];
    delayProbability := 20.0;
    var previousLatePayments := LateCount(h.memberInstallments);
    if previousLatePayments > 0 {
      var latePaymentRate := previousLatePayments as real / |h.memberInstallments| as real;
      delayProbability := delayProbability + latePaymentRate * 40.0;
      delayRiskFactors := delayRiskFactors + [LatePaymentRate(latePaymentRate)];
    }
    if HighSpendingMonth(dueMonth) {
      delayProbability := delayProbability + 15.0;
      delayRiskFactors := delayRiskFactors + [HighSpendingSeason];
    }
    if i.installmentNumber > 40 {
      delayProbability := delayProbability + 10.0;
      delayRiskFactors := delayRiskFactors + [LateStage];
    }
  }

  /** The group and recent-trend rules, added to a probability and its factors. */
  method GroupAndTrendRules(h: History, probability: real, factors: seq<DelayFactor>)
    returns (delayProbability: real, delayRiskFactors: seq<DelayFactor>)
    ensures delayProbability == probability + GroupWeight(h.groupRating) + TrendWeight(h)
    ensures delayRiskFactors == factors + TrendFactors(h)
  {
    delayProbability, delayRiskFactors := probability, factors;
    if h.groupRating.Some? && h.groupRating.value < 0.6 {
      delayProbability := delayProbability + 15.0;
      delayRiskFactors := delayRiskFactors + [WeakGroup];
    }
    var recentLateCount := RecentLateCount(h.paymentsLate);
    if recentLateCount >= 3 {
      delayProbability := delayProbability + 20.0;
      delayRiskFactors := delayRiskFactors + [RecentTrend(recentLateCount)];
    }
  }

  // ---------------------------------------------------------------------------
  // Properties of one prediction

  /** The raw probability lies in [20, 120]; after the cap at 100 the probability lies in [20, 100]. */
  lemma ProbabilityRange(i: Installment, dueMonth: int, h: History)
    ensures 20.0 <= RawProbability(i, dueMonth, h) <= 120.0
    ensures 20.0 <= Probability(i, dueMonth, h) <= 100.0
    ensures RawProbability(i, dueMonth, h) <= 100.0 ==> Probability(i, dueMonth, h) == RawProbability(i, dueMonth, h)
  {
    assert 0.0 <= RateWeight(h) <= 40.0;
  }

  /**
   * The category follows the thresholds 30 and 60, a reminder is advised
   * exactly from 30 on, and the reminder comes 1, 3 or 5 days ahead.
   */
  lemma CategoryRules(installmentId: Id, i: Installment, dueMonth: int, h: History)
    ensures var p := PredictionOf(installmentId, i, dueMonth, h);
      && (p.category == OnTime <==> p.probabilityOfDelay < 30.0)
      && (p.category == MayDelay <==> 30.0 <= p.probabilityOfDelay < 60.0)
      && (p.category == HighRisk <==> 60.0 <= p.probabilityOfDelay)
      && (p.shouldSendReminder <==> p.probabilityOfDelay >= 30.0)
      && p.reminderDaysBefore == (if p.category == OnTime then 1 else if p.category == MayDelay then 3 else 5)
  {
    var p := PredictionOf(installmentId, i, dueMonth, h);
    assert p.category == Categorize(p.probabilityOfDelay);
  }

  /** What one listed factor adds to the probability. */
  function FactorWeight(f: DelayFactor): real
  {
    match f
    case LatePaymentRate(r) => r * 40.0
    case HighSpendingSeason => 15.0
    case LateStage => 10.0
    case WeakGroup => 15.0
    case RecentTrend(_) => 20.0
  }

  function SumWeights(s: seq<DelayFactor>): real
  {
    if s == [] then 0.0 else SumWeights(s[..|s| - 1]) + FactorWeight(s[|s| - 1])
  }

  lemma {:induction false} SumWeightsAppend(a: seq<DelayFactor>, b: seq<DelayFactor>)
    ensures SumWeights(a + b) == SumWeights(a) + SumWeights(b)
    decreases |b|
  {
    if b != [] {
      var ab := a + b;
      assert ab[|ab| - 1] == b[|b| - 1];
      assert ab[..|ab| - 1] == a + b[..|b| - 1];
      SumWeightsAppend(a, b[..|b| - 1]);
    } else {
      assert a + b == a;
    }
  }

  lemma NoteWeight(applies: bool, f: DelayFactor)
    ensures SumWeights(Note(applies, f)) == if applies then FactorWeight(f) else 0.0
  {
    if applies {
      assert [f][..0] == [];
    }
  }

  /** The factors explain the probability: the raw probability is the base plus the weight of each factor listed. */
  lemma FactorsExplainProbability(i: Installment, dueMonth: int, h: History)
    ensures RawProbability(i, dueMonth, h) == BaseProbability + SumWeights(DelayFactors(i, dueMonth, h))
  {
    var s := h.memberInstallments;
    var n1 := Note(LateCount(s) > 0, LatePaymentRate(LateRate(s)));
    var n2 := Note(HighSpendingMonth(dueMonth), HighSpendingSeason);
    var n3 := Note(i.installmentNumber > 40, LateStage);
    var n4 := Note(GroupWeight(h.groupRating) > 0.0, WeakGroup);
    var n5 := Note(RecentLateCount(h.paymentsLate) >= 3, RecentTrend(RecentLateCount(h.paymentsLate)));
    NoteWeight(LateCount(s) > 0, LatePaymentRate(LateRate(s)));
    NoteWeight(HighSpendingMonth(dueMonth), HighSpendingSeason);
    NoteWeight(i.installmentNumber > 40, LateStage);
    NoteWeight(GroupWeight(h.groupRating) > 0.0, WeakGroup);
    NoteWeight(RecentLateCount(h.paymentsLate) >= 3, RecentTrend(RecentLateCount(h.paymentsLate)));
    SumWeightsAppend(n1, n2);
    SumWeightsAppend(n1 + n2, n3);
    SumWeightsAppend(n4, n5);
    SumWeightsAppend(n1 + n2 + n3, n4 + n5);
    assert DelayFactors(i, dueMonth, h) == (n1 + n2 + n3) + (n4 + n5);
  }

  /** With no factor listed the probability is the base 20: the installment is expected on time and no reminder is advised. */
  lemma NoFactorsOnTime(installmentId: Id, i: Installment, dueMonth: int, h: History)
    requires DelayFactors(i, dueMonth, h) == []
    ensures PredictionOf(installmentId, i, dueMonth, h).probabilityOfDelay == BaseProbability
    ensures PredictionOf(installmentId, i, dueMonth, h).category == OnTime
    ensures !PredictionOf(installmentId, i, dueMonth, h).shouldSendReminder
  {
    FactorsExplainProbability(i, dueMonth, h);
  }

  // ---------------------------------------------------------------------------
  // The high-risk list

  /** An installment the store holds, with its member's history and its due month. */
  datatype Candidate = Candidate(installmentId: Id, installment: Installment, dueMonth: int, history: History)

  /** The query of `GetHighRiskUpcomingPaymentsAsync`: pending installments due within [start, end], in store order. */
  function Upcoming(all: seq<Candidate>, start: Date, end: Date): (r: seq<Candidate>)
    ensures forall c :: c in r ==> c in all
    ensures forall c :: c in r ==> start <= c.installment.dueDate <= end && c.installment.status == InstallmentPending
  {
    if all == [] then []
    else
      var c := all[|all| - 1];
      Upcoming(all[..|all| - 1], start, end)
        + (if start <= c.installment.dueDate <= end && c.installment.status == InstallmentPending then [c] else [])
  }

  /** A candidate is taken exactly when it is a pending installment due within [start, end]. */
  lemma {:induction false} UpcomingMembers(all: seq<Candidate>, start: Date, end: Date, c: Candidate)
    ensures c in Upcoming(all, start, end) <==>
      c in all && start <= c.installment.dueDate <= end && c.installment.status == InstallmentPending
    decreases |all|
  {
    if all != [] {
      var init := all[..|all| - 1];
      assert all == init + [all[|all| - 1]];
      UpcomingMembers(init, start, end, c);
    }
  }

  function PredictionFor(c: Candidate): Prediction
  {
    PredictionOf(c.installmentId, c.installment, c.dueMonth, c.history)
  }

  /** The prediction of each candidate, in order. */
  function Predictions(cs: seq<Candidate>): (ps: seq<Prediction>)
    ensures |ps| == |cs| && forall k :: 0 <= k < |cs| ==> ps[k] == PredictionFor(cs[k])
  {
    seq(|cs|, k requires 0 <= k < |cs| => PredictionFor(cs[k]))
  }

  /** The predictions of at least 50, in order. */
  function Kept(ps: seq<Prediction>): seq<Prediction>
  {
    if ps == [] then []
    else Kept(ps[..|ps| - 1]) + (if ps[|ps| - 1].probabilityOfDelay >= 50.0 then [ps[|ps| - 1]] else [])
  }

  function Flagged(cs: seq<Candidate>): seq<Prediction>
  {
    Kept(Predictions(cs))
  }

  /** Exactly the predictions of at least 50 are kept. */
  lemma {:induction false} KeptMembers(ps: seq<Prediction>, p: Prediction)
    ensures p in Kept(ps) <==> p in ps && p.probabilityOfDelay >= 50.0
    decreases |ps|
  {
    if ps != [] {
      var init := ps[..|ps| - 1];
      KeptMembers(init, p);
      assert ps == init + [ps[|ps| - 1]];
    }
  }

  /** The loop of `GetHighRiskUpcomingPaymentsAsync`: each candidate predicted, those of at least 50 kept. */
  method CollectFlagged(upcoming: seq<Candidate>) returns (predictions: seq<Prediction>)
    ensures predictions == Flagged(upcoming)
  {
    ghost var all := Predictions(upcoming);
    predictions := [];
    var i := 0;
    while i < |upcoming|
      invariant 0 <= i <= |upcoming|
      invariant predictions == Kept(all[..i])
    {
      var c := upcoming[i];
      var prediction := PredictLatePayment(c.installmentId, Some(c.installment), c.dueMonth, c.history);
      assert all[..i + 1][..i] == all[..i];
      if prediction.Ok? && prediction.value.probabilityOfDelay >= 50.0 {
        predictions := predictions + [prediction.value];
      }
      i := i + 1;
    }
    assert all[..|upcoming|] == all;
  }

  /** `OrderByDescending` on the probability is `OrderBy` on its negation. */
  function DescendingKey(p: Prediction): real
  {
    -p.probabilityOfDelay
  }

  /** `GetHighRiskUpcomingPaymentsAsync`: the flagged upcoming installments, highest probability first. */
  method GetHighRiskUpcomingPayments(all: seq<Candidate>, start: Date, end: Date) returns (r: seq<Prediction>)
    ensures r == Sorting.SortBy(Flagged(Upcoming(all, start, end)), DescendingKey)
  {
    var upcoming := Upcoming(all, start, end);
    var predictions := CollectFlagged(upcoming);
    r := Sorting.SortBy(predictions, DescendingKey);
  }

  /**
   * The list holds the predictions of at least 50 of the pending installments
   * due in the window, each as often as it occurs there, highest first.
   */
  lemma HighRiskList(all: seq<Candidate>, start: Date, end: Date)
    ensures var r := Sorting.SortBy(Flagged(Upcoming(all, start, end)), DescendingKey);
      && multiset(r) == multiset(Flagged(Upcoming(all, start, end)))
      && (forall i, j :: 0 <= i < j < |r| ==> r[i].probabilityOfDelay >= r[j].probabilityOfDelay)
      && (forall p :: p in r <==> (p in Predictions(Upcoming(all, start, end)) && p.probabilityOfDelay >= 50.0))
  {
    var ps := Predictions(Upcoming(all, start, end));
    var r := Sorting.SortBy(Kept(ps), DescendingKey);
    forall i, j | 0 <= i < j < |r|
      ensures r[i].probabilityOfDelay >= r[j].probabilityOfDelay
    {
      assert DescendingKey(r[i]) <= DescendingKey(r[j]);
    }
    forall p
      ensures p in r <==> (p in ps && p.probabilityOfDelay >= 50.0)
    {
      Sorting.SortByMembers(Kept(ps), DescendingKey, p);
      KeptMembers(ps, p);
    }
  }
}
