/**
 * Date helpers, the cycle-phase calculator and the period and ovulation
 * predictors. Dates are day numbers, so adding days is addition and the
 * millisecond differences rounded with `Math.floor`/`Math.ceil` are exact
 * integer subtractions. "Today" and the clock's day are parameters.
 */
module Utils {
  import opened Wrappers
  import opened Types

  function Abs(n: int): (r: int)
    ensures r >= 0 && (r == n || r == -n)
  {
    if n < 0 then -n else n
  }

  /**
   * JavaScript's `%`: the remainder of division truncated toward zero, which
   * takes the sign of the dividend (Dafny's `%` is Euclidean and never
   * negative).
   */
  function JsRem(a: int, b: int): (r: int)
    requires b != 0
    ensures -Abs(b) < r < Abs(b)
    ensures a >= 0 ==> r >= 0
    ensures a <= 0 ==> r <= 0
    ensures (a - r) % Abs(b) == 0
  {
    var m := Abs(b);
    if a >= 0 then
      DivisibleRest(a, m);
      a % m
    else
      DivisibleRest(-a, m);
      assert (a - -((-a) % m)) == -((-a) - (-a) % m);
      NegateDivisible((-a) - (-a) % m, m);
      -((-a) % m)
  }

  /** Taking the remainder off leaves a multiple of the divisor. */
  lemma DivisibleRest(n: int, m: int)
    requires m > 0
    ensures (n - n % m) % m == 0
  {
    assert n - n % m == (n / m) * m;
    MultipleMod(n / m, m);
  }

  lemma NegateDivisible(n: int, m: int)
    requires m > 0 && n % m == 0
    ensures (-n) % m == 0
  {
    assert n == (n / m) * m;
    assert -n == (-(n / m)) * m;
    MultipleMod(-(n / m), m);
  }

  lemma MultipleMod(k: int, m: int)
    requires m > 0
    ensures (k * m) % m == 0
  {
    LemmaDivUnique(k * m, m, k, 0);
  }

  /** On a non-negative dividend JavaScript's remainder is the Euclidean one. */
  lemma JsRemOfNatural(a: int, b: int)
    requires a >= 0 && b > 0
    ensures JsRem(a, b) == a % b
  {
  }

  /** Adding the divisor to a non-negative dividend leaves the remainder unchanged. */
  lemma {:induction false} JsRemPeriodic(a: int, b: int)
    requires a >= 0 && b > 0
    ensures JsRem(a + b, b) == JsRem(a, b)
  {
    assert a == (a / b) * b + a % b;
    assert a + b == (a / b + 1) * b + a % b;
    LemmaDivUnique(a + b, b, a / b + 1, a % b);
  }

  /** Quotient and remainder are determined by the division equation. */
  lemma LemmaDivUnique(n: int, d: int, q: int, r: int)
    requires d > 0 && 0 <= r < d && n == q * d + r
    ensures n % d == r && n / d == q
  {
    var q', r' := n / d, n % d;
    assert q' * d + r' == q * d + r;
    assert (q' - q) * d == r - r';
    if q' - q >= 1 {
      MulAtLeast(q' - q, d);
    } else if q - q' >= 1 {
      assert (q - q') * d == r' - r;
      MulAtLeast(q - q', d);
    }
  }

  lemma MulAtLeast(k: int, d: int)
    requires k >= 1 && d > 0
    ensures k * d >= d
  {
    assert k * d == (k - 1) * d + d;
  }

  /** `addDays`: calendar arithmetic, `n` may be negative. */
  function AddDays(d: Day, n: int): (r: Day)
    ensures r - d == n
  {
    d + n
  }

  /** `getDayDiff`: the absolute number of whole days between two dates. */
  function GetDayDiff(d1: Day, d2: Day): (r: nat)
    ensures AddDays(d1, r) == d2 || AddDays(d2, r) == d1
  {
    Abs(d2 - d1)
  }

  /** `isFutureDate`: strictly after today. */
  predicate IsFutureDate(d: Day, today: Day)
    ensures IsFutureDate(d, today) <==> GetDayDiff(today, d) > 0 && AddDays(today, GetDayDiff(today, d)) == d
  {
    d > today
  }

  lemma AddDaysCompose(d: Day, a: int, b: int)
    ensures AddDays(AddDays(d, a), b) == AddDays(d, a + b)
  {
  }

  lemma DayDiffSymmetric(d1: Day, d2: Day, n: int)
    ensures GetDayDiff(d1, d2) == GetDayDiff(d2, d1)
    ensures GetDayDiff(d1, d1) == 0
    ensures GetDayDiff(d1, AddDays(d1, n)) == Abs(n)
  {
  }

  /** `predictNextPeriod`: the last period date plus one cycle. */
  function PredictNextPeriod(lastPeriod: Day, cycleLength: int): (r: Day)
    ensures GetDayDiff(lastPeriod, r) == Abs(cycleLength)
    ensures cycleLength > 0 ==> IsFutureDate(r, lastPeriod)
  {
    AddDays(lastPeriod, cycleLength)
  }

  /** `predictOvulation`: a fixed 14 days before the next period. */
  function PredictOvulation(nextPeriod: Day): (r: Day)
    ensures GetDayDiff(r, nextPeriod) == 14 && IsFutureDate(nextPeriod, r)
  {
    AddDays(nextPeriod, -14)
  }

  lemma PredictionRoundTrip(d: Day, n: int)
    ensures PredictOvulation(PredictNextPeriod(d, n)) == AddDays(d, n - 14)
  {
  }

  /** The goals whose phase does not depend on the cycle arithmetic. */
  predicate IsSpecialGoal(goal: Option<UserGoal>) {
    goal == Some(PregnancyMode) || goal == Some(PostpartumMode) || goal == Some(MenopauseMode)
  }

  /** True when `CalculateCyclePhase` divides by the cycle length. */
  predicate UsesCycleArithmetic(s: UserSettings) {
    !IsSpecialGoal(s.goal) && s.lastPeriodDate.Some?
  }

  /** The day of the cycle before clamping: `(diffDays % avgCycleLength) + 1`. */
  function RawDayInCycle(today: Day, lastPeriod: Day, cycleLength: int): (r: int)
    requires cycleLength != 0
    ensures today >= lastPeriod ==> 1 <= r <= Abs(cycleLength)
    ensures today <= lastPeriod ==> r <= 1
  {
    JsRem(today - lastPeriod, cycleLength) + 1
  }

  /** The phase label of a cycle day, by precedence. */
  function PhaseOfDay(day: int, periodLength: int): (r: Phase)
    ensures r == Menstruation <==> day <= periodLength
    ensures r == Ovulation <==> day > periodLength && 12 <= day <= 16
    ensures r == Luteal <==> day > periodLength && day > 16
    ensures r == Follicular <==> day > periodLength && day < 12
  {
    if day <= periodLength then Menstruation
    else if day >= 12 && day <= 16 then Ovulation
    else if day > 16 then Luteal
    else Follicular
  }

  /**
   * `calculateCyclePhase`. `clockDay` is the day the source falls back to,
   * through `new Date()`, when a pregnancy has no last period date.
   */
  function CalculateCyclePhase(today: Day, s: UserSettings, clockDay: Day): (r: CyclePhase)
    requires UsesCycleArithmetic(s) ==> s.avgCycleLength != 0
    ensures r.phase in {Pregnancy, Postpartum, Menopause} <==> IsSpecialGoal(s.goal)
    ensures s.goal == Some(PregnancyMode) ==>
      AddDays(s.lastPeriodDate.GetOr(clockDay), r.dayInCycle - 1) == today
    ensures s.goal == Some(PostpartumMode) || s.goal == Some(MenopauseMode) ==> r.dayInCycle == 0
    ensures IsSpecialGoal(s.goal) ==> r.daysUntilNextPeriod == 0 && !r.isFertile
    ensures !IsSpecialGoal(s.goal) ==> r.dayInCycle >= 1
    ensures !UsesCycleArithmetic(s) && !IsSpecialGoal(s.goal) ==>
      r == CyclePhase(Follicular, 1, 28, false)
  {
    if s.goal == Some(PregnancyMode) then
      var start := s.lastPeriodDate.GetOr(clockDay);
      var diffDays := today - start + 1;
      CyclePhase(Pregnancy, diffDays, 0, false)
    else if s.goal == Some(PostpartumMode) then
      CyclePhase(Postpartum, 0, 0, false)
    else if s.goal == Some(MenopauseMode) then
      CyclePhase(Menopause, 0, 0, false)
    else if s.lastPeriodDate.None? then
      CyclePhase(Follicular, 1, 28, false)
    else
      var dayInCycle := RawDayInCycle(today, s.lastPeriodDate.value, s.avgCycleLength);
      var daysUntilNextPeriod := s.avgCycleLength - dayInCycle;
      var phase := PhaseOfDay(dayInCycle, s.avgPeriodLength);
      var isFertile := phase == Ovulation || (dayInCycle >= 10 && dayInCycle <= 17);
      CyclePhase(phase, if dayInCycle > 0 then dayInCycle else 1, daysUntilNextPeriod, isFertile)
  }

  /**
   * From the last period date onward, the cycle day lies in 1..avgCycleLength
   * and together with the days until the next period makes up one cycle.
   */
  lemma CycleDayWithinCycle(today: Day, s: UserSettings, clockDay: Day)
    requires UsesCycleArithmetic(s) && s.avgCycleLength >= 1
    requires today >= s.lastPeriodDate.value
    ensures var r := CalculateCyclePhase(today, s, clockDay);
      && 1 <= r.dayInCycle <= s.avgCycleLength
      && r.dayInCycle + r.daysUntilNextPeriod == s.avgCycleLength
  {
  }

  /** Fertility depends only on the (unclamped) cycle day, whatever the phase label. */
  lemma FertileWindow(today: Day, s: UserSettings, clockDay: Day)
    requires UsesCycleArithmetic(s) && s.avgCycleLength != 0
    ensures var day := RawDayInCycle(today, s.lastPeriodDate.value, s.avgCycleLength);
      CalculateCyclePhase(today, s, clockDay).isFertile <==> 10 <= day <= 17
  {
  }

  /** The phase label follows the precedence period, ovulation, luteal, follicular. */
  lemma PhasePrecedence(today: Day, s: UserSettings, clockDay: Day)
    requires UsesCycleArithmetic(s) && s.avgCycleLength != 0
    ensures var day := RawDayInCycle(today, s.lastPeriodDate.value, s.avgCycleLength);
      var p := CalculateCyclePhase(today, s, clockDay).phase;
      && (day <= s.avgPeriodLength <==> p == Menstruation)
      && (day > s.avgPeriodLength && 12 <= day <= 16 <==> p == Ovulation)
      && (day > s.avgPeriodLength && day > 16 <==> p == Luteal)
      && (day > s.avgPeriodLength && day < 12 <==> p == Follicular)
  {
  }

  /**
   * A last period date in the future gives a non-positive JavaScript
   * remainder: the day shown is clamped to 1, while the phase and the days
   * until the next period are computed from the unclamped day.
   */
  lemma FutureLastPeriod(today: Day, s: UserSettings, clockDay: Day)
    requires UsesCycleArithmetic(s) && s.avgCycleLength >= 1
    requires today < s.lastPeriodDate.value
    ensures var r := CalculateCyclePhase(today, s, clockDay);
      && r.dayInCycle == 1
      && r.daysUntilNextPeriod >= s.avgCycleLength - 1
      && (s.avgPeriodLength >= 1 ==> r.phase == Menstruation)
  {
  }

  /** The phase repeats every `avgCycleLength` days from the last period date on. */
  lemma {:induction false} PhasePeriodic(today: Day, s: UserSettings, clockDay: Day)
    requires UsesCycleArithmetic(s) && s.avgCycleLength >= 1
    requires today >= s.lastPeriodDate.value
    ensures CalculateCyclePhase(AddDays(today, s.avgCycleLength), s, clockDay)
         == CalculateCyclePhase(today, s, clockDay)
  {
    JsRemPeriodic(today - s.lastPeriodDate.value, s.avgCycleLength);
    assert AddDays(today, s.avgCycleLength) - s.lastPeriodDate.value
        == (today - s.lastPeriodDate.value) + s.avgCycleLength;
  }

  /** Cycle 28, period 5, 14 days after the last period: day 15, ovulation, fertile, 13 days left. */
  lemma OvulationExample(today: Day, s: UserSettings, clockDay: Day)
    requires UsesCycleArithmetic(s) && s.avgCycleLength == 28 && s.avgPeriodLength == 5
    requires today == AddDays(s.lastPeriodDate.value, 14)
    ensures CalculateCyclePhase(today, s, clockDay) == CyclePhase(Ovulation, 15, 13, true)
  {
  }
}
