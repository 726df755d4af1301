/**
 * The calendar's day classifier and the two readers that normalise legacy
 * log shapes (a single `mood`, a boolean `sex`).
 */
module Calendar {
  import opened Wrappers
  import opened Types
  import Utils

  /** What a calendar cell shows for one day. */
  datatype DayStatus =
    | Period(intensity: FlowIntensity)
    | Logged
    | PredictedPeriod
    | OvulationDay
    | FertileDay
    | LutealDay
    | FollicularDay

  /** The statuses a prediction (rather than a log) can produce. */
  predicate IsPrediction(st: DayStatus) {
    st.PredictedPeriod? || st.OvulationDay? || st.FertileDay? || st.LutealDay? || st.FollicularDay?
  }

  /** The predicted cycle day of a date `diffDays > 0` days after the last period start. */
  function CycleDay(diffDays: int, cycleLength: int): (r: int)
    requires cycleLength != 0
    ensures diffDays > 0 ==> 1 <= r <= Utils.Abs(cycleLength)
  {
    Utils.JsRem(diffDays, cycleLength) + 1
  }

  /** The prediction for a cycle day, in the order the windows are checked. */
  function PredictForCycleDay(cycleDay: int, periodLength: int): (r: Option<DayStatus>)
    ensures r.Some?
    ensures r == Some(PredictedPeriod) <==> cycleDay <= periodLength
    ensures r == Some(OvulationDay) <==> cycleDay > periodLength && cycleDay == 14
    ensures r == Some(FertileDay) <==> cycleDay > periodLength && 10 <= cycleDay <= 17 && cycleDay != 14
    ensures r == Some(LutealDay) <==> cycleDay > periodLength && cycleDay > 17
    ensures r == Some(FollicularDay) <==> cycleDay > periodLength && cycleDay < 10
  {
    if cycleDay <= periodLength then Some(PredictedPeriod)
    else if cycleDay >= 10 && cycleDay <= 17 then
      (if cycleDay == 14 then Some(OvulationDay) else Some(FertileDay))
    else if cycleDay > 17 then Some(LutealDay)
    else if cycleDay > periodLength && cycleDay < 10 then Some(FollicularDay)
    else None
  }

  /**
   * `getDayStatus`: a logged day shows its log; an unlogged day after the
   * last period start shows the prediction for its cycle day. A zero cycle
   * length makes the source's cycle day NaN, every comparison false, and the
   * result null.
   */
  function GetDayStatus(date: Day, logs: map<Day, DayLog>, s: UserSettings): (r: Option<DayStatus>)
    ensures date in logs ==> r.Some? && !IsPrediction(r.value)
    ensures date in logs && logs[date].flow != FlowNone ==> r == Some(Period(logs[date].flow))
    ensures date in logs && logs[date].flow == FlowNone ==> r == Some(Logged)
    ensures date !in logs ==> r.None? || IsPrediction(r.value)
    ensures date !in logs && s.lastPeriodDate.None? ==> r.None?
    ensures date !in logs && s.lastPeriodDate.Some? && date <= s.lastPeriodDate.value ==> r.None?
  {
    if date in logs && logs[date].flow.Value() > 0 then Some(Period(logs[date].flow))
    else if date in logs then Some(Logged)
    else if s.lastPeriodDate.None? then None
    else
      var diffDays := date - s.lastPeriodDate.value;
      if diffDays > 0 && s.avgCycleLength != 0 then
        PredictForCycleDay(CycleDay(diffDays, s.avgCycleLength), s.avgPeriodLength)
      else
        None
  }

  /**
   * An unlogged day after the last period start always gets exactly one
   * prediction, decided by its cycle day in 1..avgCycleLength: the predicted
   * period wins over the fertile window, day 14 of the window is ovulation.
   */
  lemma PredictionAfterStart(date: Day, logs: map<Day, DayLog>, s: UserSettings)
    requires date !in logs && s.lastPeriodDate.Some? && date > s.lastPeriodDate.value
    requires s.avgCycleLength >= 1
    ensures var cd := CycleDay(date - s.lastPeriodDate.value, s.avgCycleLength);
      var r := GetDayStatus(date, logs, s);
      && 1 <= cd <= s.avgCycleLength
      && r.Some? && IsPrediction(r.value)
      && (r == Some(PredictedPeriod) <==> cd <= s.avgPeriodLength)
      && (r == Some(OvulationDay) <==> cd > s.avgPeriodLength && cd == 14)
      && (r == Some(FertileDay) <==> cd > s.avgPeriodLength && 10 <= cd <= 17 && cd != 14)
      && (r == Some(LutealDay) <==> cd > s.avgPeriodLength && cd > 17)
      && (r == Some(FollicularDay) <==> cd > s.avgPeriodLength && cd < 10)
  {
  }

  /** Logs take precedence: whatever the settings, a logged day shows its log. */
  lemma LogsTakePrecedence(date: Day, logs: map<Day, DayLog>, s: UserSettings, s': UserSettings)
    requires date in logs
    ensures GetDayStatus(date, logs, s) == GetDayStatus(date, logs, s')
  {
  }

  /** Predictions repeat every `avgCycleLength` days after the last period start. */
  lemma {:induction false} PredictionPeriodic(date: Day, logs: map<Day, DayLog>, s: UserSettings)
    requires s.lastPeriodDate.Some? && date > s.lastPeriodDate.value && s.avgCycleLength >= 1
    requires date !in logs && Utils.AddDays(date, s.avgCycleLength) !in logs
    ensures GetDayStatus(Utils.AddDays(date, s.avgCycleLength), logs, s) == GetDayStatus(date, logs, s)
  {
    var diff := date - s.lastPeriodDate.value;
    Utils.JsRemPeriodic(diff, s.avgCycleLength);
    assert Utils.AddDays(date, s.avgCycleLength) - s.lastPeriodDate.value == diff + s.avgCycleLength;
  }

  /** The moods of one log: `moods` if present, else the legacy `mood` as a list, else none. */
  function LogMoods(log: DayLog): (r: seq<Mood>)
    ensures log.moods.Some? ==> r == log.moods.value
    ensures log.moods.None? && log.mood.Some? ==> r == [log.mood.value]
    ensures log.moods.None? && log.mood.None? ==> r == []
  {
    if log.moods.Some? then log.moods.value
    else if log.mood.Some? then [log.mood.value]
    else []
  }

  /** `getMoods`: the moods logged for a date, none for an unlogged date. */
  function GetMoods(logs: map<Day, DayLog>, date: Day): (r: seq<Mood>)
    ensures date !in logs ==> r == []
    ensures date in logs ==> r == LogMoods(logs[date])
  {
    if date !in logs then [] else LogMoods(logs[date])
  }

  datatype SexLabel = SexLabel(text: string, color: string)

  /** `getSexLabel`: a label for the two states with sex and the legacy `true`, else null. */
  function GetSexLabel(logs: map<Day, DayLog>, date: Day): (r: Option<SexLabel>)
    ensures r.Some? <==> date in logs && logs[date].sex in {Sex(Protected), Sex(Unprotected), LegacyBool(true)}
    ensures r.Some? ==> r.value.text != ""
  {
    if date !in logs then None
    else
      var log := logs[date];
      if log.sex == Sex(Protected) then Some(SexLabel("Защищенный", "bg-green-100 text-green-700"))
      else if log.sex == Sex(Unprotected) then Some(SexLabel("Без защиты", "bg-rose-100 text-rose-700"))
      else if log.sex == LegacyBool(true) then Some(SexLabel("Секс", "bg-pink-100 text-pink-600"))
      else None
  }

  /** The three labels are distinct, so the label identifies the logged state. */
  lemma SexLabelsDistinct(logs: map<Day, DayLog>, d1: Day, d2: Day)
    requires GetSexLabel(logs, d1).Some? && GetSexLabel(logs, d2).Some?
    requires GetSexLabel(logs, d1) == GetSexLabel(logs, d2)
    ensures logs[d1].sex == logs[d2].sex
  {
  }
}
