/**
 * The application's global state: the user settings and the day logs, with
 * the operations the pages call (`updateSettings`, `addLog`, `resetData`),
 * and the tab selection derived from the route.
 */
module App {
  import opened Wrappers
  import opened Types
  import Utils

  /** The settings a fresh install starts from, and that a reset restores. */
  const DefaultSettings := UserSettings(
    isOnboarded := false,
    name := None,
    age := None,
    lastPeriodDate := None,
    avgCycleLength := 28,
    avgPeriodLength := 5,
    goal := None,
    contraceptionType := None,
    hasConsented := None,
    isPro := false)

  /**
   * A `Partial<UserSettings>`: `Some(v)` for each field the caller supplies.
   * The last period date can be supplied as the empty string, `Some(None)`.
   */
  datatype SettingsPatch = SettingsPatch(
    isOnboarded: Option<bool>,
    name: Option<string>,
    age: Option<int>,
    lastPeriodDate: Option<Option<Day>>,
    avgCycleLength: Option<int>,
    avgPeriodLength: Option<int>,
    goal: Option<UserGoal>,
    contraceptionType: Option<string>,
    hasConsented: Option<bool>,
    isPro: Option<bool>)

  const EmptyPatch := SettingsPatch(None, None, None, None, None, None, None, None, None, None)

  /** A patch that supplies only the last period date. */
  function LastPeriodPatch(d: Day): (p: SettingsPatch)
    ensures p.lastPeriodDate == Some(Some(d))
    ensures p.(lastPeriodDate := None) == EmptyPatch
  {
    EmptyPatch.(lastPeriodDate := Some(Some(d)))
  }

  /** An optional field keeps its value unless the patch supplies one. */
  function Pick<T>(supplied: Option<T>, current: T): T {
    if supplied.Some? then supplied.value else current
  }

  function PickOptional<T>(supplied: Option<T>, current: Option<T>): Option<T> {
    if supplied.Some? then supplied else current
  }

  /** `{ ...prev, ...patch }`: the supplied fields overwrite, the others are kept. */
  function Merge(s: UserSettings, p: SettingsPatch): (r: UserSettings)
    ensures r.isOnboarded == if p.isOnboarded.Some? then p.isOnboarded.value else s.isOnboarded
    ensures r.name == if p.name.Some? then Some(p.name.value) else s.name
    ensures r.age == if p.age.Some? then Some(p.age.value) else s.age
    ensures r.lastPeriodDate == if p.lastPeriodDate.Some? then p.lastPeriodDate.value else s.lastPeriodDate
    ensures r.avgCycleLength == if p.avgCycleLength.Some? then p.avgCycleLength.value else s.avgCycleLength
    ensures r.avgPeriodLength == if p.avgPeriodLength.Some? then p.avgPeriodLength.value else s.avgPeriodLength
    ensures r.goal == if p.goal.Some? then Some(p.goal.value) else s.goal
    ensures r.contraceptionType == if p.contraceptionType.Some? then Some(p.contraceptionType.value) else s.contraceptionType
    ensures r.hasConsented == if p.hasConsented.Some? then Some(p.hasConsented.value) else s.hasConsented
    ensures r.isPro == if p.isPro.Some? then p.isPro.value else s.isPro
    ensures p == EmptyPatch ==> r == s
  {
    UserSettings(
      isOnboarded := Pick(p.isOnboarded, s.isOnboarded),
      name := PickOptional(p.name, s.name),
      age := PickOptional(p.age, s.age),
      lastPeriodDate := Pick(p.lastPeriodDate, s.lastPeriodDate),
      avgCycleLength := Pick(p.avgCycleLength, s.avgCycleLength),
      avgPeriodLength := Pick(p.avgPeriodLength, s.avgPeriodLength),
      goal := PickOptional(p.goal, s.goal),
      contraceptionType := PickOptional(p.contraceptionType, s.contraceptionType),
      hasConsented := PickOptional(p.hasConsented, s.hasConsented),
      isPro := Pick(p.isPro, s.isPro))
  }

  /** The patch that applies `p` and then `q`: `q`'s fields win. */
  function Then(p: SettingsPatch, q: SettingsPatch): SettingsPatch {
    SettingsPatch(
      PickOptional(q.isOnboarded, p.isOnboarded),
      PickOptional(q.name, p.name),
      PickOptional(q.age, p.age),
      PickOptional(q.lastPeriodDate, p.lastPeriodDate),
      PickOptional(q.avgCycleLength, p.avgCycleLength),
      PickOptional(q.avgPeriodLength, p.avgPeriodLength),
      PickOptional(q.goal, p.goal),
      PickOptional(q.contraceptionType, p.contraceptionType),
      PickOptional(q.hasConsented, p.hasConsented),
      PickOptional(q.isPro, p.isPro))
  }

  /** Merging is idempotent, and two merges compose into one. */
  lemma MergeLaws(s: UserSettings, p: SettingsPatch, q: SettingsPatch)
    ensures Merge(Merge(s, p), p) == Merge(s, p)
    ensures Merge(Merge(s, p), q) == Merge(s, Then(p, q))
  {
  }

  /**
   * A patch that supplies every field determines the result completely,
   * whatever the settings it is applied to.
   */
  lemma MergeFullPatch(s: UserSettings, s': UserSettings, p: SettingsPatch)
    requires p.isOnboarded.Some? && p.name.Some? && p.age.Some? && p.lastPeriodDate.Some?
    requires p.avgCycleLength.Some? && p.avgPeriodLength.Some? && p.goal.Some?
    requires p.contraceptionType.Some? && p.hasConsented.Some? && p.isPro.Some?
    ensures Merge(s, p) == Merge(s', p)
  {
  }

  /**
   * The cycle-start detection of `addLog`: a flow log sets the last period
   * date when none is known, and moves it to the log's date when that is at
   * least 21 days later (ceiling of the millisecond difference, exact on
   * day numbers); anything else keeps it.
   */
  function NextLastPeriodDate(last: Option<Day>, date: Day, log: DayLog): (r: Option<Day>)
    ensures log.flow == FlowNone ==> r == last
  {
    if log.flow.Value() > FlowNone.Value() && last.Some? then
      var diffDays := date - last.value;
      if diffDays >= 21 then Some(date) else last
    else if log.flow.Value() > FlowNone.Value() && last.None? then
      Some(date)
    else
      last
  }

  /** When a flow log replaces a known last period date: exactly at a gap of 21 days or more. */
  lemma CycleStartRule(last: Day, date: Day, log: DayLog)
    requires log.flow != FlowNone
    ensures NextLastPeriodDate(Some(last), date, log) == Some(date) <==> Utils.AddDays(last, 21) <= date || date == last
    ensures date < Utils.AddDays(last, 21) ==> NextLastPeriodDate(Some(last), date, log) == Some(last)
    ensures NextLastPeriodDate(None, date, log) == Some(date)
  {
  }

  /** Once known, the last period date never moves backward, and is never cleared. */
  lemma LastPeriodMonotone(last: Option<Day>, date: Day, log: DayLog)
    ensures last.Some? ==> NextLastPeriodDate(last, date, log).Some?
    ensures last.Some? ==> NextLastPeriodDate(last, date, log).value >= last.value
    ensures NextLastPeriodDate(last, date, log).Some? ==>
      NextLastPeriodDate(last, date, log) == last || NextLastPeriodDate(last, date, log) == Some(date)
  {
  }

  /** The last period date after a sequence of `addLog` calls. */
  function LastPeriodAfter(last: Option<Day>, entries: seq<(Day, DayLog)>): Option<Day>
    decreases |entries|
  {
    if entries == [] then last
    else LastPeriodAfter(NextLastPeriodDate(last, entries[0].0, entries[0].1), entries[1..])
  }

  /** Over any sequence of `addLog` calls the last period date only moves forward. */
  lemma {:induction false} LastPeriodMonotoneOverLogs(last: Option<Day>, entries: seq<(Day, DayLog)>)
    requires last.Some?
    ensures LastPeriodAfter(last, entries).Some?
    ensures LastPeriodAfter(last, entries).value >= last.value
    decreases |entries|
  {
    if entries != [] {
      var next := NextLastPeriodDate(last, entries[0].0, entries[0].1);
      LastPeriodMonotone(last, entries[0].0, entries[0].1);
      LastPeriodMonotoneOverLogs(next, entries[1..]);
    }
  }

  /** The global store of the application. */
  class AppStore {
    var settings: UserSettings
    var logs: map<Day, DayLog>

    constructor ()
      ensures settings == DefaultSettings && logs == map[]
    {
      settings := DefaultSettings;
      logs := map[];
    }

    /** `updateSettings`: a partial merge into the current settings. */
    method UpdateSettings(p: SettingsPatch)
      modifies this
      ensures settings == Merge(old(settings), p)
      ensures logs == old(logs)
    {
      settings := Merge(settings, p);
    }

    /**
     * `addLog`: store the log under its date, replacing any earlier entry,
     * and advance the last period date by the cycle-start rule.
     */
    method AddLog(date: Day, log: DayLog)
      modifies this
      ensures logs == old(logs)[date := log]
      ensures date in logs && logs[date] == log
      ensures forall d :: d != date ==> (d in logs <==> d in old(logs)) && (d in logs ==> logs[d] == old(logs)[d])
      ensures settings == old(settings).(lastPeriodDate := NextLastPeriodDate(old(settings.lastPeriodDate), date, log))
      ensures log.flow == FlowNone ==> settings == old(settings)
      ensures old(settings.lastPeriodDate).Some? ==> settings.lastPeriodDate.value >= old(settings.lastPeriodDate).value
    {
      logs := logs[date := log];
      var last := settings.lastPeriodDate;
      if log.flow.Value() > FlowNone.Value() && last.Some? {
        var diffDays := date - last.value;
        if diffDays >= 21 {
          UpdateSettings(LastPeriodPatch(date));
        }
      } else if log.flow.Value() > FlowNone.Value() && last.None? {
        UpdateSettings(LastPeriodPatch(date));
      }
      LastPeriodMonotone(last, date, log);
    }

    /** `resetData`: back to the default settings and no logs. */
    method ResetData()
      modifies this
      ensures settings == DefaultSettings && logs == map[]
      ensures !settings.isOnboarded && settings.lastPeriodDate.None? && !settings.isPro
      ensures settings.avgCycleLength == 28 && settings.avgPeriodLength == 5
    {
      settings := DefaultSettings;
      logs := map[];
    }

    /** The phase the application shows for `today`. */
    function CurrentPhase(today: Day, clockDay: Day): (r: CyclePhase)
      reads this
      requires Utils.UsesCycleArithmetic(settings) ==> settings.avgCycleLength != 0
      ensures !Utils.IsSpecialGoal(settings.goal) ==> r.dayInCycle >= 1
    {
      Utils.CalculateCyclePhase(today, settings, clockDay)
    }
  }

  /** `getActiveTab`: the route without its leading character, or `home` for the root. */
  function GetActiveTab(pathname: string): (r: string)
    ensures r != []
    ensures |pathname| > 1 ==> [pathname[0]] + r == pathname
    ensures |pathname| <= 1 ==> r == "home"
  {
    var path := if |pathname| == 0 then "" else pathname[1..];
    if path != "" then path else "home"
  }
}
