/**
 * The day-log form: the form it starts from, the single-field `update`, the
 * symptom toggle, and the guarded save into the application store.
 */
module LogForm {
  import opened Wrappers
  import Sequences
  import opened Types
  import Utils
  import App

  /** The properties of a day log, as `keyof DayLog` names them. */
  datatype LogField =
    | DateF | FlowF | BleedingColorF | BleedingClotsF | MoodsF | MoodF | SymptomsF
    | PainLevelF | PainLocationsF | SleepHoursF | WaterGlassesF | SexF | SexDetailsF
    | EnergyF | StressF | DischargeF | TemperatureF | WeightF | NotesF
    | ContraceptiveTakenF | MedicationsF | NutritionF

  /** A value for one property, tagged with the property it belongs to. */
  datatype FieldValue =
    | DateV(dateValue: Day)
    | FlowV(flowValue: FlowIntensity)
    | BleedingColorV(bleedingColorValue: Option<BleedingColor>)
    | BleedingClotsV(bleedingClotsValue: Option<bool>)
    | MoodsV(moodsValue: Option<seq<Mood>>)
    | MoodV(moodValue: Option<Mood>)
    | SymptomsV(symptomsValue: seq<string>)
    | PainLevelV(painLevelValue: int)
    | PainLocationsV(painLocationsValue: seq<string>)
    | SleepHoursV(sleepHoursValue: real)
    | WaterGlassesV(waterGlassesValue: int)
    | SexV(sexValue: SexField)
    | SexDetailsV(sexDetailsValue: Option<seq<string>>)
    | EnergyV(energyValue: Option<Level>)
    | StressV(stressValue: Option<Level>)
    | DischargeV(dischargeValue: Option<DischargeType>)
    | TemperatureV(temperatureValue: Option<real>)
    | WeightV(weightValue: Option<real>)
    | NotesV(notesValue: string)
    | ContraceptiveTakenV(contraceptiveTakenValue: Option<bool>)
    | MedicationsV(medicationsValue: Option<seq<string>>)
    | NutritionV(nutritionValue: Option<seq<string>>)

  /** The property a value is for. */
  function FieldOf(v: FieldValue): LogField {
    match v
    case DateV(_) => DateF
    case FlowV(_) => FlowF
    case BleedingColorV(_) => BleedingColorF
    case BleedingClotsV(_) => BleedingClotsF
    case MoodsV(_) => MoodsF
    case MoodV(_) => MoodF
    case SymptomsV(_) => SymptomsF
    case PainLevelV(_) => PainLevelF
    case PainLocationsV(_) => PainLocationsF
    case SleepHoursV(_) => SleepHoursF
    case WaterGlassesV(_) => WaterGlassesF
    case SexV(_) => SexF
    case SexDetailsV(_) => SexDetailsF
    case EnergyV(_) => EnergyF
    case StressV(_) => StressF
    case DischargeV(_) => DischargeF
    case TemperatureV(_) => TemperatureF
    case WeightV(_) => WeightF
    case NotesV(_) => NotesF
    case ContraceptiveTakenV(_) => ContraceptiveTakenF
    case MedicationsV(_) => MedicationsF
    case NutritionV(_) => NutritionF
  }

  /** The property of a value is the one its constructor names. */
  lemma FieldOfTag(v: FieldValue)
    ensures FieldOf(v).DateF? <==> v.DateV?
    ensures FieldOf(v).FlowF? <==> v.FlowV?
    ensures FieldOf(v).BleedingColorF? <==> v.BleedingColorV?
    ensures FieldOf(v).BleedingClotsF? <==> v.BleedingClotsV?
    ensures FieldOf(v).MoodsF? <==> v.MoodsV?
    ensures FieldOf(v).MoodF? <==> v.MoodV?
    ensures FieldOf(v).SymptomsF? <==> v.SymptomsV?
    ensures FieldOf(v).PainLevelF? <==> v.PainLevelV?
    ensures FieldOf(v).PainLocationsF? <==> v.PainLocationsV?
    ensures FieldOf(v).SleepHoursF? <==> v.SleepHoursV?
    ensures FieldOf(v).WaterGlassesF? <==> v.WaterGlassesV?
    ensures FieldOf(v).SexF? <==> v.SexV?
    ensures FieldOf(v).SexDetailsF? <==> v.SexDetailsV?
    ensures FieldOf(v).EnergyF? <==> v.EnergyV?
    ensures FieldOf(v).StressF? <==> v.StressV?
    ensures FieldOf(v).DischargeF? <==> v.DischargeV?
    ensures FieldOf(v).TemperatureF? <==> v.TemperatureV?
    ensures FieldOf(v).WeightF? <==> v.WeightV?
    ensures FieldOf(v).NotesF? <==> v.NotesV?
    ensures FieldOf(v).ContraceptiveTakenF? <==> v.ContraceptiveTakenV?
    ensures FieldOf(v).MedicationsF? <==> v.MedicationsV?
    ensures FieldOf(v).NutritionF? <==> v.NutritionV?
  {
  }

  /** `log[field] === value`: the log holds the value in the property it is for. */
  predicate Holds(log: DayLog, v: FieldValue) {
    match v
    case DateV(x) => log.date == x
    case FlowV(x) => log.flow == x
    case BleedingColorV(x) => log.bleedingColor == x
    case BleedingClotsV(x) => log.bleedingClots == x
    case MoodsV(x) => log.moods == x
    case MoodV(x) => log.mood == x
    case SymptomsV(x) => log.symptoms == x
    case PainLevelV(x) => log.painLevel == x
    case PainLocationsV(x) => log.painLocations == x
    case SleepHoursV(x) => log.sleepHours == x
    case WaterGlassesV(x) => log.waterGlasses == x
    case SexV(x) => log.sex == x
    case SexDetailsV(x) => log.sexDetails == x
    case EnergyV(x) => log.energy == x
    case StressV(x) => log.stress == x
    case DischargeV(x) => log.discharge == x
    case TemperatureV(x) => log.temperature == x
    case WeightV(x) => log.weight == x
    case NotesV(x) => log.notes == x
    case ContraceptiveTakenV(x) => log.contraceptiveTaken == x
    case MedicationsV(x) => log.medications == x
    case NutritionV(x) => log.nutrition == x
  }

  /** `{ ...prev, [field]: value }`: the named property takes the value, every other keeps its own. */
  function SetField(log: DayLog, v: FieldValue): (r: DayLog)
    ensures Holds(r, v)
    ensures AgreeExcept(r, log, FieldOf(v))
  {
    FieldOfTag(v);
    DayLog(
      date := if v.DateV? then v.dateValue else log.date,
      flow := if v.FlowV? then v.flowValue else log.flow,
      bleedingColor := if v.BleedingColorV? then v.bleedingColorValue else log.bleedingColor,
      bleedingClots := if v.BleedingClotsV? then v.bleedingClotsValue else log.bleedingClots,
      moods := if v.MoodsV? then v.moodsValue else log.moods,
      mood := if v.MoodV? then v.moodValue else log.mood,
      symptoms := if v.SymptomsV? then v.symptomsValue else log.symptoms,
      painLevel := if v.PainLevelV? then v.painLevelValue else log.painLevel,
      painLocations := if v.PainLocationsV? then v.painLocationsValue else log.painLocations,
      sleepHours := if v.SleepHoursV? then v.sleepHoursValue else log.sleepHours,
      waterGlasses := if v.WaterGlassesV? then v.waterGlassesValue else log.waterGlasses,
      sex := if v.SexV? then v.sexValue else log.sex,
      sexDetails := if v.SexDetailsV? then v.sexDetailsValue else log.sexDetails,
      energy := if v.EnergyV? then v.energyValue else log.energy,
      stress := if v.StressV? then v.stressValue else log.stress,
      discharge := if v.DischargeV? then v.dischargeValue else log.discharge,
      temperature := if v.TemperatureV? then v.temperatureValue else log.temperature,
      weight := if v.WeightV? then v.weightValue else log.weight,
      notes := if v.NotesV? then v.notesValue else log.notes,
      contraceptiveTaken := if v.ContraceptiveTakenV? then v.contraceptiveTakenValue else log.contraceptiveTaken,
      medications := if v.MedicationsV? then v.medicationsValue else log.medications,
      nutrition := if v.NutritionV? then v.nutritionValue else log.nutrition)
  }

  /** `a` and `b` have the same value for every property except possibly `f`. */
  predicate AgreeExcept(a: DayLog, b: DayLog, f: LogField) {
    && (f.DateF? || a.date == b.date)
    && (f.FlowF? || a.flow == b.flow)
    && (f.BleedingColorF? || a.bleedingColor == b.bleedingColor)
    && (f.BleedingClotsF? || a.bleedingClots == b.bleedingClots)
    && (f.MoodsF? || a.moods == b.moods)
    && (f.MoodF? || a.mood == b.mood)
    && (f.SymptomsF? || a.symptoms == b.symptoms)
    && (f.PainLevelF? || a.painLevel == b.painLevel)
    && (f.PainLocationsF? || a.painLocations == b.painLocations)
    && (f.SleepHoursF? || a.sleepHours == b.sleepHours)
    && (f.WaterGlassesF? || a.waterGlasses == b.waterGlasses)
    && (f.SexF? || a.sex == b.sex)
    && (f.SexDetailsF? || a.sexDetails == b.sexDetails)
    && (f.EnergyF? || a.energy == b.energy)
    && (f.StressF? || a.stress == b.stress)
    && (f.DischargeF? || a.discharge == b.discharge)
    && (f.TemperatureF? || a.temperature == b.temperature)
    && (f.WeightF? || a.weight == b.weight)
    && (f.NotesF? || a.notes == b.notes)
    && (f.ContraceptiveTakenF? || a.contraceptiveTaken == b.contraceptiveTaken)
    && (f.MedicationsF? || a.medications == b.medications)
    && (f.NutritionF? || a.nutrition == b.nutrition)
  }

  /** Setting a property to the value it already holds changes nothing. */
  lemma SetFieldIdle(log: DayLog, v: FieldValue)
    requires Holds(log, v)
    ensures SetField(log, v) == log
  {
    FieldOfTag(v);
  }

  /** A second set of the same property overrides the first. */
  lemma SetFieldOverride(log: DayLog, v: FieldValue, w: FieldValue)
    requires FieldOf(v) == FieldOf(w)
    ensures SetField(SetField(log, v), w) == SetField(log, w)
  {
    FieldOfTag(v);
    FieldOfTag(w);
  }

  /** Sets of two different properties commute. */
  lemma SetFieldCommute(log: DayLog, v: FieldValue, w: FieldValue)
    requires FieldOf(v) != FieldOf(w)
    ensures SetField(SetField(log, v), w) == SetField(SetField(log, w), v)
  {
    FieldOfTag(v);
    FieldOfTag(w);
  }

  /** The form for a date with no log: no flow, no symptoms, 8 hours of sleep, 4 glasses, empty notes. */
  function DefaultLog(date: Day): (r: DayLog)
    ensures r.date == date && r.flow == FlowNone && r.symptoms == [] && r.notes == ""
    ensures r.sleepHours == 8.0 && r.waterGlasses == 4 && r.painLevel == 0
    ensures r.moods.None? && r.mood.None? && !r.sex.Truthy()
  {
    DayLog(
      date := date,
      flow := FlowNone,
      bleedingColor := None,
      bleedingClots := Some(false),
      moods := None,
      mood := None,
      symptoms := [],
      painLevel := 0,
      painLocations := [],
      sleepHours := 8.0,
      waterGlasses := 4,
      sex := LegacyBool(false),
      sexDetails := None,
      energy := Some(LevelMedium),
      stress := Some(LevelLow),
      discharge := None,
      temperature := None,
      weight := None,
      notes := "",
      contraceptiveTaken := Some(false),
      medications := None,
      nutrition := None)
  }

  /** `existingLog`: the stored log for the date, else the default form. */
  function ExistingLog(logs: map<Day, DayLog>, date: Day): (r: DayLog)
    ensures date in logs ==> r == logs[date]
    ensures date !in logs ==> r == DefaultLog(date)
  {
    if date in logs then logs[date] else DefaultLog(date)
  }

  /** `filter(s => s !== sym)`: every occurrence of `sym` removed, the rest in order. */
  function RemoveAll(s: seq<string>, sym: string): (r: seq<string>)
    ensures sym !in r
    ensures multiset(r) == multiset(s)[sym := 0]
    ensures Sequences.IsSubsequence(r, s)
    ensures sym !in s ==> r == s
  {
    if s == [] then []
    else
      var rest := RemoveAll(s[1..], sym);
      assert s == [s[0]] + s[1..];
      if s[0] == sym then rest else [s[0]] + rest
  }

  /** `toggleSymptom`'s new list: remove the symptom if present, append it if absent. */
  function Toggle(s: seq<string>, sym: string): (r: seq<string>)
    ensures sym in s ==> sym !in r && multiset(r) == multiset(s)[sym := 0] && Sequences.IsSubsequence(r, s)
    ensures sym !in s ==> r == s + [sym]
  {
    if sym in s then RemoveAll(s, sym) else s + [sym]
  }

  ghost predicate NoDuplicates(s: seq<string>) {
    forall x :: multiset(s)[x] <= 1
  }

  /** Toggling an absent symptom twice gives back the list, and toggling keeps a list duplicate-free. */
  lemma ToggleLaws(s: seq<string>, sym: string)
    ensures sym !in s ==> Toggle(Toggle(s, sym), sym) == s
    ensures NoDuplicates(s) ==> NoDuplicates(Toggle(s, sym))
  {
    if sym !in s {
      RemoveAllAppend(s, sym);
    }
  }

  lemma {:induction false} RemoveAllAppend(s: seq<string>, sym: string)
    requires sym !in s
    ensures RemoveAll(s + [sym], sym) == s
  {
    if s == [] {
      assert [] + [sym] == [sym];
      assert [sym][1..] == [];
    } else {
      assert (s + [sym])[1..] == s[1..] + [sym];
      RemoveAllAppend(s[1..], sym);
    }
  }

  datatype ViewMode = Quick | Extended

  /** The notes limit and the sleep limit `handleSave` checks before storing. */
  predicate SaveAllowed(form: DayLog)
    ensures SaveAllowed(form) <==> |form.notes| <= 500 && form.sleepHours <= 24.0
  {
    !(|form.notes| > 500) && !(form.sleepHours > 24.0)
  }

  /** The value the sex switch writes: the boolean negation of the current value's truthiness. */
  function SexSwitch(current: SexField): (r: SexField)
    ensures r.LegacyBool? && r.Truthy() == !current.Truthy()
  {
    LegacyBool(!current.Truthy())
  }

  /** The log page's state for one date. */
  class LogEditor {
    const dateParam: Day
    var form: DayLog
    var isDirty: bool
    var viewMode: ViewMode

    constructor (dateParam: Day, logs: map<Day, DayLog>)
      ensures this.dateParam == dateParam
      ensures form == ExistingLog(logs, dateParam)
      ensures !isDirty && viewMode == Quick
    {
      this.dateParam := dateParam;
      form := ExistingLog(logs, dateParam);
      isDirty := false;
      viewMode := Quick;
    }

    /** `update(field, value)`: one property changes and the form is dirty. */
    method Update(v: FieldValue)
      modifies this`form, this`isDirty
      ensures form == SetField(old(form), v)
      ensures Holds(form, v) && AgreeExcept(form, old(form), FieldOf(v))
      ensures isDirty
    {
      form := SetField(form, v);
      isDirty := true;
    }

    /** `toggleSymptom`: the symptom list toggles and the form is dirty. */
    method ToggleSymptom(sym: string)
      modifies this`form, this`isDirty
      ensures form == old(form).(symptoms := Toggle(old(form.symptoms), sym))
      ensures isDirty
    {
      form := form.(symptoms := Toggle(form.symptoms, sym));
      isDirty := true;
    }

    method SetViewMode(m: ViewMode)
      modifies this`viewMode
      ensures viewMode == m
    {
      viewMode := m;
    }

    /**
     * `handleSave`: a form with notes over 500 characters or more than 24
     * hours of sleep is not stored; any other form is stored under the page's
     * date through `addLog`.
     */
    method HandleSave(app: App.AppStore) returns (saved: bool)
      modifies app
      ensures saved == SaveAllowed(form)
      ensures !saved ==> app.logs == old(app.logs) && app.settings == old(app.settings)
      ensures saved ==> app.logs == old(app.logs)[dateParam := form]
      ensures saved ==> app.settings == old(app.settings).(lastPeriodDate :=
        App.NextLastPeriodDate(old(app.settings.lastPeriodDate), dateParam, form))
    {
      if |form.notes| > 500 {
        return false;
      }
      if form.sleepHours > 24.0 {
        return false;
      }
      app.AddLog(dateParam, form);
      return true;
    }
  }
}
