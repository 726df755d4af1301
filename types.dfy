/** Optional values: an absent JavaScript property, an empty date string, or a `null` result. */
module Wrappers {
  datatype Option<+T> = None | Some(value: T) {
    function GetOr(default: T): T {
      match this
      case Some(v) => v
      case None => default
    }
  }
}

/**
 * The data model of the cycle tracker: enumerations, the day log, the user
 * settings, the derived cycle phase and the constant translation tables.
 * Calendar dates are integer day numbers (days since a fixed epoch), so one
 * ISO `YYYY-MM-DD` string corresponds to exactly one `Day`.
 */
module Types {
  import opened Wrappers

  /** A calendar date, as a number of days since the epoch. */
  type Day = int

  /** Menstrual flow intensity, an ordinal enumeration. */
  datatype FlowIntensity = FlowNone | Light | Medium | Heavy {
    /** The numeric value of the enumeration member. */
    function Value(): (n: nat)
      ensures n <= 3
      ensures (n == 0) == (this == FlowNone)
    {
      match this
      case FlowNone => 0
      case Light => 1
      case Medium => 2
      case Heavy => 3
    }
  }

  datatype Mood = Calm | Happy | Irritable | Sad | Anxious | Energetic | Depressed | MoodSwings {
    /** The string value of the enumeration member. */
    function Name(): string {
      match this
      case Calm => "Calm"
      case Happy => "Happy"
      case Irritable => "Irritable"
      case Sad => "Sad"
      case Anxious => "Anxious"
      case Energetic => "Energetic"
      case Depressed => "Depressed"
      case MoodSwings => "Mood Swings"
    }
  }

  const MoodTranslation: map<string, string> := map[
    "Calm" := "Спокойствие",
    "Happy" := "Счастье",
    "Irritable" := "Раздражение",
    "Sad" := "Грусть",
    "Anxious" := "Тревога",
    "Energetic" := "Энергия",
    "Depressed" := "Апатия",
    "Mood Swings" := "Перепады"
  ]

  datatype BleedingColor = Red | Brown | Pink | Black

  datatype DischargeType = DischargeNone | Sticky | Creamy | EggWhite | Watery | Unusual {
    function Name(): string {
      match this
      case DischargeNone => "None"
      case Sticky => "Sticky"
      case Creamy => "Creamy"
      case EggWhite => "Egg White"
      case Watery => "Watery"
      case Unusual => "Unusual"
    }
  }

  const DischargeTranslation: map<string, string> := map[
    "None" := "Нет",
    "Sticky" := "Липкие",
    "Creamy" := "Кремовые",
    "Egg White" := "Яичный белок",
    "Watery" := "Водянистые",
    "Unusual" := "Необычные"
  ]

  /** The three sexual-activity states of a day. */
  datatype SexType = NoSex | Protected | Unprotected

  /**
   * What the `sex` property of a stored log can hold: one of the three
   * states, or a boolean written by older versions and by the log form's
   * on/off switch.
   */
  datatype SexField = Sex(kind: SexType) | LegacyBool(flag: bool) {
    /** JavaScript truthiness: every state string is non-empty, so truthy. */
    predicate Truthy() {
      match this
      case Sex(_) => true
      case LegacyBool(b) => b
    }
  }

  datatype Level = LevelLow | LevelMedium | LevelHigh

  /**
   * One day's observations. `moods` may be absent in a log built by the log
   * form, which writes the legacy single `mood` property instead.
   */
  datatype DayLog = DayLog(
    date: Day,
    flow: FlowIntensity,
    bleedingColor: Option<BleedingColor>,
    bleedingClots: Option<bool>,
    moods: Option<seq<Mood>>,
    mood: Option<Mood>,
    symptoms: seq<string>,
    painLevel: int,
    painLocations: seq<string>,
    sleepHours: real,
    waterGlasses: int,
    sex: SexField,
    sexDetails: Option<seq<string>>,
    energy: Option<Level>,
    stress: Option<Level>,
    discharge: Option<DischargeType>,
    temperature: Option<real>,
    weight: Option<real>,
    notes: string,
    contraceptiveTaken: Option<bool>,
    medications: Option<seq<string>>,
    nutrition: Option<seq<string>>)

  datatype UserGoal = Track | Conceive | Avoid | PregnancyMode | PostpartumMode | MenopauseMode

  /** The user's settings; `lastPeriodDate == None` stands for the empty string. */
  datatype UserSettings = UserSettings(
    isOnboarded: bool,
    name: Option<string>,
    age: Option<int>,
    lastPeriodDate: Option<Day>,
    avgCycleLength: int,
    avgPeriodLength: int,
    goal: Option<UserGoal>,
    contraceptionType: Option<string>,
    hasConsented: Option<bool>,
    isPro: bool)

  datatype Phase = Menstruation | Follicular | Ovulation | Luteal | Pregnancy | Postpartum | Menopause {
    function Name(): string {
      match this
      case Menstruation => "Menstruation"
      case Follicular => "Follicular"
      case Ovulation => "Ovulation"
      case Luteal => "Luteal"
      case Pregnancy => "Pregnancy"
      case Postpartum => "Postpartum"
      case Menopause => "Menopause"
    }
  }

  datatype CyclePhase = CyclePhase(phase: Phase, dayInCycle: int, daysUntilNextPeriod: int, isFertile: bool)

  const PhaseTranslation: map<string, string> := map[
    "Menstruation" := "Менструация",
    "Follicular" := "Фолликулярная",
    "Ovulation" := "Овуляция",
    "Luteal" := "Лютеиновая",
    "Pregnancy" := "Беременность",
    "Postpartum" := "После родов",
    "Menopause" := "Менопауза"
  ]

  const GeneralSymptoms: seq<string> := ["Спазмы", "Головная боль", "Головокружение", "Отеки"]
  const GISymptoms: seq<string> := ["Вздутие", "Тошнота", "Тяга к сладкому", "Аппетит++", "Диарея", "Запор"]
  const SkinSymptoms: seq<string> := ["Акне", "Жирная кожа", "Сухость", "Выпадение волос"]
  const BreastSymptoms: seq<string> := ["Чувствительность", "Боль в груди", "Увеличение"]

  const MedsList: seq<string> := ["Обезболивающее (НПВС)", "Магний", "Железо", "Витамины", "Мелатонин"]
  const NutritionList: seq<string> := ["Сладкое", "Фастфуд", "Алкоголь", "Кофеин", "Белок++", "Овощи++"]
  const SexDetailsList: seq<string> := ["Высокое либидо", "Низкое либидо", "Дискомфорт", "Использовали смазку", "Оргазм"]
  const PainLocations: seq<string> := ["Низ живота", "Поясница", "Голова", "Грудь", "Ноги"]

  /** The flat symptom catalogue: the four categories, in category order. */
  function SymptomsList(): (r: seq<string>)
    ensures |r| == |GeneralSymptoms| + |GISymptoms| + |SkinSymptoms| + |BreastSymptoms| == 17
    ensures r[..4] == GeneralSymptoms && r[4..10] == GISymptoms
    ensures r[10..14] == SkinSymptoms && r[14..] == BreastSymptoms
  {
    GeneralSymptoms + GISymptoms + SkinSymptoms + BreastSymptoms
  }

  /** Flow intensities are ordered by value, so "flow > None" means "flow >= Light". */
  lemma FlowOrder(f: FlowIntensity)
    ensures FlowNone.Value() < Light.Value() < Medium.Value() < Heavy.Value()
    ensures f.Value() > FlowNone.Value() <==> f.Value() >= Light.Value()
    ensures f.Value() > 0 <==> f != FlowNone
  {
  }

  /** Every mood has a translation, and distinct moods have distinct names. */
  lemma MoodTranslationTotal(m: Mood, m': Mood)
    ensures m.Name() in MoodTranslation
    ensures m.Name() == m'.Name() ==> m == m'
  {
  }

  /** Every discharge type has a translation. */
  lemma DischargeTranslationTotal(d: DischargeType)
    ensures d.Name() in DischargeTranslation
  {
  }

  /** Every phase has a translation. */
  lemma PhaseTranslationTotal(p: Phase)
    ensures p.Name() in PhaseTranslation
  {
  }
}
