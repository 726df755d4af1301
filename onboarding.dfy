/**
 * The six-step onboarding wizard: its form fields, the per-step validation,
 * the next/back transitions, and the clamped +/- steppers for the cycle and
 * period lengths.
 */
module Onboarding {
  import opened Wrappers
  import opened Types
  import Utils
  import App

  const TotalSteps := 6

  /** The characters `String.prototype.trim` removes: white space and line terminators. */
  predicate IsJsWhitespace(c: char) {
    || c == '\t' || c == '\n' || c == '\U{000B}' || c == '\U{000C}' || c == '\r'
    || c == ' ' || c == '\U{00A0}' || c == '\U{1680}'
    || ('\U{2000}' <= c <= '\U{200A}')
    || c == '\U{2028}' || c == '\U{2029}' || c == '\U{202F}' || c == '\U{205F}'
    || c == '\U{3000}' || c == '\U{FEFF}'
  }

  predicate AllWhitespace(s: string) {
    WhitespaceBetween(s, 0, |s|)
  }

  /** Every character of `s` at an index in `lo..hi` is white space. */
  predicate WhitespaceBetween(s: string, lo: int, hi: int)
    requires 0 <= lo && hi <= |s|
  {
    forall k :: lo <= k < hi ==> IsJsWhitespace(s[k])
  }

  /** The end of the run of white space that starts at index `lo`. */
  function SkipLeading(s: string, lo: nat): (n: nat)
    requires lo <= |s|
    ensures lo <= n <= |s|
    ensures WhitespaceBetween(s, lo, n)
    ensures n < |s| ==> !IsJsWhitespace(s[n])
    decreases |s| - lo
  {
    if lo == |s| || !IsJsWhitespace(s[lo]) then lo else SkipLeading(s, lo + 1)
  }

  /** The start of the run of white space that ends at index `hi`, not going below `lo`. */
  function SkipTrailing(s: string, lo: nat, hi: nat): (n: nat)
    requires lo <= hi <= |s|
    ensures lo <= n <= hi
    ensures WhitespaceBetween(s, n, hi)
    ensures lo < n ==> !IsJsWhitespace(s[n - 1])
    decreases hi - lo
  {
    if hi == lo || !IsJsWhitespace(s[hi - 1]) then hi else SkipTrailing(s, lo, hi - 1)
  }

  /**
   * `trim`: `s` without its leading and trailing white space. The result is
   * the slice of `s` between two runs of white space, and is empty or starts
   * and ends with a non-white-space character.
   */
  function Trim(s: string): (r: string)
    ensures exists i :: (0 <= i <= |s| - |r| && r == s[i..i + |r|]
                        && WhitespaceBetween(s, 0, i) && WhitespaceBetween(s, i + |r|, |s|))
    ensures r != [] ==> !IsJsWhitespace(r[0]) && !IsJsWhitespace(r[|r| - 1])
    ensures r == [] <==> AllWhitespace(s)
  {
    var i := SkipLeading(s, 0);
    var e := SkipTrailing(s, i, |s|);
    var r := s[i..e];
    assert i + |r| == e;
    assert r != [] ==> r[0] == s[i] && r[|r| - 1] == s[e - 1];
    r
  }

  /** The wizard's state: the current step and the form fields (empty strings are `None`). */
  class Wizard {
    var step: int
    var name: string
    var age: Option<int>
    var lastPeriod: Option<Day>
    var cycleLen: int
    var periodLen: int
    var goal: UserGoal
    var consent: bool

    /** The step stays in 1..6 and the steppers keep the lengths in their ranges. */
    ghost predicate Valid()
      reads this
    {
      1 <= step <= TotalSteps && 21 <= cycleLen <= 45 && 1 <= periodLen <= 8
    }

    constructor ()
      ensures Valid() && step == 1
      ensures name == "" && age.None? && lastPeriod.None?
      ensures cycleLen == 28 && periodLen == 5 && goal == Track && !consent
    {
      step := 1;
      name := "";
      age := None;
      lastPeriod := None;
      cycleLen := 28;
      periodLen := 5;
      goal := Track;
      consent := false;
    }

    /** `isValid`: whether the current step's input lets the user continue. */
    predicate IsValid(today: Day)
      reads this
      ensures IsValid(today) ==> 1 <= step <= TotalSteps
      ensures step == 5 ==> IsValid(today)
      ensures (step == 3 || step == 4) && Valid() ==> IsValid(today)
    {
      match step
      case 1 => |Trim(name)| > 0 && age.Some? && age.value >= 13 && age.value <= 55
      case 2 => lastPeriod.Some? && !Utils.IsFutureDate(lastPeriod.value, today)
      case 3 => cycleLen >= 21 && cycleLen <= 45
      case 4 => periodLen >= 1 && periodLen <= 8
      case 5 => true
      case 6 => consent
      case _ => false
    }

    /** What the last step hands to `updateSettings`; an empty age becomes `Number('') == 0`. */
    function FinishPatch(): (p: App.SettingsPatch)
      reads this
      ensures p.isOnboarded == Some(true) && p.hasConsented == Some(consent)
      ensures p.name == Some(name) && p.lastPeriodDate == Some(lastPeriod)
      ensures p.avgCycleLength == Some(cycleLen) && p.avgPeriodLength == Some(periodLen)
      ensures p.goal == Some(goal) && p.age == Some(age.GetOr(0))
      ensures p.contraceptionType.None? && p.isPro.None?
    {
      App.SettingsPatch(
        isOnboarded := Some(true),
        name := Some(name),
        age := Some(age.GetOr(0)),
        lastPeriodDate := Some(lastPeriod),
        avgCycleLength := Some(cycleLen),
        avgPeriodLength := Some(periodLen),
        goal := Some(goal),
        contraceptionType := None,
        hasConsented := Some(consent),
        isPro := None)
    }

    /**
     * `handleNext`: an invalid step stays put; a valid step below the last
     * advances; the valid last step saves the settings and marks the user
     * onboarded.
     */
    method HandleNext(today: Day, app: App.AppStore)
      requires Valid()
      modifies this, app
      ensures Valid()
      ensures name == old(name) && age == old(age) && lastPeriod == old(lastPeriod)
      ensures cycleLen == old(cycleLen) && periodLen == old(periodLen)
      ensures goal == old(goal) && consent == old(consent)
      ensures app.logs == old(app.logs)
      ensures !old(IsValid(today)) ==> step == old(step) && app.settings == old(app.settings)
      ensures old(IsValid(today)) && old(step) < TotalSteps ==>
        step == old(step) + 1 && app.settings == old(app.settings)
      ensures old(IsValid(today)) && old(step) == TotalSteps ==>
        step == TotalSteps && app.settings == App.Merge(old(app.settings), FinishPatch())
      ensures old(IsValid(today)) && old(step) == TotalSteps ==> app.settings.isOnboarded
    {
      if !IsValid(today) {
        return;
      }
      if step < TotalSteps {
        step := step + 1;
      } else {
        app.UpdateSettings(FinishPatch());
      }
    }

    /** `handleBack`: one step back, never below the first. */
    method HandleBack()
      requires Valid()
      modifies this`step
      ensures Valid()
      ensures step == if old(step) > 1 then old(step) - 1 else 1
    {
      if step > 1 {
        step := step - 1;
      }
    }

    /** The cycle-length "-" button: `Math.max(21, c - 1)`. */
    method DecCycleLen()
      requires Valid()
      modifies this`cycleLen
      ensures Valid()
      ensures cycleLen == if old(cycleLen) > 21 then old(cycleLen) - 1 else 21
      ensures cycleLen == Press(old(cycleLen), false, 21, 45)
    {
      cycleLen := if cycleLen - 1 > 21 then cycleLen - 1 else 21;
    }

    /** The cycle-length "+" button: `Math.min(45, c + 1)`. */
    method IncCycleLen()
      requires Valid()
      modifies this`cycleLen
      ensures Valid()
      ensures cycleLen == if old(cycleLen) < 45 then old(cycleLen) + 1 else 45
      ensures cycleLen == Press(old(cycleLen), true, 21, 45)
    {
      cycleLen := if cycleLen + 1 < 45 then cycleLen + 1 else 45;
    }

    /** The period-length "-" button: `Math.max(1, c - 1)`. */
    method DecPeriodLen()
      requires Valid()
      modifies this`periodLen
      ensures Valid()
      ensures periodLen == if old(periodLen) > 1 then old(periodLen) - 1 else 1
      ensures periodLen == Press(old(periodLen), false, 1, 8)
    {
      periodLen := if periodLen - 1 > 1 then periodLen - 1 else 1;
    }

    /** The period-length "+" button: `Math.min(8, c + 1)`. */
    method IncPeriodLen()
      requires Valid()
      modifies this`periodLen
      ensures Valid()
      ensures periodLen == if old(periodLen) < 8 then old(periodLen) + 1 else 8
      ensures periodLen == Press(old(periodLen), true, 1, 8)
    {
      periodLen := if periodLen + 1 < 8 then periodLen + 1 else 8;
    }

    /** The text inputs, the goal cards and the consent checkbox. */
    method SetName(v: string)
      modifies this`name
      ensures name == v
    {
      name := v;
    }

    method SetAge(v: Option<int>)
      modifies this`age
      ensures age == v
    {
      age := v;
    }

    method SetLastPeriod(v: Option<Day>)
      modifies this`lastPeriod
      ensures lastPeriod == v
    {
      lastPeriod := v;
    }

    method SetGoal(v: UserGoal)
      modifies this`goal
      ensures goal == v
    {
      goal := v;
    }

    method SetConsent(v: bool)
      modifies this`consent
      ensures consent == v
    {
      consent := v;
    }
  }

  /**
   * The validity rule of each step, stated on the wizard's fields: a name
   * with a non-blank character and an age in 13..55; a last period date that
   * is set and not after today; a cycle of 21..45 days; a period of 1..8
   * days; any goal; consent given; no other step is valid.
   */
  lemma StepValidity(w: Wizard, today: Day)
    ensures w.step == 1 ==> (w.IsValid(today) <==>
      (exists k :: 0 <= k < |w.name| && !IsJsWhitespace(w.name[k]))
      && w.age.Some? && 13 <= w.age.value <= 55)
    ensures w.step == 2 ==> (w.IsValid(today) <==> w.lastPeriod.Some? && w.lastPeriod.value <= today)
    ensures w.step == 3 ==> (w.IsValid(today) <==> 21 <= w.cycleLen <= 45)
    ensures w.step == 4 ==> (w.IsValid(today) <==> 1 <= w.periodLen <= 8)
    ensures w.step == 5 ==> w.IsValid(today)
    ensures w.step == 6 ==> (w.IsValid(today) <==> w.consent)
    ensures !(1 <= w.step <= 6) ==> !w.IsValid(today)
  {
  }

  /** The steppers can only reach their range's bounds, never leave it, from any start in range. */
  lemma {:induction false} StepperClamp(c: int, presses: seq<bool>, lo: int, hi: int)
    requires lo <= c <= hi
    ensures lo <= Stepped(c, presses, lo, hi) <= hi
    decreases |presses|
  {
    if presses != [] {
      StepperClamp(Press(c, presses[0], lo, hi), presses[1..], lo, hi);
    }
  }

  /**
   * One press of a clamped stepper: "+" (`true`) is `Math.min(hi, c + 1)`,
   * "-" (`false`) is `Math.max(lo, c - 1)`. The four stepper methods each
   * promise one press.
   */
  function Press(c: int, up: bool, lo: int, hi: int): int {
    if up then (if c + 1 < hi then c + 1 else hi) else (if c - 1 > lo then c - 1 else lo)
  }

  /** The value after a run of presses of a clamped stepper. */
  function Stepped(c: int, presses: seq<bool>, lo: int, hi: int): int
    decreases |presses|
  {
    if presses == [] then c
    else Stepped(Press(c, presses[0], lo, hi), presses[1..], lo, hi)
  }
}
