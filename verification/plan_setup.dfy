/**
 Creating a training plan (src/components/training-plan/TrainingPlanSetup.tsx): the form's
 validation, the duration it derives from a target race date, the end date it computes and the
 plan record it saves. A calendar instant is a day number with the milliseconds since that
 day's midnight; `formatDay` stands for date-fns `format(date, 'yyyy-MM-dd')`, the plan
 generator for the AI flow, and `newId` for the id Firestore assigns to the new document.
 */
module PlanSetup {
  import opened Wrappers
  import opened Schemas
  import Json
  import PlanDisplay

  /** A `Date`: day number and time of day. */
  datatype Instant = Instant(day: int, millis: int)

  /** `a < b` on `Date`s. */
  predicate Before(a: Instant, b: Instant) {
    a.day < b.day || (a.day == b.day && a.millis < b.millis)
  }

  /** The form's values. The start date is `None` once the picker's selected day is clicked
      again, which hands the form `undefined`. */
  datatype SetupValues = SetupValues(
    fitnessLevel: FitnessLevel,
    runningExperience: string,
    goal: Goal,
    daysPerWeek: real,
    startDate: Option<Instant>,
    targetRaceDate: Option<Instant>,
    durationWeeks: int,
    additionalNotes: Option<string>)

  const MinWeeks := 1
  const MaxWeeks := 52

  // ---------------------------------------------------------------------------
  // Validation (`TrainingPlanSetupSchema`)

  datatype SetupError =
    | StartMissing
    | ExperienceMissing
    | DaysOutOfRange
    | DurationTooShort
    | DurationTooLong
    | TargetBeforeStart

  /** Every complaint the schema raises. A missing start date is a type failure, after which
      the refinement does not run (and it tests for a start date itself); a failed minimum or
      maximum does not stop it. */
  function Errors(v: SetupValues): (r: set<SetupError>)
    ensures StartMissing in r <==> v.startDate.None?
    ensures ExperienceMissing in r <==> |v.runningExperience| < 1
    ensures DaysOutOfRange in r <==> !(1.0 <= v.daysPerWeek <= 7.0)
    ensures DurationTooShort in r <==> v.durationWeeks < MinWeeks
    ensures DurationTooLong in r <==> v.durationWeeks > MaxWeeks
    ensures TargetBeforeStart in r <==>
      v.startDate.Some? && v.targetRaceDate.Some? && Before(v.targetRaceDate.value, v.startDate.value)
  {
    (if v.startDate.None? then {StartMissing} else {})
    + (if |v.runningExperience| < 1 then {ExperienceMissing} else {})
    + (if !(1.0 <= v.daysPerWeek <= 7.0) then {DaysOutOfRange} else {})
    + (if v.durationWeeks < MinWeeks then {DurationTooShort} else {})
    + (if v.durationWeeks > MaxWeeks then {DurationTooLong} else {})
    + (if v.startDate.Some? && v.targetRaceDate.Some? && Before(v.targetRaceDate.value, v.startDate.value)
       then {TargetBeforeStart} else {})
  }

  predicate Valid(v: SetupValues) {
    Errors(v) == {}
  }

  // ---------------------------------------------------------------------------
  // Duration from a target race date

  /** `Math.max(1, Math.ceil((differenceInCalendarDays(target, start) + 1) / 7))`: the fewest
      whole weeks that cover the days from start to target, both included. */
  function WeeksBetween(startDay: int, targetDay: int): (w: int)
    requires startDay <= targetDay
    ensures w >= 1
    ensures 7 * (w - 1) < targetDay - startDay + 1 <= 7 * w
  {
    var days := targetDay - startDay + 1;
    var weeks := (days + 6) / 7;
    if weeks < 1 then 1 else weeks
  }

  /** The duration effect: with a start date and a target race date not before it, it
      recomputes the weeks, otherwise it leaves the current value alone. */
  function DerivedWeeks(startDate: Option<Instant>, targetRaceDate: Option<Instant>, current: int): (w: int)
    ensures startDate.None? || targetRaceDate.None? || Before(targetRaceDate.value, startDate.value) ==>
              w == current
    ensures startDate.Some? && targetRaceDate.Some? && !Before(targetRaceDate.value, startDate.value) ==>
              w >= 1 && 7 * (w - 1) < targetRaceDate.value.day - startDate.value.day + 1 <= 7 * w
  {
    if startDate.Some? && targetRaceDate.Some? && !Before(targetRaceDate.value, startDate.value)
    then WeeksBetween(startDate.value.day, targetRaceDate.value.day)
    else current
  }

  /** A later target never shortens the plan. */
  lemma WeeksMonotone(startDay: int, t1: int, t2: int)
    requires startDay <= t1 <= t2
    ensures WeeksBetween(startDay, t1) <= WeeksBetween(startDay, t2)
  {
  }

  // ---------------------------------------------------------------------------
  // End date

  /** The plan's last day: the target race day when there is one, otherwise the day that ends
      `durationWeeks` full weeks from the start. */
  function EndDay(v: SetupValues): (d: int)
    requires v.startDate.Some?
    ensures v.targetRaceDate.Some? ==> d == v.targetRaceDate.value.day
    ensures v.targetRaceDate.None? ==> d - v.startDate.value.day + 1 == 7 * v.durationWeeks
  {
    if v.targetRaceDate.Some? then v.targetRaceDate.value.day
    else v.startDate.value.day + v.durationWeeks * 7 - 1
  }

  /** The two formulas agree: the weeks recomputed from a start and the end the duration gives
      are that duration. */
  lemma WeeksRoundTrip(startDay: int, weeks: int)
    requires weeks >= 1
    ensures WeeksBetween(startDay, startDay + 7 * weeks - 1) == weeks
  {
    var w := WeeksBetween(startDay, startDay + 7 * weeks - 1);
    assert 7 * (w - 1) < 7 * weeks <= 7 * w;
  }

  /** A valid setup never ends before it starts. */
  lemma ValidPlanEndsAfterStart(v: SetupValues)
    requires Valid(v)
    ensures v.startDate.Some? && EndDay(v) >= v.startDate.value.day
  {
    assert StartMissing !in Errors(v);
    assert TargetBeforeStart !in Errors(v);
    assert DurationTooShort !in Errors(v);
  }

  /** After the duration effect has run on a valid setup with a target, the duration covers the
      plan: the plan's days fit in the weeks, and one week fewer would not hold them. */
  lemma DerivedWeeksCoverPlan(v: SetupValues)
    requires Valid(v) && v.targetRaceDate.Some?
    requires v.durationWeeks == DerivedWeeks(v.startDate, v.targetRaceDate, v.durationWeeks)
    ensures v.startDate.Some?
    ensures 7 * (v.durationWeeks - 1) < EndDay(v) - v.startDate.value.day + 1 <= 7 * v.durationWeeks
  {
    assert StartMissing !in Errors(v);
    assert TargetBeforeStart !in Errors(v);
  }

  // ---------------------------------------------------------------------------
  // Submitting

  /** What the plan generator is asked for. */
  datatype PlanInput = PlanInput(
    fitnessLevel: FitnessLevel,
    runningExperience: string,
    goal: Goal,
    daysPerWeek: real,
    startDate: string,
    endDate: string,
    targetRaceDate: Option<string>,
    additionalNotes: string)

  /** The generator's input built from submitted (hence validated) values. */
  function InputOf(v: SetupValues, formatDay: int -> string): (r: PlanInput)
    requires v.startDate.Some?
    ensures r.fitnessLevel == v.fitnessLevel && r.runningExperience == v.runningExperience
    ensures r.goal == v.goal && r.daysPerWeek == v.daysPerWeek
    ensures r.startDate == formatDay(v.startDate.value.day)
    ensures v.targetRaceDate.Some? ==> r.endDate == formatDay(v.targetRaceDate.value.day)
    ensures v.targetRaceDate.None? ==> r.endDate == formatDay(v.startDate.value.day + 7 * v.durationWeeks - 1)
    ensures v.targetRaceDate.Some? ==> r.targetRaceDate == Some(formatDay(v.targetRaceDate.value.day))
    ensures v.targetRaceDate.None? ==> r.targetRaceDate.None?
    ensures v.additionalNotes.Some? ==> r.additionalNotes == v.additionalNotes.value
    ensures v.additionalNotes.None? ==> r.additionalNotes == ""
  {
    PlanInput(v.fitnessLevel, v.runningExperience, v.goal, v.daysPerWeek,
              formatDay(v.startDate.value.day), formatDay(EndDay(v)),
              if v.targetRaceDate.Some? then Some(formatDay(v.targetRaceDate.value.day)) else None,
              v.additionalNotes.GetOr(""))
  }

  datatype SubmitOutcome =
    | Rejected(errors: set<SetupError>)
    | NotSignedIn
    | GenerationFailed
    | Saved(plan: TrainingPlan, userPlanId: string)

  /** The form's submit: validation first, then the sign-in check, then the generator; on
      success the new plan document and the user's `trainingPlanId` are written. */
  function Submit(v: SetupValues, uid: Option<string>, formatDay: int -> string,
                  generate: PlanInput -> Option<string>, newId: string): (r: SubmitOutcome)
    ensures r.Rejected? <==> !Valid(v)
    ensures r.Rejected? ==> r.errors == Errors(v)
    ensures r.NotSignedIn? <==> Valid(v) && uid.None?
    ensures r.Saved? <==> Valid(v) && uid.Some? && generate(InputOf(v, formatDay)).Some?
    ensures r.Saved? ==>
              && r.plan.id == newId == r.userPlanId && r.plan.userId == uid.value
              && v.startDate.Some?
              && r.plan.startDate == formatDay(v.startDate.value.day) && r.plan.endDate == formatDay(EndDay(v))
              && r.plan.rawPlanText == generate(InputOf(v, formatDay)).value
              && r.plan.fitnessLevel == v.fitnessLevel && r.plan.runningExperience == v.runningExperience
              && r.plan.goal == v.goal && r.plan.daysPerWeek == v.daysPerWeek
  {
    if !Valid(v) then Rejected(Errors(v))
    else if uid.None? then NotSignedIn
    else
      assert StartMissing !in Errors(v);
      var input := InputOf(v, formatDay);
      match generate(input)
      case None => GenerationFailed
      case Some(text) =>
        Saved(TrainingPlan(newId, uid.value, input.startDate, input.endDate, text,
                           v.fitnessLevel, v.runningExperience, v.goal, v.daysPerWeek), newId)
  }

  /** A saved plan meets the plan schema, so the stored document reads back as the same plan. */
  lemma SavedPlanReadsBack(v: SetupValues, uid: Option<string>, formatDay: int -> string,
                           generate: PlanInput -> Option<string>, newId: string)
    requires Submit(v, uid, formatDay, generate, newId).Saved?
    ensures var plan := Submit(v, uid, formatDay, generate, newId).plan;
            ParsePlan(Json.Obj(PlanFields(plan))) == Some(plan)
  {
    var plan := Submit(v, uid, formatDay, generate, newId).plan;
    assert ExperienceMissing !in Errors(v) && DaysOutOfRange !in Errors(v);
    PlanRoundTrip(plan);
  }

  /** Read back by the calendar, a plan saved without a target race date places workouts only
      on its `7 * durationWeeks` days, provided reading a formatted day gives that day back. */
  lemma SavedPlanCalendarSpan(v: SetupValues, uid: Option<string>, formatDay: int -> string,
                              generate: PlanInput -> Option<string>, newId: string,
                              parseDate: string -> Option<int>)
    requires Submit(v, uid, formatDay, generate, newId).Saved?
    requires v.targetRaceDate.None?
    requires forall d :: parseDate(formatDay(d)) == Some(d)
    ensures v.startDate.Some?
    ensures var plan := Submit(v, uid, formatDay, generate, newId).plan;
            var r := PlanDisplay.ParseCalendarWorkouts(parseDate, plan.rawPlanText, plan.startDate, plan.endDate);
            forall i :: 0 <= i < |r| ==> v.startDate.value.day <= r[i].date < v.startDate.value.day + 7 * v.durationWeeks
  {
    var plan := Submit(v, uid, formatDay, generate, newId).plan;
    assert parseDate(plan.startDate) == Some(v.startDate.value.day);
    assert parseDate(plan.endDate) == Some(EndDay(v));
  }
}
