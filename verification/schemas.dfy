/**
 The document schemas of the store (src/lib/firebase-schemas.ts) as validators:
 each `Parse…` takes a raw JSON value and either rejects it (`None`) or returns
 the typed record with every missing defaulted field filled in. Unknown keys are
 dropped, as a zod object does by default.
 */
module Schemas {
  import opened Wrappers
  import opened Json

  datatype FitnessLevel = Beginner | Intermediate | Advanced
  datatype Goal = FiveK | TenK | HalfMarathon | Marathon | Ultramarathon
  datatype Unit = C | F

  function FitnessName(f: FitnessLevel): string {
    match f
    case Beginner => "Beginner"
    case Intermediate => "Intermediate"
    case Advanced => "Advanced"
  }

  function GoalName(g: Goal): string {
    match g
    case FiveK => "5K"
    case TenK => "10K"
    case HalfMarathon => "Half Marathon"
    case Marathon => "Marathon"
    case Ultramarathon => "50K/Ultramarathon"
  }

  function UnitName(u: Unit): string {
    match u
    case C => "C"
    case F => "F"
  }

  // ---------------------------------------------------------------------------
  // Field validators shared by the profile, the training plan and the setup form

  /** `z.enum(['Beginner','Intermediate','Advanced']).default('Beginner')`. */
  function ParseFitness(v: Value): (r: Option<FitnessLevel>)
    ensures v == Undefined ==> r == Some(Beginner)
    ensures forall f :: v == Str(FitnessName(f)) ==> r == Some(f)
    ensures r.Some? ==> v == Undefined || v == Str(FitnessName(r.value))
  {
    match v
    case Undefined => Some(Beginner)
    case Str(s) =>
      if s == "Beginner" then Some(Beginner)
      else if s == "Intermediate" then Some(Intermediate)
      else if s == "Advanced" then Some(Advanced)
      else None
    case _ => None
  }

  /** `z.enum(["5K","10K","Half Marathon","Marathon","50K/Ultramarathon"]).default("5K")`. */
  function ParseGoal(v: Value): (r: Option<Goal>)
    ensures v == Undefined ==> r == Some(FiveK)
    ensures forall g :: v == Str(GoalName(g)) ==> r == Some(g)
    ensures r.Some? ==> v == Undefined || v == Str(GoalName(r.value))
  {
    match v
    case Undefined => Some(FiveK)
    case Str(s) =>
      if s == "5K" then Some(FiveK)
      else if s == "10K" then Some(TenK)
      else if s == "Half Marathon" then Some(HalfMarathon)
      else if s == "Marathon" then Some(Marathon)
      else if s == "50K/Ultramarathon" then Some(Ultramarathon)
      else None
    case _ => None
  }

  /** `z.enum(['C','F']).default('C')`. */
  function ParseUnit(v: Value): (r: Option<Unit>)
    ensures v == Undefined ==> r == Some(C)
    ensures forall u :: v == Str(UnitName(u)) ==> r == Some(u)
    ensures r.Some? ==> v == Undefined || v == Str(UnitName(r.value))
  {
    match v
    case Undefined => Some(C)
    case Str(s) => if s == "C" then Some(C) else if s == "F" then Some(F) else None
    case _ => None
  }

  /** `z.string().min(1).default("Not set")`: a present string must not be empty. */
  function ParseRunningExperience(v: Value): (r: Option<string>)
    ensures r.Some? <==> v == Undefined || (v.Str? && |v.s| >= 1)
    ensures v == Undefined ==> r == Some("Not set")
    ensures v.Str? && r.Some? ==> r.value == v.s
  {
    match v
    case Undefined => Some("Not set")
    case Str(s) => if |s| >= 1 then Some(s) else None
    case _ => None
  }

  /** `z.number().min(1).max(7).default(3)`: any number in [1, 7], fractions included. */
  function ParseDaysPerWeek(v: Value): (r: Option<real>)
    ensures r.Some? <==> v == Undefined || (v.Num? && 1.0 <= v.n <= 7.0)
    ensures v == Undefined ==> r == Some(3.0)
    ensures v.Num? && r.Some? ==> r.value == v.n
  {
    match v
    case Undefined => Some(3.0)
    case Num(n) => if 1.0 <= n <= 7.0 then Some(n) else None
    case _ => None
  }

  /** `z.string().optional().default("")`. */
  function ParseOptionalText(v: Value): (r: Option<string>)
    ensures r.Some? <==> v == Undefined || v.Str?
    ensures v == Undefined ==> r == Some("")
    ensures v.Str? ==> r == Some(v.s)
  {
    match v
    case Undefined => Some("")
    case Str(s) => Some(s)
    case _ => None
  }

  /** `z.array(z.string()).optional().default([])`. */
  function ParseTextList(v: Value): (r: Option<seq<string>>)
    ensures r.Some? <==> v == Undefined || (v.Arr? && forall i :: 0 <= i < |v.items| ==> v.items[i].Str?)
    ensures r.Some? && v.Arr? ==> |r.value| == |v.items| && forall i :: 0 <= i < |v.items| ==> v.items[i] == Str(r.value[i])
    ensures v == Undefined ==> r == Some([])
  {
    match v
    case Undefined => Some([])
    case Arr(items) =>
      if forall i :: 0 <= i < |items| ==> items[i].Str? then
        Some(seq(|items|, i requires 0 <= i < |items| && items[i].Str? => items[i].s))
      else None
    case _ => None
  }

  /** A list of strings as the store holds it. */
  function TextArray(xs: seq<string>): (v: Value)
    ensures v.Arr? && |v.items| == |xs|
    ensures forall i :: 0 <= i < |xs| ==> v.items[i] == Str(xs[i])
  {
    Arr(seq(|xs|, i requires 0 <= i < |xs| => Str(xs[i])))
  }

  /** A stored list of strings reads back as itself. */
  lemma TextArrayRoundTrip(xs: seq<string>)
    ensures ParseTextList(TextArray(xs)) == Some(xs)
  {
    var r := ParseTextList(TextArray(xs));
    assert r.Some? && |r.value| == |xs|;
    assert forall i :: 0 <= i < |xs| ==> r.value[i] == xs[i];
    assert r.value == xs;
  }

  // ---------------------------------------------------------------------------
  // UserProfileSchema

  datatype UserProfile = UserProfile(
    fitnessLevel: FitnessLevel,
    runningExperience: string,
    goal: Goal,
    daysPerWeek: real,
    preferredWorkoutTypes: string,
    availableTime: string,
    equipmentAvailable: string,
    newsSources: seq<string>,
    locationCity: string,
    weatherUnit: Unit)

  /** The constraints a parsed profile always meets. */
  predicate ProfileOk(p: UserProfile) {
    |p.runningExperience| >= 1 && 1.0 <= p.daysPerWeek <= 7.0
  }

  /** `UserProfileSchema.parse(v)`. */
  function ParseProfile(v: Value): (r: Option<UserProfile>)
    ensures r.Some? ==> ProfileOk(r.value)
    ensures !v.Obj? ==> r == None
  {
    match v
    case Obj(m) =>
      var fitness := ParseFitness(Get(m, "fitnessLevel"));
      var experience := ParseRunningExperience(Get(m, "runningExperience"));
      var goal := ParseGoal(Get(m, "goal"));
      var days := ParseDaysPerWeek(Get(m, "daysPerWeek"));
      var workoutTypes := ParseOptionalText(Get(m, "preferredWorkoutTypes"));
      var time := ParseOptionalText(Get(m, "availableTime"));
      var equipment := ParseOptionalText(Get(m, "equipmentAvailable"));
      var sources := ParseTextList(Get(m, "newsSources"));
      var city := ParseOptionalText(Get(m, "locationCity"));
      var unit := ParseUnit(Get(m, "weatherUnit"));
      if fitness.Some? && experience.Some? && goal.Some? && days.Some? && workoutTypes.Some?
         && time.Some? && equipment.Some? && sources.Some? && city.Some? && unit.Some?
      then
        Some(UserProfile(fitness.value, experience.value, goal.value, days.value, workoutTypes.value,
                         time.value, equipment.value, sources.value, city.value, unit.value))
      else None
    case _ => None
  }

  /** The profile as the store holds it: every field present. */
  function ProfileFields(p: UserProfile): map<string, Value> {
    map[
      "fitnessLevel" := Str(FitnessName(p.fitnessLevel)),
      "runningExperience" := Str(p.runningExperience),
      "goal" := Str(GoalName(p.goal)),
      "daysPerWeek" := Num(p.daysPerWeek),
      "preferredWorkoutTypes" := Str(p.preferredWorkoutTypes),
      "availableTime" := Str(p.availableTime),
      "equipmentAvailable" := Str(p.equipmentAvailable),
      "newsSources" := TextArray(p.newsSources),
      "locationCity" := Str(p.locationCity),
      "weatherUnit" := Str(UnitName(p.weatherUnit))
    ]
  }

  /** Parsing an empty profile object yields every schema default. */
  lemma EmptyProfileDefaults()
    ensures ParseProfile(Obj(map[])) ==
      Some(UserProfile(Beginner, "Not set", FiveK, 3.0, "", "", "", [], "", C))
  {
  }

  /** Each key of a stored profile reads back its field. */
  lemma ProfileFieldsRead(p: UserProfile)
    ensures var m := ProfileFields(p);
      && Get(m, "fitnessLevel") == Str(FitnessName(p.fitnessLevel))
      && Get(m, "runningExperience") == Str(p.runningExperience)
      && Get(m, "goal") == Str(GoalName(p.goal))
      && Get(m, "daysPerWeek") == Num(p.daysPerWeek)
      && Get(m, "preferredWorkoutTypes") == Str(p.preferredWorkoutTypes)
      && Get(m, "availableTime") == Str(p.availableTime)
      && Get(m, "equipmentAvailable") == Str(p.equipmentAvailable)
      && Get(m, "newsSources") == TextArray(p.newsSources)
      && Get(m, "locationCity") == Str(p.locationCity)
      && Get(m, "weatherUnit") == Str(UnitName(p.weatherUnit))
  {
  }

  /** A stored profile parses back to itself exactly when it meets the schema's constraints. */
  lemma ProfileRoundTrip(p: UserProfile)
    ensures ParseProfile(Obj(ProfileFields(p))) == (if ProfileOk(p) then Some(p) else None)
  {
    ProfileFieldsRead(p);
    TextArrayRoundTrip(p.newsSources);
  }

  // ---------------------------------------------------------------------------
  // UserSchema

  /** `trainingPlanId: z.string().nullable().optional()`. */
  datatype PlanRef = NoPlan | NullPlan | PlanId(id: string)

  function ParsePlanRef(v: Value): (r: Option<PlanRef>)
    ensures r.Some? <==> v == Undefined || v == Null || v.Str?
    ensures v == Undefined ==> r == Some(NoPlan)
    ensures v == Null ==> r == Some(NullPlan)
    ensures v.Str? ==> r == Some(PlanId(v.s))
  {
    match v
    case Undefined => Some(NoPlan)
    case Null => Some(NullPlan)
    case Str(s) => Some(PlanId(s))
    case _ => None
  }

  datatype User = User(
    id: string,
    email: string,
    firstName: string,
    lastName: string,
    profile: UserProfile,
    trainingPlanId: PlanRef)

  /** The profile literal UserSchema substitutes when the profile is missing. */
  const UserDefaultProfile: UserProfile :=
    UserProfile(Beginner, "Not set", FiveK, 3.0, "", "", "", [], "", C)

  /** UserSchema's default profile is exactly what the profile schema's own defaults produce. */
  lemma UserDefaultMatchesProfileDefaults()
    ensures ParseProfile(Obj(map[])) == Some(UserDefaultProfile)
    ensures ProfileOk(UserDefaultProfile)
  {
    EmptyProfileDefaults();
  }

  /** `UserSchema.parse(v)`; `isEmail` stands for `z.string().email()`. */
  function ParseUser(v: Value, isEmail: string -> bool): (r: Option<User>)
    ensures r.Some? ==> isEmail(r.value.email) && |r.value.firstName| >= 1 && |r.value.lastName| >= 1
    ensures r.Some? ==> ProfileOk(r.value.profile)
    ensures r.Some? && v.Obj? && Get(v.fields, "profile") == Undefined ==> r.value.profile == UserDefaultProfile
  {
    match v
    case Obj(m) =>
      var id := Get(m, "id");
      var email := Get(m, "email");
      var first := Get(m, "firstName");
      var last := Get(m, "lastName");
      var profile := if Get(m, "profile") == Undefined then ParseProfile(Obj(ProfileFields(UserDefaultProfile)))
                     else ParseProfile(Get(m, "profile"));
      var plan := ParsePlanRef(Get(m, "trainingPlanId"));
      ProfileRoundTrip(UserDefaultProfile);
      if id.Str? && email.Str? && isEmail(email.s) && first.Str? && |first.s| >= 1
         && last.Str? && |last.s| >= 1 && profile.Some? && plan.Some?
      then Some(User(id.s, email.s, first.s, last.s, profile.value, plan.value))
      else None
    case _ => None
  }

  /** The plan reference as stored: no key at all, `null`, or the id. */
  function PlanRefFields(t: PlanRef): map<string, Value> {
    match t
    case NoPlan => map[]
    case NullPlan => map["trainingPlanId" := Null]
    case PlanId(id) => map["trainingPlanId" := Str(id)]
  }

  /** A user document as the store holds it, with the profile written out in full. */
  function UserFields(u: User): map<string, Value> {
    map[
      "id" := Str(u.id),
      "email" := Str(u.email),
      "firstName" := Str(u.firstName),
      "lastName" := Str(u.lastName),
      "profile" := Obj(ProfileFields(u.profile))
    ] + PlanRefFields(u.trainingPlanId)
  }

  /** The user's constraints: a valid e-mail, non-empty names and a constrained profile. */
  predicate UserOk(u: User, isEmail: string -> bool) {
    isEmail(u.email) && |u.firstName| >= 1 && |u.lastName| >= 1 && ProfileOk(u.profile)
  }

  /** Each key of a stored user reads back its field; the plan reference parses back as itself. */
  lemma UserFieldsRead(u: User)
    ensures var m := UserFields(u);
      && Get(m, "id") == Str(u.id)
      && Get(m, "email") == Str(u.email)
      && Get(m, "firstName") == Str(u.firstName)
      && Get(m, "lastName") == Str(u.lastName)
      && Get(m, "profile") == Obj(ProfileFields(u.profile))
      && ParsePlanRef(Get(m, "trainingPlanId")) == Some(u.trainingPlanId)
  {
  }

  /** A stored user parses back to itself exactly when it meets the schema's constraints. */
  lemma UserRoundTrip(u: User, isEmail: string -> bool)
    ensures ParseUser(Obj(UserFields(u)), isEmail) == (if UserOk(u, isEmail) then Some(u) else None)
  {
    UserFieldsRead(u);
    ProfileRoundTrip(u.profile);
  }

  // ---------------------------------------------------------------------------
  // TrainingPlanSchema

  datatype TrainingPlan = TrainingPlan(
    id: string,
    userId: string,
    startDate: string,
    endDate: string,
    rawPlanText: string,
    fitnessLevel: FitnessLevel,
    runningExperience: string,
    goal: Goal,
    daysPerWeek: real)

  /** The plan's profile-derived fields obey the profile's own constraints. */
  predicate PlanOk(t: TrainingPlan) {
    |t.runningExperience| >= 1 && 1.0 <= t.daysPerWeek <= 7.0
  }

  /** `TrainingPlanSchema.parse(v)`: the four profile fields reuse the profile validators, defaults included. */
  function ParsePlan(v: Value): (r: Option<TrainingPlan>)
    ensures r.Some? ==> PlanOk(r.value)
    ensures r.Some? && v.Obj? && Get(v.fields, "fitnessLevel") == Undefined ==> r.value.fitnessLevel == Beginner
  {
    match v
    case Obj(m) =>
      var id := Get(m, "id");
      var user := Get(m, "userId");
      var start := Get(m, "startDate");
      var end := Get(m, "endDate");
      var text := Get(m, "rawPlanText");
      var fitness := ParseFitness(Get(m, "fitnessLevel"));
      var experience := ParseRunningExperience(Get(m, "runningExperience"));
      var goal := ParseGoal(Get(m, "goal"));
      var days := ParseDaysPerWeek(Get(m, "daysPerWeek"));
      if id.Str? && user.Str? && start.Str? && end.Str? && text.Str?
         && fitness.Some? && experience.Some? && goal.Some? && days.Some?
      then Some(TrainingPlan(id.s, user.s, start.s, end.s, text.s, fitness.value, experience.value, goal.value, days.value))
      else None
    case _ => None
  }

  function PlanFields(t: TrainingPlan): map<string, Value> {
    map[
      "id" := Str(t.id),
      "userId" := Str(t.userId),
      "startDate" := Str(t.startDate),
      "endDate" := Str(t.endDate),
      "rawPlanText" := Str(t.rawPlanText),
      "fitnessLevel" := Str(FitnessName(t.fitnessLevel)),
      "runningExperience" := Str(t.runningExperience),
      "goal" := Str(GoalName(t.goal)),
      "daysPerWeek" := Num(t.daysPerWeek)
    ]
  }

  /** A stored plan parses back to itself exactly when its profile fields meet the profile constraints. */
  lemma PlanRoundTrip(t: TrainingPlan)
    ensures ParsePlan(Obj(PlanFields(t))) == (if PlanOk(t) then Some(t) else None)
  {
  }

  // ---------------------------------------------------------------------------
  // DashboardCacheSchema

  /** The weather record the dashboard caches; city and unit may be missing. */
  datatype WeatherInfo = WeatherInfo(
    forecast: string,
    clothingRecommendation: string,
    locationCity: Option<string>,
    weatherUnit: Option<Unit>)

  /** `weatherInfo: z.object({...})` with optional `locationCity` and `weatherUnit` limited to C/F. */
  function ParseWeatherInfo(v: Value): (r: Option<WeatherInfo>)
    ensures r.Some? ==> v.Obj?
    ensures r.Some? ==> (r.value.locationCity.None? <==> Get(v.fields, "locationCity") == Undefined)
    ensures r.Some? ==> (r.value.weatherUnit.None? <==> Get(v.fields, "weatherUnit") == Undefined)
    ensures v.Obj? && Get(v.fields, "weatherUnit").Str? && Get(v.fields, "weatherUnit").s !in ["C", "F"] ==> r == None
  {
    match v
    case Obj(m) =>
      var forecast := Get(m, "forecast");
      var advice := Get(m, "clothingRecommendation");
      var city := Get(m, "locationCity");
      var unitValue := Get(m, "weatherUnit");
      var unit := if unitValue == Undefined then Some(None)
                  else if unitValue == Str("C") then Some(Some(C))
                  else if unitValue == Str("F") then Some(Some(F))
                  else None;
      if forecast.Str? && advice.Str? && (city == Undefined || city.Str?) && unit.Some? then
        Some(WeatherInfo(forecast.s, advice.s, if city.Str? then Some(city.s) else None, unit.value))
      else None
    case _ => None
  }

  /** A weather record as stored: a missing city or unit is a missing key. */
  function WeatherInfoFields(w: WeatherInfo): map<string, Value> {
    map["forecast" := Str(w.forecast), "clothingRecommendation" := Str(w.clothingRecommendation)]
    + (if w.locationCity.Some? then map["locationCity" := Str(w.locationCity.value)] else map[])
    + (if w.weatherUnit.Some? then map["weatherUnit" := Str(UnitName(w.weatherUnit.value))] else map[])
  }

  /** Every weather record, with or without its city and unit, reads back as itself. */
  lemma WeatherInfoRoundTrip(w: WeatherInfo)
    ensures ParseWeatherInfo(Obj(WeatherInfoFields(w))) == Some(w)
  {
    var m := WeatherInfoFields(w);
    assert Get(m, "forecast") == Str(w.forecast);
    assert Get(m, "clothingRecommendation") == Str(w.clothingRecommendation);
    assert Get(m, "locationCity") == if w.locationCity.Some? then Str(w.locationCity.value) else Undefined;
    assert Get(m, "weatherUnit") == if w.weatherUnit.Some? then Str(UnitName(w.weatherUnit.value)) else Undefined;
  }

  datatype DashboardCache = DashboardCache(
    id: string,
    userId: string,
    cacheDate: string,
    motivationalGreeting: string,
    weatherInfo: WeatherInfo,
    dailyWorkout: string,
    runningNews: seq<string>)

  /** `DashboardCacheSchema.parse(v)`. */
  function ParseDashboardCache(v: Value): (r: Option<DashboardCache>)
    ensures r.Some? ==> v.Obj? && ParseWeatherInfo(Get(v.fields, "weatherInfo")) == Some(r.value.weatherInfo)
    ensures r.Some? ==> Get(v.fields, "runningNews").Arr? && |r.value.runningNews| == |Get(v.fields, "runningNews").items|
  {
    match v
    case Obj(m) =>
      var id := Get(m, "id");
      var user := Get(m, "userId");
      var date := Get(m, "cacheDate");
      var greeting := Get(m, "motivationalGreeting");
      var weather := ParseWeatherInfo(Get(m, "weatherInfo"));
      var workout := Get(m, "dailyWorkout");
      var news := Get(m, "runningNews");
      var newsList := if news.Arr? then ParseTextList(news) else None;
      if id.Str? && user.Str? && date.Str? && greeting.Str? && weather.Some? && workout.Str? && newsList.Some? then
        Some(DashboardCache(id.s, user.s, date.s, greeting.s, weather.value, workout.s, newsList.value))
      else None
    case _ => None
  }

  /** A cache document as the store holds it. */
  function CacheFields(c: DashboardCache): map<string, Value> {
    map[
      "id" := Str(c.id),
      "userId" := Str(c.userId),
      "cacheDate" := Str(c.cacheDate),
      "motivationalGreeting" := Str(c.motivationalGreeting),
      "weatherInfo" := Obj(WeatherInfoFields(c.weatherInfo)),
      "dailyWorkout" := Str(c.dailyWorkout),
      "runningNews" := TextArray(c.runningNews)
    ]
  }

  /** Every cache document reads back as itself. */
  lemma CacheRoundTrip(c: DashboardCache)
    ensures ParseDashboardCache(Obj(CacheFields(c))) == Some(c)
  {
    var m := CacheFields(c);
    WeatherInfoRoundTrip(c.weatherInfo);
    TextArrayRoundTrip(c.runningNews);
    assert Get(m, "weatherInfo") == Obj(WeatherInfoFields(c.weatherInfo));
    assert Get(m, "runningNews") == TextArray(c.runningNews);
  }
}
