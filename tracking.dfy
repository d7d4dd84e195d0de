/** The state of the FitFuel dashboard: the user profile with its three
    derived fields, the day's tracking record, the calorie input field and
    the glass counter, and the handlers that change them.

    The pure functions below give each handler's effect on a `Session`
    value; the class `Dashboard` holds the same state in mutable fields and
    its methods are proved to have exactly those effects. */
module Tracking {
  import opened Metrics

  datatype Option<T> = None | Some(value: T)

  /** `UserProfile`: the form inputs and the derived `bmi`, `bmr` and
      `dailyCalories`. */
  datatype Profile = Profile(
    name: string,
    age: int,
    gender: string,
    weight: real,
    height: real,
    activityLevel: string,
    goal: string,
    bmi: real,
    bmr: int,
    dailyCalories: int)

  /** `DailyTracking`: the day's intake and the weight being entered. */
  datatype DailyTracking = DailyTracking(calories: int, water: int, weight: real, date: string)

  /** The whole state the handlers read and write. The calorie field holds
      what `parseInt` makes of its text: `None` for NaN (the empty field
      included), `Some(n)` for an integer. */
  datatype Session = Session(
    profile: Profile,
    tracking: DailyTracking,
    calorieInput: Option<int>,
    waterGlasses: int)

  /** Millilitres logged per glass of water. */
  const GlassMl: int := 250

  /** The profile the dashboard starts from. */
  const InitialProfile: Profile :=
    Profile("", 25, "male", 70.0, 175.0, "moderate", "maintain", 0.0, 0, 0)

  /** The state at the first render; `today` is the clock's date. */
  function InitialSession(today: string): Session {
    Session(InitialProfile, DailyTracking(0, 0, InitialProfile.weight, today), None, 0)
  }

  /** `p` and `q` agree on every field but the three derived ones. */
  predicate SameInputs(p: Profile, q: Profile) {
    p.name == q.name && p.age == q.age && p.gender == q.gender && p.weight == q.weight
    && p.height == q.height && p.activityLevel == q.activityLevel && p.goal == q.goal
  }

  /** The derived fields are what the calculators give for the inputs. */
  predicate Consistent(p: Profile) {
    p.height != 0.0
    && p.bmi == BMI(p.weight, p.height)
    && p.bmr == BMR(p.weight, p.height, p.age, p.gender)
    && p.dailyCalories == DailyCalories(p.bmr, p.activityLevel, p.goal)
  }

  /** The recompute effect: overwrite the derived fields from the inputs,
      the daily target being computed from the fresh BMR. */
  function Recomputed(p: Profile): (r: Profile)
    requires p.height != 0.0
    ensures SameInputs(r, p) && Consistent(r)
  {
    var bmi := BMI(p.weight, p.height);
    var bmr := BMR(p.weight, p.height, p.age, p.gender);
    var dailyCalories := DailyCalories(bmr, p.activityLevel, p.goal);
    p.(bmi := bmi, bmr := bmr, dailyCalories := dailyCalories)
  }

  /** The derived fields depend on the inputs alone. */
  lemma RecomputedDependsOnInputsOnly(p: Profile, q: Profile)
    requires p.height != 0.0 && SameInputs(p, q)
    ensures Recomputed(p) == Recomputed(q)
  {
  }

  /** A consistent profile is a fixed point of the effect, so running it
      again on an unchanged profile changes nothing. */
  lemma RecomputeIdempotent(p: Profile)
    requires p.height != 0.0
    ensures Consistent(p) ==> Recomputed(p) == p
    ensures Recomputed(Recomputed(p)) == Recomputed(p)
  {
  }

  /** After the first effect the default profile shows BMI 22.9, BMR 1724
      and a daily target of 2672 kcal. */
  lemma InitialProfileFigures()
    ensures Recomputed(InitialProfile) == InitialProfile.(bmi := 22.9, bmr := 1724, dailyCalories := 2672)
  {
  }

  /** The invariant every handler keeps: water is logged only by whole
      glasses, intake never goes negative and the height stays usable. */
  predicate Invariant(s: Session) {
    s.profile.height != 0.0
    && s.waterGlasses >= 0
    && s.tracking.water == GlassMl * s.waterGlasses
    && s.tracking.calories >= 0
  }

  lemma InitialSessionInvariant(today: string)
    ensures Invariant(InitialSession(today))
    ensures InitialSession(today).tracking.weight == InitialSession(today).profile.weight
  {
  }

  /** The calorie field's onChange and quick-pick buttons. */
  function EnterCalories(s: Session, input: Option<int>): (r: Session)
    ensures r.calorieInput == input
    ensures r.profile == s.profile && r.tracking == s.tracking && r.waterGlasses == s.waterGlasses
  {
    s.(calorieInput := input)
  }

  /** `calories && calories > 0`: only a positive integer is logged. */
  predicate Loggable(input: Option<int>) {
    input.Some? && input.value > 0
  }

  /** `addCalories`: a positive parsed amount is added to the intake and the
      field is cleared; NaN, zero or a negative amount changes nothing. */
  function AddCaloriesEffect(s: Session): (r: Session)
    ensures r.profile == s.profile && r.waterGlasses == s.waterGlasses
    ensures r.tracking.water == s.tracking.water && r.tracking.weight == s.tracking.weight
    ensures r.tracking.date == s.tracking.date
    ensures Loggable(s.calorieInput) ==>
              r.tracking.calories == s.tracking.calories + s.calorieInput.value && r.calorieInput == None
    ensures !Loggable(s.calorieInput) ==> r == s
    ensures r.tracking.calories > s.tracking.calories <==> Loggable(s.calorieInput)
  {
    match s.calorieInput
    case Some(n) =>
      if n > 0 then s.(tracking := s.tracking.(calories := s.tracking.calories + n), calorieInput := None)
      else s
    case None => s
  }

  /** `addWater`: one more glass and 250 ml more, together. */
  function AddWaterEffect(s: Session): (r: Session)
    ensures r.waterGlasses == s.waterGlasses + 1
    ensures r.tracking.water - s.tracking.water == GlassMl * (r.waterGlasses - s.waterGlasses)
    ensures r.profile == s.profile && r.calorieInput == s.calorieInput
    ensures r.tracking.(water := s.tracking.water) == s.tracking
  {
    s.(waterGlasses := s.waterGlasses + 1, tracking := s.tracking.(water := s.tracking.water + GlassMl))
  }

  /** The tracked-weight field's onChange. */
  function EnterWeight(s: Session, kg: real): (r: Session)
    ensures r.tracking.weight == kg
    ensures r.tracking.(weight := s.tracking.weight) == s.tracking
    ensures r.profile == s.profile && r.calorieInput == s.calorieInput && r.waterGlasses == s.waterGlasses
  {
    s.(tracking := s.tracking.(weight := kg))
  }

  /** The effect, as a handler on the whole state. */
  function RecomputeEffect(s: Session): (r: Session)
    requires s.profile.height != 0.0
    ensures SameInputs(r.profile, s.profile) && Consistent(r.profile)
    ensures r.tracking == s.tracking && r.calorieInput == s.calorieInput && r.waterGlasses == s.waterGlasses
  {
    s.(profile := Recomputed(s.profile))
  }

  /** The "Update" button: the tracked weight becomes the profile weight,
      and because the weight is an input of the effect, the effect runs. */
  function UpdateWeightEffect(s: Session): (r: Session)
    requires s.profile.height != 0.0
    ensures r.profile.weight == s.tracking.weight
    ensures SameInputs(r.profile, s.profile.(weight := s.tracking.weight)) && Consistent(r.profile)
    ensures r.tracking == s.tracking && r.calorieInput == s.calorieInput && r.waterGlasses == s.waterGlasses
  {
    RecomputeEffect(s.(profile := s.profile.(weight := s.tracking.weight)))
  }

  /** Once the effect has run, clicking "Update" while the tracked weight
      equals the profile weight leaves the whole state as it was, so always
      running the effect after "Update" matches running it only when the
      weight changed. */
  lemma UpdateSameWeightChangesNothing(s: Session)
    requires Consistent(s.profile) && s.tracking.weight == s.profile.weight
    ensures UpdateWeightEffect(s) == s
  {
    RecomputeIdempotent(s.profile);
  }

  /** What the user can do on the tracking part of the dashboard. */
  datatype Event =
    | CalorieInputChanged(input: Option<int>)
    | AddCaloriesClicked
    | AddWaterClicked
    | WeightInputChanged(kg: real)
    | UpdateWeightClicked

  /** The state after one event. */
  function Step(s: Session, e: Event): (r: Session)
    requires s.profile.height != 0.0
    ensures r.profile.height == s.profile.height
    ensures Invariant(s) ==> Invariant(r)
    ensures Consistent(s.profile) ==> Consistent(r.profile)
    ensures r.tracking.calories >= s.tracking.calories
  {
    match e
    case CalorieInputChanged(input) => EnterCalories(s, input)
    case AddCaloriesClicked => AddCaloriesEffect(s)
    case AddWaterClicked => AddWaterEffect(s)
    case WeightInputChanged(kg) => EnterWeight(s, kg)
    case UpdateWeightClicked => UpdateWeightEffect(s)
  }

  /** The state after a sequence of events, first to last. */
  function Run(s: Session, events: seq<Event>): (r: Session)
    requires s.profile.height != 0.0
    ensures r.profile.height == s.profile.height
    decreases |events|
  {
    if events == [] then s else Run(Step(s, events[0]), events[1..])
  }

  /** The number of add-water clicks in `events`. */
  function WaterClicks(events: seq<Event>): nat
  {
    if events == [] then 0
    else (if events[0] == AddWaterClicked then 1 else 0) + WaterClicks(events[1..])
  }

  /** Every event keeps the invariant. */
  lemma {:induction false} RunKeepsInvariant(s: Session, events: seq<Event>)
    requires Invariant(s)
    ensures Invariant(Run(s, events))
    decreases |events|
  {
    if events != [] {
      RunKeepsInvariant(Step(s, events[0]), events[1..]);
    }
  }

  /** Starting from the first render, the water logged is always 250 ml per
      glass, whatever the user clicks. */
  lemma WaterInLockstep(today: string, events: seq<Event>)
    ensures Run(InitialSession(today), events).tracking.water
            == GlassMl * Run(InitialSession(today), events).waterGlasses
  {
    InitialSessionInvariant(today);
    RunKeepsInvariant(InitialSession(today), events);
  }

  /** The glass counter counts exactly the add-water clicks. */
  lemma {:induction false} GlassesCountClicks(s: Session, events: seq<Event>)
    requires s.profile.height != 0.0
    ensures Run(s, events).waterGlasses == s.waterGlasses + WaterClicks(events)
    decreases |events|
  {
    if events != [] {
      var t := Step(s, events[0]);
      assert t.waterGlasses == s.waterGlasses + (if events[0] == AddWaterClicked then 1 else 0);
      GlassesCountClicks(t, events[1..]);
    }
  }

  /** Logged intake never goes down. */
  lemma {:induction false} CaloriesNeverDecrease(s: Session, events: seq<Event>)
    requires s.profile.height != 0.0
    ensures Run(s, events).tracking.calories >= s.tracking.calories
    decreases |events|
  {
    if events != [] {
      CaloriesNeverDecrease(Step(s, events[0]), events[1..]);
    }
  }

  /** Once the derived fields agree with the inputs, no event can make them
      disagree. */
  lemma {:induction false} RunKeepsConsistent(s: Session, events: seq<Event>)
    requires Consistent(s.profile)
    ensures Consistent(Run(s, events).profile)
    decreases |events|
  {
    if events != [] {
      RunKeepsConsistent(Step(s, events[0]), events[1..]);
    }
  }

  /** The dashboard component's state, updated in place by its handlers. */
  class Dashboard {
    var profile: Profile
    var tracking: DailyTracking
    var calorieInput: Option<int>
    var waterGlasses: int

    function State(): Session
      reads this
    {
      Session(profile, tracking, calorieInput, waterGlasses)
    }

    ghost predicate Valid()
      reads this
    {
      Invariant(State())
    }

    /** The state of the first render, before the effect has run. */
    constructor (today: string)
      ensures Valid()
      ensures State() == InitialSession(today)
      ensures profile.bmi == 0.0 && profile.bmr == 0 && profile.dailyCalories == 0
    {
      profile := InitialProfile;
      tracking := DailyTracking(0, 0, InitialProfile.weight, today);
      calorieInput := None;
      waterGlasses := 0;
      InitialSessionInvariant(today);
    }

    /** The effect at page.tsx lines 107-118: run on mount and after any change to a
        profile input. */
    method Recompute()
      requires Valid()
      modifies this
      ensures Valid()
      ensures State() == RecomputeEffect(old(State()))
      ensures SameInputs(profile, old(profile)) && Consistent(profile)
      ensures tracking == old(tracking) && calorieInput == old(calorieInput)
      ensures waterGlasses == old(waterGlasses)
    {
      profile := Recomputed(profile);
    }

    method SetCalorieInput(input: Option<int>)
      requires Valid()
      modifies this
      ensures Valid()
      ensures State() == EnterCalories(old(State()), input)
      ensures calorieInput == input
      ensures profile == old(profile) && tracking == old(tracking) && waterGlasses == old(waterGlasses)
    {
      calorieInput := input;
    }

    method AddCalories()
      requires Valid()
      modifies this
      ensures Valid()
      ensures State() == AddCaloriesEffect(old(State()))
      ensures Loggable(old(calorieInput)) ==>
                tracking == old(tracking).(calories := old(tracking.calories) + old(calorieInput).value)
                && calorieInput == None
      ensures !Loggable(old(calorieInput)) ==> tracking == old(tracking) && calorieInput == old(calorieInput)
      ensures profile == old(profile) && waterGlasses == old(waterGlasses)
    {
      if calorieInput.Some? && calorieInput.value > 0 {
        tracking := tracking.(calories := tracking.calories + calorieInput.value);
        calorieInput := None;
      }
    }

    method AddWater()
      requires Valid()
      modifies this
      ensures Valid()
      ensures State() == AddWaterEffect(old(State()))
      ensures waterGlasses == old(waterGlasses) + 1
      ensures tracking == old(tracking).(water := old(tracking.water) + GlassMl)
      ensures profile == old(profile) && calorieInput == old(calorieInput)
    {
      waterGlasses := waterGlasses + 1;
      tracking := tracking.(water := tracking.water + GlassMl);
    }

    method SetTrackedWeight(kg: real)
      requires Valid()
      modifies this
      ensures Valid()
      ensures State() == EnterWeight(old(State()), kg)
      ensures tracking == old(tracking).(weight := kg)
      ensures profile == old(profile) && calorieInput == old(calorieInput) && waterGlasses == old(waterGlasses)
    {
      tracking := tracking.(weight := kg);
    }

    /** The "Update" button: set the profile weight, then run the effect. */
    method UpdateWeight()
      requires Valid()
      modifies this
      ensures Valid()
      ensures State() == UpdateWeightEffect(old(State()))
      ensures profile.weight == tracking.weight
      ensures SameInputs(profile, old(profile).(weight := old(tracking.weight))) && Consistent(profile)
      ensures tracking == old(tracking) && calorieInput == old(calorieInput) && waterGlasses == old(waterGlasses)
    {
      profile := profile.(weight := tracking.weight);
      Recompute();
    }
  }
}
