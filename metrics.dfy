/** The metrics calculator of the FitFuel dashboard: body-mass index, basal
    metabolic rate, the daily calorie target and the BMI category.

    JavaScript numbers are modelled as exact `real`s, so every decimal
    constant of the dashboard is represented exactly. */
module Metrics {

  /** `x` is a whole number of tenths. */
  predicate IsTenths(x: real) {
    (x * 10.0).Floor as real == x * 10.0
  }

  /** `r` is the integer nearest to `x`, a tie going to the larger one. */
  predicate NearestUp(r: int, x: real) {
    x - 0.5 < r as real <= x + 0.5
  }

  /** JavaScript's `Math.round`: the nearest integer, ties toward +infinity. */
  function Round(x: real): (r: int)
    ensures NearestUp(r, x)
  {
    (x + 0.5).Floor
  }

  /** `Number(x.toFixed(1))`: `toFixed` rounds the magnitude of `x` to one
      decimal, ties upward, and puts the sign back, so ties on a negative
      value go away from zero. */
  function RoundTenths(x: real): (r: real)
    ensures IsTenths(r)
    ensures x >= 0.0 ==> 0.0 <= r && x - 0.05 < r <= x + 0.05
    ensures x < 0.0 ==> r <= 0.0 && x - 0.05 <= r < x + 0.05
  {
    if x < 0.0 then Tenths(-Round(-x * 10.0))
    else Tenths(Round(x * 10.0))
  }

  /** `k` tenths. */
  function Tenths(k: int): (r: real)
    ensures r * 10.0 == k as real
    ensures IsTenths(r)
  {
    k as real / 10.0
  }

  lemma ProductPositive(x: real, y: real, p: real)
    requires x > 0.0 && y > 0.0 && p == x * y
    ensures p > 0.0
  {
  }

  lemma SquarePositive(m: real, sq: real)
    requires m != 0.0 && sq == m * m
    ensures sq > 0.0
  {
    if m < 0.0 {
      assert m * m == (-m) * (-m);
      ProductPositive(-m, -m, sq);
    } else {
      ProductPositive(m, m, sq);
    }
  }

  lemma QuotientSign(a: real, b: real)
    requires b > 0.0
    ensures a >= 0.0 ==> a / b >= 0.0
    ensures a < 0.0 ==> a / b < 0.0
  {
  }

  /** `heightInMeters * heightInMeters` of `calculateBMI`. */
  function SquareMetres(height: real): (area: real)
    requires height != 0.0
    ensures area > 0.0
  {
    var metres := height / 100.0;
    SquarePositive(metres, metres * metres);
    metres * metres
  }

  /** The exact body-mass index: kilograms over metres squared. */
  function Quetelet(weight: real, height: real): (q: real)
    requires height != 0.0
    ensures weight >= 0.0 ==> q >= 0.0
    ensures weight < 0.0 ==> q < 0.0
  {
    QuotientSign(weight, SquareMetres(height));
    weight / SquareMetres(height)
  }

  /** `calculateBMI`: the body-mass index rounded to one decimal. A height of
      zero gives Infinity or NaN in the dashboard and is excluded here. */
  function BMI(weight: real, height: real): (r: real)
    requires height != 0.0
    ensures IsTenths(r)
    ensures weight >= 0.0 ==> 0.0 <= r
    ensures Quetelet(weight, height) - 0.05 <= r <= Quetelet(weight, height) + 0.05
  {
    RoundTenths(Quetelet(weight, height))
  }

  /** The revised Harris-Benedict equation for men. */
  function HarrisBenedictMale(weight: real, height: real, age: int): real {
    88.362 + 13.397 * weight + 4.799 * height - 5.677 * age as real
  }

  /** The revised Harris-Benedict equation for women. */
  function HarrisBenedictFemale(weight: real, height: real, age: int): real {
    447.593 + 9.247 * weight + 3.098 * height - 4.330 * age as real
  }

  /** `calculateBMR`: the men's equation exactly when `gender` is "male", the
      women's for every other string, rounded like `Math.round` and never
      clamped. */
  function BMR(weight: real, height: real, age: int, gender: string): (r: int)
    ensures gender == "male" ==> NearestUp(r, HarrisBenedictMale(weight, height, age))
    ensures gender != "male" ==> NearestUp(r, HarrisBenedictFemale(weight, height, age))
  {
    if gender == "male" then Round(HarrisBenedictMale(weight, height, age))
    else Round(HarrisBenedictFemale(weight, height, age))
  }

  /** The activity table of `calculateDailyCalories`. */
  const ActivityMultipliers: map<string, real> :=
    map["sedentary" := 1.2, "light" := 1.375, "moderate" := 1.55,
        "active" := 1.725, "very_active" := 1.9]

  /** The `|| 1.55` fallback of `calculateDailyCalories`. */
  const DefaultMultiplier: real := 1.55

  /** The multiplier looked up for `level`. The lookup falls back when it
      yields a falsy value; no entry of the table is zero, so only a missing
      key falls back. */
  function Multiplier(level: string): (r: real)
    ensures level in ActivityMultipliers ==> r == ActivityMultipliers[level]
    ensures level !in ActivityMultipliers ==> r == ActivityMultipliers["moderate"]
    ensures 1.2 <= r <= 1.9
  {
    if level in ActivityMultipliers && ActivityMultipliers[level] != 0.0 then ActivityMultipliers[level]
    else DefaultMultiplier
  }

  /** What a goal adds to the activity-scaled BMR, in kcal. */
  function GoalOffset(goal: string): real {
    if goal == "lose" then -500.0 else if goal == "gain" then 500.0 else 0.0
  }

  /** `calculateDailyCalories`: the BMR scaled by the activity multiplier,
      shifted by the goal, rounded like `Math.round`; no lower bound. */
  function DailyCalories(bmr: int, activityLevel: string, goal: string): (r: int)
    ensures NearestUp(r, bmr as real * Multiplier(activityLevel) + GoalOffset(goal))
  {
    var base := bmr as real * Multiplier(activityLevel);
    if goal == "lose" then Round(base - 500.0)
    else if goal == "gain" then Round(base + 500.0)
    else Round(base)
  }

  /** The four BMI bins of `getBMICategory`, lowest first. */
  datatype Category = Underweight | Normal | Overweight | Obese {
    /** The Dutch label the dashboard shows. */
    function Label(): string {
      match this
      case Underweight => "Ondergewicht"
      case Normal => "Normaal"
      case Overweight => "Overgewicht"
      case Obese => "Obesitas"
    }

    /** The badge colour class the dashboard shows. */
    function Color(): string {
      match this
      case Underweight => "bg-blue-500"
      case Normal => "bg-green-500"
      case Overweight => "bg-yellow-500"
      case Obese => "bg-red-500"
    }

    /** Position of the bin on the BMI scale. */
    function Rank(): nat {
      match this
      case Underweight => 0
      case Normal => 1
      case Overweight => 2
      case Obese => 3
    }
  }

  /** `getBMICategory`: the bins are tried in ascending order and the first
      match wins, so each boundary belongs to the upper bin. */
  function BMICategory(bmi: real): (r: Category)
    ensures r == Underweight <==> bmi < 18.5
    ensures r == Normal <==> 18.5 <= bmi < 25.0
    ensures r == Overweight <==> 25.0 <= bmi < 30.0
    ensures r == Obese <==> 30.0 <= bmi
  {
    if bmi < 18.5 then Underweight
    else if bmi < 25.0 then Normal
    else if bmi < 30.0 then Overweight
    else Obese
  }

  /** A larger BMI never lands in a lower bin. */
  lemma BMICategoryMonotone(a: real, b: real)
    requires a <= b
    ensures BMICategory(a).Rank() <= BMICategory(b).Rank()
  {
  }

  /** Each boundary value belongs to the bin above it. */
  lemma BMICategoryBoundaries()
    ensures BMICategory(18.4) == Underweight && BMICategory(18.5) == Normal
    ensures BMICategory(24.9) == Normal && BMICategory(25.0) == Overweight
    ensures BMICategory(29.9) == Overweight && BMICategory(30.0) == Obese
  {
  }

  /** Distinct bins are shown with distinct labels and colours. */
  lemma CategoriesDistinguishable(a: Category, b: Category)
    requires a != b
    ensures a.Label() != b.Label() && a.Color() != b.Color()
  {
  }

  /** 70 kg at 175 cm: the exact index is 22.857..., so 22.9. */
  lemma BMIOfDefaultProfile()
    ensures BMI(70.0, 175.0) == 22.9
  {
  }

  /** A larger age never gives a larger BMR. */
  lemma BMRNonIncreasingInAge(weight: real, height: real, gender: string, younger: int, older: int)
    requires younger <= older
    ensures BMR(weight, height, older, gender) <= BMR(weight, height, younger, gender)
  {
  }

  /** 70 kg, 175 cm, 25 years, male: the equation gives 1724.052, so 1724. */
  lemma BMROfDefaultProfile()
    ensures BMR(70.0, 175.0, 25, "male") == 1724
    ensures HarrisBenedictMale(70.0, 175.0, 25) == 1724.052
  {
  }

  /** The five known activity keys and their multipliers. */
  lemma KnownMultipliers()
    ensures Multiplier("sedentary") == 1.2 && Multiplier("light") == 1.375
    ensures Multiplier("moderate") == 1.55 && Multiplier("active") == 1.725
    ensures Multiplier("very_active") == 1.9
  {
  }

  /** An unknown activity level is treated exactly like "moderate". */
  lemma UnknownActivityIsModerate(bmr: int, level: string, goal: string)
    requires level !in ActivityMultipliers
    ensures DailyCalories(bmr, level, goal) == DailyCalories(bmr, "moderate", goal)
  {
  }

  /** With the same BMR and activity, "lose" is the maintain target minus
      500, "gain" is plus 500, and every other goal string is maintain. */
  lemma GoalAdjustment(bmr: int, level: string, goal: string)
    ensures DailyCalories(bmr, level, "lose") == DailyCalories(bmr, level, "maintain") - 500
    ensures DailyCalories(bmr, level, "gain") == DailyCalories(bmr, level, "maintain") + 500
    ensures goal != "lose" && goal != "gain" ==>
              DailyCalories(bmr, level, goal) == DailyCalories(bmr, level, "maintain")
  {
  }

  /** A BMR of 1724 at moderate activity and goal maintain: 2672.2, so 2672. */
  lemma DailyCaloriesOfDefaultProfile()
    ensures DailyCalories(1724, "moderate", "maintain") == 2672
  {
  }
}
