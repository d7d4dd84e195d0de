# FitFuel dashboard core in Dafny

FitFuel is a single-page fitness dashboard. Its page component keeps a user
profile (age, gender, weight, height, activity level, goal) and derives three
figures from it: the body-mass index, the basal metabolic rate and a daily
calorie target. It also keeps a record of the day: calories eaten and water
drunk, counted in 250 ml glasses, and a weight the user can copy into the
profile.

This project models that core in two modules:

- `metrics.dfy`, module `Metrics`: the four calculators of the page as pure
  functions over exact `real` numbers. `Math.round` is the nearest integer
  with ties going up. `Number(x.toFixed(1))` rounds the magnitude to tenths
  with ties going up and then restores the sign. The activity table is a
  constant map with the `|| 1.55` fallback. The BMI bins form a `Category`
  datatype that carries the Dutch label and the badge colour.
- `tracking.dfy`, module `Tracking`: the component state. It is modelled as
  a `Session` value (profile, tracking record, parsed calorie field, glass
  counter) with one pure function per handler. An `Event` sequence models
  any series of user actions. The class `Dashboard` holds the same state in
  mutable fields. Each of its methods is proved to leave exactly the state
  the matching pure function gives.

The recompute effect is an explicit step. `Dashboard.Recompute` is what runs
on mount and after a change to a profile input. `Dashboard.UpdateWeight`
copies the tracked weight into the profile and then calls it.

For the default profile (70 kg, 175 cm, 25 years, male, moderate, maintain)
the formulas give BMI 22.9, BMR 1724 (from 1724.052) and a daily target of
2672 (from 2672.2). The code also does not reject a zero or negative weight:
`calculateBMI` returns 0 for weight 0, and the model does the same.

## Model

| member | source | states |
|---|---|---|
| Metrics.Round | src/app/page.tsx:79 | `Math.round`: the result is the integer nearest to x, and a tie goes to the larger integer |
| Metrics.RoundTenths | src/app/page.tsx:74 | `toFixed(1)`: the result is a whole number of tenths, within 0.05 of x, with the same sign as x; ties go up for x ≥ 0 and away from zero for x < 0 |
| Metrics.SquareMetres | src/app/page.tsx:73-74 | the squared height in metres is positive for every non-zero height |
| Metrics.Quetelet | src/app/page.tsx:72-74 | the exact quotient kg / m² has the sign of the weight |
| Metrics.BMI | src/app/page.tsx:72-75 | `calculateBMI`: a whole number of tenths, never negative for a non-negative weight, within 0.05 of the exact kg / m² |
| Metrics.BMR | src/app/page.tsx:77-83 | `calculateBMR`: the nearest integer (ties up) to the men's revised Harris-Benedict equation exactly when gender is "male", and to the women's equation for every other string; no clamping |
| Metrics.Multiplier | src/app/page.tsx:86-94 | a known activity key gives its table entry; any other key gives the "moderate" entry 1.55; every result lies in [1.2, 1.9] |
| Metrics.DailyCalories | src/app/page.tsx:85-104 | `calculateDailyCalories`: the nearest integer (ties up) to bmr × multiplier + the goal offset (−500 lose, +500 gain, 0 otherwise); no lower bound |
| Metrics.BMICategory | src/app/page.tsx:139-144 | `getBMICategory`, in both directions: Underweight iff bmi < 18.5, Normal iff 18.5 ≤ bmi < 25, Overweight iff 25 ≤ bmi < 30, Obese iff bmi ≥ 30 |
| Metrics.BMICategoryMonotone | src/app/page.tsx:139-144 | a larger BMI never falls in a lower bin |
| Metrics.BMICategoryBoundaries | src/app/page.tsx:140-143 | 18.5, 25 and 30 each belong to the bin above; 18.4, 24.9 and 29.9 to the bin below |
| Metrics.CategoriesDistinguishable | src/app/page.tsx:140-143 | different bins have different Dutch labels and different colours |
| Metrics.BMIOfDefaultProfile | src/app/page.tsx:72-75 | 70 kg at 175 cm gives BMI 22.9 |
| Metrics.BMRNonIncreasingInAge | src/app/page.tsx:77-83 | with weight, height and gender fixed, an older age never gives a larger BMR |
| Metrics.BMROfDefaultProfile | src/app/page.tsx:79 | 70 kg, 175 cm, 25 years, male: the equation gives 1724.052, so BMR 1724 |
| Metrics.KnownMultipliers | src/app/page.tsx:86-92 | sedentary 1.2, light 1.375, moderate 1.55, active 1.725, very_active 1.9 |
| Metrics.UnknownActivityIsModerate | src/app/page.tsx:94 | any key outside the table gives the same daily target as "moderate", for every BMR and goal |
| Metrics.GoalAdjustment | src/app/page.tsx:96-103 | "lose" gives exactly the maintain target − 500; "gain" gives exactly + 500; any other goal string gives the maintain target |
| Metrics.DailyCaloriesOfDefaultProfile | src/app/page.tsx:94-102 | BMR 1724 at moderate activity with goal maintain gives 2672 |
| Tracking.Recomputed | src/app/page.tsx:107-118 | the effect leaves name and every input field unchanged, and its bmi, bmr and dailyCalories are the calculators' results for those inputs, the target being computed from the fresh BMR |
| Tracking.RecomputedDependsOnInputsOnly | src/app/page.tsx:107-118 | two profiles with the same inputs get the same recomputed profile, whatever their old derived fields |
| Tracking.RecomputeIdempotent | src/app/page.tsx:107-118 | an already consistent profile is unchanged by the effect; running the effect twice is the same as running it once |
| Tracking.InitialProfileFigures | src/app/page.tsx:48-59 | the first effect on the default profile sets bmi 22.9, bmr 1724 and dailyCalories 2672 and changes nothing else |
| Tracking.InitialSessionInvariant | src/app/page.tsx:61-69 | the first render has zero glasses and zero water (so water = 250 × glasses), zero calories, and a tracked weight equal to the profile weight |
| Tracking.EnterCalories | src/app/page.tsx:280 | the calorie field's onChange stores the parsed input and touches nothing else |
| Tracking.AddCaloriesEffect | src/app/page.tsx:120-129 | `addCalories`: a positive parsed amount n raises calories by exactly n and clears the field; NaN, 0 or a negative amount change nothing; calories go up iff the input is positive; water, weight, date, glasses and profile never change |
| Tracking.AddWaterEffect | src/app/page.tsx:131-137 | `addWater`: one more glass and 250 ml more water per glass added; every other part of the state is unchanged |
| Tracking.EnterWeight | src/app/page.tsx:579-582 | the tracked-weight field's onChange sets the tracked weight only |
| Tracking.RecomputeEffect | src/app/page.tsx:107-118 | the effect on the whole state: the profile is recomputed and consistent, and the tracking record, calorie field and glass counter are unchanged |
| Tracking.UpdateWeightEffect | src/app/page.tsx:585 | the "Update" button: the profile weight becomes the tracked weight, the other inputs stay, the derived fields are recomputed, and the tracking state is unchanged |
| Tracking.UpdateSameWeightChangesNothing | src/app/page.tsx:585 | once the effect has run, an "Update" click with the tracked weight equal to the profile weight leaves the whole state unchanged, as the skipped effect does in the page |
| Tracking.Step | src/app/page.tsx:120-137 | every user action keeps the height, the invariant (water = 250 × glasses, glasses ≥ 0, calories ≥ 0) and the consistency of the derived fields, and never lowers the calories |
| Tracking.RunKeepsInvariant | src/app/page.tsx:131-137 | after any sequence of actions from an invariant state, water = 250 × glasses, glasses ≥ 0 and calories ≥ 0 still hold |
| Tracking.WaterInLockstep | src/app/page.tsx:61-69 | from the first render, after any sequence of actions, water = 250 × waterGlasses |
| Tracking.GlassesCountClicks | src/app/page.tsx:131-137 | after any sequence of actions, the glass counter has grown by exactly the number of add-water clicks |
| Tracking.CaloriesNeverDecrease | src/app/page.tsx:120-129 | no sequence of actions lowers the logged calories |
| Tracking.RunKeepsConsistent | src/app/page.tsx:107-118 | once the derived fields agree with the inputs, they agree after any sequence of actions |
| Tracking.Dashboard.constructor | src/app/page.tsx:48-69 | the first render: default profile with derived fields 0, zero calories, water and glasses, tracked weight 70, empty calorie field, the given date; the invariant holds |
| Tracking.Dashboard.Recompute | src/app/page.tsx:107-118 | overwrites only bmi, bmr and dailyCalories, with the calculators' results; keeps the invariant |
| Tracking.Dashboard.SetCalorieInput | src/app/page.tsx:280 | stores the parsed calorie input; nothing else changes |
| Tracking.Dashboard.AddCalories | src/app/page.tsx:120-129 | adds a positive parsed amount to calories and clears the field, otherwise changes nothing; profile and glasses never change; keeps the invariant |
| Tracking.Dashboard.AddWater | src/app/page.tsx:131-137 | glasses + 1 and water + 250 together; nothing else changes; keeps water = 250 × glasses |
| Tracking.Dashboard.SetTrackedWeight | src/app/page.tsx:579-582 | sets the tracked weight only |
| Tracking.Dashboard.UpdateWeight | src/app/page.tsx:585 | the profile weight becomes the tracked weight and the derived fields are recomputed from it; the other inputs and the tracking state are unchanged |

## Left out

- Rendering (tabs, cards, badges, icons, progress bars, the fixed weekly-goal figures, lines 149-658) is presentation only. The Dutch category labels and colour classes are kept as constant outputs of `Metrics.Category`.
- The `calorieProgress` and `waterProgress` percentages (lines 146-147) are not modelled. They are display values, and the first one divides by a target that can be zero or negative.
- The date `new Date().toISOString()` (line 65) reads the clock. It is the constructor's `today` parameter.
- String parsing (`parseInt` and `parseFloat(...) || 0` at lines 121, 356, 379, 389 and 581) is not modelled. The calorie field holds `parseInt`'s result as `Option<int>`, with `None` for NaN. The weight field holds a parsed `real`.
- The profile form setters (lines 345-420) are not part of this model. `Dashboard.Recompute` is the effect a host runs after any of them.
- React scheduling is not modelled. The effect runs only when one of its six dependencies changed, and the first render shows zeros until the effect has run. The model recomputes on every "Update" click. `Tracking.UpdateSameWeightChangesNothing` shows that this gives the same state when the weight did not change and the effect has already run (`Consistent(profile)`), which holds in every state the page reaches after mount.
- JavaScript numbers are modelled as exact reals and unbounded integers. So binary rounding of decimal constants, `toFixed` ties on values that are inexact in binary, negative zero and precision loss above 2^53 are not captured.
- `Metrics.BMI` requires a non-zero height. A height of 0 gives Infinity or NaN in the page, and the height setter produces it when the field is cleared. Negative heights are accepted, as in the page.
- Activity keys inherited from `Object.prototype` (such as "constructor" or "toString") make the page's lookup return a function, and the target becomes NaN. The model treats them like every other unknown key. The select menu only offers the five table keys.
