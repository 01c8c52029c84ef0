# Fitness tracker calculations, modelled in Dafny

A model of the calculation core of a small fitness tracker (`homework.py`).
A workout is one of three kinds, Running, SportsWalking or Swimming. Each is
built once from raw sensor readings: a step or stroke count, a duration in
hours, a weight in kg, plus a height in cm for walking and a pool length in
metres and a lap count for swimming. From these it computes:

- a distance in km,
- a mean speed in km/h,
- the calories spent.

`read_package` turns a short code (`SWM`, `RUN`, `WLK`) and a flat parameter
list into a workout. `show_training_info` collects the kind's name, the
duration and the three computed values into a message record.

- `training.dfy` (module `Training`): the `Workout` datatype, one constructor
  per class, and the formulas as functions. `BaseDistance`/`BaseMeanSpeed` are
  the base-class methods. Code that names the base class explicitly calls
  these. `Distance`/`MeanSpeed` are the methods as dispatched on the
  instance. The file also holds the lemmas about calories.
- `dispatch.dfy` (module `Dispatch`): the code table and `ReadPackage`. Its two
  exceptions are error values: `KeyError` is `UnknownWorkoutType` and
  `TypeError` is `WrongParameterCount`.
- `report.dfy` (module `Report`): the `InfoMessage` record and
  `ShowTrainingInfo`.
- `samples.dfy` (module `Samples`): the three sample packages of the entry
  point, worked out exactly.

Every number is an exact `real`. This covers the counts, which the program
annotates as `int`, and the floats. The formulas are therefore checked over
exact rationals, with no floating-point rounding. A division by zero
(`ZeroDivisionError`) becomes a precondition. A zero duration is excluded
for the speeds and the calories, and a zero height for the walking calories.

Two subtleties of the code are kept:

- The base `get_distance` reads `Training.LEN_STEP` by name. So 0.65 is used
  whenever the base method runs, and Swimming's 1.38 only in its own
  override.
- Running and SportsWalking compute calories through the base mean speed,
  called by name. Swimming's speed comes from pool length times laps and does
  not use its distance.

The code's formulas give exactly 797.805 kcal for the running sample (15000
steps, 1 h, 75 kg) and exactly 349.251747525 kcal for the walking sample
(9000 steps, 1 h, 75 kg, 180 cm). `Samples` proves both.

## Model

| member | source | states |
|---|---|---|
| `Training.BaseDistance` | homework.py:41-44 | The base distance is non-negative exactly when the step count is, and zero exactly when the count is zero. |
| `Training.BaseMeanSpeed` | homework.py:46-50 | Needs a non-zero duration. Speed times duration gives back the base distance. The speed is non-negative for a non-negative count and a positive duration. |
| `Training.Distance` | homework.py:152-156 | Running and walking use the base distance. Swimming's distance is the base distance rescaled from the 0.65 step to the 1.38 stroke. Its sign follows the count's. |
| `Training.MeanSpeed` | homework.py:158-165 | Running and walking give the base mean speed. Swimming's speed times duration, in metres, equals pool length times laps. The speed is non-negative for plausible readings. |
| `Training.SpentCalories` | homework.py:79-175 | Needs a non-zero duration, and a non-zero height for walking. The result is non-negative for plausible readings. |
| `Training.WalkingSpeedMatchesBase` | homework.py:110-115 | SportsWalking's overriding mean speed equals the base mean speed for every reading. |
| `Training.RunningCaloriesNonNegative` | homework.py:79-91 | Running calories are >= 0 for a non-negative count and weight and a positive duration. |
| `Training.WalkingCaloriesNonNegative` | homework.py:117-132 | Walking calories are >= 0 for a non-negative weight and a positive duration and height, whatever the step count. |
| `Training.SwimmingCaloriesNonNegative` | homework.py:167-175 | Swimming calories are >= 0 for a non-negative weight, pool length and lap count and a positive duration, whatever the stroke count. |
| `Training.RunningCaloriesClosedForm` | homework.py:79-91 | Running's speed-based formula equals `RunningCaloriesFromReadings`. That reference uses only the raw readings: (18·0.65/1000·steps + 1.79·hours)·weight·60/1000. |
| `Training.WalkingCaloriesClosedForm` | homework.py:117-132 | Walking's speed-based formula equals `WalkingCaloriesFromReadings`. That reference uses only the raw readings: 0.035·weight·hours·60 + (steps·0.65/1000·0.278)²·100/(height·hours)·0.029·weight·60. |
| `Training.SwimmingCaloriesClosedForm` | homework.py:167-175 | Swimming's speed-based formula equals `SwimmingCaloriesFromReadings`. That reference is (poolLength·laps/1000 + 1.1·hours)·2·weight, with no stroke count. |
| `Training.SwimmingIgnoresStrokes` | homework.py:158-175 | Two swims that differ only in stroke count have the same mean speed and the same calories. |
| `Training.SwimmingDistanceShadowsBase` | homework.py:137 | For any non-zero stroke count, Swimming's own distance differs from the base distance. |
| `Training.RunningCaloriesMonotone` | homework.py:79-91 | More steps, at the same duration and weight, never burn fewer calories. |
| `Training.WalkingCaloriesMonotone` | homework.py:117-132 | More steps, at the same duration, weight and height, never burn fewer calories. |
| `Training.SwimmingCaloriesMonotone` | homework.py:167-175 | More laps, in the same pool, time and weight, never burn fewer calories. |
| `Dispatch.CodeOf` | homework.py:180 | Every class is registered under one of the three known codes. |
| `Dispatch.LookupCode` | homework.py:180 | The table finds a class exactly for `SWM`, `RUN` and `WLK`, and the class it finds is registered under that code. |
| `Dispatch.LookupCodeOf` | homework.py:180 | Each class is found under its own code. With `LookupCode` this makes the table a bijection between the three codes and the three classes. |
| `Dispatch.Readings` | homework.py:72-150 | A workout's constructor arguments, in the order of the three `__init__` signatures (Running at lines 72-77, SportsWalking at 101-108, Swimming at 141-150). There are as many as the constructor takes, and they begin with count, duration and weight. |
| `Dispatch.Construct` | homework.py:181 | Spreading a list of the right length into a constructor binds it in order. The result is of the requested kind and its arguments are the list. |
| `Dispatch.ReadPackage` | homework.py:178-183 | Succeeds exactly for `SWM` with 5, `RUN` with 3 or `WLK` with 4 parameters, and the workout then holds the parameters in order. Any other code is a lookup error, whatever the parameters. A known code with the wrong count is an argument-count error reporting the given count. |
| `Dispatch.ReadPackageRoundTrip` | homework.py:178-183 | Every workout is read back unchanged from its own code and constructor arguments. |
| `Report.KindName` | homework.py:58 | Each kind reports one of the three class names. |
| `Report.ShowTrainingInfo` | homework.py:56-64 | The message carries the instance's class name, its own duration, and the distance, speed and calories its dispatched methods compute. Except for swimming, reported speed times duration is the reported distance. All values are non-negative for plausible readings. |
| `Report.SwimmingSpeedMatchesDistanceIff` | homework.py:152-165 | For every swim with a non-zero duration, reported speed times duration equals reported distance exactly when pool length times laps equals the stroke count times 1.38 m. |
| `Report.SwimmingSpeedNotDistanceOverTime` | homework.py:158-165 | For the sample swim (1000 m of laps, 993.6 m of strokes), reported speed times duration differs from reported distance. |
| `Samples.SwimmingSample` | homework.py:195 | `SWM [720, 1, 80, 25, 40]` reports distance 0.9936, speed 1.0 and calories 336.0. |
| `Samples.RunningSample` | homework.py:196 | `RUN [15000, 1, 75]` reports distance 9.75, speed 9.75 and calories 797.805. |
| `Samples.WalkingSample` | homework.py:197 | `WLK [9000, 1, 75, 180]` reports distance 5.85, speed 5.85 and calories 349.251747525. |
| `Samples.FailingPackages` | homework.py:180-181 | `XYZ` fails with the lookup error whatever the parameters. `RUN` with 2 parameters and `SWM` with 3 fail with the argument-count error. |

## Left out

- `InfoMessage.get_message` (homework.py:17-23): the fixed-point, three-decimal text rendering is not modelled. The message is the record of its five fields.
- `main` and the `__main__` block (homework.py:186-202): they only print the sample packages. The samples are stated as lemmas in `Samples` instead.
- The bare `Training.get_spent_calories` (homework.py:52-54) returns `None`. The datatype has no constructor for the base class, so this cannot be called.
- Floating-point behaviour: rounding, overflow, and `ZeroDivisionError` as a runtime event. Numbers are exact reals, and the divisions by zero are preconditions.
- Integer readings: the step and lap counts are reals. Integrality is never used by any formula.
- `read_package` parameters are a list of numbers. A list holding non-numbers, and keyword arguments, are not modelled.
- `__class__.__name__` (homework.py:58): reflection is replaced by a fixed name per constructor.
