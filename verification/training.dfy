/**
 * The calculation part of the fitness tracker: a workout is one of three
 * kinds, built once from raw sensor readings and never changed afterwards,
 * and each kind turns its readings into a distance (km), a mean speed (km/h)
 * and the calories spent.
 *
 * Every number of the program (the step and lap counts, which arrive as
 * ints, and the floats) is modelled as an exact `real`: the formulas are
 * checked, IEEE-754 rounding and overflow are not. All constants are exact
 * decimal rationals. A division by zero, which the program raises as
 * ZeroDivisionError, becomes a precondition.
 */
module Training {

  // Constants shared by every kind (class attributes of Training).
  const BaseStepLength: real := 0.65   // metres per step, Training.LEN_STEP
  const MetersInKm: real := 1000.0
  const MinutesInHour: real := 60.0

  // Running
  const RunSpeedMultiplier: real := 18.0
  const RunSpeedShift: real := 1.79

  // SportsWalking
  const WalkWeightMultiplier: real := 0.035
  const WalkSpeedHeightMultiplier: real := 0.029
  const CmInM: real := 100.0
  const KmhInMsec: real := 0.278

  // Swimming (its LEN_STEP shadows the base one)
  const SwimStrokeLength: real := 1.38
  const SwimSpeedBuff: real := 1.1
  const SwimCaloriesCoefficient: real := 2.0

  /** The three concrete workout kinds, with the readings their constructors
      take, in constructor order. There is no constructor for the bare base
      class: its calorie formula does not exist. */
  datatype Workout =
    | Running(action: real, duration: real, weight: real)
    | SportsWalking(action: real, duration: real, weight: real, height: real)
    | Swimming(action: real, duration: real, weight: real, lengthPool: real, countPool: real)

  /** Readings a sensor can actually report: nothing negative, a positive
      duration, and for walking a positive height. */
  predicate Plausible(w: Workout)
  {
    && w.action >= 0.0 && w.duration > 0.0 && w.weight >= 0.0
    && (w.SportsWalking? ==> w.height > 0.0)
    && (w.Swimming? ==> w.lengthPool >= 0.0 && w.countPool >= 0.0)
  }

  /** What the calorie formula of `w` divides by is non-zero. */
  predicate CaloriesDefined(w: Workout)
  {
    w.duration != 0.0 && (w.SportsWalking? ==> w.height != 0.0)
  }

  function Square(x: real): (y: real)
    ensures y >= 0.0
  {
    x * x
  }

  /** Training.get_distance: the step count times the BASE step length, in
      km. It names Training.LEN_STEP explicitly, so it uses 0.65 whatever
      the kind of `w`. */
  function BaseDistance(w: Workout): (km: real)
    ensures km >= 0.0 <==> w.action >= 0.0
    ensures km == 0.0 <==> w.action == 0.0
  {
    w.action * BaseStepLength / MetersInKm
  }

  /** Training.get_mean_speed: base distance over duration. */
  function BaseMeanSpeed(w: Workout): (kmh: real)
    requires w.duration != 0.0
    ensures kmh * w.duration == BaseDistance(w)
    ensures w.action >= 0.0 && w.duration > 0.0 ==> kmh >= 0.0
  {
    BaseDistance(w) / w.duration
  }

  /** get_distance as dispatched on the instance: Swimming overrides it with
      its own stroke length, the other kinds inherit the base formula. */
  function Distance(w: Workout): (km: real)
    ensures !w.Swimming? ==> km == BaseDistance(w)
    ensures w.Swimming? ==> km * BaseStepLength == BaseDistance(w) * SwimStrokeLength
    ensures km >= 0.0 <==> w.action >= 0.0
  {
    match w
    case Swimming(action, _, _, _, _) => action * SwimStrokeLength / MetersInKm
    case _ => BaseDistance(w)
  }

  /** get_mean_speed as dispatched on the instance. Running inherits the base
      formula; SportsWalking overrides it with a copy of the base formula;
      Swimming overrides it with pool length times laps over duration and
      does not use its distance at all. */
  function MeanSpeed(w: Workout): (kmh: real)
    requires w.duration != 0.0
    ensures !w.Swimming? ==> kmh == BaseMeanSpeed(w)
    ensures w.Swimming? ==> kmh * w.duration * MetersInKm == w.lengthPool * w.countPool
    ensures Plausible(w) ==> kmh >= 0.0
  {
    match w
    case Running(_, _, _) => BaseMeanSpeed(w)
    case SportsWalking(_, duration, _, _) => BaseDistance(w) / duration
    case Swimming(_, duration, _, lengthPool, countPool) =>
      lengthPool * countPool / MetersInKm / duration
  }

  /** get_spent_calories of each kind. Running and SportsWalking call the
      base mean speed by name; Swimming calls its own. */
  function SpentCalories(w: Workout): (kcal: real)
    requires CaloriesDefined(w)
    ensures Plausible(w) ==> kcal >= 0.0
  {
    // The sign steps below keep the non-negativity proof within the
    // resource limit on every solver seed; without them it is seed-dependent.
    match w
    case Running(_, duration, weight) =>
      var perKg := RunSpeedMultiplier * BaseMeanSpeed(w) + RunSpeedShift;
      MulNonNegative(perKg, weight);
      MulNonNegative(perKg * weight / MetersInKm, duration * MinutesInHour);
      perKg * weight / MetersInKm * (duration * MinutesInHour)
    case SportsWalking(_, duration, weight, height) =>
      var speedTerm := Square(BaseMeanSpeed(w) * KmhInMsec) / (height / CmInM);
      DivNonNegative(Square(BaseMeanSpeed(w) * KmhInMsec), height / CmInM);
      MulNonNegative(speedTerm * WalkSpeedHeightMultiplier, weight);
      var perMinute := WalkWeightMultiplier * weight + speedTerm * WalkSpeedHeightMultiplier * weight;
      MulNonNegative(perMinute, duration * MinutesInHour);
      perMinute * (duration * MinutesInHour)
    case Swimming(_, duration, weight, _, _) =>
      var perKgHour := (MeanSpeed(w) + SwimSpeedBuff) * SwimCaloriesCoefficient;
      MulNonNegative(perKgHour, weight);
      MulNonNegative(perKgHour * weight, duration);
      perKgHour * weight * duration
  }

  /** SportsWalking's own mean speed is a copy of the base formula: it gives
      the base value for every reading. */
  lemma WalkingSpeedMatchesBase(steps: real, duration: real, weight: real, height: real)
    requires duration != 0.0
    ensures MeanSpeed(SportsWalking(steps, duration, weight, height))
         == BaseMeanSpeed(SportsWalking(steps, duration, weight, height))
  {
  }

  /** Running calories are never negative for a non-negative step count and
      weight and a positive duration. */
  lemma RunningCaloriesNonNegative(w: Workout)
    requires w.Running? && w.action >= 0.0 && w.weight >= 0.0 && w.duration > 0.0
    ensures SpentCalories(w) >= 0.0
  {
  }

  /** Walking calories are never negative for a non-negative weight and a
      positive duration and height, whatever the step count: the speed
      enters the formula squared. */
  lemma WalkingCaloriesNonNegative(w: Workout)
    requires w.SportsWalking? && w.weight >= 0.0 && w.duration > 0.0 && w.height > 0.0
    ensures SpentCalories(w) >= 0.0
  {
    var speedTerm := Square(BaseMeanSpeed(w) * KmhInMsec) / (w.height / CmInM);
    assert speedTerm >= 0.0 by {
      DivNonNegative(Square(BaseMeanSpeed(w) * KmhInMsec), w.height / CmInM);
    }
    assert SpentCalories(w)
        == (WalkWeightMultiplier * w.weight + speedTerm * WalkSpeedHeightMultiplier * w.weight)
           * (w.duration * MinutesInHour);
  }

  /** Swimming calories are never negative for a non-negative weight, pool
      length and lap count and a positive duration, whatever the stroke
      count. */
  lemma SwimmingCaloriesNonNegative(w: Workout)
    requires w.Swimming? && w.weight >= 0.0 && w.duration > 0.0
    requires w.lengthPool >= 0.0 && w.countPool >= 0.0
    ensures SpentCalories(w) >= 0.0
  {
    MulNonNegative(w.lengthPool, w.countPool);
    DivNonNegative(w.lengthPool * w.countPool / MetersInKm, w.duration);
    assert MeanSpeed(w) >= 0.0;
    assert SpentCalories(w)
        == (MeanSpeed(w) + SwimSpeedBuff) * SwimCaloriesCoefficient * w.weight * w.duration;
  }

  /** Running calories from the raw readings alone, with no speed: linear
      in the step count and in the duration, scaled by the weight. */
  function RunningCaloriesFromReadings(steps: real, duration: real, weight: real): real
  {
    (RunSpeedMultiplier * BaseStepLength / MetersInKm * steps + RunSpeedShift * duration)
    * weight * MinutesInHour / MetersInKm
  }

  /** Walking calories from the raw readings alone: a term linear in the
      duration plus a term in the square of the distance (in km times the
      km/h-to-m/s factor) that shrinks as the duration or the height grows. */
  function WalkingCaloriesFromReadings(steps: real, duration: real, weight: real, height: real): real
    requires duration != 0.0 && height != 0.0
  {
    WalkWeightMultiplier * weight * duration * MinutesInHour
    + Square(steps * BaseStepLength / MetersInKm * KmhInMsec) * CmInM
      / (height * duration) * WalkSpeedHeightMultiplier * weight * MinutesInHour
  }

  /** Swimming calories from the raw readings alone: the swum length (pool
      length times laps, in km) plus the speed bonus times the duration,
      scaled by the weight. */
  function SwimmingCaloriesFromReadings(duration: real, weight: real, lengthPool: real, laps: real): real
  {
    (lengthPool * laps / MetersInKm + SwimSpeedBuff * duration) * SwimCaloriesCoefficient * weight
  }

  // The closed-form and monotonicity lemmas below spell out their algebra
  // step by step. Some seeds find these proofs unaided; the steps keep them
  // stable on every seed.

  /** Running's speed-based calorie formula agrees with the reference. */
  lemma RunningCaloriesClosedForm(steps: real, duration: real, weight: real)
    requires duration != 0.0
    ensures SpentCalories(Running(steps, duration, weight))
         == RunningCaloriesFromReadings(steps, duration, weight)
  {
    var w := Running(steps, duration, weight);
    assert SpentCalories(w)
        == (RunSpeedMultiplier * BaseMeanSpeed(w) + RunSpeedShift) * weight / MetersInKm
           * (duration * MinutesInHour);
    RunningFormula(BaseMeanSpeed(w), duration, BaseDistance(w), weight);
  }

  /** SportsWalking's speed-based calorie formula agrees with the reference. */
  lemma WalkingCaloriesClosedForm(steps: real, duration: real, weight: real, height: real)
    requires duration != 0.0 && height != 0.0
    ensures SpentCalories(SportsWalking(steps, duration, weight, height))
         == WalkingCaloriesFromReadings(steps, duration, weight, height)
  {
    var w := SportsWalking(steps, duration, weight, height);
    var v := BaseMeanSpeed(w) * KmhInMsec;
    assert SpentCalories(w)
        == (WalkWeightMultiplier * weight
            + Square(v) / (height / CmInM) * WalkSpeedHeightMultiplier * weight)
           * (duration * MinutesInHour);
    assert v * duration == BaseDistance(w) * KmhInMsec;
    WalkingFormula(v, duration, BaseDistance(w) * KmhInMsec, height, weight);
  }

  /** Swimming's speed-based calorie formula agrees with the reference; the
      stroke count does not appear in it. */
  lemma SwimmingCaloriesClosedForm(strokes: real, duration: real, weight: real, lengthPool: real, laps: real)
    requires duration != 0.0
    ensures SpentCalories(Swimming(strokes, duration, weight, lengthPool, laps))
         == SwimmingCaloriesFromReadings(duration, weight, lengthPool, laps)
  {
    var w := Swimming(strokes, duration, weight, lengthPool, laps);
    assert SpentCalories(w)
        == (MeanSpeed(w) + SwimSpeedBuff) * SwimCaloriesCoefficient * weight * duration;
    SwimmingFormula(MeanSpeed(w), duration, lengthPool * laps / MetersInKm, weight);
  }

  /** Swimming's mean speed, and so its calories, do not depend on the
      stroke count: two swims that differ only in strokes agree on both. */
  lemma SwimmingIgnoresStrokes(strokes1: real, strokes2: real, duration: real, weight: real,
                               lengthPool: real, countPool: real)
    requires duration != 0.0
    ensures var w1 := Swimming(strokes1, duration, weight, lengthPool, countPool);
            var w2 := Swimming(strokes2, duration, weight, lengthPool, countPool);
            MeanSpeed(w1) == MeanSpeed(w2) && SpentCalories(w1) == SpentCalories(w2)
  {
    var w1 := Swimming(strokes1, duration, weight, lengthPool, countPool);
    var w2 := Swimming(strokes2, duration, weight, lengthPool, countPool);
    assert MeanSpeed(w1) == lengthPool * countPool / MetersInKm / duration == MeanSpeed(w2);
  }

  /** The shadowed step length is observable: for any non-zero stroke count,
      Swimming's own distance differs from the base distance, which is what
      the base mean speed would use. */
  lemma SwimmingDistanceShadowsBase(w: Workout)
    requires w.Swimming? && w.action != 0.0
    ensures Distance(w) != BaseDistance(w)
  {
  }

  /** A run with more steps, at the same duration and weight, burns at least
      as many calories. */
  lemma RunningCaloriesMonotone(steps1: real, steps2: real, duration: real, weight: real)
    requires 0.0 <= steps1 <= steps2 && duration > 0.0 && weight >= 0.0
    ensures SpentCalories(Running(steps1, duration, weight))
         <= SpentCalories(Running(steps2, duration, weight))
  {
    RunningCaloriesClosedForm(steps1, duration, weight);
    RunningCaloriesClosedForm(steps2, duration, weight);
    var k := RunSpeedMultiplier * BaseStepLength / MetersInKm;
    ScaleMonoLeft(k, steps1, steps2);
    var a1, a2 := k * steps1 + RunSpeedShift * duration, k * steps2 + RunSpeedShift * duration;
    ScaleMono(a1, a2, weight);
    ScaleMono(a1 * weight, a2 * weight, MinutesInHour);
    DivMono(a1 * weight * MinutesInHour, a2 * weight * MinutesInHour, MetersInKm);
    assert RunningCaloriesFromReadings(steps1, duration, weight)
        <= RunningCaloriesFromReadings(steps2, duration, weight);
  }

  /** A walk with more steps, at the same duration, weight and height, burns
      at least as many calories. */
  lemma WalkingCaloriesMonotone(steps1: real, steps2: real, duration: real, weight: real, height: real)
    requires 0.0 <= steps1 <= steps2 && duration > 0.0 && weight >= 0.0 && height > 0.0
    ensures SpentCalories(SportsWalking(steps1, duration, weight, height))
         <= SpentCalories(SportsWalking(steps2, duration, weight, height))
  {
    WalkingCaloriesClosedForm(steps1, duration, weight, height);
    WalkingCaloriesClosedForm(steps2, duration, weight, height);
    WalkingReferenceMonotone(steps1, steps2, duration, weight, height);
  }

  /** A swim of more laps, in the same pool, time and weight, burns at least
      as many calories. */
  lemma SwimmingCaloriesMonotone(laps1: real, laps2: real, strokes: real, duration: real, weight: real,
                                 lengthPool: real)
    requires 0.0 <= laps1 <= laps2 && duration > 0.0 && weight >= 0.0 && lengthPool >= 0.0
    ensures SpentCalories(Swimming(strokes, duration, weight, lengthPool, laps1))
         <= SpentCalories(Swimming(strokes, duration, weight, lengthPool, laps2))
  {
    SwimmingCaloriesClosedForm(strokes, duration, weight, lengthPool, laps1);
    SwimmingCaloriesClosedForm(strokes, duration, weight, lengthPool, laps2);
    ScaleMonoLeft(lengthPool, laps1, laps2);
    DivMono(lengthPool * laps1, lengthPool * laps2, MetersInKm);
    var a1 := lengthPool * laps1 / MetersInKm + SwimSpeedBuff * duration;
    var a2 := lengthPool * laps2 / MetersInKm + SwimSpeedBuff * duration;
    ScaleMono(a1, a2, SwimCaloriesCoefficient);
    ScaleMono(a1 * SwimCaloriesCoefficient, a2 * SwimCaloriesCoefficient, weight);
    assert SwimmingCaloriesFromReadings(duration, weight, lengthPool, laps1)
        <= SwimmingCaloriesFromReadings(duration, weight, lengthPool, laps2);
  }

  // Steps of real arithmetic, stated over plain variables so that each
  // proof sees only the facts it needs.

  lemma MulNonNegative(x: real, y: real)
    ensures x >= 0.0 && y >= 0.0 ==> x * y >= 0.0
  {
  }

  lemma DivNonNegative(x: real, y: real)
    ensures x >= 0.0 && y > 0.0 ==> x / y >= 0.0
  {
  }

  lemma ScaleMono(x: real, y: real, c: real)
    requires x <= y && c >= 0.0
    ensures x * c <= y * c
  {
  }

  lemma ScaleMonoLeft(c: real, x: real, y: real)
    requires x <= y && c >= 0.0
    ensures c * x <= c * y
  {
  }

  lemma SquareMono(x: real, y: real)
    requires 0.0 <= x <= y
    ensures Square(x) <= Square(y)
  {
    assert x * x <= y * x;
    assert y * x <= y * y;
    assert x * x <= y * y;
    assert Square(x) == x * x && Square(y) == y * y;
  }

  lemma MulPositive(x: real, y: real)
    requires x > 0.0 && y > 0.0
    ensures x * y > 0.0
  {
  }

  lemma DivMono(x: real, y: real, c: real)
    requires x <= y && c > 0.0
    ensures x / c <= y / c
  {
  }

  lemma RunningFormula(speed: real, duration: real, distance: real, weight: real)
    requires speed * duration == distance
    ensures (RunSpeedMultiplier * speed + RunSpeedShift) * weight / MetersInKm * (duration * MinutesInHour)
         == (RunSpeedMultiplier * distance + RunSpeedShift * duration) * weight * MinutesInHour / MetersInKm
  {
    assert (RunSpeedMultiplier * speed + RunSpeedShift) * duration
        == RunSpeedMultiplier * distance + RunSpeedShift * duration;
  }

  lemma WalkingFormula(speed: real, duration: real, distance: real, height: real, weight: real)
    requires speed * duration == distance && duration != 0.0 && height != 0.0
    ensures (WalkWeightMultiplier * weight
             + Square(speed) / (height / CmInM) * WalkSpeedHeightMultiplier * weight)
            * (duration * MinutesInHour)
         == WalkWeightMultiplier * weight * duration * MinutesInHour
            + Square(distance) * CmInM / (height * duration) * WalkSpeedHeightMultiplier * weight * MinutesInHour
  {
    var q := Square(speed) * CmInM / height;
    assert Square(speed) / (height / CmInM) == q;
    assert Square(distance) == Square(speed) * duration * duration;
    assert Square(distance) * CmInM / (height * duration) == q * duration;
    var k := WalkSpeedHeightMultiplier * weight * MinutesInHour;
    assert q * WalkSpeedHeightMultiplier * weight * (duration * MinutesInHour) == q * duration * k;
    assert q * duration * WalkSpeedHeightMultiplier * weight * MinutesInHour == q * duration * k;
  }

  lemma WalkingReferenceMonotone(steps1: real, steps2: real, duration: real, weight: real, height: real)
    requires 0.0 <= steps1 <= steps2 && duration > 0.0 && weight >= 0.0 && height > 0.0
    ensures WalkingCaloriesFromReadings(steps1, duration, weight, height)
         <= WalkingCaloriesFromReadings(steps2, duration, weight, height)
  {
    var y1, y2 := steps1 * BaseStepLength / MetersInKm, steps2 * BaseStepLength / MetersInKm;
    ScaleMono(steps1, steps2, BaseStepLength);
    DivMono(steps1 * BaseStepLength, steps2 * BaseStepLength, MetersInKm);
    ScaleMono(y1, y2, KmhInMsec);
    var x1, x2 := y1 * KmhInMsec, y2 * KmhInMsec;
    assert 0.0 <= x1 <= x2;
    SquareMono(x1, x2);
    ScaleMono(Square(x1), Square(x2), CmInM);
    MulPositive(height, duration);
    DivMono(Square(x1) * CmInM, Square(x2) * CmInM, height * duration);
    var t1, t2 := Square(x1) * CmInM / (height * duration), Square(x2) * CmInM / (height * duration);
    ScaleMono(t1, t2, WalkSpeedHeightMultiplier);
    ScaleMono(t1 * WalkSpeedHeightMultiplier, t2 * WalkSpeedHeightMultiplier, weight);
    ScaleMono(t1 * WalkSpeedHeightMultiplier * weight, t2 * WalkSpeedHeightMultiplier * weight, MinutesInHour);
    var base := WalkWeightMultiplier * weight * duration * MinutesInHour;
    assert base + t1 * WalkSpeedHeightMultiplier * weight * MinutesInHour
        <= base + t2 * WalkSpeedHeightMultiplier * weight * MinutesInHour;
  }

  lemma SwimmingFormula(speed: real, duration: real, swum: real, weight: real)
    requires speed * duration == swum
    ensures (speed + SwimSpeedBuff) * SwimCaloriesCoefficient * weight * duration
         == (swum + SwimSpeedBuff * duration) * SwimCaloriesCoefficient * weight
  {
    assert (speed + SwimSpeedBuff) * duration == swum + SwimSpeedBuff * duration;
  }
}
