/**
 * show_training_info: the record of the values a workout reports. The text
 * rendering of that record (fixed-point formatting into a message template)
 * is not part of this model.
 */
module Report {
  import opened Training

  /** InfoMessage: the kind's class name and the four computed values. */
  datatype InfoMessage = InfoMessage(
    trainingType: string,
    duration: real,
    distance: real,
    speed: real,
    calories: real)

  /** The class name each kind reports itself under. */
  function KindName(w: Workout): (name: string)
    ensures name in {"Running", "SportsWalking", "Swimming"}
  {
    match w
    case Running(_, _, _) => "Running"
    case SportsWalking(_, _, _, _) => "SportsWalking"
    case Swimming(_, _, _, _, _) => "Swimming"
  }

  /** show_training_info: the message carries the instance's own duration
      and the distance, speed and calories its own (overriding) methods
      compute. For the kinds that keep the base speed formula the reported
      speed times the duration is the reported distance; all four values are
      non-negative for plausible readings. */
  function ShowTrainingInfo(w: Workout): (m: InfoMessage)
    requires CaloriesDefined(w)
    ensures m.trainingType == KindName(w) && m.duration == w.duration
    ensures m.distance == Distance(w) && m.speed == MeanSpeed(w) && m.calories == SpentCalories(w)
    ensures !w.Swimming? ==> m.speed * m.duration == m.distance
    ensures Plausible(w) ==> m.duration > 0.0 && m.distance >= 0.0 && m.speed >= 0.0 && m.calories >= 0.0
  {
    InfoMessage(KindName(w), w.duration, Distance(w), MeanSpeed(w), SpentCalories(w))
  }

  /** Swimming is the exception: its reported speed comes from the pool, not
      from its reported distance, so speed times duration is the reported
      distance exactly when the swum length (pool length times laps) equals
      the stroke count times the stroke length. */
  lemma SwimmingSpeedMatchesDistanceIff(w: Workout)
    requires w.Swimming? && w.duration != 0.0
    ensures var m := ShowTrainingInfo(w);
            m.speed * m.duration == m.distance <==> w.lengthPool * w.countPool == w.action * SwimStrokeLength
  {
  }

  /** The sample swim is such a case: 40 laps of a 25 m pool are 1000 m, but
      720 strokes of 1.38 m are 993.6 m. */
  lemma SwimmingSpeedNotDistanceOverTime()
    ensures var m := ShowTrainingInfo(Swimming(720.0, 1.0, 80.0, 25.0, 40.0));
            m.speed * m.duration != m.distance
  {
    SwimmingSpeedMatchesDistanceIff(Swimming(720.0, 1.0, 80.0, 25.0, 40.0));
  }
}
