/**
 * The three sample packages the program's entry point reads and reports,
 * worked out exactly over the reals.
 */
module Samples {
  import opened Training
  import opened Report
  import opened Dispatch

  lemma SwimmingSample()
    ensures ReadPackage("SWM", [720.0, 1.0, 80.0, 25.0, 40.0]).Ok?
    ensures ShowTrainingInfo(ReadPackage("SWM", [720.0, 1.0, 80.0, 25.0, 40.0]).value)
         == InfoMessage("Swimming", 1.0, 0.9936, 1.0, 336.0)
  {
  }

  lemma RunningSample()
    ensures ReadPackage("RUN", [15000.0, 1.0, 75.0]).Ok?
    ensures ShowTrainingInfo(ReadPackage("RUN", [15000.0, 1.0, 75.0]).value)
         == InfoMessage("Running", 1.0, 9.75, 9.75, 797.805)
  {
  }

  lemma WalkingSample()
    ensures ReadPackage("WLK", [9000.0, 1.0, 75.0, 180.0]).Ok?
    ensures ShowTrainingInfo(ReadPackage("WLK", [9000.0, 1.0, 75.0, 180.0]).value)
         == InfoMessage("SportsWalking", 1.0, 5.85, 5.85, 349.251747525)
  {
  }

  /** A code outside the table fails with the lookup error, whatever the
      parameters; a known code with the wrong number of parameters fails
      with the argument-count error. */
  lemma FailingPackages(params: seq<real>)
    ensures ReadPackage("XYZ", params) == Err(UnknownWorkoutType("XYZ"))
    ensures ReadPackage("RUN", [15000.0, 1.0]) == Err(WrongParameterCount("RUN", 3, 2))
    ensures ReadPackage("SWM", [720.0, 1.0, 80.0]) == Err(WrongParameterCount("SWM", 5, 3))
  {
  }
}
