/**
 * read_package: a table from a short workout code to a workout class, and
 * a call of that class's constructor with the parameter list spread into
 * its positional arguments. A code missing from the table raises KeyError;
 * a list of the wrong length for the constructor raises TypeError. Both are
 * modelled as error values, in the order the program raises them: the code
 * is looked up before the parameters are counted.
 */
module Dispatch {
  import opened Training

  datatype Option<T> = None | Some(value: T)

  /** The workout classes, as the values of the code table. */
  datatype Kind = RunningKind | SportsWalkingKind | SwimmingKind

  datatype PackageError =
    | UnknownWorkoutType(code: string)                            // KeyError
    | WrongParameterCount(code: string, expected: nat, given: nat)  // TypeError

  datatype Result<T> = Ok(value: T) | Err(error: PackageError)

  const KnownCodes: set<string> := {"SWM", "RUN", "WLK"}

  function KindOf(w: Workout): Kind
  {
    match w
    case Running(_, _, _) => RunningKind
    case SportsWalking(_, _, _, _) => SportsWalkingKind
    case Swimming(_, _, _, _, _) => SwimmingKind
  }

  /** The code each class is registered under. */
  function CodeOf(k: Kind): (code: string)
    ensures code in KnownCodes
  {
    match k
    case SwimmingKind => "SWM"
    case RunningKind => "RUN"
    case SportsWalkingKind => "WLK"
  }

  /** The code table, as a lookup that fails on a missing key. It is the
      inverse of CodeOf, and it knows exactly the three codes. */
  function LookupCode(code: string): (k: Option<Kind>)
    ensures k.Some? <==> code in KnownCodes
    ensures k.Some? ==> CodeOf(k.value) == code
  {
    if code == "SWM" then Some(SwimmingKind)
    else if code == "RUN" then Some(RunningKind)
    else if code == "WLK" then Some(SportsWalkingKind)
    else None
  }

  /** Every class is found under its own code. */
  lemma LookupCodeOf(k: Kind)
    ensures LookupCode(CodeOf(k)) == Some(k)
  {
  }

  /** How many positional parameters each constructor takes. */
  function Arity(k: Kind): nat
  {
    match k
    case RunningKind => 3
    case SportsWalkingKind => 4
    case SwimmingKind => 5
  }

  /** The constructor arguments of a workout, in constructor order. */
  function Readings(w: Workout): (params: seq<real>)
    ensures |params| == Arity(KindOf(w))
    ensures params[..3] == [w.action, w.duration, w.weight]
  {
    match w
    case Running(action, duration, weight) => [action, duration, weight]
    case SportsWalking(action, duration, weight, height) => [action, duration, weight, height]
    case Swimming(action, duration, weight, lengthPool, countPool) =>
      [action, duration, weight, lengthPool, countPool]
  }

  /** A constructor call with a list of the right length spread into its
      positional arguments: it binds the list in order, so it is the inverse
      of Readings. */
  function Construct(k: Kind, params: seq<real>): (w: Workout)
    requires |params| == Arity(k)
    ensures KindOf(w) == k && Readings(w) == params
  {
    match k
    case RunningKind => Running(params[0], params[1], params[2])
    case SportsWalkingKind => SportsWalking(params[0], params[1], params[2], params[3])
    case SwimmingKind => Swimming(params[0], params[1], params[2], params[3], params[4])
  }

  /** read_package: look the code up, then call the constructor. */
  function ReadPackage(code: string, params: seq<real>): (r: Result<Workout>)
    ensures r.Ok? <==> || (code == "SWM" && |params| == 5)
                       || (code == "RUN" && |params| == 3)
                       || (code == "WLK" && |params| == 4)
    ensures r.Ok? ==> CodeOf(KindOf(r.value)) == code && Readings(r.value) == params
    ensures code !in KnownCodes ==> r == Err(UnknownWorkoutType(code))
    ensures code in KnownCodes && r.Err? ==>
              r.error.WrongParameterCount? && r.error.code == code && r.error.given == |params|
  {
    match LookupCode(code)
    case None => Err(UnknownWorkoutType(code))
    case Some(kind) =>
      if |params| == Arity(kind) then Ok(Construct(kind, params))
      else Err(WrongParameterCount(code, Arity(kind), |params|))
  }

  /** Every workout is read back from its own code and constructor
      arguments. */
  lemma ReadPackageRoundTrip(w: Workout)
    ensures ReadPackage(CodeOf(KindOf(w)), Readings(w)) == Ok(w)
  {
  }
}
