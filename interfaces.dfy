/**
 * The combinator contract that the result classes share (the `IResult` and
 * `Resultlike` interfaces). Each combinator is given here as a reference
 * function of the branch a result is on; every combinator method is proved equal
 * to its reference function, so the classes agree with the interface and with
 * one another.
 */
module Interfaces {
  import opened Values

  /** What a combinator branches on: a success with its value, or a failure. */
  datatype Branch = Success(value: PVal) | Failure

  /** A combinator that may answer with the receiver itself (`$this`) or with another result. */
  datatype Chosen<+S, +R> = Same(self: S) | Other(result: R)

  /** The combinators that take a "value or closure" parameter or an action. */
  datatype Op = AndThenOp | OrOp | OrElseOp | OrThrowOp | OnSuccessOp | OnFailureOp

  /** Whether `op`, on branch `b`, uses its parameter (and so calls it when it is a closure). */
  predicate UsesArgument(op: Op, b: Branch)
  {
    match op
    case AndThenOp => b.Success?
    case OnSuccessOp => b.Success?
    case OrOp => b.Failure?
    case OrElseOp => b.Failure?
    case OrThrowOp => b.Failure?
    case OnFailureOp => b.Failure?
  }

  /** An outcome of another result, lifted into a combinator's answer. */
  function Lift<S, R>(o: Outcome<R, Exc>): Outcome<Chosen<S, R>, Exc>
  {
    match o
    case Returned(r) => Returned(Other(r))
    case Threw(e) => Threw(e)
    case Exited(s) => Exited(s)
  }

  /** An action run for its effect only: `self` is answered unless the action throws or exits. */
  function After<S>(action: Outcome<PVal, Exc>, self: S): Outcome<S, Exc>
  {
    match action
    case Returned(_) => Returned(self)
    case Threw(e) => Threw(e)
    case Exited(s) => Exited(s)
  }

  /** `andThen`: a success answers the given result or the closure's output on its value; a failure answers itself. */
  function AndThen<S, R>(b: Branch, self: S, next: Arg<PVal, R>): Outcome<Chosen<S, R>, Exc>
  {
    match b
    case Failure => Returned(Same(self))
    case Success(v) => Lift(Eval(next, v))
  }

  /** `orElse`: a success answers itself; a failure answers the given result or the closure's output. */
  function OrElse<S, R, A>(b: Branch, self: S, alt: Arg<A, R>, input: A): Outcome<Chosen<S, R>, Exc>
  {
    match b
    case Success(_) => Returned(Same(self))
    case Failure => Lift(Eval(alt, input))
  }

  /** `or`: a success answers its value; a failure answers the default or the closure's output. */
  function Or<A>(b: Branch, default: Arg<A, PVal>, input: A): Outcome<PVal, Exc>
  {
    match b
    case Success(v) => Returned(v)
    case Failure => Eval(default, input)
  }

  /** `orNull`: the success value, or `null`. */
  function OrNull(b: Branch): PVal
  {
    match b
    case Success(v) => v
    case Failure => PNull
  }

  /** `orFalse`: the success value, or `false`. */
  function OrFalse(b: Branch): PVal
  {
    match b
    case Success(v) => v
    case Failure => PBool(false)
  }

  /** `orDie`: the success value, or the end of the process with the given status. */
  function OrDie(b: Branch, status: Option<ExitStatus>): Outcome<PVal, Exc>
  {
    match b
    case Success(v) => Returned(v)
    case Failure => Exited(status)
  }

  /** `orFail`: the success value, or `failure` thrown. */
  function OrFail<X>(b: Branch, failure: X): Outcome<PVal, X>
  {
    match b
    case Success(v) => Returned(v)
    case Failure => Threw(failure)
  }

  /**
   * `orThrow`: the success value; on a failure, the given exception thrown,
   * or the closure's output thrown (what the closure itself throws propagates).
   */
  function OrThrow<A>(b: Branch, exception: Arg<A, Exc>, input: A): Outcome<PVal, Exc>
  {
    match b
    case Success(v) => Returned(v)
    case Failure =>
      match Eval(exception, input)
      case Returned(e) => Threw(e)
      case Threw(e) => Threw(e)
      case Exited(s) => Exited(s)
  }

  /** `onSuccess`: runs the action on the value of a success; answers the receiver. */
  function OnSuccess<S>(b: Branch, self: S, action: PVal -> Outcome<PVal, Exc>): Outcome<S, Exc>
  {
    match b
    case Success(v) => After(action(v), self)
    case Failure => Returned(self)
  }

  /** `onFailure`: runs the action on a failure, with `input`; answers the receiver. */
  function OnFailure<S, A>(b: Branch, self: S, action: A -> Outcome<PVal, Exc>, input: A): Outcome<S, Exc>
  {
    match b
    case Success(_) => Returned(self)
    case Failure => After(action(input), self)
  }

  /** Short-circuit of `andThen`: a failure answers itself whatever the argument. */
  lemma AndThenShortCircuits<S, R>(self: S, next: Arg<PVal, R>)
    ensures AndThen(Failure, self, next) == Returned(Same(self))
    ensures !UsesArgument(AndThenOp, Failure)
  {
  }

  /** Sequencing of `andThen`: a success answers the given result, or exactly what the closure does. */
  lemma AndThenSequences<S, R>(v: PVal, self: S, next: Arg<PVal, R>)
    ensures next.Plain? ==> AndThen(Success(v), self, next) == Returned(Other(next.x))
    ensures next.Producer? && next.f(v).Returned? ==> AndThen(Success(v), self, next) == Returned(Other(next.f(v).value))
    ensures next.Producer? && next.f(v).Threw? ==> AndThen(Success(v), self, next) == Threw(next.f(v).thrown)
    ensures UsesArgument(AndThenOp, Success(v))
  {
  }

  /** Short-circuit of `orElse`: a success answers itself whatever the alternative. */
  lemma OrElseShortCircuits<S, R, A>(v: PVal, self: S, alt: Arg<A, R>, input: A)
    ensures OrElse(Success(v), self, alt, input) == Returned(Same(self))
    ensures !UsesArgument(OrElseOp, Success(v))
  {
  }

  /** `or`, `orNull`, `orFalse`, `orDie`, `orThrow` and `orFail` all answer the value of a success. */
  lemma ExtractorsAnswerValue<A, X>(v: PVal, d: Arg<A, PVal>, s: Option<ExitStatus>, e: Arg<A, Exc>, input: A, failure: X)
    ensures Or(Success(v), d, input) == Returned(v)
    ensures OrNull(Success(v)) == v && OrFalse(Success(v)) == v
    ensures OrDie(Success(v), s) == Returned(v)
    ensures OrThrow(Success(v), e, input) == Returned(v)
    ensures OrFail(Success(v), failure) == Returned(v)
  {
  }

  /** On a failure the extractors substitute: the default, `null`, `false`, the exit, the exception. */
  lemma ExtractorsSubstitute<A, X>(d: Arg<A, PVal>, s: Option<ExitStatus>, e: Exc, ex: Arg<A, Exc>, input: A, failure: X)
    ensures d.Plain? ==> Or(Failure, d, input) == Returned(d.x)
    ensures d.Producer? ==> Or(Failure, d, input) == d.f(input)
    ensures OrNull(Failure) == PNull && OrFalse(Failure) == PBool(false)
    ensures OrDie(Failure, s) == Exited(s)
    ensures OrThrow(Failure, Plain(e), input) == Threw(e)
    ensures ex.Producer? && ex.f(input).Returned? ==> OrThrow(Failure, ex, input) == Threw(ex.f(input).value)
    ensures ex.Producer? && ex.f(input).Threw? ==> OrThrow(Failure, ex, input) == Threw(ex.f(input).thrown)
    ensures ex.Producer? && ex.f(input).Exited? ==> OrThrow(Failure, ex, input) == Exited(ex.f(input).status)
    ensures OrFail(Failure, failure) == Threw(failure)
  {
  }

  /** Exactly one of the two hooks fires on any branch; each answers the receiver when its action returns. */
  lemma HooksAreExclusive<S, A>(b: Branch, self: S, a: PVal -> Outcome<PVal, Exc>, g: A -> Outcome<PVal, Exc>, input: A)
    ensures UsesArgument(OnSuccessOp, b) != UsesArgument(OnFailureOp, b)
    ensures !UsesArgument(OnSuccessOp, b) ==> OnSuccess(b, self, a) == Returned(self)
    ensures !UsesArgument(OnFailureOp, b) ==> OnFailure(b, self, g, input) == Returned(self)
    ensures b.Success? && a(b.value).Returned? ==> OnSuccess(b, self, a) == Returned(self)
    ensures b.Failure? && g(input).Returned? ==> OnFailure(b, self, g, input) == Returned(self)
  {
  }
}
