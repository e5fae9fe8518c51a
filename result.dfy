/**
 * The `Result` factory: `of`, `fromNullable` and `fromFalsable`, each taking
 * a value or a closure that produces it. A factory's answer is described by
 * `Made`: the `Ok` it makes with its value, or the `Error` it makes (with the
 * exception it wraps, when there is one).
 */
module Factories {
  import opened Values

  datatype Made = MadeOk(value: PVal) | MadeError(cause: Option<Exc>)

  /** `Result::of` as documented: an exception thrown by the closure becomes an `Error` wrapping it. */
  function Of(value: Arg<(), PVal>): (r: Outcome<Made, Exc>)
    ensures !r.Threw?
    ensures r.Returned? && r.value.MadeError? ==> value.Producer? && r.value.cause.Some?
  {
    match Eval(value, ())
    case Returned(v) => Returned(MadeOk(v))
    case Threw(e) => Returned(MadeError(Some(e)))
    case Exited(s) => Exited(s)
  }

  /** `Result::fromNullable`: `null` makes an empty `Error`; an exception of the closure propagates. */
  function FromNullable(value: Arg<(), PVal>): (r: Outcome<Made, Exc>)
    ensures r.Returned? && r.value.MadeError? ==> r.value.cause.None?
  {
    match Eval(value, ())
    case Returned(v) => Returned(if v == PNull then MadeError(None) else MadeOk(v))
    case Threw(e) => Threw(e)
    case Exited(s) => Exited(s)
  }

  /** `Result::fromFalsable`: `false` makes an empty `Error`; an exception of the closure propagates. */
  function FromFalsable(value: Arg<(), PVal>): (r: Outcome<Made, Exc>)
    ensures r.Returned? && r.value.MadeError? ==> r.value.cause.None?
  {
    match Eval(value, ())
    case Returned(v) => Returned(if v == PBool(false) then MadeError(None) else MadeOk(v))
    case Threw(e) => Threw(e)
    case Exited(s) => Exited(s)
  }

  /** `of` makes an `Ok` of whatever value it is given or its closure returns, even `null` or `false`. */
  lemma OfWrapsAnyValue(value: Arg<(), PVal>)
    requires Eval(value, ()).Returned?
    ensures Of(value) == Returned(MadeOk(Eval(value, ()).value))
    ensures value.Plain? ==> Of(value) == Returned(MadeOk(value.x))
  {
  }

  /** `of` catches: a closure that throws gives an `Error` wrapping that exception. */
  lemma OfCatches(value: Arg<(), PVal>)
    requires Eval(value, ()).Threw?
    ensures value.Producer?
    ensures Of(value) == Returned(MadeError(Some(Eval(value, ()).thrown)))
  {
  }

  /** `fromNullable` and `fromFalsable` do not catch: the closure's exception reaches the caller. */
  lemma SentinelFactoriesPropagate(value: Arg<(), PVal>)
    requires Eval(value, ()).Threw?
    ensures FromNullable(value) == Threw(Eval(value, ()).thrown)
    ensures FromFalsable(value) == Threw(Eval(value, ()).thrown)
    ensures FromNullable(value) != Of(value)
  {
  }

  /** `fromNullable` makes an `Error` exactly for `null`, `fromFalsable` exactly for `false`. */
  lemma SentinelsMakeErrors(value: Arg<(), PVal>)
    requires Eval(value, ()).Returned?
    ensures FromNullable(value).Returned? && FromFalsable(value).Returned?
    ensures FromNullable(value).value.MadeError? <==> Eval(value, ()).value == PNull
    ensures FromFalsable(value).value.MadeError? <==> Eval(value, ()).value == PBool(false)
  {
  }

  /** Away from the sentinels, the three factories agree. */
  lemma FactoriesAgree(value: Arg<(), PVal>)
    requires Eval(value, ()).Returned?
    requires Eval(value, ()).value != PNull && Eval(value, ()).value != PBool(false)
    ensures Of(value) == FromNullable(value) == FromFalsable(value) == Returned(MadeOk(Eval(value, ()).value))
  {
  }

  /** `fromNullable` keeps `false` and `fromFalsable` keeps `null` as values of an `Ok`. */
  lemma SentinelsDiffer()
    ensures FromNullable(Plain(PBool(false))) == Returned(MadeOk(PBool(false)))
    ensures FromFalsable(Plain(PNull)) == Returned(MadeOk(PNull))
    ensures FromNullable(Plain(PNull)) != FromFalsable(Plain(PNull))
  {
  }

  /**
   * What PHP raises when `Result::of` reaches `Error::of($e)`: `Error`
   * declares no static `of`, so the call fails with an `Error` of PHP's own.
   */
  const UndefinedErrorOf: Exc := Exc("Error", "Call to undefined method Hereldar\\Results\\Error::of()")

  /**
   * `Result::of` as its catch block is written: the thrown exception is
   * replaced by the undefined-method failure, which escapes the factory.
   */
  function OfAsWritten(value: Arg<(), PVal>): (r: Outcome<Made, Exc>)
    ensures r.Returned? ==> r.value.MadeOk?
    ensures r.Threw? ==> r.thrown == UndefinedErrorOf
  {
    match Eval(value, ())
    case Returned(v) => Returned(MadeOk(v))
    case Threw(_) => Threw(UndefinedErrorOf)
    case Exited(s) => Exited(s)
  }

  /** As written, a closure that throws makes `of` throw instead of giving an `Error`. */
  lemma OfAsWrittenThrowsOnThrow(value: Arg<(), PVal>)
    requires Eval(value, ()).Threw?
    ensures OfAsWritten(value) == Threw(UndefinedErrorOf)
    ensures OfAsWritten(value) != Of(value)
  {
  }

  /** Without an exception from the closure, the written and the intended `of` agree. */
  lemma OfAsWrittenAgrees(value: Arg<(), PVal>)
    requires !Eval(value, ()).Threw?
    ensures OfAsWritten(value) == Of(value)
  {
  }

  /** A concrete input that shows the difference: a closure throwing a `RuntimeException`. */
  lemma OfAsWrittenCounterexample()
    ensures var value := Producer((_: ()) => Threw(Exc("RuntimeException", "boom")));
      && Of(value) == Returned(MadeError(Some(Exc("RuntimeException", "boom"))))
      && OfAsWritten(value) == Threw(UndefinedErrorOf)
  {
  }
}
