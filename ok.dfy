/**
 * The success variant `Ok`: it carries a value and a message, answers the
 * success side of every combinator, and records in `used` that one of its
 * methods has been called.
 */
module OkResults {
  import opened Values
  import opened Interfaces
  import UnusedResults

  const OkClass: string := "Hereldar\\Results\\Ok"

  class Ok {
    /** Set by every method; nothing sets it back. */
    var used: bool
    const value: PVal
    const message: string
    /** The call-site trace printed when the instance was made (`debug_print_backtrace(limit: 5)`). */
    const trace: string

    constructor (value: PVal, message: string, trace: string)
      ensures this.value == value && this.message == message && this.trace == trace
      ensures !used
    {
      this.value := value;
      this.message := message;
      this.trace := trace;
      used := false;
    }

    /** `Ok::empty()`: no value and no message. */
    static method Empty(trace: string) returns (r: Ok)
      ensures fresh(r) && !r.used
      ensures r.value == PNull && r.message == "" && r.trace == trace
    {
      r := new Ok(PNull, "", trace);
    }

    /** `Ok::of($value)`. */
    static method Of(value: PVal, trace: string) returns (r: Ok)
      ensures fresh(r) && !r.used
      ensures r.value == value && r.message == "" && r.trace == trace
    {
      r := new Ok(value, "", trace);
    }

    /** The branch every combinator of an `Ok` takes. */
    function AsBranch(): Branch
    {
      Success(value)
    }

    method AndThen<R>(next: Arg<PVal, R>) returns (out: Outcome<Chosen<Ok, R>, Exc>, called: bool)
      modifies this
      ensures used
      ensures out == Interfaces.AndThen(AsBranch(), this, next)
      ensures called <==> UsesArgument(AndThenOp, AsBranch()) && next.Producer?
    {
      used := true;
      match next
      case Producer(f) =>
        var v := Value();
        out := Lift(f(v));
        called := true;
      case Plain(r) =>
        out := Returned(Other(r));
        called := false;
    }

    method HasMessage() returns (b: bool)
      modifies this
      ensures used
      ensures b <==> message != ""
    {
      used := true;
      b := message != "";
    }

    method HasValue() returns (b: bool)
      modifies this
      ensures used
      ensures b <==> value != PNull
    {
      used := true;
      b := !value.PNull?;
    }

    method IsError() returns (b: bool)
      modifies this
      ensures used
      ensures !b
    {
      used := true;
      b := false;
    }

    method IsOk() returns (b: bool)
      modifies this
      ensures used
      ensures b
    {
      used := true;
      b := true;
    }

    method Message() returns (m: string)
      modifies this
      ensures used
      ensures m == message
    {
      used := true;
      m := message;
    }

    method Or(default: Arg<(), PVal>) returns (v: PVal, called: bool)
      modifies this
      ensures used
      ensures Returned(v) == Interfaces.Or(AsBranch(), default, ()) && v == value
      ensures !called
    {
      used := true;
      v := value;
      called := false;
    }

    method OrDie(status: Option<ExitStatus>) returns (v: PVal)
      modifies this
      ensures used
      ensures Returned(v) == Interfaces.OrDie(AsBranch(), status) && v == value
    {
      used := true;
      v := value;
    }

    method OrElse<R>(alt: Arg<(), R>) returns (out: Chosen<Ok, R>, called: bool)
      modifies this
      ensures used
      ensures Returned(out) == Interfaces.OrElse(AsBranch(), this, alt, ()) && out == Same(this)
      ensures !called
    {
      used := true;
      out := Same(this);
      called := false;
    }

    method OrFail() returns (v: PVal)
      modifies this
      ensures used
      ensures forall x: Exc :: Returned(v) == Interfaces.OrFail(AsBranch(), x)
      ensures v == value
    {
      used := true;
      v := value;
    }

    method OrNull() returns (v: PVal)
      modifies this
      ensures used
      ensures v == Interfaces.OrNull(AsBranch()) && v == value
    {
      used := true;
      v := value;
    }

    method OrThrow(exception: Exc) returns (v: PVal)
      modifies this
      ensures used
      ensures Returned(v) == Interfaces.OrThrow(AsBranch(), Plain(exception), ()) && v == value
    {
      used := true;
      v := value;
    }

    method Value() returns (v: PVal)
      modifies this
      ensures used
      ensures v == value
    {
      used := true;
      v := value;
    }

    /** The destructor: an instance that was never used raises `UnusedResult` with its trace. */
    method Finalize() returns (raised: Option<UnusedResults.UnusedResult<Ok>>)
      ensures raised.Some? <==> !used
      ensures raised.Some? ==> raised.value == UnusedResults.Create(this, OkClass, Some(trace))
    {
      if !used {
        raised := Some(UnusedResults.Create(this, OkClass, Some(trace)));
      } else {
        raised := None;
      }
    }
  }
}
