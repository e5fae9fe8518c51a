/**
 * The failure variant `Error`: a runtime exception with a message that
 * answers the failure side of every combinator, and records in `used` that
 * one of its methods has been called.
 */
module ErrorResults {
  import opened Values
  import opened Interfaces
  import UnusedResults
  import TraceLines

  const ErrorClass: string := "Hereldar\\Results\\Error"

  class Error {
    /** Set by every method; nothing sets it back. */
    var used: bool
    /** The exception message. */
    const message: string
    /** The exception's trace as a string (`getTraceAsString()`), fixed when it was made. */
    const stack: string

    constructor (message: string, stack: string)
      ensures this.message == message && this.stack == stack
      ensures !used
    {
      this.message := message;
      this.stack := stack;
      used := false;
    }

    /** `Error::empty()`: no message. */
    static method Empty(stack: string) returns (r: Error)
      ensures fresh(r) && !r.used
      ensures r.message == "" && r.stack == stack
    {
      r := new Error("", stack);
    }

    /** The branch every combinator of an `Error` takes. */
    function AsBranch(): Branch
    {
      Failure
    }

    method AndThen<R>(next: Arg<PVal, R>) returns (out: Chosen<Error, R>, called: bool)
      modifies this
      ensures used
      ensures Returned(out) == Interfaces.AndThen(AsBranch(), this, next) && out == Same(this)
      ensures !called
    {
      used := true;
      out := Same(this);
      called := false;
    }

    method HasMessage() returns (b: bool)
      modifies this
      ensures used
      ensures b <==> message != ""
    {
      used := true;
      b := message != "";
    }

    method HasValue() returns (b: bool)
      modifies this
      ensures used
      ensures !b
    {
      used := true;
      b := false;
    }

    method IsError() returns (b: bool)
      modifies this
      ensures used
      ensures b
    {
      used := true;
      b := true;
    }

    method IsOk() returns (b: bool)
      modifies this
      ensures used
      ensures !b
    {
      used := true;
      b := false;
    }

    method Message() returns (m: string)
      modifies this
      ensures used
      ensures m == message
    {
      used := true;
      m := message;
    }

    method Or(default: Arg<(), PVal>) returns (out: Outcome<PVal, Exc>, called: bool)
      modifies this
      ensures used
      ensures out == Interfaces.Or(AsBranch(), default, ())
      ensures called <==> UsesArgument(OrOp, AsBranch()) && default.Producer?
    {
      used := true;
      match default
      case Producer(f) =>
        out := f(());
        called := true;
      case Plain(d) =>
        out := Returned(d);
        called := false;
    }

    method OrDie(status: Option<ExitStatus>) returns (out: Outcome<PVal, Exc>)
      modifies this
      ensures used
      ensures out == Interfaces.OrDie(AsBranch(), status) && out == Exited(status)
    {
      used := true;
      if status.Some? {
        out := Exited(Some(status.value));
      } else {
        out := Exited(None);
      }
    }

    method OrElse<R>(alt: Arg<(), R>) returns (out: Outcome<Chosen<Error, R>, Exc>, called: bool)
      modifies this
      ensures used
      ensures out == Interfaces.OrElse(AsBranch(), this, alt, ())
      ensures called <==> UsesArgument(OrElseOp, AsBranch()) && alt.Producer?
    {
      used := true;
      match alt
      case Producer(f) =>
        out := Lift(f(()));
        called := true;
      case Plain(r) =>
        out := Returned(Other(r));
        called := false;
    }

    /** `orFail` throws the error itself. */
    method OrFail() returns (out: Outcome<PVal, Error>)
      modifies this
      ensures used
      ensures out == Interfaces.OrFail(AsBranch(), this) && out == Threw(this)
    {
      used := true;
      out := Threw(this);
    }

    method OrNull() returns (v: PVal)
      modifies this
      ensures used
      ensures v == Interfaces.OrNull(AsBranch()) && v == PNull
    {
      used := true;
      v := PNull;
    }

    /** `orThrow` throws exactly the exception it is given. */
    method OrThrow(exception: Exc) returns (out: Outcome<PVal, Exc>)
      modifies this
      ensures used
      ensures out == Interfaces.OrThrow(AsBranch(), Plain(exception), ()) && out == Threw(exception)
    {
      used := true;
      out := Threw(exception);
    }

    method Value() returns (v: PVal)
      modifies this
      ensures used
      ensures v == PNull
    {
      used := true;
      v := PNull;
    }

    /** The destructor: an instance that was never used raises `UnusedResult` with the first lines of its trace. */
    method Finalize() returns (raised: Option<UnusedResults.UnusedResult<Error>>)
      ensures raised.Some? <==> !used
      ensures raised.Some? ==> raised.value == UnusedResults.Create(this, ErrorClass, Some(TraceLines.Trim(stack)))
    {
      if !used {
        var lines := TraceLines.Trim(stack);
        raised := Some(UnusedResults.Create(this, ErrorClass, Some(lines)));
      } else {
        raised := None;
      }
    }
  }
}
