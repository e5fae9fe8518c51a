/**
 * `AbstractThrowableError`: a failure that is itself a throwable exception.
 * It answers the failure side of every combinator, is its own `exception()`,
 * runs `onFailure` actions on itself, and records in `used` that one of its
 * methods has been called. The class is abstract; `cls` names the concrete
 * subclass an instance belongs to.
 */
module ThrowableErrors {
  import opened Values
  import opened Interfaces
  import UnusedResults
  import TraceLines

  class ThrowableError {
    /** Set by every method; nothing sets it back. */
    var used: bool
    /** The exception message. */
    const message: string
    /** The name of the concrete subclass. */
    const cls: string
    /** The exception's trace as a string (`getTraceAsString()`), fixed when it was made. */
    const stack: string

    constructor (message: string, cls: string, stack: string)
      ensures this.message == message && this.cls == cls && this.stack == stack
      ensures !used
    {
      this.message := message;
      this.cls := cls;
      this.stack := stack;
      used := false;
    }

    /** The branch every combinator of a throwable error takes. */
    function AsBranch(): Branch
    {
      Failure
    }

    method AndThen<R>(next: Arg<PVal, R>) returns (out: Chosen<ThrowableError, R>, called: bool)
      modifies this
      ensures used
      ensures Returned(out) == Interfaces.AndThen(AsBranch(), this, next) && out == Same(this)
      ensures !called
    {
      used := true;
      out := Same(this);
      called := false;
    }

    /** The error is its own exception. */
    method Exception() returns (e: ThrowableError)
      modifies this
      ensures used
      ensures e == this
    {
      used := true;
      e := this;
    }

    method HasException() returns (b: bool)
      modifies this
      ensures used
      ensures b
    {
      used := true;
      b := true;
    }

    method HasMessage() returns (b: bool)
      modifies this
      ensures used
      ensures b <==> message != ""
    {
      used := true;
      b := message != "";
    }

    method HasValue() returns (b: bool)
      modifies this
      ensures used
      ensures !b
    {
      used := true;
      b := false;
    }

    method IsError() returns (b: bool)
      modifies this
      ensures used
      ensures b
    {
      used := true;
      b := true;
    }

    method IsOk() returns (b: bool)
      modifies this
      ensures used
      ensures !b
    {
      used := true;
      b := false;
    }

    method Message() returns (m: string)
      modifies this
      ensures used
      ensures m == message
    {
      used := true;
      m := message;
    }

    /** Runs the action on the error itself; answers the error unless the action throws or exits. */
    method OnFailure(action: ThrowableError -> Outcome<PVal, Exc>) returns (out: Outcome<ThrowableError, Exc>, called: bool)
      modifies this
      ensures used
      ensures out == Interfaces.OnFailure(AsBranch(), this, action, this)
      ensures called <==> UsesArgument(OnFailureOp, AsBranch())
    {
      used := true;
      var effect := action(this);
      called := true;
      match effect
      case Returned(_) => out := Returned(this);
      case Threw(e) => out := Threw(e);
      case Exited(s) => out := Exited(s);
    }

    /** Never runs the action; answers the error. */
    method OnSuccess(action: PVal -> Outcome<PVal, Exc>) returns (out: ThrowableError, called: bool)
      modifies this
      ensures used
      ensures Returned(out) == Interfaces.OnSuccess(AsBranch(), this, action) && out == this
      ensures called <==> UsesArgument(OnSuccessOp, AsBranch())
    {
      used := true;
      out := this;
      called := false;
    }

    /** A closure default is called with `null`. */
    method Or(value: Arg<PVal, PVal>) returns (out: Outcome<PVal, Exc>, called: bool)
      modifies this
      ensures used
      ensures out == Interfaces.Or(AsBranch(), value, PNull)
      ensures called <==> UsesArgument(OrOp, AsBranch()) && value.Producer?
    {
      used := true;
      match value
      case Producer(f) =>
        out := f(PNull);
        called := true;
      case Plain(v) =>
        out := Returned(v);
        called := false;
    }

    method OrDie(status: Option<ExitStatus>) returns (out: Outcome<PVal, Exc>)
      modifies this
      ensures used
      ensures out == Interfaces.OrDie(AsBranch(), status) && out == Exited(status)
    {
      used := true;
      if status.Some? {
        out := Exited(Some(status.value));
        return;
      }
      out := Exited(None);
    }

    /** A closure alternative is called with `null`. */
    method OrElse<R>(result: Arg<PVal, R>) returns (out: Outcome<Chosen<ThrowableError, R>, Exc>, called: bool)
      modifies this
      ensures used
      ensures out == Interfaces.OrElse(AsBranch(), this, result, PNull)
      ensures called <==> UsesArgument(OrElseOp, AsBranch()) && result.Producer?
    {
      used := true;
      match result
      case Producer(f) =>
        out := Lift(f(PNull));
        called := true;
      case Plain(r) =>
        out := Returned(Other(r));
        called := false;
    }

    /** `orFail` throws the error itself. */
    method OrFail() returns (out: Outcome<PVal, ThrowableError>)
      modifies this
      ensures used
      ensures out == Interfaces.OrFail(AsBranch(), this) && out == Threw(this)
    {
      used := true;
      out := Threw(this);
    }

    method OrFalse() returns (v: PVal)
      modifies this
      ensures used
      ensures v == Interfaces.OrFalse(AsBranch()) && v == PBool(false)
    {
      used := true;
      v := PBool(false);
    }

    method OrNull() returns (v: PVal)
      modifies this
      ensures used
      ensures v == Interfaces.OrNull(AsBranch()) && v == PNull
    {
      used := true;
      v := PNull;
    }

    /** Throws the given exception, or what a closure makes of the error itself. */
    method OrThrow(exception: Arg<ThrowableError, Exc>) returns (out: Outcome<PVal, Exc>, called: bool)
      modifies this
      ensures used
      ensures out == Interfaces.OrThrow(AsBranch(), exception, this)
      ensures exception.Plain? ==> out == Threw(exception.x)
      ensures called <==> UsesArgument(OrThrowOp, AsBranch()) && exception.Producer?
    {
      used := true;
      match exception
      case Producer(f) =>
        called := true;
        match f(this) {
          case Returned(e) => out := Threw(e);
          case Threw(e) => out := Threw(e);
          case Exited(s) => out := Exited(s);
        }
      case Plain(e) =>
        called := false;
        out := Threw(e);
    }

    method Value() returns (v: PVal)
      modifies this
      ensures used
      ensures v == PNull
    {
      used := true;
      v := PNull;
    }

    /** The destructor: an instance that was never used raises `UnusedResult` with the first lines of its trace. */
    method Finalize() returns (raised: Option<UnusedResults.UnusedResult<ThrowableError>>)
      ensures raised.Some? <==> !used
      ensures raised.Some? ==> raised.value == UnusedResults.Create(this, cls, Some(TraceLines.Trim(stack)))
    {
      if !used {
        var lines := TraceLines.Trim(stack);
        raised := Some(UnusedResults.Create(this, cls, Some(lines)));
      } else {
        raised := None;
      }
    }
  }
}
