/**
 * `AbstractResult`: one class for both variants, holding a value and an
 * optional exception; it is an error exactly when it holds an exception.
 * Every public method records in `used` that it was called, directly or by
 * calling `isOk`, `isError`, `message` or `value`. `E` is the type of the
 * exception it may hold.
 */
module AbstractResults {
  import opened Values
  import opened Interfaces
  import UnusedResults
  import Backtraces

  class AbstractResult<E> {
    /** Set by every method; nothing sets it back. */
    var used: bool
    const value: PVal
    const exception: Option<E>
    /** `getMessage()` of the held exception (a throwable's message never changes). */
    const exceptionMessage: string
    /** The name of the concrete subclass. */
    const cls: string
    /** The call-site trace captured at construction. */
    const trace: Backtraces.Backtrace

    /** Captures the call-site trace of `stack` from the last call made by class `cls`. */
    constructor (value: PVal, exception: Option<E>, exceptionMessage: string, cls: string, stack: seq<Backtraces.Frame>)
      ensures this.value == value && this.exception == exception && this.exceptionMessage == exceptionMessage
      ensures this.cls == cls && fresh(trace) && trace.trace == Backtraces.Kept(stack, cls)
      ensures !used
    {
      this.value := value;
      this.exception := exception;
      this.exceptionMessage := exceptionMessage;
      this.cls := cls;
      used := false;
      trace := new Backtraces.Backtrace(stack, cls);
    }

    /** The branch every combinator takes: a success exactly when no exception is held. */
    function AsBranch(): (b: Branch)
      ensures b.Failure? <==> exception.Some?
      ensures b.Success? ==> b.value == value
    {
      if exception.None? then Success(value) else Failure
    }

    method AndThen<R>(next: Arg<PVal, R>) returns (out: Outcome<Chosen<AbstractResult<E>, R>, Exc>, called: bool)
      modifies this
      ensures used
      ensures out == Interfaces.AndThen(AsBranch(), this, next)
      ensures called <==> UsesArgument(AndThenOp, AsBranch()) && next.Producer?
    {
      var isError := IsError();
      if isError {
        out := Returned(Same(this));
        called := false;
        return;
      }
      match next
      case Producer(f) =>
        var v := Value();
        out := Lift(f(v));
        called := true;
      case Plain(r) =>
        out := Returned(Other(r));
        called := false;
    }

    method Exception() returns (e: Option<E>)
      modifies this
      ensures used
      ensures e == exception
    {
      used := true;
      e := exception;
    }

    method HasException() returns (b: bool)
      modifies this
      ensures used
      ensures b <==> exception.Some?
    {
      used := true;
      b := exception.Some?;
    }

    method HasMessage() returns (b: bool)
      modifies this
      ensures used
      ensures b <==> exception.Some? && exceptionMessage != ""
    {
      var m := Message();
      b := m != "";
    }

    method HasValue() returns (b: bool)
      modifies this
      ensures used
      ensures b <==> value != PNull
    {
      used := true;
      b := !value.PNull?;
    }

    method IsError() returns (b: bool)
      modifies this
      ensures used
      ensures b <==> exception.Some?
    {
      used := true;
      b := exception.Some?;
    }

    method IsOk() returns (b: bool)
      modifies this
      ensures used
      ensures b <==> exception.None?
    {
      used := true;
      b := exception.None?;
    }

    /** The held exception's message, or '' when there is none. */
    method Message() returns (m: string)
      modifies this
      ensures used
      ensures m == if exception.None? then "" else exceptionMessage
    {
      used := true;
      if exception.None? {
        m := "";
        return;
      }
      m := exceptionMessage;
    }

    method Or(default: Arg<(), PVal>) returns (out: Outcome<PVal, Exc>, called: bool)
      modifies this
      ensures used
      ensures out == Interfaces.Or(AsBranch(), default, ())
      ensures called <==> UsesArgument(OrOp, AsBranch()) && default.Producer?
    {
      var isOk := IsOk();
      if isOk {
        out := Returned(value);
        called := false;
        return;
      }
      match default
      case Producer(f) =>
        out := f(());
        called := true;
      case Plain(d) =>
        out := Returned(d);
        called := false;
    }

    method OrDie(status: Option<ExitStatus>) returns (out: Outcome<PVal, Exc>)
      modifies this
      ensures used
      ensures out == Interfaces.OrDie(AsBranch(), status)
    {
      var isOk := IsOk();
      if isOk {
        out := Returned(value);
        return;
      }
      if status.Some? {
        out := Exited(Some(status.value));
      } else {
        out := Exited(None);
      }
    }

    method OrElse<R>(result: Arg<(), R>) returns (out: Outcome<Chosen<AbstractResult<E>, R>, Exc>, called: bool)
      modifies this
      ensures used
      ensures out == Interfaces.OrElse(AsBranch(), this, result, ())
      ensures called <==> UsesArgument(OrElseOp, AsBranch()) && result.Producer?
    {
      var isOk := IsOk();
      if isOk {
        out := Returned(Same(this));
        called := false;
        return;
      }
      match result
      case Producer(f) =>
        out := Lift(f(()));
        called := true;
      case Plain(r) =>
        out := Returned(Other(r));
        called := false;
    }

    /** The value of a success; otherwise the held exception is thrown. */
    method OrFail() returns (out: Outcome<PVal, E>)
      modifies this
      ensures used
      ensures exception.None? ==> out == Returned(value)
      ensures exception.Some? ==> out == Interfaces.OrFail(AsBranch(), exception.value)
    {
      var isOk := IsOk();
      if isOk {
        out := Returned(value);
        return;
      }
      // `isOk()` answered false, so an exception is held and the
      // `MissingException` branch is never taken.
      assert exception.Some?;
      out := Threw(exception.value);
    }

    method OrFalse() returns (v: PVal)
      modifies this
      ensures used
      ensures v == Interfaces.OrFalse(AsBranch())
    {
      var isOk := IsOk();
      if isOk {
        v := value;
        return;
      }
      v := PBool(false);
    }

    method OrNull() returns (v: PVal)
      modifies this
      ensures used
      ensures v == Interfaces.OrNull(AsBranch())
    {
      var isOk := IsOk();
      if isOk {
        v := value;
        return;
      }
      v := PNull;
    }

    /** A closure is called without an argument, and what it returns is thrown. */
    method OrThrow(exception: Arg<(), Exc>) returns (out: Outcome<PVal, Exc>, called: bool)
      modifies this
      ensures used
      ensures out == Interfaces.OrThrow(AsBranch(), exception, ())
      ensures called <==> UsesArgument(OrThrowOp, AsBranch()) && exception.Producer?
    {
      var isOk := IsOk();
      if isOk {
        out := Returned(value);
        called := false;
        return;
      }
      match exception
      case Producer(f) =>
        called := true;
        match f(()) {
          case Returned(e) => out := Threw(e);
          case Threw(e) => out := Threw(e);
          case Exited(s) => out := Exited(s);
        }
      case Plain(e) =>
        called := false;
        out := Threw(e);
    }

    method Value() returns (v: PVal)
      modifies this
      ensures used
      ensures v == value
    {
      used := true;
      v := value;
    }

    /** The destructor: an instance that was never used raises `UnusedResult` with its rendered trace. */
    method Finalize() returns (raised: Option<UnusedResults.UnusedResult<AbstractResult<E>>>)
      ensures raised.Some? <==> !used
      ensures raised.Some? ==> raised.value == UnusedResults.Create(this, cls, Some(Backtraces.Render(trace.trace)))
    {
      if !used {
        var text := trace.ToString();
        raised := Some(UnusedResults.Create(this, cls, Some(text)));
      } else {
        raised := None;
      }
    }
  }
}
