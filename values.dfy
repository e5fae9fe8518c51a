/**
 * The PHP values, exceptions, closures and control-flow outcomes that the
 * result classes take and give back.
 */
module Values {

  datatype Option<+T> = None | Some(value: T)

  /** A PHP value; `null` and `false` are explicit because the factories treat them as sentinels. */
  datatype PVal = PNull | PBool(b: bool) | PInt(i: int) | PStr(s: string)

  /** A thrown object that is not a result: its class name and its message. */
  datatype Exc = Exc(cls: string, message: string)

  /** The argument of `exit`: an exit code or a status line. */
  datatype ExitStatus = Code(code: int) | Text(text: string)

  /**
   * How a call ends: it returns a value, throws `thrown`, or terminates the
   * process through `exit` (with the status it was given, if any).
   */
  datatype Outcome<+T, +X> = Returned(value: T) | Threw(thrown: X) | Exited(status: Option<ExitStatus>)

  /**
   * A "value or closure" parameter. A closure is a function of its input
   * (the value it is called with, `()` when it is called without one) that
   * returns, throws or exits.
   */
  datatype Arg<-A, T> = Plain(x: T) | Producer(f: A -> Outcome<T, Exc>)

  /** The value of a "value or closure" parameter: the value itself, or what the closure does. */
  function Eval<A, T>(arg: Arg<A, T>, input: A): (r: Outcome<T, Exc>)
    ensures arg.Plain? ==> r == Returned(arg.x)
    ensures arg.Producer? ==> r == arg.f(input)
  {
    match arg
    case Plain(x) => Returned(x)
    case Producer(f) => f(input)
  }
}
