/**
 * The `UnusedResult` exception raised for a result that is discarded before
 * any of its methods is called: it keeps the result and names its class, and
 * appends the call-site trace when there is one.
 */
module UnusedResults {
  import opened Values

  datatype UnusedResult<+R> = UnusedResult(result: R, message: string)

  const Prefix: string := "Result `"
  const Suffix: string := "` must be used"

  /** The message without a trace: "Result `C` must be used". */
  function ShortMessage(cls: string): string
  {
    Prefix + cls + Suffix
  }

  /**
   * The exception for `result`, whose class is `cls`; `trace` is the
   * optional call-site trace. `getResult` is the `result` field.
   */
  function Create<R>(result: R, cls: string, trace: Option<string>): (u: UnusedResult<R>)
    ensures u.result == result
    ensures ShortMessage(cls) <= u.message
    ensures trace.None? <==> u.message == ShortMessage(cls)
  {
    match trace
    case None => UnusedResult(result, ShortMessage(cls))
    case Some(t) => UnusedResult(result, ShortMessage(cls) + "\n" + t)
  }

  /** The position of the first `c` in `s`, if any. */
  function IndexOf(s: string, c: char): (r: Option<nat>)
    ensures r.Some? ==> r.value < |s| && s[r.value] == c && c !in s[..r.value]
  {
    if |s| == 0 then None
    else if s[0] == c then Some(0)
    else match IndexOf(s[1..], c)
      case None => None
      case Some(k) => assert s[..k + 1] == [s[0]] + s[1..][..k]; Some(k + 1)
  }

  /** Reads a message back into the class it names and the trace it carries. */
  function Parse(m: string): Option<(string, Option<string>)>
  {
    if !(Prefix <= m) then None
    else
      var body := m[|Prefix|..];
      match IndexOf(body, '`')
      case None => None
      case Some(k) =>
        var rest := body[k..];
        if !(Suffix <= rest) then None
        else
          var tail := rest[|Suffix|..];
          if tail == [] then Some((body[..k], None))
          else if tail[0] == '\n' then Some((body[..k], Some(tail[1..])))
          else None
  }

  lemma {:induction false} IndexOfAfter(a: string, b: string, c: char)
    requires c !in a && |b| > 0 && b[0] == c
    ensures IndexOf(a + b, c) == Some(|a|)
  {
    if |a| > 0 {
      assert (a + b)[1..] == a[1..] + b;
      IndexOfAfter(a[1..], b, c);
    } else {
      assert a + b == b;
    }
  }

  /**
   * The message identifies the result: for a class name without a backtick,
   * both the class and the trace (or its absence) are read back from it.
   */
  lemma MessageNamesClassAndTrace<R>(result: R, cls: string, trace: Option<string>)
    requires '`' !in cls
    ensures Parse(Create(result, cls, trace).message) == Some((cls, trace))
  {
    var m := Create(result, cls, trace).message;
    var tail := if trace.None? then "" else "\n" + trace.value;
    assert m == Prefix + (cls + (Suffix + tail));
    var body := m[|Prefix|..];
    assert body == cls + (Suffix + tail);
    IndexOfAfter(cls, Suffix + tail, '`');
    assert body[..|cls|] == cls;
    assert body[|cls|..] == Suffix + tail;
    assert (Suffix + tail)[|Suffix|..] == tail;
    if trace.Some? {
      assert tail[1..] == trace.value;
    }
  }
}
