/**
 * The call-site trace an `AbstractResult` captures at construction: the
 * frames from the last call made by the result's own class onwards (at most
 * five), rendered one line per frame.
 */
module Backtraces {
  import opened Values

  /** One frame of `debug_backtrace`: its optional file, line and class, and the function called. */
  datatype Frame = Frame(file: Option<string>, line: Option<nat>, cls: Option<string>, callee: string)

  /** `debug_backtrace(limit: 15)` keeps the innermost 15 frames. */
  const CaptureLimit: nat := 15
  /** `array_slice($trace, $lastIndex, 5)`. */
  const KeptFrames: nat := 5

  /** The frames `debug_backtrace` returns for a call stack. */
  function Captured(stack: seq<Frame>): (t: seq<Frame>)
    ensures |t| <= CaptureLimit && t <= stack
    ensures |t| == if |stack| <= CaptureLimit then |stack| else CaptureLimit
  {
    if |stack| <= CaptureLimit then stack else stack[..CaptureLimit]
  }

  /** `$class === ($call['class'] ?? '')`: a frame without a class matches the empty class name. */
  predicate Matches(f: Frame, cls: string)
  {
    cls == match f.cls { case Some(c) => c case None => "" }
  }

  /** The index of the last frame of `t` that matches `cls`. */
  function LastIndex(t: seq<Frame>, cls: string): (r: Option<nat>)
    ensures r.Some? ==> r.value < |t|
  {
    if |t| == 0 then None
    else if Matches(t[|t| - 1], cls) then Some(|t| - 1)
    else LastIndex(t[..|t| - 1], cls)
  }

  /** The frames a `Backtrace` keeps for a call stack and a class name. */
  function Kept(stack: seq<Frame>, cls: string): (kept: seq<Frame>)
    ensures |kept| <= CaptureLimit
    ensures LastIndex(Captured(stack), cls).Some? ==> 1 <= |kept| <= KeptFrames
  {
    var t := Captured(stack);
    match LastIndex(t, cls)
    case None => t
    case Some(k) => t[k..if k + KeptFrames <= |t| then k + KeptFrames else |t|]
  }

  /** The character of the decimal digit `d`. */
  function Digit(d: nat): char
    requires d < 10
  {
    (d + '0' as int) as char
  }

  /** The decimal spelling of `n`, as PHP interpolates an integer. */
  function Decimal(n: nat): string
  {
    if n < 10 then [Digit(n)] else Decimal(n / 10) + [Digit(n % 10)]
  }

  /** "file(line): " when the file is set, "(line)" only when the line is set too. */
  function FilePart(f: Frame): string
  {
    match f.file
    case None => ""
    case Some(file) => file + (match f.line { case Some(l) => "(" + Decimal(l) + ")" case None => "" }) + ": "
  }

  /** "Class::" when the class is set. */
  function ClassPart(f: Frame): string
  {
    match f.cls
    case None => ""
    case Some(c) => c + "::"
  }

  /** The line for frame number `i`. */
  function Line(i: nat, f: Frame): string
  {
    "#" + Decimal(i) + " " + FilePart(f) + ClassPart(f) + f.callee + "()\n"
  }

  /** `__toString`: the lines of the frames, numbered from 0. */
  function Render(frames: seq<Frame>): string
  {
    if |frames| == 0 then "" else Render(frames[..|frames| - 1]) + Line(|frames| - 1, frames[|frames| - 1])
  }

  class Backtrace {
    const trace: seq<Frame>

    /** Captures the frames of `stack` from the last call made by class `cls`. */
    constructor (stack: seq<Frame>, cls: string)
      ensures trace == Kept(stack, cls)
    {
      var t := Captured(stack);
      var lastIndex: Option<nat> := None;
      var i := 0;
      while i < |t|
        invariant 0 <= i <= |t|
        invariant lastIndex == LastIndex(t[..i], cls)
      {
        assert t[..i + 1][..i] == t[..i];
        if Matches(t[i], cls) {
          lastIndex := Some(i);
        }
        i := i + 1;
      }
      assert t[..|t|] == t;
      match lastIndex
      case None =>
        trace := t;
      case Some(k) =>
        trace := t[k..if k + KeptFrames <= |t| then k + KeptFrames else |t|];
    }

    /** The rendered trace. */
    method ToString() returns (s: string)
      ensures s == Render(trace)
    {
      s := "";
      var i := 0;
      while i < |trace|
        invariant 0 <= i <= |trace|
        invariant s == Render(trace[..i])
      {
        assert trace[..i + 1][..i] == trace[..i];
        var call := trace[i];
        var filePart := "";
        match call.file {
          case Some(file) =>
            var linePart := "";
            match call.line {
              case Some(l) => linePart := "(" + Decimal(l) + ")";
              case None =>
            }
            filePart := file + linePart + ": ";
          case None =>
        }
        var classPart := "";
        match call.cls {
          case Some(c) => classPart := c + "::";
          case None =>
        }
        assert filePart == FilePart(call) && classPart == ClassPart(call);
        s := s + ("#" + Decimal(i) + " " + filePart + classPart + call.callee + "()\n");
        i := i + 1;
      }
      assert trace[..|trace|] == trace;
    }
  }

  /** `LastIndex` finds the last matching frame, and finds none only when no frame matches. */
  lemma {:induction false} LastIndexIsLast(t: seq<Frame>, cls: string)
    ensures LastIndex(t, cls).Some? ==>
      var k := LastIndex(t, cls).value;
      k < |t| && Matches(t[k], cls) && forall j :: k < j < |t| ==> !Matches(t[j], cls)
    ensures LastIndex(t, cls).None? <==> forall j :: 0 <= j < |t| ==> !Matches(t[j], cls)
  {
    if |t| > 0 && !Matches(t[|t| - 1], cls) {
      var u := t[..|t| - 1];
      LastIndexIsLast(u, cls);
      assert forall j :: 0 <= j < |u| ==> u[j] == t[j];
    }
  }

  /**
   * With a frame of class `cls` among the captured frames, the kept trace is a
   * slice of at most five frames starting at the last such frame; without
   * one, it is every captured frame.
   */
  lemma KeptFromLastCall(stack: seq<Frame>, cls: string)
    ensures var t := Captured(stack);
      (forall j :: 0 <= j < |t| ==> !Matches(t[j], cls)) ==> Kept(stack, cls) == t
    ensures var t, kept := Captured(stack), Kept(stack, cls);
      (exists j :: 0 <= j < |t| && Matches(t[j], cls)) ==>
        && LastIndex(t, cls).Some?
        && var k := LastIndex(t, cls).value;
        && k + |kept| <= |t| && kept == t[k..k + |kept|] && 1 <= |kept| <= KeptFrames
        && Matches(kept[0], cls)
        && (forall j :: k < j < |t| ==> !Matches(t[j], cls))
        && (|kept| == KeptFrames || k + |kept| == |t|)
  {
    var t := Captured(stack);
    LastIndexIsLast(t, cls);
    if LastIndex(t, cls).Some? {
      var k := LastIndex(t, cls).value;
      var kept := Kept(stack, cls);
      assert kept == t[k..k + |kept|];
    }
  }

  /** Every digit of a decimal spelling is a digit; in particular it has no newline. */
  lemma {:induction false} DecimalHasNoNewline(n: nat)
    ensures '\n' !in Decimal(n) && |Decimal(n)| >= 1
    ensures forall c :: c in Decimal(n) ==> '0' <= c <= '9'
  {
    if n >= 10 {
      DecimalHasNoNewline(n / 10);
    }
  }

  /** The number of newlines in `s`. */
  function Newlines(s: string): nat
  {
    if |s| == 0 then 0 else (if s[|s| - 1] == '\n' then 1 else 0) + Newlines(s[..|s| - 1])
  }

  lemma {:induction false} NewlinesConcat(a: string, b: string)
    ensures Newlines(a + b) == Newlines(a) + Newlines(b)
  {
    if |b| > 0 {
      assert (a + b)[..|a + b| - 1] == a + b[..|b| - 1];
      NewlinesConcat(a, b[..|b| - 1]);
    } else {
      assert a + b == a;
    }
  }

  lemma {:induction false} NoNewlines(s: string)
    requires '\n' !in s
    ensures Newlines(s) == 0
  {
    if |s| > 0 {
      assert s[|s| - 1] in s;
      NoNewlines(s[..|s| - 1]);
    }
  }

  predicate PlainFrame(f: Frame)
  {
    '\n' !in f.callee
    && (f.file.Some? ==> '\n' !in f.file.value)
    && (f.cls.Some? ==> '\n' !in f.cls.value)
  }

  lemma CloseHasOneNewline()
    ensures Newlines("()\n") == 1
  {
    assert "()\n"[..2] == "()";
    assert "()"[..1] == "(";
    assert "("[..0] == "";
  }

  /** The parts of a plain frame's line before "()\n" hold no newline. */
  lemma PlainPartsHaveNoNewline(i: nat, f: Frame)
    requires PlainFrame(f)
    ensures '\n' !in "#" + Decimal(i) + " " && '\n' !in FilePart(f) && '\n' !in ClassPart(f)
  {
    DecimalHasNoNewline(i);
    if f.file.Some? && f.line.Some? {
      DecimalHasNoNewline(f.line.value);
    }
  }

  /** Each frame's line starts with "#i " and ends with "function()\n"; a plain frame's line has that one newline. */
  lemma LineShape(i: nat, f: Frame)
    ensures "#" + Decimal(i) + " " <= Line(i, f)
    ensures var l := Line(i, f); |l| >= 3 && l[|l| - 3..] == "()\n"
    ensures PlainFrame(f) ==> Newlines(Line(i, f)) == 1
  {
    var head := "#" + Decimal(i) + " ";
    var body := head + FilePart(f) + ClassPart(f) + f.callee;
    var l := Line(i, f);
    assert l == head + (FilePart(f) + ClassPart(f) + f.callee + "()\n");
    assert l == body + "()\n";
    if PlainFrame(f) {
      PlainPartsHaveNoNewline(i, f);
      assert '\n' !in body;
      NoNewlines(body);
      NewlinesConcat(body, "()\n");
      CloseHasOneNewline();
    }
  }

  /** `__toString` gives one line per frame: as many newlines as frames, when no field holds a newline. */
  lemma {:induction false} RenderOneLinePerFrame(frames: seq<Frame>)
    requires forall i :: 0 <= i < |frames| ==> PlainFrame(frames[i])
    ensures Newlines(Render(frames)) == |frames|
    ensures |frames| == 0 <==> Render(frames) == ""
  {
    if |frames| > 0 {
      var init := frames[..|frames| - 1];
      assert forall i :: 0 <= i < |init| ==> init[i] == frames[i];
      RenderOneLinePerFrame(init);
      LineShape(|frames| - 1, frames[|frames| - 1]);
      NewlinesConcat(Render(init), Line(|frames| - 1, frames[|frames| - 1]));
    }
  }

  /** The rendering of a longer trace extends the rendering of its first frames. */
  lemma {:induction false} RenderExtends(frames: seq<Frame>, k: nat)
    requires k <= |frames|
    ensures Render(frames[..k]) <= Render(frames)
  {
    if k < |frames| {
      var init := frames[..|frames| - 1];
      assert init[..k] == frames[..k];
      RenderExtends(init, k);
    } else {
      assert frames[..k] == frames;
    }
  }
}
