/**
 * The trimming of an exception's trace that the error destructors perform:
 * the trace is cut at each newline (`explode`), its first five lines are kept
 * (`array_slice`) and joined again (`implode`).
 */
module TraceLines {

  const MaxLines: nat := 5

  /** `explode("\n", s)`: the pieces of `s` between newlines; the empty string gives one empty piece. */
  function Split(s: string): (parts: seq<string>)
    ensures |parts| >= 1
  {
    if |s| == 0 then [""]
    else
      var rest := Split(s[1..]);
      if s[0] == '\n' then [""] + rest
      else [[s[0]] + rest[0]] + rest[1..]
  }

  /** `implode("\n", parts)`: the pieces with a newline between each two. */
  function Join(parts: seq<string>): string
  {
    if |parts| == 0 then ""
    else if |parts| == 1 then parts[0]
    else parts[0] + "\n" + Join(parts[1..])
  }

  /** The trace kept by an unused error: its first `MaxLines` lines. */
  function Trim(trace: string): string
  {
    var parts := Split(trace);
    Join(parts[..if |parts| < MaxLines then |parts| else MaxLines])
  }

  predicate NoNewline(parts: seq<string>)
  {
    forall i :: 0 <= i < |parts| ==> '\n' !in parts[i]
  }

  /** Splitting and joining again gives back the trace. */
  lemma {:induction false} JoinSplit(s: string)
    ensures Join(Split(s)) == s
  {
    if |s| > 0 {
      var rest := Split(s[1..]);
      JoinSplit(s[1..]);
      if s[0] == '\n' {
        assert ([""] + rest)[1..] == rest;
      } else {
        var parts := [[s[0]] + rest[0]] + rest[1..];
        assert parts[1..] == rest[1..];
        if |rest| > 1 {
          assert Join(rest) == rest[0] + "\n" + Join(rest[1..]);
        }
      }
    }
  }

  /** No piece of a split contains a newline. */
  lemma {:induction false} SplitHasNoNewline(s: string)
    ensures NoNewline(Split(s))
  {
    if |s| > 0 {
      SplitHasNoNewline(s[1..]);
      var rest := Split(s[1..]);
      if s[0] != '\n' {
        var parts := [[s[0]] + rest[0]] + rest[1..];
        forall i | 0 <= i < |parts| ensures '\n' !in parts[i] {
          if i > 0 { assert parts[i] == rest[i]; }
        }
      }
    }
  }

  lemma {:induction false} SplitSingle(a: string)
    requires '\n' !in a
    ensures Split(a) == [a]
  {
    if |a| > 0 {
      assert a[0] in a;
      SplitSingle(a[1..]);
      assert [a[0]] + a[1..] == a;
    }
  }

  /** Splitting a string one character longer at the front. */
  lemma SplitCons(c: char, t: string)
    ensures Split([c] + t) == if c == '\n' then [""] + Split(t) else [[c] + Split(t)[0]] + Split(t)[1..]
  {
    assert ([c] + t)[1..] == t;
  }

  /** Extending the first piece of `r` commutes with appending `q`. */
  lemma MergeHead(c: char, r: seq<string>, q: seq<string>)
    requires |r| >= 1
    ensures [[c] + (r + q)[0]] + (r + q)[1..] == ([[c] + r[0]] + r[1..]) + q
  {
    assert (r + q)[1..] == r[1..] + q;
  }

  /** A newline separates the pieces of what stands before it from those of what follows it. */
  lemma {:induction false} SplitAround(a: string, b: string)
    ensures Split(a + "\n" + b) == Split(a) + Split(b)
  {
    if |a| == 0 {
      assert a + "\n" + b == ['\n'] + b;
      SplitCons('\n', b);
    } else {
      var c, a' := a[0], a[1..];
      var t := a' + "\n" + b;
      assert a + "\n" + b == [c] + t;
      assert a == [c] + a';
      SplitCons(c, t);
      SplitCons(c, a');
      SplitAround(a', b);
      var r, q := Split(a'), Split(b);
      if c == '\n' {
        assert [""] + (r + q) == ([""] + r) + q;
      } else {
        MergeHead(c, r, q);
      }
    }
  }

  /** Joining pieces without newlines and splitting again gives back the pieces. */
  lemma {:induction false} SplitJoin(parts: seq<string>)
    requires |parts| >= 1 && NoNewline(parts)
    ensures Split(Join(parts)) == parts
  {
    if |parts| == 1 {
      SplitSingle(parts[0]);
    } else {
      SplitSingle(parts[0]);
      SplitJoin(parts[1..]);
      SplitAround(parts[0], Join(parts[1..]));
      assert [parts[0]] + parts[1..] == parts;
    }
  }

  /** Joining the first `k` pieces gives a prefix of joining them all. */
  lemma {:induction false} JoinPrefix(parts: seq<string>, k: nat)
    requires 1 <= k <= |parts|
    ensures Join(parts[..k]) <= Join(parts)
  {
    if k > 1 {
      JoinPrefix(parts[1..], k - 1);
      assert parts[..k][1..] == parts[1..][..k - 1];
      var a := Join(parts[1..][..k - 1]);
      var b := Join(parts[1..]);
      assert a <= b;
      assert parts[0] + "\n" + a <= parts[0] + "\n" + b by {
        var n := |parts[0] + "\n"|;
        assert (parts[0] + "\n" + a)[..n] == (parts[0] + "\n" + b)[..n];
        assert forall i :: n <= i < n + |a| ==> (parts[0] + "\n" + a)[i] == a[i - n] == b[i - n] == (parts[0] + "\n" + b)[i];
      }
    } else if |parts| > 1 {
      assert Join(parts) == parts[0] + ("\n" + Join(parts[1..]));
    }
  }

  /**
   * The trimmed trace is a prefix of the trace whose lines are exactly the
   * first (at most five) lines of the trace; a trace of at most five lines is
   * kept whole.
   */
  lemma TrimKeepsFirstLines(trace: string)
    ensures Trim(trace) <= trace
    ensures var parts := Split(trace);
      Split(Trim(trace)) == parts[..if |parts| < MaxLines then |parts| else MaxLines]
    ensures |Split(Trim(trace))| <= MaxLines
    ensures |Split(trace)| <= MaxLines ==> Trim(trace) == trace
  {
    var parts := Split(trace);
    var k := if |parts| < MaxLines then |parts| else MaxLines;
    JoinSplit(trace);
    JoinPrefix(parts, k);
    SplitHasNoNewline(trace);
    assert NoNewline(parts[..k]) by {
      forall i | 0 <= i < k ensures '\n' !in parts[..k][i] {
        assert parts[..k][i] == parts[i];
      }
    }
    SplitJoin(parts[..k]);
    if |parts| <= MaxLines {
      assert parts[..k] == parts;
    }
  }
}
