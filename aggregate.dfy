/**
 * `AggregateResult` and `AggregateException`: a list of results that is an
 * error exactly when one of them is, whose construction asks every member
 * `isError()` (so every member ends up used), and whose exception lists the
 * members again and filters the erroring ones.
 */
module Aggregates {
  import opened Values
  import OkResults
  import ErrorResults
  import ThrowableErrors
  import AbstractResults
  import Backtraces
  import UnusedResults

  const AggregateClass: string := "Hereldar\\Results\\AggregateResult"

  /** A reference to a result of any of the result classes (an `IResult`). */
  datatype AnyResult =
    | OkR(ok: OkResults.Ok)
    | ErrorR(error: ErrorResults.Error)
    | ThrowableR(throwable: ThrowableErrors.ThrowableError)
    | AbstractR(result: AbstractResults.AbstractResult<Exc>)
    | AggregateR(aggregate: AggregateResult)

  /** The object whose `used` flag records that `r` was consulted. */
  function Obj(r: AnyResult): object
  {
    match r
    case OkR(o) => o
    case ErrorR(e) => e
    case ThrowableR(t) => t
    case AbstractR(a) => a
    case AggregateR(g) => g.base
  }

  function Objs(rs: seq<AnyResult>): set<object>
  {
    set r | r in rs :: Obj(r)
  }

  /** What `isError()` answers for `r`; it depends only on readonly fields. */
  predicate IsErr(r: AnyResult)
  {
    match r
    case OkR(_) => false
    case ErrorR(_) => true
    case ThrowableR(_) => true
    case AbstractR(a) => a.exception.Some?
    case AggregateR(g) => g.base.exception.Some?
  }

  predicate Used(r: AnyResult)
    reads Obj(r)
  {
    match r
    case OkR(o) => o.used
    case ErrorR(e) => e.used
    case ThrowableR(t) => t.used
    case AbstractR(a) => a.used
    case AggregateR(g) => g.base.used
  }

  predicate AllUsed(rs: seq<AnyResult>)
    reads Objs(rs)
  {
    forall i :: 0 <= i < |rs| ==> Used(rs[i])
  }

  /** `$result->isError()` on a result of any class. */
  method IsError(r: AnyResult) returns (b: bool)
    modifies Obj(r)
    ensures b == IsErr(r) && Used(r)
  {
    match r
    case OkR(o) => b := o.IsError();
    case ErrorR(e) => b := e.IsError();
    case ThrowableR(t) => b := t.IsError();
    case AbstractR(a) => b := a.IsError();
    case AggregateR(g) => b := g.base.IsError();
  }

  /** The erroring members, in order. */
  function ErrorsOf(rs: seq<AnyResult>): (errors: seq<AnyResult>)
    ensures |errors| <= |rs|
  {
    if |rs| == 0 then []
    else ErrorsOf(rs[..|rs| - 1]) + (if IsErr(rs[|rs| - 1]) then [rs[|rs| - 1]] else [])
  }

  predicate HasError(rs: seq<AnyResult>)
  {
    exists i :: 0 <= i < |rs| && IsErr(rs[i])
  }

  /** `a` is `b` with some members left out, the rest kept in order. */
  ghost predicate Subsequence<T>(a: seq<T>, b: seq<T>)
    decreases |b|
  {
    |a| == 0 ||
    (|b| > 0 &&
      ((a[|a| - 1] == b[|b| - 1] && Subsequence(a[..|a| - 1], b[..|b| - 1])) || Subsequence(a, b[..|b| - 1])))
  }

  /**
   * The error filter keeps exactly the erroring members, in their order: it
   * is a subsequence of the members, each of its elements is an error, and
   * every erroring member is in it.
   */
  lemma {:induction false} ErrorsOfIsFilter(rs: seq<AnyResult>)
    ensures Subsequence(ErrorsOf(rs), rs)
    ensures forall k :: 0 <= k < |ErrorsOf(rs)| ==> IsErr(ErrorsOf(rs)[k])
    ensures forall i :: 0 <= i < |rs| && IsErr(rs[i]) ==> rs[i] in ErrorsOf(rs)
    ensures |ErrorsOf(rs)| <= |rs|
  {
    if |rs| > 0 {
      var init := rs[..|rs| - 1];
      var last := rs[|rs| - 1];
      ErrorsOfIsFilter(init);
      var e := ErrorsOf(rs);
      assert forall i :: 0 <= i < |init| ==> init[i] == rs[i];
      if IsErr(last) {
        assert e[..|e| - 1] == ErrorsOf(init);
      } else {
        assert e == ErrorsOf(init);
      }
    }
  }

  /** The aggregate is an error exactly when some member is; the empty aggregate is not. */
  lemma {:induction false} ErrorsOfEmptyIffNoError(rs: seq<AnyResult>)
    ensures |ErrorsOf(rs)| > 0 <==> HasError(rs)
    ensures |rs| == 0 ==> !HasError(rs)
  {
    if |rs| > 0 {
      var init := rs[..|rs| - 1];
      ErrorsOfEmptyIffNoError(init);
      assert forall i :: 0 <= i < |init| ==> init[i] == rs[i];
      if HasError(rs) && !IsErr(rs[|rs| - 1]) {
        var i :| 0 <= i < |rs| && IsErr(rs[i]);
        assert IsErr(init[i]);
      }
    }
  }

  /**
   * The filter holds one element per erroring position: a result listed twice
   * is kept twice. Its length is the number `countIndividualErrors()` counts.
   */
  lemma {:induction false} ErrorsOfCountsErrors(rs: seq<AnyResult>)
    ensures |ErrorsOf(rs)| == |set i | 0 <= i < |rs| && IsErr(rs[i])|
  {
    if |rs| > 0 {
      var n := |rs| - 1;
      var init := rs[..n];
      ErrorsOfCountsErrors(init);
      assert forall i :: 0 <= i < n ==> init[i] == rs[i];
      var before := set i | 0 <= i < n && IsErr(init[i]);
      var all := set i | 0 <= i < |rs| && IsErr(rs[i]);
      if IsErr(rs[n]) {
        assert all == before + {n};
        assert n !in before;
      } else {
        assert all == before;
      }
    }
  }

  /** When every member is an error the filter keeps them all; when none is, it keeps none. */
  lemma {:induction false} ErrorsOfExtremes(rs: seq<AnyResult>)
    ensures (forall i :: 0 <= i < |rs| ==> IsErr(rs[i])) ==> ErrorsOf(rs) == rs
    ensures (forall i :: 0 <= i < |rs| ==> !IsErr(rs[i])) ==> ErrorsOf(rs) == []
  {
    if |rs| > 0 {
      var init := rs[..|rs| - 1];
      ErrorsOfExtremes(init);
      assert forall i :: 0 <= i < |init| ==> init[i] == rs[i];
      assert init + [rs[|rs| - 1]] == rs;
    }
  }

  /** `isError()` on every member, in order, keeping those that answer true. */
  method FilterErrors(rs: seq<AnyResult>) returns (errors: seq<AnyResult>)
    modifies Objs(rs)
    ensures errors == ErrorsOf(rs)
    ensures AllUsed(rs)
  {
    errors := [];
    var i := 0;
    while i < |rs|
      invariant 0 <= i <= |rs|
      invariant errors == ErrorsOf(rs[..i])
      invariant forall j :: 0 <= j < i ==> Used(rs[j])
    {
      assert rs[..i + 1][..i] == rs[..i];
      var isError := IsError(rs[i]);
      if isError {
        errors := errors + [rs[i]];
      }
      i := i + 1;
    }
    assert rs[..|rs|] == rs;
  }

  /** `countIndividualErrors()`: asks every member, with no early exit, so that all are marked used. */
  method CountIndividualErrors(rs: seq<AnyResult>) returns (count: nat)
    modifies Objs(rs)
    ensures count == |ErrorsOf(rs)|
    ensures AllUsed(rs)
  {
    count := 0;
    var i := 0;
    while i < |rs|
      invariant 0 <= i <= |rs|
      invariant count == |ErrorsOf(rs[..i])|
      invariant forall j :: 0 <= j < i ==> Used(rs[j])
    {
      assert rs[..i + 1][..i] == rs[..i];
      var isError := IsError(rs[i]);
      if isError {
        count := count + 1;
      }
      i := i + 1;
    }
    assert rs[..|rs|] == rs;
  }

  /** The exception held by an erroring aggregate; its message is always ''. */
  class AggregateException {
    const results: seq<AnyResult>
    const message: string

    constructor (results: seq<AnyResult>)
      ensures this.results == results && message == ""
    {
      this.results := results;
      message := "";
    }

    /** The erroring results, in order; asking each one marks it used. */
    method GetErrors() returns (errors: seq<AnyResult>)
      modifies Objs(results)
      ensures errors == ErrorsOf(results)
      ensures AllUsed(results)
    {
      errors := FilterErrors(results);
    }

    /** Exactly the list the exception was made with. */
    method GetResults() returns (rs: seq<AnyResult>)
      ensures rs == results
    {
      rs := results;
    }
  }

  class AggregateResult {
    const individualResults: seq<AnyResult>
    /** The `AbstractResult` part of the aggregate: its flag, value, exception and trace. */
    const base: AbstractResults.AbstractResult<AggregateException>

    /**
     * Asks every member `isError()`; if one answers true, the aggregate
     * holds an `AggregateException` of the members, and building it calls
     * `individualResults()`, which marks the aggregate used.
     */
    constructor (results: seq<AnyResult>, stack: seq<Backtraces.Frame>)
      modifies Objs(results)
      ensures individualResults == results
      ensures AllUsed(results)
      ensures fresh(base) && base.value == PNull && base.exceptionMessage == "" && base.cls == AggregateClass
      ensures base.trace.trace == Backtraces.Kept(stack, AggregateClass)
      ensures base.exception.Some? <==> |ErrorsOf(results)| > 0
      ensures base.exception.Some? ==> fresh(base.exception.value) && base.exception.value.results == results
      ensures base.used <==> base.exception.Some?
    {
      var count := CountIndividualErrors(results);
      var b := ParentPart(results, count > 0, stack);
      individualResults := results;
      base := b;
    }

    /**
     * `parent::__construct(exception: ...)`: the `AbstractResult` part, holding
     * an `AggregateException` of the members when one of them is an error;
     * `aggregateException()` reads `individualResults()`, which sets `used`.
     */
    static method ParentPart(results: seq<AnyResult>, erroring: bool, stack: seq<Backtraces.Frame>)
      returns (b: AbstractResults.AbstractResult<AggregateException>)
      ensures fresh(b) && b.value == PNull && b.exceptionMessage == "" && b.cls == AggregateClass
      ensures b.trace.trace == Backtraces.Kept(stack, AggregateClass)
      ensures b.exception.Some? <==> erroring
      ensures erroring ==> fresh(b.exception.value) && b.exception.value.results == results
      ensures b.used <==> erroring
    {
      var exception: Option<AggregateException> := None;
      if erroring {
        var e := new AggregateException(results);
        exception := Some(e);
      }
      b := new AbstractResults.AbstractResult(PNull, exception, "", AggregateClass, stack);
      if erroring {
        b.used := true;
      }
    }

    /** `AggregateResult::empty()`. */
    static method Empty(stack: seq<Backtraces.Frame>) returns (r: AggregateResult)
      ensures fresh(r) && fresh(r.base) && r.individualResults == []
      ensures r.base.exception.None? && !r.base.used
    {
      r := new AggregateResult([], stack);
    }

    /** `AggregateResult::of(...$results)`. */
    static method Of(results: seq<AnyResult>, stack: seq<Backtraces.Frame>) returns (r: AggregateResult)
      modifies Objs(results)
      ensures fresh(r) && fresh(r.base) && r.individualResults == results
      ensures AllUsed(results)
      ensures r.base.exception.Some? <==> |ErrorsOf(results)| > 0
      ensures r.base.used <==> r.base.exception.Some?
    {
      r := new AggregateResult(results, stack);
    }

    method IndividualErrors() returns (errors: seq<AnyResult>)
      modifies base, Objs(individualResults)
      ensures base.used
      ensures errors == ErrorsOf(individualResults)
      ensures AllUsed(individualResults)
    {
      errors := FilterErrors(individualResults);
      base.used := true;
    }

    method IndividualResults() returns (rs: seq<AnyResult>)
      modifies base
      ensures base.used
      ensures rs == individualResults
    {
      base.used := true;
      rs := individualResults;
    }

    method IsEmpty() returns (b: bool)
      modifies base
      ensures base.used
      ensures b <==> |individualResults| == 0
    {
      base.used := true;
      b := |individualResults| == 0;
    }

    /** The destructor: an aggregate that was never used raises `UnusedResult` with its rendered trace. */
    method Finalize() returns (raised: Option<UnusedResults.UnusedResult<AggregateResult>>)
      ensures raised.Some? <==> !base.used
      ensures raised.Some? ==>
        raised.value == UnusedResults.Create(this, AggregateClass, Some(Backtraces.Render(base.trace.trace)))
    {
      if !base.used {
        var text := base.trace.ToString();
        raised := Some(UnusedResults.Create(this, AggregateClass, Some(text)));
      } else {
        raised := None;
      }
    }
  }
}
