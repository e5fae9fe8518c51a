# php-results in Dafny

A model of the core of `hereldar/php-results`, a PHP library of result
objects. A result is a success (`Ok`) or a failure (`Error`, or an
exception class built on `AbstractThrowableError`). `AbstractResult` is one
class for both: it holds a value and an optional exception. Callers consult a
result through a fixed set of combinators (`andThen`, `or`, `orElse`,
`orFail`, `orNull`, `orFalse`, `orDie`, `orThrow`, `onSuccess`, `onFailure`).
Every instance carries a one-way `used` flag. Its destructor raises
`UnusedResult` when the instance dies unconsulted. `AggregateResult` combines
a list of results and is an error exactly when one of them is. The `Result`
class offers factories with `null` and `false` sentinels.

## Layout

- `values.dfy` (`Values`) holds the PHP values the model needs (`null`, `bool`, `int`, `string`) and exceptions as tagged values. It also holds `Outcome`, the way a call ends: it returns, throws, or exits the process. `Arg` is a "value or closure" parameter.
- `interfaces.dfy` (`Interfaces`) holds the `IResult` and `Resultlike` contracts. There is one reference function per combinator, of the branch a result is on, plus lemmas about them. Every combinator method of a class is proved equal to its reference function. The one exception is `AbstractResult.orFail`, which is tied to it only when an exception is held, because the reference needs the exception to throw; without one the method's answer, the stored value, is stated directly.
- `ok.dfy`, `error.dfy`, `throwable_error.dfy` and `abstract_result.dfy` hold one class each. The class has a `used` field, `const` data fields, one method per public method of the source, and a `Finalize` method for the destructor.
- `aggregate.dfy` (`Aggregates`) holds `AnyResult`, a reference to a result of any class. It also holds the error filter and its lemmas, `AggregateException`, and `AggregateResult`.
- `result.dfy` (`Factories`) holds the three static factories of `Result`.
- `unused_result.dfy` (`UnusedResults`) holds the `UnusedResult` exception and its message.
- `trace_lines.dfy` (`TraceLines`) holds the five-line trim of a trace string (explode, slice, implode).
- `backtrace.dfy` (`Backtraces`) holds the frame selection and the string rendering of `Backtrace`.

Where a combinator takes a closure, the method also returns `called`. It is
true exactly when the closure was invoked, so lazy evaluation is stated and
proved. A combinator that may answer `$this` answers a `Chosen` value:
`Same(this)` or `Other(result)`.

## Model

| member | source | states |
|---|---|---|
| Values.Eval | src/Interfaces/IResult.php:55-68 | definition of the value-or-closure convention (not a proved property): a plain argument is used as it is; a closure argument's outcome (return, throw, exit) is exactly what the closure gives on the input |
| Interfaces.AndThen | src/Interfaces/Resultlike.php:17-24 | reference for `andThen`: a failure answers itself, a success answers the given result or the closure's outcome on its value; see AndThenShortCircuits and AndThenSequences |
| Interfaces.OrElse | src/Interfaces/Resultlike.php:78-85 | reference for `orElse`: a success answers itself, a failure answers the given result or the closure's outcome; see OrElseShortCircuits |
| Interfaces.Or | src/Interfaces/Resultlike.php:61-68 | reference for `or`: the success value, or the default or the closure's outcome on a failure; see ExtractorsAnswerValue and ExtractorsSubstitute |
| Interfaces.OrNull | src/Interfaces/Resultlike.php:99-103 | reference for `orNull`: the success value, or null; see ExtractorsAnswerValue and ExtractorsSubstitute |
| Interfaces.OrFalse | src/Interfaces/Resultlike.php:93-97 | reference for `orFalse`: the success value, or false; see ExtractorsAnswerValue and ExtractorsSubstitute |
| Interfaces.OrDie | src/Interfaces/Resultlike.php:70-76 | reference for `orDie`: the success value, or an exit with the status; see ExtractorsAnswerValue and ExtractorsSubstitute |
| Interfaces.OrFail | src/Interfaces/Resultlike.php:87-91 | reference for `orFail`: the success value, or a throw of the failure; see ExtractorsAnswerValue and ExtractorsSubstitute |
| Interfaces.OrThrow | src/Interfaces/Resultlike.php:105-112 | reference for `orThrow`: the success value, or a throw of the given exception or of the closure's output; see ExtractorsAnswerValue and ExtractorsSubstitute |
| Interfaces.OnSuccess | src/Interfaces/Resultlike.php:51-59 | reference for `onSuccess`: the action runs on the value of a success only, and the receiver is answered unless it throws or exits; see HooksAreExclusive |
| Interfaces.OnFailure | src/Interfaces/Resultlike.php:41-49 | reference for `onFailure`: the action runs on a failure only, and the receiver is answered unless it throws or exits; see HooksAreExclusive |
| Interfaces.AndThenShortCircuits | src/Interfaces/IResult.php:15-28 | on a failure, `andThen` answers the failure itself and does not use its argument |
| Interfaces.AndThenSequences | src/Interfaces/Resultlike.php:17-24 | on a success, `andThen` answers the given result, or exactly what the closure returns or throws on the value; the argument is used |
| Interfaces.OrElseShortCircuits | src/Interfaces/Resultlike.php:78-85 | on a success, `orElse` answers the receiver and does not use the alternative |
| Interfaces.ExtractorsAnswerValue | src/Interfaces/IResult.php:55-109 | on a success, `or`, `orNull`, `orFalse`, `orDie`, `orThrow` and `orFail` all answer the success value |
| Interfaces.ExtractorsSubstitute | src/Interfaces/Resultlike.php:61-112 | on a failure, `or` answers the default or the closure's outcome, `orNull` null, `orFalse` false, `orDie` an exit with the status, `orThrow` throws the given exception, or the one a closure returns while a closure's own throw or exit passes on, `orFail` throws its failure |
| Interfaces.HooksAreExclusive | src/Interfaces/Resultlike.php:41-59 | on any branch exactly one of `onSuccess` and `onFailure` runs its action; each answers the receiver unless its action throws or exits |
| UnusedResults.Create | src/Exceptions/UnusedResult.php:12-29 | the exception keeps the result; its message starts with "Result \`C\` must be used" and equals it exactly when no trace is given |
| UnusedResults.MessageNamesClassAndTrace | src/Exceptions/UnusedResult.php:12-23 | the message can be parsed back into the class name and the trace (none, or the text after the first newline) |
| TraceLines.Split | src/Error.php:28-29 | splitting on "\n" gives at least one part |
| TraceLines.Join | src/Error.php:31 | `implode("\n", …)`; JoinSplit and SplitJoin prove it the inverse of `Split` |
| TraceLines.Trim | src/Error.php:28-31 | the first at most 5 lines of a trace, joined again; TrimKeepsFirstLines states what it keeps |
| TraceLines.JoinSplit | src/Error.php:28-31 | joining the parts with "\n" gives back the trace |
| TraceLines.SplitHasNoNewline | src/Error.php:29 | no part holds a newline |
| TraceLines.SplitAround | src/Error.php:29 | splitting `a + "\n" + b` gives the parts of `a` followed by the parts of `b` |
| TraceLines.SplitJoin | src/Error.php:29-31 | joining newline-free parts and splitting again gives the same parts |
| TraceLines.JoinPrefix | src/Error.php:29-31 | joining the first k parts gives a prefix of joining all of them |
| TraceLines.TrimKeepsFirstLines | src/Error.php:25-33 | the trimmed trace is a prefix of the trace, made of its first at most 5 lines; a trace of at most 5 lines is kept whole |
| Backtraces.Captured | src/Backtrace.php:21-24 | the innermost frames are captured: all of them when there are at most 15, else exactly the first 15 |
| Backtraces.Matches | src/Backtrace.php:29 | a frame matches a class when its class, or '' when it has none, is that class name |
| Backtraces.LastIndex | src/Backtrace.php:26-32 | the index found is a frame of the trace |
| Backtraces.LastIndexIsLast | src/Backtrace.php:26-32 | the index found is a frame of the given class with no later frame of that class; none is found exactly when no frame has that class |
| Backtraces.Kept | src/Backtrace.php:26-38 | the kept frames are at most 15, and 1 to 5 when a frame of the class was captured; KeptFromLastCall states which |
| Backtraces.KeptFromLastCall | src/Backtrace.php:26-38 | with no frame of the class the captured trace is kept; otherwise the kept trace is the slice of at most 5 frames starting at the last frame of the class |
| Backtraces.Backtrace.constructor | src/Backtrace.php:19-39 | the loop over the frames finds the last frame of the class and keeps the trace given by `Kept` |
| Backtraces.Backtrace.ToString | src/Backtrace.php:41-65 | the loop's string is the rendering of all the frames, line after line |
| Backtraces.Decimal | src/Backtrace.php:46 | the decimal spelling PHP interpolates for a number; DecimalHasNoNewline states its shape |
| Backtraces.DecimalHasNoNewline | src/Backtrace.php:46 | the spelling of a number is non-empty, and every character of it is a digit '0' to '9', so none is a newline |
| Backtraces.FilePart | src/Backtrace.php:48-55 | "file(line): " for a frame with a file, the "(line)" only when the line is set, '' without a file |
| Backtraces.ClassPart | src/Backtrace.php:57-59 | "Class::" for a frame with a class, else '' |
| Backtraces.Line | src/Backtrace.php:45-61 | the line of frame i: "#i ", the file part, the class part, the function and "()\n"; LineShape states its shape |
| Backtraces.Render | src/Backtrace.php:41-65 | the lines of the frames in order, numbered from 0; RenderOneLinePerFrame and RenderExtends state its shape |
| Backtraces.NewlinesConcat | src/Backtrace.php:61 | helper of RenderOneLinePerFrame: newlines of a concatenation add up |
| Backtraces.NoNewlines | src/Backtrace.php:61 | helper of RenderOneLinePerFrame: a string without "\n" counts no newline |
| Backtraces.LineShape | src/Backtrace.php:45-61 | each line starts with "#i ", ends with "()\n", and has that one newline when file, class and function hold none |
| Backtraces.RenderOneLinePerFrame | src/Backtrace.php:43-64 | there is one line per frame; an empty trace renders as the empty string |
| Backtraces.RenderExtends | src/Backtrace.php:45-62 | rendering the first k frames gives a prefix of rendering them all |
| OkResults.Ok.constructor | src/Ok.php:25-33 | the value and message are stored, the trace is taken, and the result is unused |
| OkResults.Ok.Empty | src/Ok.php:45-48 | a new unused Ok with a null value and an empty message |
| OkResults.Ok.Of | src/Ok.php:55-58 | a new unused Ok holding the value |
| OkResults.Ok.AsBranch | src/Ok.php:92-104 | an Ok is always the success branch holding its value |
| OkResults.Ok.AndThen | src/Ok.php:67-76 | `andThen` of a success: the given result, or the closure's outcome on the value; the closure is called exactly when given |
| OkResults.Ok.HasMessage | src/Ok.php:78-83 | true exactly when the message is not empty; marks the result used |
| OkResults.Ok.HasValue | src/Ok.php:85-90 | true exactly when the value is not null; marks the result used |
| OkResults.Ok.IsError | src/Ok.php:92-97 | always false; marks the result used |
| OkResults.Ok.IsOk | src/Ok.php:99-104 | always true; marks the result used |
| OkResults.Ok.Message | src/Ok.php:106-111 | the stored message; marks the result used |
| OkResults.Ok.Or | src/Ok.php:116-121 | the stored value, as `or` of a success; the default is never called |
| OkResults.Ok.OrDie | src/Ok.php:126-131 | the stored value, as `orDie` of a success |
| OkResults.Ok.OrElse | src/Ok.php:136-141 | the receiver itself, as `orElse` of a success; the alternative is never called |
| OkResults.Ok.OrFail | src/Ok.php:146-151 | the stored value, as `orFail` of a success whatever it would throw |
| OkResults.Ok.OrNull | src/Ok.php:156-161 | the stored value, as `orNull` of a success |
| OkResults.Ok.OrThrow | src/Ok.php:166-171 | the stored value, as `orThrow` of a success |
| OkResults.Ok.Value | src/Ok.php:176-181 | the stored value; marks the result used |
| OkResults.Ok.Finalize | src/Ok.php:35-40 | `UnusedResult` is raised exactly when the Ok is unused, with the class name and the printed trace |
| ErrorResults.Error.constructor | src/Error.php:19-23 | the message is stored and the error is unused |
| ErrorResults.Error.Empty | src/Error.php:35-38 | a new unused error with an empty message |
| ErrorResults.Error.AsBranch | src/Error.php:64-76 | an Error is always the failure branch |
| ErrorResults.Error.AndThen | src/Error.php:43-48 | the error itself, as `andThen` of a failure; the argument is never called |
| ErrorResults.Error.HasMessage | src/Error.php:50-55 | true exactly when the message is not empty |
| ErrorResults.Error.HasValue | src/Error.php:57-62 | always false |
| ErrorResults.Error.IsError | src/Error.php:64-69 | always true |
| ErrorResults.Error.IsOk | src/Error.php:71-76 | always false |
| ErrorResults.Error.Message | src/Error.php:78-83 | the stored message |
| ErrorResults.Error.Or | src/Error.php:92-101 | `or` of a failure: the default, or the closure's outcome; the closure is called exactly when given |
| ErrorResults.Error.OrDie | src/Error.php:103-112 | the process exits, with the status when one is given |
| ErrorResults.Error.OrElse | src/Error.php:121-130 | `orElse` of a failure: the given result, or the closure's outcome; the closure is called exactly when given |
| ErrorResults.Error.OrFail | src/Error.php:135-140 | throws the error itself |
| ErrorResults.Error.OrNull | src/Error.php:145-150 | null |
| ErrorResults.Error.OrThrow | src/Error.php:159-164 | throws exactly the given exception |
| ErrorResults.Error.Value | src/Error.php:169-174 | null |
| ErrorResults.Error.Finalize | src/Error.php:25-33 | `UnusedResult` is raised exactly when the error is unused, with the first at most 5 lines of its trace |
| ThrowableErrors.ThrowableError.constructor | src/AbstractThrowableError.php:20-24 | the message is stored and the error is unused |
| ThrowableErrors.ThrowableError.AsBranch | src/AbstractThrowableError.php:91-106 | a throwable error is always the failure branch |
| ThrowableErrors.ThrowableError.AndThen | src/AbstractThrowableError.php:44-49 | the error itself; the argument is never called |
| ThrowableErrors.ThrowableError.Exception | src/AbstractThrowableError.php:54-59 | the error is its own exception |
| ThrowableErrors.ThrowableError.HasException | src/AbstractThrowableError.php:64-69 | always true |
| ThrowableErrors.ThrowableError.HasMessage | src/AbstractThrowableError.php:71-76 | true exactly when the message is not empty |
| ThrowableErrors.ThrowableError.HasValue | src/AbstractThrowableError.php:81-86 | always false |
| ThrowableErrors.ThrowableError.IsError | src/AbstractThrowableError.php:91-96 | always true |
| ThrowableErrors.ThrowableError.IsOk | src/AbstractThrowableError.php:101-106 | always false |
| ThrowableErrors.ThrowableError.Message | src/AbstractThrowableError.php:108-113 | the stored message |
| ThrowableErrors.ThrowableError.OnFailure | src/AbstractThrowableError.php:120-127 | the action is called on the error itself; the error is answered unless the action throws or exits |
| ThrowableErrors.ThrowableError.OnSuccess | src/AbstractThrowableError.php:134-139 | the error is answered and the action is never called |
| ThrowableErrors.ThrowableError.Or | src/AbstractThrowableError.php:148-158 | the default, or the closure's outcome on null |
| ThrowableErrors.ThrowableError.OrDie | src/AbstractThrowableError.php:160-170 | the process exits, with the status when one is given |
| ThrowableErrors.ThrowableError.OrElse | src/AbstractThrowableError.php:179-189 | the given result, or the closure's outcome on null |
| ThrowableErrors.ThrowableError.OrFail | src/AbstractThrowableError.php:194-199 | throws the error itself |
| ThrowableErrors.ThrowableError.OrFalse | src/AbstractThrowableError.php:204-209 | false |
| ThrowableErrors.ThrowableError.OrNull | src/AbstractThrowableError.php:214-219 | null |
| ThrowableErrors.ThrowableError.OrThrow | src/AbstractThrowableError.php:228-237 | throws the given exception, or what the closure makes of the error itself |
| ThrowableErrors.ThrowableError.Value | src/AbstractThrowableError.php:242-247 | null |
| ThrowableErrors.ThrowableError.Finalize | src/AbstractThrowableError.php:26-34 | `UnusedResult` is raised exactly when the error is unused, with the first at most 5 lines of its trace |
| AbstractResults.AbstractResult.constructor | src/AbstractResult.php:28-33 | value and exception are stored for good; the trace is kept from the last call of the concrete class; the result is unused |
| AbstractResults.AbstractResult.AsBranch | src/AbstractResult.php:92-104 | the result is a failure exactly when it holds an exception, and a success holds the stored value |
| AbstractResults.AbstractResult.AndThen | src/AbstractResult.php:50-61 | `andThen` of the branch the exception decides; the closure is called only on a success |
| AbstractResults.AbstractResult.Exception | src/AbstractResult.php:66-71 | the stored exception, if any |
| AbstractResults.AbstractResult.HasException | src/AbstractResult.php:73-78 | true exactly when an exception is held |
| AbstractResults.AbstractResult.HasMessage | src/AbstractResult.php:80-83 | true exactly when an exception with a non-empty message is held |
| AbstractResults.AbstractResult.HasValue | src/AbstractResult.php:85-90 | true exactly when the value is not null |
| AbstractResults.AbstractResult.IsError | src/AbstractResult.php:92-97 | true exactly when an exception is held |
| AbstractResults.AbstractResult.IsOk | src/AbstractResult.php:99-104 | true exactly when no exception is held |
| AbstractResults.AbstractResult.Message | src/AbstractResult.php:106-115 | '' without an exception, else the exception's message |
| AbstractResults.AbstractResult.Or | src/AbstractResult.php:124-135 | `or` of the branch; the closure is called only on a failure |
| AbstractResults.AbstractResult.OrDie | src/AbstractResult.php:140-151 | the value of a success; a failure exits with the status |
| AbstractResults.AbstractResult.OrElse | src/AbstractResult.php:161-172 | `orElse` of the branch; the closure is called only on a failure |
| AbstractResults.AbstractResult.OrFail | src/AbstractResult.php:179-190 | the value of a success; a failure throws the stored exception, never `MissingException` |
| AbstractResults.AbstractResult.OrFalse | src/AbstractResult.php:195-202 | the value of a success, or false |
| AbstractResults.AbstractResult.OrNull | src/AbstractResult.php:207-214 | the value of a success, or null |
| AbstractResults.AbstractResult.OrThrow | src/AbstractResult.php:225-236 | the value of a success; a failure throws the given exception or the closure's output |
| AbstractResults.AbstractResult.Value | src/AbstractResult.php:241-246 | the stored value |
| AbstractResults.AbstractResult.Finalize | src/AbstractResult.php:35-40 | `UnusedResult` is raised exactly when the result is unused, with the rendered call-site trace |
| Aggregates.IsErr | src/AggregateResult.php:88 | what `isError()` answers for a result of any class, read from its fixed fields |
| Aggregates.IsError | src/AggregateResult.php:88 | `isError()` on a result of any class answers its branch and marks it used |
| Aggregates.ErrorsOf | src/Exceptions/AggregateException.php:22-33 | the erroring results in order, never more than the results; ErrorsOfIsFilter and ErrorsOfCountsErrors state what it keeps |
| Aggregates.ErrorsOfIsFilter | src/Exceptions/AggregateException.php:22-33 | the errors are a subsequence of the results, every element is an error, every erroring result is in it, and there are no more errors than results |
| Aggregates.ErrorsOfEmptyIffNoError | src/AggregateResult.php:26-35 | there is an error exactly when some result is an error; an empty list has none |
| Aggregates.ErrorsOfCountsErrors | src/AggregateResult.php:81-94 | there are exactly as many errors as erroring positions, so a result listed twice counts twice |
| Aggregates.ErrorsOfExtremes | src/AggregateException.php:22-33 | all results are kept when all are errors, none when none is |
| Aggregates.FilterErrors | src/Exceptions/AggregateException.php:22-33 | the loop collects exactly the erroring results, in order, and marks every result used |
| Aggregates.CountIndividualErrors | src/AggregateResult.php:81-94 | the count is the number of erroring results; every result is asked, so every one is marked used |
| Aggregates.AggregateException.constructor | src/Exceptions/AggregateException.php:16-20 | the results are kept and the message is '' |
| Aggregates.AggregateException.GetErrors | src/AggregateException.php:22-33 | the erroring results, in order; each result is marked used |
| Aggregates.AggregateException.GetResults | src/AggregateException.php:35-38 | exactly the list given to the constructor |
| Aggregates.AggregateResult.constructor | src/AggregateResult.php:26-35 | every member is marked used; the aggregate holds an exception of its members exactly when one is an error, and is then marked used itself; its value is null and its message '' |
| Aggregates.AggregateResult.ParentPart | src/AggregateResult.php:30-34 | the `AbstractResult` part has a null value and the aggregate's trace; it holds a fresh `AggregateException` of the members exactly when one is an error, and is then marked used |
| Aggregates.AggregateResult.Empty | src/AggregateResult.php:37-40 | no members, no exception, unused |
| Aggregates.AggregateResult.Of | src/AggregateResult.php:42-45 | the members in order; an error exactly when one is; used exactly when an error |
| Aggregates.AggregateResult.IndividualErrors | src/AggregateResult.php:47-60 | the erroring members in order; the aggregate and every member are marked used |
| Aggregates.AggregateResult.IndividualResults | src/AggregateResult.php:62-67 | the constructor's members in order; marks the aggregate used |
| Aggregates.AggregateResult.IsEmpty | src/AggregateResult.php:69-74 | true exactly when there are no members |
| Aggregates.AggregateResult.Finalize | src/AbstractResult.php:35-40 | an unused aggregate raises `UnusedResult` with its rendered trace |
| Factories.Of | src/Result.php:19-45 | `of` as documented: it never throws, and it makes an `Error` only from the exception of a closure |
| Factories.FromNullable | src/Result.php:62-71 | an `Error` made by `fromNullable` is empty |
| Factories.FromFalsable | src/Result.php:88-97 | an `Error` made by `fromFalsable` is empty |
| Factories.OfWrapsAnyValue | src/Result.php:34-45 | whenever the argument yields a value (plain, or returned by the closure) `of` makes an `Ok` of exactly that value, null and false included |
| Factories.OfCatches | src/Result.php:19-41 | whenever the argument throws, it is a closure and `of` gives an `Error` carrying exactly that exception |
| Factories.SentinelFactoriesPropagate | src/Result.php:62-92 | whenever the argument throws, `fromNullable` and `fromFalsable` throw that same exception, unlike `of` |
| Factories.SentinelsMakeErrors | src/Result.php:62-97 | `fromNullable` makes an `Error` exactly for null, `fromFalsable` exactly for false |
| Factories.FactoriesAgree | src/Result.php:34-97 | for any other value the three factories make the same `Ok` |
| Factories.SentinelsDiffer | src/Result.php:62-97 | `fromNullable` keeps false and `fromFalsable` keeps null as an `Ok` value |
| Factories.OfAsWritten | src/Result.php:34-45 | `of` as its catch block is written: whatever it returns is an `Ok`, and any exception escaping it is PHP's undefined-method error |
| Factories.OfAsWrittenThrowsOnThrow | src/Result.php:36-41 | as written, an argument that throws makes `of` throw the undefined-method error, which differs from the documented `of` |
| Factories.OfAsWrittenAgrees | src/Result.php:34-45 | when the argument does not throw, the written and the documented `of` agree |
| Factories.OfAsWrittenCounterexample | src/Result.php:36-41 | a closure throwing a `RuntimeException`: the documented `of` gives an `Error` wrapping it, the written one throws |

## Left out

- `orDie` ends the process with `exit`. The model gives the outcome `Exited(status)` instead.
- PHP runs destructors when the last reference goes away. The model has an explicit `Finalize` method that says whether `UnusedResult` would be raised.
- Traces come from `debug_backtrace`, `debug_print_backtrace` with output buffering, and `getTraceAsString`. These are foreign calls, so each trace is a parameter: a frame sequence for `Backtrace`, a string for the others.
- The Throwable class hierarchy and `instanceof` are not modelled. An exception is a tagged value with a class name and a message. A closure is a value-or-closure `Arg`, and only `Closure` instances count as closures.
- A closure's own side effects are not modelled, and neither is a closure that throws something other than an exception. `called` records that the closure was invoked.
- `MissingException` and `UndefinedException` only format a constant message. `MissingException` cannot be thrown (see `AbstractResults.AbstractResult.OrFail`), so it is not modelled.
- `IAggregateResult` and `IAggregateException` hold signatures only. Their implementing classes are modelled.
- The `IResult` and `Resultlike` interfaces become reference functions, not declarations that classes implement. A class's conformance is proved method by method.
- `AggregateResult` extends `AbstractResult` in PHP. The model composes instead: `base` is the `AbstractResult` part, and the inherited combinators are `base`'s methods.
- There are two `AggregateException` classes. `Hereldar\Results\AggregateException` (src/AggregateException.php) extends `RuntimeException`; `Hereldar\Results\Exceptions\AggregateException` (src/Exceptions/AggregateException.php) extends `Exception`. They differ in namespace, base class and hence `use` lines, and their bodies are the same. `AggregateResult` imports and builds only the `Exceptions` one (src/AggregateResult.php:7 and 78). One class, `Aggregates.AggregateException`, models that body; its namespace and base class are not modelled.
- `Result::of` calls `Error::of($e)` in its catch block, but `Error` declares only `empty` (src/Error.php:35-38), so as written the call fails with PHP's undefined-method error, which escapes `of` (see Findings). `Factories.Of` models the documented behaviour, an `Error` wrapping `e`; the source's `Error` class has no field that could hold `e`, so `MadeError(Some(e))` describes it as a value.
- The private constructor of `Result` is a language-level access rule.
- The subclasses of `AbstractThrowableError` and `AbstractResult` are not modelled. Their class name is the `cls` field.
- Ok's trace comes from `debug_print_backtrace(limit: 5)`, and its text is taken as is.
- Frame numbers and line numbers are natural numbers. Floating point values are not modelled.
- `Aggregates.AggregateResult.IndividualErrors`: it sets the aggregate's `used` flag after the loop, not before. No member can be the aggregate itself, so nothing observable differs.
- The test API that the sources lack is not modelled: `Error::withMessage`, `Error::of`, `Ok::withValue`, and `onSuccess`/`onFailure` on `AggregateResult`. The test that expects an `Error`'s `value()` to be its exception contradicts `Error::value()` and is not followed.
- `Resultlike` declares `onSuccess`, `onFailure` and `orFalse`, but `Ok` and `Error` define none of them. The model follows the classes: `orFalse` exists on `ThrowableError` and `AbstractResult`, and `onSuccess` and `onFailure` only on `ThrowableError`.

## Findings

| source | as written | input that shows it | evidently intended | confidence | as-written member | corrected member |
|---|---|---|---|---|---|---|
| src/Result.php:36-41 | the catch block returns `Error::of($e)`, a static method that `Error` does not declare | `Result::of(fn () => throw new RuntimeException('boom'))` | an `Error` wrapping the caught exception, as the doc comment of `of` says | not executed | Factories.OfAsWritten, Factories.OfAsWrittenThrowsOnThrow, Factories.OfAsWrittenCounterexample | Factories.Of, Factories.OfCatches |
