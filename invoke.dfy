/**
 * The application-command entry point of a hybrid command
 * (`HybridAppCommand._invoke_with_namespace`): build a context, prepare the
 * wrapped command, run its callback, and sort any exception into one that is
 * re-raised to the application-command caller or one that is handed, as a
 * CommandError, to the wrapped command's error dispatch.
 */
module Invoke {
  import opened Errors
  import Converters

  /** What the `except` clauses make of an exception raised by prepare or the call. */
  datatype Handling = Reraise | Dispatch(error: Exc)

  /** A TransformerError whose cause is a CommandError. */
  predicate WrapsCommandError(e: Exc) {
    e.TransformerError? && e.cause.Some? && IsCommandError(e.cause.value)
  }

  /**
   * The `except` clauses, tried in the order the source lists them. An
   * exception none of them names is not caught and propagates as it is.
   */
  function Classify(e: Exc): (h: Handling)
    // re-raised: a signature mismatch, and whatever belongs to neither hierarchy
    ensures h.Reraise? <==> e.SignatureMismatch? || !(IsCommandError(e) || IsAppCommandError(e))
    // what is dispatched is always a CommandError (the type of `exc`)
    ensures h.Dispatch? ==> IsCommandError(h.error)
    ensures WrapsCommandError(e) ==> h == Dispatch(e.cause.value)
    ensures IsAppCommandError(e) && !e.SignatureMismatch? && !WrapsCommandError(e) ==>
              h == Dispatch(HybridCommandError(e)) && Cause(h.error) == Some(e)
    ensures IsCommandError(e) ==> h == Dispatch(e)
    // nothing is lost: the dispatched error is the original, its wrapper, or its cause
    ensures h.Dispatch? ==> h.error == e || Cause(h.error) == Some(e) || Cause(e) == Some(h.error)
  {
    if e.SignatureMismatch? then Reraise
    else if e.TransformerError? then
      if WrapsCommandError(e) then Dispatch(e.cause.value) else Dispatch(HybridCommandError(e))
    else if e.AppCommandError? then Dispatch(HybridCommandError(e))
    else if IsCommandError(e) then Dispatch(e)
    else Reraise
  }

  /** The host calls the entry point makes, in the order it makes them. */
  datatype Step = GetContext | Prepare | Call | DispatchError(error: Exc)

  /** What the caller sees, and which calls were made. */
  datatype Invocation = Invocation(outcome: Outcome, steps: seq<Step>)

  /** The exception caught around prepare and the call, if any. */
  function Caught(prepare: Completion, call: Outcome): Option<Exc> {
    if prepare.Threw? then Some(prepare.error)
    else if call.Raised? then Some(call.error)
    else None
  }

  ghost predicate NoDispatch(steps: seq<Step>) {
    forall i :: 0 <= i < |steps| ==> !steps[i].DispatchError?
  }

  /**
   * `_invoke_with_namespace`. `getContext`, `prepare` and `call` say how
   * `bot.get_context`, `wrapped.prepare` and `_do_call` finished; `call` is
   * only looked at when prepare finished normally. A handled error is
   * dispatched once, after which the entry point returns None.
   */
  function InvokeWithNamespace(getContext: Completion, prepare: Completion, call: Outcome): (r: Invocation)
    // the context is built first; a failure there propagates
    ensures getContext.Threw? ==> r == Invocation(Raised(getContext.error), [GetContext])
    // a call is made only after a successful prepare
    ensures (Call in r.steps) <==> getContext.Normal? && prepare.Normal?
    // on success the callback's result is returned and nothing is dispatched
    ensures getContext.Normal? && prepare.Normal? && call.Returned? ==>
              r.outcome == call && NoDispatch(r.steps)
    // a re-raised error reaches the caller untouched and is not dispatched
    ensures getContext.Normal? && Caught(prepare, call).Some? &&
            Classify(Caught(prepare, call).value).Reraise? ==>
              r.outcome == Raised(Caught(prepare, call).value) && NoDispatch(r.steps)
    // any other error is dispatched exactly once, as the last step, and None is returned
    ensures getContext.Normal? && Caught(prepare, call).Some? &&
            Classify(Caught(prepare, call).value).Dispatch? ==>
              && r.outcome == Returned(PyNone)
              && |r.steps| > 0
              && r.steps[|r.steps| - 1] == DispatchError(Classify(Caught(prepare, call).value).error)
              && NoDispatch(r.steps[..|r.steps| - 1])
    // whatever the caller sees raised was never dispatched
    ensures r.outcome.Raised? ==> NoDispatch(r.steps)
  {
    if getContext.Threw? then Invocation(Raised(getContext.error), [GetContext])
    else
      var ran := if prepare.Threw? then [GetContext, Prepare] else [GetContext, Prepare, Call];
      match Caught(prepare, call)
      case None => Invocation(call, ran)
      case Some(e) =>
        match Classify(e)
        case Reraise => Invocation(Raised(e), ran)
        case Dispatch(exc) => Invocation(Returned(PyNone), ran + [DispatchError(exc)])
  }

  /**
   * A converter that fails during argument transformation (which runs inside
   * prepare) is reported through the error dispatch: the transformation
   * raises TransformerError caused by what the converter's transform raised,
   * and the entry point dispatches that cause, which is either the
   * converter's own CommandError or a ConversionError carrying the converter
   * and the original exception.
   */
  lemma ConverterFailureIsDispatched(c: Converter, e: Exc, value: string, call: Outcome)
    requires Converters.IsConverter(c)
    ensures var t := Converters.Transform(c, Raised(e));
            var r := InvokeWithNamespace(Normal, Threw(TransformerError(value, Some(t.outcome.error))), call);
            && r.outcome == Returned(PyNone)
            && r.steps == [GetContext, Prepare,
                           DispatchError(if IsCommandError(e) then e else ConversionError(c, e))]
  {
  }
}
