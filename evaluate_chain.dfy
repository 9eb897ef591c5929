/**
 * A chain of handlers: each handler either skips the request, answers it, or
 * throws; the chain answers with the first handler that does not skip.
 */
module Chains {
  import opened Wrappers

  /** What one handler does with a request: `Skip`, a response, or a thrown error. */
  datatype Response<+O> = Skip | Respond(value: O) | Throw(message: string)

  const UnhandledMessage := "Unhandled request"

  /** The chain's outcome for `data` and `context`. */
  function Evaluate<I, O, C>(handlers: seq<(I, Option<C>) -> Response<O>>, data: I, context: Option<C>): Result<O>
  {
    if |handlers| == 0 then Err(UnhandledMessage)
    else match handlers[0](data, context)
      case Skip => Evaluate(handlers[1..], data, context)
      case Respond(v) => Ok(v)
      case Throw(m) => Err(m)
  }

  /** How many handlers, from the front of the list, the chain calls. */
  function Invoked<I, O, C>(handlers: seq<(I, Option<C>) -> Response<O>>, data: I, context: Option<C>): nat
  {
    if |handlers| == 0 then 0
    else if handlers[0](data, context).Skip? then 1 + Invoked(handlers[1..], data, context)
    else 1
  }

  /** The handler at `k` is the first that does not skip: the chain's outcome is its response, and no handler after it is called. */
  lemma {:induction false} FirstAnswerWins<I, O, C>(handlers: seq<(I, Option<C>) -> Response<O>>, data: I, context: Option<C>, k: nat)
    requires k < |handlers|
    requires forall j :: 0 <= j < k ==> handlers[j](data, context).Skip?
    requires !handlers[k](data, context).Skip?
    ensures Invoked(handlers, data, context) == k + 1
    ensures handlers[k](data, context).Respond? ==> Evaluate(handlers, data, context) == Ok(handlers[k](data, context).value)
    ensures handlers[k](data, context).Throw? ==> Evaluate(handlers, data, context) == Err(handlers[k](data, context).message)
  {
    if k > 0 {
      FirstAnswerWins(handlers[1..], data, context, k - 1);
    }
  }

  /** When every handler skips (in particular with no handlers), all are called and the chain throws "Unhandled request". */
  lemma {:induction false} AllSkipUnhandled<I, O, C>(handlers: seq<(I, Option<C>) -> Response<O>>, data: I, context: Option<C>)
    requires forall j :: 0 <= j < |handlers| ==> handlers[j](data, context).Skip?
    ensures Invoked(handlers, data, context) == |handlers|
    ensures Evaluate(handlers, data, context) == Err(UnhandledMessage)
  {
    if |handlers| > 0 {
      AllSkipUnhandled(handlers[1..], data, context);
    }
  }

  /** An answer always comes from a handler that was called, with every handler before it skipping. */
  lemma {:induction false} AnswerComesFromACalledHandler<I, O, C>(handlers: seq<(I, Option<C>) -> Response<O>>, data: I, context: Option<C>)
    requires Evaluate(handlers, data, context).Ok?
    ensures 0 < Invoked(handlers, data, context) <= |handlers|
    ensures var k := Invoked(handlers, data, context) - 1;
      handlers[k](data, context) == Respond(Evaluate(handlers, data, context).value) &&
      forall j :: 0 <= j < k ==> handlers[j](data, context).Skip?
  {
    if handlers[0](data, context).Skip? {
      AnswerComesFromACalledHandler(handlers[1..], data, context);
      var k := Invoked(handlers, data, context) - 1;
      forall j | 0 <= j < k
        ensures handlers[j](data, context).Skip?
      {
        if j > 0 {
          assert handlers[j] == handlers[1..][j - 1];
        }
      }
    }
  }

  /**
   * `evaluateChain`: calls the handlers in list order with the same data and
   * context and stops at the first that does not skip. `invoked` counts the
   * handlers called.
   */
  method EvaluateChain<I, O, C>(data: I, handlers: seq<(I, Option<C>) -> Response<O>>, context: Option<C>)
    returns (r: Result<O>, invoked: nat)
    ensures r == Evaluate(handlers, data, context)
    ensures invoked == Invoked(handlers, data, context)
  {
    invoked := 0;
    for i := 0 to |handlers|
      invariant invoked == i
      invariant Evaluate(handlers, data, context) == Evaluate(handlers[i..], data, context)
      invariant Invoked(handlers, data, context) == i + Invoked(handlers[i..], data, context)
    {
      assert handlers[i..][1..] == handlers[i + 1..];
      var handler := handlers[i];
      var response := handler(data, context);
      invoked := invoked + 1;
      match response {
        case Skip =>
        case Respond(v) => return Ok(v), invoked;
        case Throw(m) => return Err(m), invoked;
      }
    }
    return Err(UnhandledMessage), invoked;
  }
}
