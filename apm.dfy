/**
 * The Elastic APM agent (`this.apm`) as the service sees it: an append-only
 * log of the calls made on it. Span handles are naturals drawn from a counter,
 * so every handle the agent hands out is fresh. Whether `startSpan` yields a
 * span or null is the agent's decision and arrives as the `granted` parameter.
 */
module Apm {
  import opened Wrappers
  import opened Events

  /** An opaque span object returned by `startSpan`. */
  type Handle = nat

  /** One call made on the agent (or, for `EndSpan`, on a span it returned). */
  datatype Call =
    | StartSpan(name: Option<string>, spanType: string, reply: Option<Handle>)
    | EndSpan(ended: Handle)
    | StartTransaction(name: Option<string>, txType: string)
    | EndTransaction
    | SetUserContext(meta: Blob)
    | SetCustomContext(params: Blob)

  /** The kinds of call the lifecycle properties count. */
  datatype Kind = SpanStarted(h: Handle) | SpanEnded(h: Handle) | TxStarted | TxEnded

  predicate IsKind(c: Call, k: Kind) {
    match k
    case SpanStarted(h) => c.StartSpan? && c.reply == Some(h)
    case SpanEnded(h) => c.EndSpan? && c.ended == h
    case TxStarted => c.StartTransaction?
    case TxEnded => c.EndTransaction?
  }

  /** How many calls of kind `k` the log holds. */
  function Count(log: seq<Call>, k: Kind): (n: nat)
  {
    if log == [] then 0
    else (if IsKind(log[0], k) then 1 else 0) + Count(log[1..], k)
  }

  lemma {:induction false} CountAppend(a: seq<Call>, b: seq<Call>, k: Kind)
    ensures Count(a + b, k) == Count(a, k) + Count(b, k)
    decreases |a|
  {
    if a != [] {
      CountAppend(a[1..], b, k);
      assert (a + b)[1..] == a[1..] + b;
    } else {
      assert a + b == b;
    }
  }

  class Agent {
    var calls: seq<Call>
    var next: Handle

    constructor ()
      ensures calls == [] && next == 0
    {
      calls := [];
      next := 0;
    }

    /** `apm.startSpan(name, type)`: a fresh handle when the agent grants a span, null otherwise. */
    method StartSpan(name: Option<string>, spanType: string, granted: bool) returns (r: Option<Handle>)
      modifies this
      ensures r == (if granted then Some(old(next)) else None)
      ensures next == (if granted then old(next) + 1 else old(next))
      ensures calls == old(calls) + [Call.StartSpan(name, spanType, r)]
    {
      if granted {
        r := Some(next);
        next := next + 1;
      } else {
        r := None;
      }
      calls := calls + [Call.StartSpan(name, spanType, r)];
    }

    /** `span.end()` on a span this agent returned. */
    method EndSpan(h: Handle)
      modifies this`calls
      ensures calls == old(calls) + [Call.EndSpan(h)]
    {
      calls := calls + [Call.EndSpan(h)];
    }

    method StartTransaction(name: Option<string>, txType: string)
      modifies this`calls
      ensures calls == old(calls) + [Call.StartTransaction(name, txType)]
    {
      calls := calls + [Call.StartTransaction(name, txType)];
    }

    method EndTransaction()
      modifies this`calls
      ensures calls == old(calls) + [Call.EndTransaction]
    {
      calls := calls + [Call.EndTransaction];
    }

    method SetUserContext(meta: Blob)
      modifies this`calls
      ensures calls == old(calls) + [Call.SetUserContext(meta)]
    {
      calls := calls + [Call.SetUserContext(meta)];
    }

    method SetCustomContext(params: Blob)
      modifies this`calls
      ensures calls == old(calls) + [Call.SetCustomContext(params)]
    {
      calls := calls + [Call.SetCustomContext(params)];
    }
  }
}
