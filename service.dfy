/**
 * The `elastic-apm` service object: the `created` hook and the two event
 * handlers, updating `requests` and `spans` in place and calling the agent.
 */
module Service {
  import opened Wrappers
  import opened Events
  import opened Naming
  import opened Apm
  import opened Bookkeeping

  class ElasticApmService {
    var requests: map<string, Payload>
    var spans: map<string, Option<Handle>>
    const apm: Agent

    /** The handler state together with the agent's log. */
    function Snapshot(): State
      reads this, apm
    {
      State(requests, spans, apm.calls, apm.next)
    }

    ghost predicate Valid()
      reads this, apm
    {
      Inv(Snapshot())
    }

    /** `created`: a connected agent and two empty tables. */
    constructor ()
      ensures Valid() && fresh(apm)
      ensures Snapshot() == Initial()
    {
      apm := new Agent();
      requests := map[];
      spans := map[];
      new;
      assert Snapshot() == Initial();
    }

    /** `metrics.trace.span.start`; `granted` is whether `startSpan` returns a span rather than null. */
    method OnSpanStart(payload: Payload, granted: bool)
      requires Valid()
      modifies this, apm
      ensures Valid()
      ensures Snapshot() == Start(old(Snapshot()), payload, granted)
    {
      ghost var s := Snapshot();
      var name, spanType := SpanName(payload), SpanType(payload);
      requests := requests[payload.id := payload];
      var span := apm.StartSpan(name, spanType, granted);
      spans := spans[payload.id := span];
      ghost var tx: seq<Call> := [];
      if !Truthy(payload.parent) {
        var txType := TransactionType(payload);
        apm.StartTransaction(name, txType);
        tx := [Call.StartTransaction(name, txType)];
        if payload.meta.Some? {
          apm.SetUserContext(payload.meta.value);
          tx := tx + [Call.SetUserContext(payload.meta.value)];
        }
        if payload.params.Some? {
          apm.SetCustomContext(payload.params.value);
          tx := tx + [Call.SetCustomContext(payload.params.value)];
        }
      }
      assert apm.calls == s.log + [Call.StartSpan(name, spanType, span)] + tx;
      assert StartCalls(payload, span) == [Call.StartSpan(name, spanType, span)] + tx;
      assert apm.calls == s.log + StartCalls(payload, span);
      assert requests == s.requests[payload.id := payload];
      assert spans == s.spans[payload.id := span];
      assert Start(s, payload, granted) == State(requests, spans, s.log + StartCalls(payload, span), apm.next);
      StartPreservesInv(s, payload, granted);
    }

    /** `metrics.trace.span.finish`. */
    method OnSpanFinish(payload: Payload)
      requires Valid()
      modifies this, apm
      ensures Valid()
      ensures Snapshot() == Finish(old(Snapshot()), payload)
    {
      ghost var s := Snapshot();
      if payload.id in spans && spans[payload.id].Some? {
        apm.EndSpan(spans[payload.id].value);
        spans := spans - {payload.id};
      }
      if !Truthy(payload.parent) {
        apm.EndTransaction();
      }
      requests := requests - {payload.id};
      assert Snapshot() == Finish(s, payload);
      FinishPreservesInv(s, payload);
    }
  }
}
