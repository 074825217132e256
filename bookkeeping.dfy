/**
 * The state the two event handlers keep (`this.requests`, `this.spans`)
 * together with the agent's call log, and the effect of each event on it.
 * The handlers in `Service` are proved to follow `Start` and `Finish`;
 * the lemmas here state what those transitions guarantee.
 */
module Bookkeeping {
  import opened Wrappers
  import opened Events
  import opened Naming
  import opened Apm

  /**
   * `requests`: stored start payloads by event id. `spans`: the value
   * `startSpan` returned for that id, `None` when it returned null.
   * `log` and `next` are the agent's call log and handle counter.
   */
  datatype State = State(
    requests: map<string, Payload>,
    spans: map<string, Option<Handle>>,
    log: seq<Call>,
    next: Handle)

  /** The state right after `created`: both tables empty, nothing sent to the agent. */
  function Initial(): (s: State)
    ensures Inv(s)
    ensures forall id :: !Live(s, id) && id !in s.requests
    ensures Count(s.log, TxStarted) == 0 && Count(s.log, TxEnded) == 0
  {
    State(map[], map[], [], 0)
  }

  /** The agent calls a start event makes after `startSpan` replied `reply`. */
  function StartCalls(p: Payload, reply: Option<Handle>): (calls: seq<Call>)
    ensures |calls| >= 1 && calls[0] == StartSpan(SpanName(p), SpanType(p), reply)
    ensures IsRoot(p) <==> |calls| >= 2
    ensures IsRoot(p) ==> calls[1] == StartTransaction(SpanName(p), TransactionType(p))
  {
    [StartSpan(SpanName(p), SpanType(p), reply)]
    + (if IsRoot(p) then
         [StartTransaction(SpanName(p), TransactionType(p))]
         + (if p.meta.Some? then [SetUserContext(p.meta.value)] else [])
         + (if p.params.Some? then [SetCustomContext(p.params.value)] else [])
       else [])
  }

  /** `metrics.trace.span.start`; `granted` is whether the agent returns a span. */
  function Start(s: State, p: Payload, granted: bool): (t: State)
    ensures t.requests.Keys == s.requests.Keys + {p.id} && t.requests[p.id] == p
    ensures forall k :: k in s.requests && k != p.id ==> t.requests[k] == s.requests[k]
    ensures t.spans.Keys == s.spans.Keys + {p.id}
    ensures t.spans[p.id] == (if granted then Some(s.next) else None)
    ensures forall k :: k in s.spans && k != p.id ==> t.spans[k] == s.spans[k]
    ensures t.log == s.log + StartCalls(p, t.spans[p.id])
    ensures t.next == if granted then s.next + 1 else s.next
  {
    var reply := if granted then Some(s.next) else None;
    State(s.requests[p.id := p], s.spans[p.id := reply],
          s.log + StartCalls(p, reply), if granted then s.next + 1 else s.next)
  }

  /** `this.spans[id]` is truthy: a span handle, not null or undefined, is stored. */
  predicate Live(s: State, id: string) {
    id in s.spans && s.spans[id].Some?
  }

  /** The agent calls a finish event makes. */
  function FinishCalls(s: State, p: Payload): (calls: seq<Call>)
    ensures |calls| == (if Live(s, p.id) then 1 else 0) + (if IsRoot(p) then 1 else 0)
    ensures EndTransaction in calls <==> IsRoot(p)
    ensures forall c :: c in calls && c.EndSpan? ==> Live(s, p.id) && c.ended == s.spans[p.id].value
    ensures Live(s, p.id) ==> calls[0] == EndSpan(s.spans[p.id].value)
    ensures forall c :: c in calls ==> c.EndSpan? || c.EndTransaction?
  {
    (if Live(s, p.id) then [EndSpan(s.spans[p.id].value)] else [])
    + (if IsRoot(p) then [EndTransaction] else [])
  }

  /** `metrics.trace.span.finish`. */
  function Finish(s: State, p: Payload): (t: State)
    ensures t.requests.Keys == s.requests.Keys - {p.id}
    ensures forall k :: k in t.requests ==> t.requests[k] == s.requests[k]
    ensures t.spans.Keys == if Live(s, p.id) then s.spans.Keys - {p.id} else s.spans.Keys
    ensures forall k :: k in t.spans ==> t.spans[k] == s.spans[k]
    ensures t.log == s.log + FinishCalls(s, p)
    ensures t.next == s.next
  {
    var spans := if Live(s, p.id) then s.spans - {p.id} else s.spans;
    State(s.requests - {p.id}, spans, s.log + FinishCalls(s, p), s.next)
  }

  /**
   * What the bookkeeping keeps true:
   *  - no span handle is started twice or ended more often than started;
   *  - handles from `next` on have not been handed out;
   *  - every stored handle is started and not yet ended, and no two ids share one;
   *  - every stored payload has a `spans` entry, and an entry without a payload
   *    is a stored null (what a finish leaves behind when `startSpan` gave null).
   */
  ghost predicate Inv(s: State) {
    (forall h: Handle :: Count(s.log, SpanEnded(h)) <= Count(s.log, SpanStarted(h)) <= 1)
    && (forall h: Handle :: h >= s.next ==> Count(s.log, SpanStarted(h)) == 0)
    && (forall k :: Live(s, k) ==>
          Count(s.log, SpanStarted(s.spans[k].value)) == 1 && Count(s.log, SpanEnded(s.spans[k].value)) == 0)
    && (forall k1, k2 :: Live(s, k1) && Live(s, k2) && k1 != k2 ==> s.spans[k1] != s.spans[k2])
    && s.requests.Keys <= s.spans.Keys
    && (forall k :: k in s.spans && k !in s.requests ==> s.spans[k].None?)
  }

  /** The calls of one start event: one `StartSpan` carrying `reply`, and one transaction start for a root. */
  lemma {:induction false} StartCallsCount(p: Payload, reply: Option<Handle>, k: Kind)
    ensures Count(StartCalls(p, reply), k) ==
      match k
      case SpanStarted(h) => if reply == Some(h) then 1 else 0
      case SpanEnded(_) => 0
      case TxStarted => if IsRoot(p) then 1 else 0
      case TxEnded => 0
  {
    var first := [StartSpan(SpanName(p), SpanType(p), reply)];
    var user := if p.meta.Some? then [SetUserContext(p.meta.value)] else [];
    var custom := if p.params.Some? then [SetCustomContext(p.params.value)] else [];
    var open := [StartTransaction(SpanName(p), TransactionType(p))];
    var tx := if IsRoot(p) then open + user + custom else [];
    assert StartCalls(p, reply) == first + tx;
    CountAppend(first, tx, k);
    if IsRoot(p) {
      CountAppend(open + user, custom, k);
      CountAppend(open, user, k);
    }
  }

  /** A start event adds one `StartSpan` with a fresh handle when granted, and opens a transaction exactly when the payload is a root. */
  lemma {:induction false} StartCounts(s: State, p: Payload, granted: bool, k: Kind)
    ensures Count(Start(s, p, granted).log, k) == Count(s.log, k) + (
      match k
      case SpanStarted(h) => if granted && h == s.next then 1 else 0
      case SpanEnded(_) => 0
      case TxStarted => if IsRoot(p) then 1 else 0
      case TxEnded => 0)
  {
    var reply := if granted then Some(s.next) else None;
    CountAppend(s.log, StartCalls(p, reply), k);
    StartCallsCount(p, reply, k);
  }

  /** A finish event ends the stored span exactly when one is live, and closes a transaction exactly when its own payload is a root. */
  lemma {:induction false} FinishCounts(s: State, p: Payload, k: Kind)
    ensures Count(Finish(s, p).log, k) == Count(s.log, k) + (
      match k
      case SpanStarted(_) => 0
      case SpanEnded(h) => if Live(s, p.id) && s.spans[p.id] == Some(h) then 1 else 0
      case TxStarted => 0
      case TxEnded => if IsRoot(p) then 1 else 0)
  {
    var end := if Live(s, p.id) then [EndSpan(s.spans[p.id].value)] else [];
    var tx := if IsRoot(p) then [EndTransaction] else [];
    CountAppend(s.log, end + tx, k);
    CountAppend(end, tx, k);
  }

  lemma {:induction false} StartPreservesInv(s: State, p: Payload, granted: bool)
    requires Inv(s)
    ensures Inv(Start(s, p, granted))
  {
    var t := Start(s, p, granted);
    forall h: Handle
      ensures Count(t.log, SpanEnded(h)) <= Count(t.log, SpanStarted(h)) <= 1
      ensures h >= t.next ==> Count(t.log, SpanStarted(h)) == 0
    {
      StartCounts(s, p, granted, SpanEnded(h));
      StartCounts(s, p, granted, SpanStarted(h));
    }
    forall k | Live(t, k)
      ensures Count(t.log, SpanStarted(t.spans[k].value)) == 1 && Count(t.log, SpanEnded(t.spans[k].value)) == 0
    {
      StartCounts(s, p, granted, SpanEnded(t.spans[k].value));
      StartCounts(s, p, granted, SpanStarted(t.spans[k].value));
    }
  }

  lemma {:induction false} FinishPreservesInv(s: State, p: Payload)
    requires Inv(s)
    ensures Inv(Finish(s, p))
  {
    var t := Finish(s, p);
    forall h: Handle
      ensures Count(t.log, SpanEnded(h)) <= Count(t.log, SpanStarted(h)) <= 1
      ensures h >= t.next ==> Count(t.log, SpanStarted(h)) == 0
    {
      FinishCounts(s, p, SpanEnded(h));
      FinishCounts(s, p, SpanStarted(h));
    }
    forall k | Live(t, k)
      ensures Count(t.log, SpanStarted(t.spans[k].value)) == 1 && Count(t.log, SpanEnded(t.spans[k].value)) == 0
    {
      FinishCounts(s, p, SpanEnded(t.spans[k].value));
      FinishCounts(s, p, SpanStarted(t.spans[k].value));
    }
  }

  /** One metrics event from the Moleculer broker, in arrival order; `granted` is the agent's answer to `startSpan`. */
  datatype Event = SpanStartEvent(payload: Payload, granted: bool) | SpanFinishEvent(payload: Payload)

  function Apply(s: State, e: Event): (t: State) {
    match e
    case SpanStartEvent(p, granted) => Start(s, p, granted)
    case SpanFinishEvent(p) => Finish(s, p)
  }

  /** The state after handling the events one at a time, as Node's event loop does. */
  function Run(s: State, evs: seq<Event>): (t: State)
    decreases |evs|
  {
    if evs == [] then s else Run(Apply(s, evs[0]), evs[1..])
  }

  lemma {:induction false} RunPreservesInv(s: State, evs: seq<Event>)
    requires Inv(s)
    ensures Inv(Run(s, evs))
    decreases |evs|
  {
    if evs != [] {
      match evs[0] {
        case SpanStartEvent(p, granted) => StartPreservesInv(s, p, granted);
        case SpanFinishEvent(p) => FinishPreservesInv(s, p);
      }
      RunPreservesInv(Apply(s, evs[0]), evs[1..]);
    }
  }

  /** Start events whose payload is a root, and finish events whose payload is a root. */
  function RootStarts(evs: seq<Event>): (n: nat) {
    if evs == [] then 0
    else (if evs[0].SpanStartEvent? && IsRoot(evs[0].payload) then 1 else 0) + RootStarts(evs[1..])
  }

  function RootFinishes(evs: seq<Event>): (n: nat) {
    if evs == [] then 0
    else (if evs[0].SpanFinishEvent? && IsRoot(evs[0].payload) then 1 else 0) + RootFinishes(evs[1..])
  }

  /** Over any run, transactions opened = root starts and transactions closed = root finishes. */
  lemma {:induction false} RunTransactionCounts(s: State, evs: seq<Event>)
    ensures Count(Run(s, evs).log, TxStarted) == Count(s.log, TxStarted) + RootStarts(evs)
    ensures Count(Run(s, evs).log, TxEnded) == Count(s.log, TxEnded) + RootFinishes(evs)
    decreases |evs|
  {
    if evs != [] {
      match evs[0] {
        case SpanStartEvent(p, granted) =>
          StartCounts(s, p, granted, TxStarted);
          StartCounts(s, p, granted, TxEnded);
        case SpanFinishEvent(p) =>
          FinishCounts(s, p, TxStarted);
          FinishCounts(s, p, TxEnded);
      }
      RunTransactionCounts(Apply(s, evs[0]), evs[1..]);
    }
  }

  /** Events about other ids leave the entries of `id` in both tables as they were. */
  lemma {:induction false} RunOtherIds(s: State, evs: seq<Event>, id: string)
    requires forall i :: 0 <= i < |evs| ==> evs[i].payload.id != id
    ensures id in Run(s, evs).requests <==> id in s.requests
    ensures id in s.requests ==> Run(s, evs).requests[id] == s.requests[id]
    ensures id in Run(s, evs).spans <==> id in s.spans
    ensures id in s.spans ==> Run(s, evs).spans[id] == s.spans[id]
    decreases |evs|
  {
    if evs != [] {
      RunOtherIds(Apply(s, evs[0]), evs[1..], id);
    }
  }

  /** A live span stays stored, started once and not ended, while only other ids see events. */
  lemma {:induction false} LiveThroughOtherIds(u: State, evs: seq<Event>, id: string)
    requires Inv(u) && Live(u, id)
    requires forall i :: 0 <= i < |evs| ==> evs[i].payload.id != id
    ensures Live(Run(u, evs), id) && Run(u, evs).spans[id] == u.spans[id]
    ensures Count(Run(u, evs).log, SpanStarted(u.spans[id].value)) == 1
    ensures Count(Run(u, evs).log, SpanEnded(u.spans[id].value)) == 0
  {
    RunOtherIds(u, evs, id);
    RunPreservesInv(u, evs);
  }

  /**
   * A granted start and its finish, with any events on other ids in between,
   * start the span once and end it once; the id is then gone from both tables.
   */
  lemma {:induction false} SpanPairedOnce(s: State, p: Payload, evs: seq<Event>, q: Payload)
    requires Inv(s)
    requires q.id == p.id
    requires forall i :: 0 <= i < |evs| ==> evs[i].payload.id != p.id
    ensures var t := Finish(Run(Start(s, p, true), evs), q);
      && Count(t.log, SpanStarted(s.next)) == 1
      && Count(t.log, SpanEnded(s.next)) == 1
      && p.id !in t.spans && p.id !in t.requests
  {
    var u := Start(s, p, true);
    StartPreservesInv(s, p, true);
    LiveThroughOtherIds(u, evs, p.id);
    var v := Run(u, evs);
    FinishCounts(v, q, SpanStarted(s.next));
    FinishCounts(v, q, SpanEnded(s.next));
  }

  /** A second finish for the same id never ends a span again. */
  lemma {:induction false} DuplicateFinishEndsNothing(s: State, p: Payload, q: Payload, h: Handle)
    requires q.id == p.id
    ensures Count(Finish(Finish(s, p), q).log, SpanEnded(h)) == Count(Finish(s, p).log, SpanEnded(h))
  {
    FinishCounts(Finish(s, p), q, SpanEnded(h));
  }

  /** No id holds handle `h`. */
  predicate Dropped(s: State, h: Handle) {
    forall k :: k in s.spans ==> s.spans[k] != Some(h)
  }

  /** A handle that no id holds any more is never ended by later events. */
  lemma {:induction false} DroppedStaysUnended(s: State, evs: seq<Event>, h: Handle)
    requires Dropped(s, h) && h < s.next
    ensures Count(Run(s, evs).log, SpanEnded(h)) == Count(s.log, SpanEnded(h))
    decreases |evs|
  {
    if evs != [] {
      var u := Apply(s, evs[0]);
      match evs[0] {
        case SpanStartEvent(p, granted) => StartCounts(s, p, granted, SpanEnded(h));
        case SpanFinishEvent(p) => FinishCounts(s, p, SpanEnded(h));
      }
      DroppedStaysUnended(u, evs[1..], h);
    }
  }

  /**
   * A repeated start for an id overwrites the stored handle without ending it,
   * and no later sequence of events ends that span.
   */
  lemma {:induction false} RestartLeaksSpan(s: State, q: Payload, granted: bool, evs: seq<Event>)
    requires Inv(s) && Live(s, q.id)
    ensures var h := s.spans[q.id].value;
      var t := Start(s, q, granted);
      && t.spans[q.id] != Some(h)
      && Count(Run(t, evs).log, SpanEnded(h)) == 0
  {
    var h := s.spans[q.id].value;
    var t := Start(s, q, granted);
    StartCounts(s, q, granted, SpanEnded(h));
    assert h < s.next;
    assert Dropped(t, h);
    DroppedStaysUnended(t, evs, h);
  }

  /**
   * A root request `users.create` on one node, started and finished: one span
   * named after the action, typed by the node path, inside one `request` transaction.
   */
  lemma RootRequestScenario()
    ensures var start := Payload("s1", None, None, Some(Action(Some("users.create"))),
                                 None, None, Some("node-1"), false, false, false, None, None);
      var finish := start.(meta := Some(Blob(1)));
      Run(Initial(), [SpanStartEvent(start, true), SpanFinishEvent(finish)]).log ==
        [StartSpan(Some("users.create"), "node-1", Some(0)),
         StartTransaction(Some("users.create"), "request"),
         EndSpan(0),
         EndTransaction]
  {
    var start := Payload("s1", None, None, Some(Action(Some("users.create"))),
                         None, None, Some("node-1"), false, false, false, None, None);
    var finish := start.(meta := Some(Blob(1)));
    var evs := [SpanStartEvent(start, true), SpanFinishEvent(finish)];
    assert NodePath(start) == ["node-1"];
    var u := Start(Initial(), start, true);
    assert u.log == [StartSpan(Some("users.create"), "node-1", Some(0)),
                     StartTransaction(Some("users.create"), "request")];
    assert Live(u, "s1") && u.spans["s1"] == Some(0);
    var v := Finish(u, finish);
    assert v.log == u.log + [EndSpan(0), EndTransaction];
    assert Run(Initial(), evs) == Run(u, evs[1..]);
    assert Run(u, evs[1..]) == Run(v, []);
  }

  /**
   * The same request when the agent answers `startSpan` with null: the span
   * is never ended, the transaction still is, and a null entry for the id
   * stays behind in `spans` while its payload is gone from `requests`.
   */
  lemma RootRequestNullSpanScenario()
    ensures var start := Payload("s1", None, None, Some(Action(Some("users.create"))),
                                 None, None, Some("node-1"), false, false, false, None, None);
      var t := Run(Initial(), [SpanStartEvent(start, false), SpanFinishEvent(start)]);
      && t.log == [StartSpan(Some("users.create"), "node-1", None),
                   StartTransaction(Some("users.create"), "request"),
                   EndTransaction]
      && t.spans == map["s1" := None]
      && t.requests == map[]
  {
    var start := Payload("s1", None, None, Some(Action(Some("users.create"))),
                         None, None, Some("node-1"), false, false, false, None, None);
    var evs := [SpanStartEvent(start, false), SpanFinishEvent(start)];
    assert NodePath(start) == ["node-1"];
    var u := Start(Initial(), start, false);
    assert u.log == [StartSpan(Some("users.create"), "node-1", None),
                     StartTransaction(Some("users.create"), "request")];
    assert !Live(u, "s1");
    var v := Finish(u, start);
    assert v.log == u.log + [EndTransaction];
    assert Run(Initial(), evs) == Run(u, evs[1..]);
    assert Run(u, evs[1..]) == Run(v, []);
  }
}
