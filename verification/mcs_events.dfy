/**
 Analytics in the class-based client (mcs.js): `sendAnalytic`,
 `sendBasicEvent`, the event batch buffer (`storeBasicEvent`,
 `flushEvents`) and the auto-flush timer handle.

 A flush is two steps: `FlushStart` snapshots and clears the buffer and
 builds the request; `FlushComplete` runs when the send completes, with
 the completion supplied as input, so events stored in between are
 modelled by applying `StoreBasicEvent` to the client between the steps.
 */
module McsEvents {
  import opened JsValues
  import opened Http
  import opened Mcs

  /** The process-wide ids: the persisted device id and the per-process session id. */
  datatype Identity = Identity(deviceId: string, sessionId: string)

  /** `options.body`: already-serialized text, or an array of event records
      (`typeof` reports "object"). */
  datatype AnalyticBody = TextBody(text: string) | EventArray(events: seq<Event>)

  datatype AnalyticOptions = AnalyticOptions(deviceId: Option<string>, sessionId: Option<string>, body: AnalyticBody)


  /** The POST `sendAnalytic` issues once its body is serialized. */
  function SendAnalyticRequest(c: Client, env: Env, ids: Identity, opts: AnalyticOptions): (r: Request)
    ensures r.verb == POST && r.url == c.baseUrl + "/mobile/platform/analytics/events"
    ensures opts.body.EventArray? ==> r.body == EventsJson(opts.body.events)
    ensures opts.body.TextBody? ==> r.body == Text(opts.body.text)
    ensures Lookup(r.headers, "authorization") == Some(Some(c.authorization))
    ensures Lookup(r.headers, "oracle-mobile-application-key") == Some(Some(if env.os == "iOS" then c.iOSApplicationKey else c.androidApplicationKey))
    ensures Truthy(opts.deviceId) ==> Lookup(r.headers, "oracle-mobile-device-id") == Some(opts.deviceId)
    ensures !Truthy(opts.deviceId) ==> Lookup(r.headers, "oracle-mobile-device-id") == Some(Some(ids.deviceId))
    ensures Truthy(opts.sessionId) ==> Lookup(r.headers, "oracle-mobile-analytics-session-id") == Some(opts.sessionId)
    ensures !Truthy(opts.sessionId) ==> Lookup(r.headers, "oracle-mobile-analytics-session-id") == Some(Some(ids.sessionId))
  {
    var body := match opts.body
      case TextBody(t) => Text(t)
      case EventArray(events) => EventsJson(events);
    Request(
      c.baseUrl + "/mobile/platform/analytics/events",
      POST,
      map[ "Oracle-Mobile-Backend-Id" := Some(c.backendId),
           "authorization" := Some(c.authorization),
           "Content-Type" := Some("application/json; charset=utf-8"),
           "oracle-mobile-application-key" := Some(ApplicationKeyFor(env, c.iOSApplicationKey, c.androidApplicationKey)),
           "oracle-mobile-analytics-session-id" := Some(OrElse(opts.sessionId, ids.sessionId)),
           "oracle-mobile-device-id" := Some(OrElse(opts.deviceId, ids.deviceId)) ],
      body)
  }

  /** `sendAnalytic` as written: `jsonBody` is declared `const`, so the
      reassignment that serializes an object body throws a TypeError before
      any request is made; a text body goes out unchanged. */
  function SendAnalyticAsWritten(c: Client, env: Env, ids: Identity, opts: AnalyticOptions): (r: Sync<Request>)
    ensures r.Thrown? <==> opts.body.EventArray?
    ensures r.Returned? ==> r.value.body == Text(opts.body.text)
  {
    match opts.body
    case EventArray(_) => Thrown
    case TextBody(_) => Returned(SendAnalyticRequest(c, env, ids, opts))
  }

  /** `sendAnalytic`'s completion: the raw body is the error exactly when
      the parsed `message` is null. */
  function SendAnalyticComplete(env: Env, o: Outcome): (r: Completion<string>)
    ensures o.Load? ==> (r == Delivered(Err(Message(o.body))) <==> NullAt(env.parse(o.body), MessageField) == Some(true))
    ensures o.Load? ==> (r == Delivered(Ok(o.body)) <==> NullAt(env.parse(o.body), MessageField) == Some(false))
    ensures o.Fail? ==> r == Delivered(Err(Transport(o.error)))
  {
    Classify(env, o, MessageField)
  }

  /** The record `sendBasicEvent` and `storeBasicEvent` build. */
  function BasicEvent(name: string, timestamp: string): Event
  {
    Event(name, "custom", timestamp)
  }

  /** `sendBasicEvent` as intended (with `jsonBody` a `let`): a one-event
      batch. As written it always passes an array, so it always throws (see
      `SendAnalyticAsWritten`). */
  function SendBasicEvent(c: Client, env: Env, ids: Identity, name: string, timestamp: string): (r: Request)
    ensures r.body == EventsJson([Event(name, "custom", timestamp)])
    ensures r.url == c.baseUrl + "/mobile/platform/analytics/events"
  {
    SendAnalyticRequest(c, env, ids, AnalyticOptions(None, None, EventArray([BasicEvent(name, timestamp)])))
  }

  /** `storeBasicEvent(name)`: the buffer grows by exactly one record, at its end. */
  function StoreBasicEvent(c: Client, name: string, timestamp: string): (d: Client)
    ensures |d.eventStore| == |c.eventStore| + 1
    ensures d.eventStore[..|c.eventStore|] == c.eventStore
    ensures d.eventStore[|c.eventStore|] == Event(name, "custom", timestamp)
    ensures d == c.(eventStore := d.eventStore)
  {
    c.(eventStore := c.eventStore + [BasicEvent(name, timestamp)])
  }

  /** The records a sequence of `storeBasicEvent(name)` calls appends, given
      as (name, timestamp) pairs. */
  function Records(calls: seq<(string, string)>): (es: seq<Event>)
    ensures |es| == |calls|
    ensures forall i :: 0 <= i < |calls| ==> es[i] == BasicEvent(calls[i].0, calls[i].1)
  {
    if calls == [] then [] else Records(calls[..|calls| - 1]) + [BasicEvent(calls[|calls| - 1].0, calls[|calls| - 1].1)]
  }

  /** The client after `calls` are stored one after another. */
  function StoreAll(c: Client, calls: seq<(string, string)>): (d: Client)
    ensures d == c.(eventStore := c.eventStore + Records(calls))
  {
    if calls == [] then c
    else
      var last := calls[|calls| - 1];
      StoreBasicEvent(StoreAll(c, calls[..|calls| - 1]), last.0, last.1)
  }

  /** The first step of `flushEvents`. */
  datatype FlushStep =
    | Idle(client: Client, reply: Reply<string>)                      // empty buffer: `callback()` at once, no request
    | Sending(client: Client, snapshot: seq<Event>, request: Request)  // buffer snapshotted and cleared, request issued

  /** `flushEvents` as intended: with an empty buffer nothing is sent; otherwise
      the whole buffer, in order, becomes the body and the buffer is empty
      before the send completes. */
  function FlushStart(c: Client, env: Env, ids: Identity): (r: FlushStep)
    ensures r.Idle? <==> c.eventStore == []
    ensures r.Idle? ==> r.client == c && r.reply == NoArgs
    ensures r.Sending? ==> r.snapshot == c.eventStore && r.client == c.(eventStore := [])
    ensures r.Sending? ==> r.request.verb == POST && r.request.body == EventsJson(c.eventStore)
  {
    if |c.eventStore| > 0 then
      var cleared := c.(eventStore := []);
      Sending(cleared, c.eventStore, SendAnalyticRequest(cleared, env, ids, AnalyticOptions(None, None, EventArray(c.eventStore))))
    else Idle(c, NoArgs)
  }

  /** `flushEvents` as written: the buffer is cleared, then `sendAnalytic`
      throws on the array body (see `SendAnalyticAsWritten`), so the
      exception reaches the caller, no request is made and no callback runs. */
  function FlushStartAsWritten(c: Client, env: Env, ids: Identity): (r: (Client, Sync<FlushStep>))
    ensures c.eventStore == [] ==> r == (c, Returned(Idle(c, NoArgs)))
    ensures c.eventStore != [] ==> r == (c.(eventStore := []), Thrown)
  {
    if |c.eventStore| > 0 then
      var cleared := c.(eventStore := []);
      match SendAnalyticAsWritten(cleared, env, ids, AnalyticOptions(None, None, EventArray(c.eventStore)))
      case Thrown => (cleared, Thrown)
      case Returned(req) => (cleared, Returned(Sending(cleared, c.eventStore, req)))
    else (c, Returned(Idle(c, NoArgs)))
  }

  /** The defect: a flush of a non-empty buffer as written loses every
      buffered event, where the intended flush keeps them until a send
      succeeds. */
  lemma FlushAsWrittenLosesEvents(c: Client, env: Env, ids: Identity)
    requires c.eventStore != []
    ensures FlushStartAsWritten(c, env, ids).1.Thrown?
    ensures FlushStartAsWritten(c, env, ids).0.eventStore == []
    ensures FlushStart(c, env, ids).Sending? && FlushStart(c, env, ids).snapshot == c.eventStore
  {
  }

  /** The second step of `flushEvents`: the send's callback. On a truthy
      error the snapshot goes back in front of whatever was stored in the
      meantime; the user callback gets the send's own arguments; when the
      send's handler throws, nothing runs and the snapshot is dropped. */
  function FlushComplete(c: Client, snapshot: seq<Event>, sent: Completion<string>): (r: (Client, Completion<string>))
    ensures r.1 == sent
    ensures sent.Delivered? && sent.reply.Err? && TruthyError(sent.reply.error) ==> r.0 == c.(eventStore := snapshot + c.eventStore)
    ensures !(sent.Delivered? && sent.reply.Err? && TruthyError(sent.reply.error)) ==> r.0 == c
  {
    match sent
    case Threw => (c, Threw)
    case Delivered(reply) =>
      if reply.Err? && TruthyError(reply.error) then (c.(eventStore := snapshot + c.eventStore), sent)
      else (c, sent)
  }

  /** A whole flush with `calls` stored while the send is in flight: a failed
      send leaves the snapshot followed by the interleaved records, in order;
      a successful one leaves only the interleaved records; a response whose
      body `JSON.parse` rejects leaves only them too, the snapshot lost. The
      user callback always gets what the send reported. */
  lemma {:induction false} FlushInterleaving(c: Client, env: Env, ids: Identity, calls: seq<(string, string)>, o: Outcome)
    requires c.eventStore != []
    requires ParseRejectsEmpty(env)
    ensures
      var start := FlushStart(c, env, ids);
      var sent := SendAnalyticComplete(env, o);
      var done := FlushComplete(StoreAll(start.client, calls), start.snapshot, sent);
      && start.Sending?
      && done.1 == sent
      && (sent.Delivered? && sent.reply.Err? ==> done.0.eventStore == c.eventStore + Records(calls))
      && (sent.Delivered? && sent.reply.Ok? ==> done.0.eventStore == Records(calls))
      && (sent == Threw ==> done.0.eventStore == Records(calls))
      && SameConfig(done.0, c)
  {
    var start := FlushStart(c, env, ids);
    var mid := StoreAll(start.client, calls);
    assert mid.eventStore == Records(calls);
    var sent := SendAnalyticComplete(env, o);
    if sent.Delivered? && sent.reply.Err? {
      ClassifiedErrorsAreTruthy(env, o, MessageField);
    }
  }

  /** A buffered event followed by a flush of an otherwise empty buffer sends
      the same one-record body `sendBasicEvent` sends, and leaves the buffer empty. */
  lemma StoreThenFlushSendsOne(c: Client, env: Env, ids: Identity, name: string, timestamp: string)
    requires c.eventStore == []
    ensures
      var start := FlushStart(StoreBasicEvent(c, name, timestamp), env, ids);
      && start.Sending?
      && start.client.eventStore == []
      && start.request == SendBasicEvent(c, env, ids, name, timestamp)
  {
    assert StoreBasicEvent(c, name, timestamp).eventStore == [BasicEvent(name, timestamp)];
  }

  /** The default auto-flush period, in milliseconds. */
  const DefaultPeriod: int := 15000

  /** `autoFlushEventsStarted` as intended: a truthy timer handle is held. */
  predicate AutoFlushStarted(c: Client)
  {
    c.autoFlushTimer.Some? && c.autoFlushTimer.value != 0
  }

  /** The period `startAutoFlushEvents(period)` schedules: the default
      parameter applies only when the argument is omitted. */
  function SchedulePeriod(period: Option<int>): int
  {
    if period.Some? then period.value else DefaultPeriod
  }

  /** `startAutoFlushEvents(period)` as intended: the handle `setInterval`
      returns is recorded (a previous one is overwritten, not cleared), and
      the interval uses `period`, 15000 when it is omitted. */
  function StartAutoFlush(c: Client, period: Option<int>, handle: nat): (r: (Client, int))
    ensures handle != 0 ==> AutoFlushStarted(r.0) && StopAutoFlush(r.0).1 == Some(handle)
    ensures handle == 0 ==> !AutoFlushStarted(r.0)
    ensures r.0.(autoFlushTimer := c.autoFlushTimer) == c
    ensures period.None? ==> r.1 == DefaultPeriod
    ensures period.Some? ==> r.1 == period.value
  {
    (c.(autoFlushTimer := Some(handle)), SchedulePeriod(period))
  }

  /** `startAutoFlushEvents` as written: the right-hand side is evaluated
      first, so `setInterval` schedules the periodic flush with the period;
      only then does the write through `privates[this]` (which is
      `undefined`) throw, so the handle is never recorded. The result is the
      client, the period of the interval now running, and the throw. */
  function StartAutoFlushAsWritten(c: Client, period: Option<int>, handle: nat): (r: (Client, int, Sync<()>))
  {
    (c, SchedulePeriod(period), Thrown)
  }

  /** `autoFlushEventsStarted` as written: reading through `privates[this]` throws. */
  function AutoFlushStartedAsWritten(c: Client): Sync<bool>
  {
    Thrown
  }

  /** `stopAutoFlushEvents()`: clears a held handle (returned, as passed to
      `clearInterval`); does nothing when no truthy handle is held. */
  function StopAutoFlush(c: Client): (r: (Client, Option<nat>))
    ensures !AutoFlushStarted(r.0)
    ensures AutoFlushStarted(c) ==> r == (c.(autoFlushTimer := None), c.autoFlushTimer)
    ensures !AutoFlushStarted(c) ==> r == (c, None)
  {
    if !AutoFlushStarted(c) then (c, None)
    else (c.(autoFlushTimer := None), c.autoFlushTimer)
  }

  /** Starting with a truthy handle makes the client report a running timer,
      stopping then cancels exactly that handle, and a second stop does nothing. */
  lemma StartThenStop(c: Client, period: Option<int>, handle: nat)
    requires handle != 0
    ensures AutoFlushStarted(StartAutoFlush(c, period, handle).0)
    ensures StopAutoFlush(StartAutoFlush(c, period, handle).0).1 == Some(handle)
    ensures
      var stopped := StopAutoFlush(StartAutoFlush(c, period, handle).0).0;
      StopAutoFlush(stopped) == (stopped, None) && stopped == c.(autoFlushTimer := None)
  {
  }

  /** The defect: as written, the interval runs with the same period as the
      intended start, but the client records no handle, so every stop is a
      no-op and the interval can never be cancelled; the started flag cannot
      even be read. Each tick of that interval is an as-written flush, which
      on a non-empty buffer clears it and throws. The intended start records
      the handle, and stop cancels it. */
  lemma AutoFlushAsWrittenCannotStop(c: Client, env: Env, ids: Identity, period: Option<int>, handle: nat)
    requires !AutoFlushStarted(c) && handle != 0
    ensures StartAutoFlushAsWritten(c, period, handle).2.Thrown?
    ensures StartAutoFlushAsWritten(c, period, handle).1 == StartAutoFlush(c, period, handle).1
    ensures !AutoFlushStarted(StartAutoFlushAsWritten(c, period, handle).0)
    ensures StopAutoFlush(StartAutoFlushAsWritten(c, period, handle).0).1.None?
    ensures AutoFlushStartedAsWritten(c).Thrown?
    ensures c.eventStore != [] ==>
      var tick := FlushStartAsWritten(StartAutoFlushAsWritten(c, period, handle).0, env, ids);
      tick.0.eventStore == [] && tick.1.Thrown?
    ensures StopAutoFlush(StartAutoFlush(c, period, handle).0).1 == Some(handle)
  {
  }
}
