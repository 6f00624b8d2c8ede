/**
 * The client-side analytics buffer (src/utils/analytics.ts): events are queued with the
 * visitor id and the time, and handed on as one batch when the queue grows past ten
 * entries or a flush is requested. Handing on is writing to the console, so the batches
 * are recorded in `sent`; the timers that request flushes are left out.
 */
module Analytics {
  import opened Common
  import opened Http
  import opened Storage
  import opened UserId

  /** Event data; the values are kept as already-rendered strings. */
  type EventData = map<string, string>

  /** `AnalyticsEvent` */
  datatype AnalyticsEvent = AnalyticsEvent(event: string, userId: string, timestamp: int, data: Option<EventData>)

  /** The queue length past which `track` flushes at once. */
  const FlushThreshold: int := 10

  /** What `trackError` receives: a missing or non-object value (`NotAnObject`), or an
    * error object with its optional message and stack. */
  datatype ErrorValue = NotAnObject | ErrorObject(message: Option<string>, stack: Option<string>)

  class Analytics {
    var events: seq<AnalyticsEvent>
    var isInitialized: bool
    /** The batches handed on so far, oldest first. */
    var sent: seq<seq<AnalyticsEvent>>

    constructor()
      ensures events == [] && !isInitialized && sent == []
    {
      events := [];
      isInitialized := false;
      sent := [];
    }

    /** `init()`: whether it schedules the set-up timer. It does not once initialised
      * or on the server; the flag itself is set only when the timer fires. */
    method Init(onServer: bool) returns (scheduled: bool)
      ensures scheduled <==> !isInitialized && !onServer
    {
      scheduled := !(isInitialized || onServer);
    }

    /** The set-up timer's callback: the flag is set (unless on the server). */
    method InitTimerFires(onServer: bool)
      modifies this
      ensures isInitialized == (old(isInitialized) || !onServer)
      ensures events == old(events) && sent == old(sent)
    {
      if onServer {
        return;
      }
      isInitialized := true;
    }

    /** `flushEvents()`: an empty queue is left alone; otherwise the whole queue, in
      * insertion order, is handed on as one batch and the queue is emptied. */
    method FlushEvents(onServer: bool)
      modifies this
      ensures old(events) == [] || onServer ==> events == old(events) && sent == old(sent)
      ensures old(events) != [] && !onServer ==> events == [] && sent == old(sent) + [old(events)]
      ensures isInitialized == old(isInitialized)
    {
      if |events| == 0 || onServer {
        return;
      }
      var eventsToSend := events;
      events := [];
      sent := sent + [eventsToSend];
    }

    /** `track(event, data)` at time `now`: one event carrying the stored visitor id (or
      * `unknown`) is queued, and a queue longer than ten is flushed. */
    method Track(event: string, data: Option<EventData>, store: LocalStorage, now: int, onServer: bool)
      modifies this
      ensures onServer ==> events == old(events) && sent == old(sent)
      ensures !onServer ==> Queued(old(sent), old(events), NewEvent(event, data, store.GetItem(UserIdKey), now), sent, events)
      ensures isInitialized == old(isInitialized)
    {
      if onServer {
        return;
      }
      var userId := OrElse(store.GetItem(UserIdKey), "unknown");
      events := events + [AnalyticsEvent(event, userId, now, data)];
      if |events| > 10 {
        FlushEvents(onServer);
      }
    }

    /** `trackError(error, context)`: nothing for a non-object or an error without a
      * message; otherwise one `error` event with the message, the stack and the context. */
    method TrackError(error: ErrorValue, context: Option<string>, store: LocalStorage, now: int, onServer: bool)
      modifies this
      ensures !(error.ErrorObject? && Truthy(error.message)) || onServer ==> events == old(events) && sent == old(sent)
      ensures error.ErrorObject? && Truthy(error.message) && !onServer
              ==> Queued(old(sent), old(events),
                         NewEvent("error", Some(ErrorData(error.message.value, error.stack, context)), store.GetItem(UserIdKey), now),
                         sent, events)
      ensures isInitialized == old(isInitialized)
    {
      if !error.ErrorObject? || !Truthy(error.message) {
        return;
      }
      Track("error", Some(ErrorData(error.message.value, error.stack, context)), store, now, onServer);
    }

    /** `trackUserAction(action, data)`: a `user_action` event whose data is `{action, ...data}`. */
    method TrackUserAction(action: string, data: Option<EventData>, store: LocalStorage, now: int, onServer: bool)
      modifies this
      ensures onServer ==> events == old(events) && sent == old(sent)
      ensures !onServer ==> Queued(old(sent), old(events),
                                   NewEvent("user_action", Some(ActionData(action, data)), store.GetItem(UserIdKey), now),
                                   sent, events)
      ensures isInitialized == old(isInitialized)
    {
      Track("user_action", Some(ActionData(action, data)), store, now, onServer);
    }
  }

  /** The event `track` builds: a missing or empty stored id becomes `unknown`. */
  function NewEvent(event: string, data: Option<EventData>, storedId: Option<string>, now: int): (e: AnalyticsEvent)
    ensures e.event == event && e.timestamp == now && e.data == data
    ensures Truthy(storedId) ==> e.userId == storedId.value
    ensures !Truthy(storedId) ==> e.userId == "unknown"
  {
    AnalyticsEvent(event, OrElse(storedId, "unknown"), now, data)
  }

  /** The new state after `track` queued `e`: the queue grows by `e`, or, once it holds
    * more than ten events, goes out as one batch and the queue is empty. */
  predicate Queued(oldSent: seq<seq<AnalyticsEvent>>, oldEvents: seq<AnalyticsEvent>, e: AnalyticsEvent,
                   sent: seq<seq<AnalyticsEvent>>, events: seq<AnalyticsEvent>)
  {
    if |oldEvents| + 1 > FlushThreshold then events == [] && sent == oldSent + [oldEvents + [e]]
    else events == oldEvents + [e] && sent == oldSent
  }

  /** The data of an error event; absent fields are left out. */
  function ErrorData(message: string, stack: Option<string>, context: Option<string>): (d: EventData)
    ensures "message" in d && d["message"] == message
    ensures "stack" in d <==> stack.Some?
    ensures stack.Some? ==> d["stack"] == stack.value
    ensures "context" in d <==> context.Some?
    ensures context.Some? ==> d["context"] == context.value
    ensures d.Keys <= {"message", "stack", "context"}
  {
    var withStack := map["message" := message] + (if stack.Some? then map["stack" := stack.value] else map[]);
    assert withStack["message"] == message;
    withStack + (if context.Some? then map["context" := context.value] else map[])
  }

  /** `{ action, ...data }`: the spread comes last, so a key `action` in `data` wins; a
    * missing `data` spreads nothing. */
  function ActionData(action: string, data: Option<EventData>): (d: EventData)
    ensures data.None? ==> d == map["action" := action]
    ensures data.Some? ==> d.Keys == data.value.Keys + {"action"}
    ensures data.Some? && "action" in data.value ==> d["action"] == data.value["action"]
    ensures !(data.Some? && "action" in data.value) ==> d["action"] == action
    ensures data.Some? ==> forall k :: k in data.value ==> d[k] == data.value[k]
  {
    map["action" := action] + (if data.Some? then data.value else map[])
  }

  /** Every event tracked so far, handed on or still queued, in order. */
  function Flattened(sent: seq<seq<AnalyticsEvent>>, events: seq<AnalyticsEvent>): seq<AnalyticsEvent>
    decreases |sent|
  {
    if sent == [] then events else sent[0] + Flattened(sent[1..], events)
  }

  /** Whichever way `track` goes, exactly one event is added at the end of the overall
    * order, and the queue never holds more than ten events afterwards. */
  lemma QueuedAppendsOne(oldSent: seq<seq<AnalyticsEvent>>, oldEvents: seq<AnalyticsEvent>, e: AnalyticsEvent,
                         sent: seq<seq<AnalyticsEvent>>, events: seq<AnalyticsEvent>)
    requires Queued(oldSent, oldEvents, e, sent, events)
    ensures Flattened(sent, events) == Flattened(oldSent, oldEvents) + [e]
    ensures |events| <= FlushThreshold
    ensures |events| == 0 || events[|events| - 1] == e
  {
    if |oldEvents| + 1 > FlushThreshold {
      FlattenedBatch(oldSent, oldEvents + [e]);
      FlattenedQueue(oldSent, oldEvents, e);
    } else {
      FlattenedQueue(oldSent, oldEvents, e);
    }
  }

  /** Handing the queue on as a batch keeps the overall order. */
  lemma {:induction false} FlattenedBatch(sent: seq<seq<AnalyticsEvent>>, batch: seq<AnalyticsEvent>)
    ensures Flattened(sent + [batch], []) == Flattened(sent, batch)
    decreases |sent|
  {
    if sent == [] {
      assert Flattened([batch], []) == batch + Flattened([], []);
    } else {
      assert (sent + [batch])[1..] == sent[1..] + [batch];
      FlattenedBatch(sent[1..], batch);
    }
  }

  /** Queuing an event adds it at the end of the overall order. */
  lemma {:induction false} FlattenedQueue(sent: seq<seq<AnalyticsEvent>>, events: seq<AnalyticsEvent>, e: AnalyticsEvent)
    ensures Flattened(sent, events + [e]) == Flattened(sent, events) + [e]
    decreases |sent|
  {
    if sent != [] {
      FlattenedQueue(sent[1..], events, e);
    }
  }
}
