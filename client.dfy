/** pycordia/client.py: the handler registry and the routing of a gateway
    event to its handler. */
module ClientModel {
  import opened Py
  import opened Json
  import Events
  import MessageModel

  // ---------------------------------------------------------------------
  // Handlers and dispatch

  /** A registered coroutine: its `__name__` and an opaque identity. */
  datatype Handler = Handler(name: string, code: nat)

  /** What the handler is called with. */
  datatype EventArg =
    | ReadyArg(ready: Events.ReadyEvent)
    | TypingArg(typing: Events.TypingStartEvent)
    | MessageArg(message: MessageModel.Message)
    | RawArg(raw: Json)

  datatype Call = Call(handler: Handler, arg: EventArg)

  function HandlerName(eventName: string): string {
    "on_" + Lower(eventName)
  }

  /** The two arguments the source passes to `MessageDeleteEvent`: the
      payload and whether the (lower-cased) name is the bulk one. */
  function DeleteArgs(name: string, eventData: Json): (Json, bool) {
    (eventData, name == "message_delete_bulk")
  }

  /** `call_event_handler`: the name is lower-cased first, then routed. */
  function Dispatch(events: map<string, Handler>, eventName: string, eventData: Json): (r: Result<Option<Call>>)
    ensures HandlerName(eventName) !in events ==> r == Ok(None)
    ensures r.Ok? && r.value.Some? ==>
      HandlerName(eventName) in events && r.value.value.handler == events[HandlerName(eventName)]
  {
    Route(events, Lower(eventName), eventData)
  }

  /** Routing a lower-cased name: no call when no handler is registered
      under `on_<name>`; otherwise the handler receives the typed event for
      the three readable names and the raw payload for any other. A delete
      event raises: `MessageDeleteEvent` takes three arguments and is given
      the two of `DeleteArgs`. */
  function Route(events: map<string, Handler>, name: string, eventData: Json): (r: Result<Option<Call>>)
    ensures "on_" + name !in events ==> r == Ok(None)
    ensures r.Ok? && r.value.Some? ==> "on_" + name in events && r.value.value.handler == events["on_" + name]
  {
    var funcName := "on_" + name;
    if funcName !in events then Ok(None)
    else
      var func := events[funcName];
      if name == "ready" then
        var e :- Events.ReadyFromJson(eventData);
        Ok(Some(Call(func, ReadyArg(e))))
      else if name == "typing_start" then
        var e :- Events.TypingFromJson(eventData);
        Ok(Some(Call(func, TypingArg(e))))
      else if name == "message_create" then
        var m :- MessageModel.MessageFromJson(eventData);
        Ok(Some(Call(func, MessageArg(m))))
      else if name == "message_delete" || name == "message_delete_bulk" then
        var _ := DeleteArgs(name, eventData);
        Err(TypeError("__init__() missing 1 required positional argument: 'messages'"))
      else
        Ok(Some(Call(func, RawArg(eventData))))
  }

  /** Event names are matched without regard to ASCII case. */
  lemma DispatchIgnoresCase(events: map<string, Handler>, eventName: string, eventData: Json)
    ensures Dispatch(events, eventName, eventData) == Dispatch(events, Lower(eventName), eventData)
  {
    LowerIdempotent(eventName);
  }

  /** A "ready" event with a handler: the handler gets the `ReadyEvent`, or
      reading the payload raises. */
  lemma DispatchReady(events: map<string, Handler>, eventName: string, eventData: Json)
    requires HandlerName(eventName) in events && Lower(eventName) == "ready"
    ensures Dispatch(events, eventName, eventData) ==
        (match Events.ReadyFromJson(eventData)
         case Ok(e) => Ok(Some(Call(events[HandlerName(eventName)], ReadyArg(e))))
         case Err(x) => Err(x))
  {
  }

  /** A "typing_start" event with a handler gets the `TypingStartEvent`. */
  lemma DispatchTyping(events: map<string, Handler>, eventName: string, eventData: Json)
    requires HandlerName(eventName) in events && Lower(eventName) == "typing_start"
    ensures Dispatch(events, eventName, eventData) ==
        (match Events.TypingFromJson(eventData)
         case Ok(e) => Ok(Some(Call(events[HandlerName(eventName)], TypingArg(e))))
         case Err(x) => Err(x))
  {
  }

  /** A "message_create" event with a handler gets the `Message`. */
  lemma DispatchMessage(events: map<string, Handler>, eventName: string, eventData: Json)
    requires HandlerName(eventName) in events && Lower(eventName) == "message_create"
    ensures Dispatch(events, eventName, eventData) ==
        (match MessageModel.MessageFromJson(eventData)
         case Ok(m) => Ok(Some(Call(events[HandlerName(eventName)], MessageArg(m))))
         case Err(x) => Err(x))
  {
  }

  /** Any other name with a handler passes the payload through unchanged. */
  lemma DispatchOther(events: map<string, Handler>, eventName: string, eventData: Json)
    requires HandlerName(eventName) in events
    requires Lower(eventName) !in {"ready", "typing_start", "message_create", "message_delete", "message_delete_bulk"}
    ensures Dispatch(events, eventName, eventData) == Ok(Some(Call(events[HandlerName(eventName)], RawArg(eventData))))
  {
  }

  /** Every delete event with a registered handler raises TypeError, single
      or bulk. */
  lemma DeleteDispatchRaises(events: map<string, Handler>, eventName: string, eventData: Json)
    requires HandlerName(eventName) in events
    requires Lower(eventName) == "message_delete" || Lower(eventName) == "message_delete_bulk"
    ensures Dispatch(events, eventName, eventData).Err?
    ensures Dispatch(events, eventName, eventData).error.TypeError?
  {
  }

  /** After registering `fun`, an event whose handler name is `fun`'s name
      goes to `fun`, whatever was registered under that name before. */
  lemma LatestRegistrationWins(events: map<string, Handler>, fun: Handler, eventName: string, eventData: Json)
    requires HandlerName(eventName) == fun.name
    ensures var r := Dispatch(events[fun.name := fun], eventName, eventData);
      r.Ok? && r.value.Some? ==> r.value.value.handler == fun
    ensures Dispatch(events[fun.name := fun], eventName, eventData) != Ok(None)
  {
  }

  class Client {
    var events: map<string, Handler>
    var intents: Json

    constructor (intents: Json)
      ensures events == map[] && this.intents == intents
    {
      events := map[];
      this.intents := intents;
    }

    /** `@client.event`: store the handler under its own name, replacing any
        handler of that name. */
    method Event(fun: Handler)
      modifies this`events
      ensures events == old(events)[fun.name := fun]
      ensures fun.name in events && events[fun.name] == fun
      ensures forall n :: n in old(events) && n != fun.name ==> n in events && events[n] == old(events)[n]
    {
      events := events[fun.name := fun];
    }

    method CallEventHandler(eventName: string, eventData: Json) returns (r: Result<Option<Call>>)
      ensures r == Dispatch(events, eventName, eventData)
    {
      var name := Lower(eventName);
      var funcName := "on_" + name;
      if funcName in events {
        r := Dispatch(events, eventName, eventData);
      } else {
        r := Ok(None);
      }
    }
  }
}
