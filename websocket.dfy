/** pycordia/websocket.py: the gateway client. The socket is replaced by the
    frames it delivers and the effects the client asks of it; a text frame
    carries the value `data.json()` decodes, and `platform.system()` is an
    input. The two tasks `listen` gathers are modelled as two separate
    steps over the same fields, without interleaving. */
module Gateway {
  import opened Py
  import opened Json
  import ClientModel

  /** `client.events`: the handlers registered on the client the gateway
      forwards to. */
  type Registry = map<string, ClientModel.Handler>

  /** `DiscordWebSocket.opcodes`, in display order (the misspelt
      "INVALID_SESION" is the source's key). */
  const Opcodes: Dict<int> := [
    ("DISPATCH", 0), ("HEARTBEAT", 1), ("IDENTIFY", 2), ("PRESENCE_UPDATE", 3),
    ("VOICE_STATE_UPDATE", 4), ("RESUME", 6), ("RECONNECT", 7),
    ("REQUEST_GUILD_MEMBERS", 8), ("INVALID_SESION", 9), ("HELLO", 10), ("HEARTBEAT_ACK", 11)]

  const DispatchOp := 0
  const HeartbeatOp := 1
  const IdentifyOp := 2
  const HelloOp := 10

  const OpcodeNames: seq<string> := [
    "DISPATCH", "HEARTBEAT", "IDENTIFY", "PRESENCE_UPDATE", "VOICE_STATE_UPDATE", "RESUME",
    "RECONNECT", "REQUEST_GUILD_MEMBERS", "INVALID_SESION", "HELLO", "HEARTBEAT_ACK"]

  lemma OpcodeNamesDistinct()
    ensures DistinctKeys(OpcodeNames)
  {
  }

  /** The four opcodes the client uses, read from the table. */
  lemma OpcodeTable()
    ensures Lookup(Opcodes, "DISPATCH") == Some(DispatchOp)
    ensures Lookup(Opcodes, "HEARTBEAT") == Some(HeartbeatOp)
    ensures Lookup(Opcodes, "IDENTIFY") == Some(IdentifyOp)
    ensures Lookup(Opcodes, "HELLO") == Some(HelloOp)
  {
    KeysDisplay(Opcodes, OpcodeNames);
    OpcodeNamesDistinct();
    LookupDistinct(Opcodes, OpcodeNames, 0);
    LookupDistinct(Opcodes, OpcodeNames, 1);
    LookupDistinct(Opcodes, OpcodeNames, 2);
    LookupDistinct(Opcodes, OpcodeNames, 9);
  }

  /** No two names share a code. */
  lemma OpcodesDistinct()
    ensures forall i, j :: 0 <= i < j < |Opcodes| ==> Opcodes[i].1 != Opcodes[j].1
  {
  }

  /** `get_identify()`, given the stored token and intents and the name of
      the operating system. */
  function Identify(token: Json, intents: Json, os: string): Json {
    JObj([
      ("op", JInt(IdentifyOp)),
      ("d", JObj([
        ("token", token),
        ("properties", JObj([("$os", JStr(os)), ("$browser", JStr("pycordia")), ("$device", JStr("pycordia"))])),
        ("compress", JBool(false)),
        ("large_threshold", JInt(250)),
        ("intents", intents)]))])
  }

  /** The identify frame: opcode 2 and, under "d", the token and intents as
      stored, no compression, a large threshold of 250 and "pycordia" as
      browser and device. */
  lemma IdentifyShape(token: Json, intents: Json, os: string)
    ensures var f := Identify(token, intents, os);
      Keys(f.fields) == ["op", "d"] && Lookup(f.fields, "op") == Some(JInt(2))
    ensures var d := Lookup(Identify(token, intents, os).fields, "d").value;
      d.JObj? && Keys(d.fields) == ["token", "properties", "compress", "large_threshold", "intents"]
      && Lookup(d.fields, "token") == Some(token)
      && Lookup(d.fields, "properties").Some?
      && Lookup(d.fields, "compress") == Some(JBool(false))
      && Lookup(d.fields, "large_threshold") == Some(JInt(250))
      && Lookup(d.fields, "intents") == Some(intents)
    ensures var d := Lookup(Identify(token, intents, os).fields, "d").value;
      var p := Lookup(d.fields, "properties").value;
      p.JObj? && Lookup(p.fields, "$os") == Some(JStr(os))
      && Lookup(p.fields, "$browser") == Some(JStr("pycordia"))
      && Lookup(p.fields, "$device") == Some(JStr("pycordia"))
  {
    var f := Identify(token, intents, os);
    KeysDisplay(f.fields, ["op", "d"]);
    LookupFirst(f.fields, 0, "op");
    LookupFirst(f.fields, 1, "d");
    var d := f.fields[1].1;
    KeysDisplay(d.fields, ["token", "properties", "compress", "large_threshold", "intents"]);
    LookupFirst(d.fields, 0, "token");
    LookupFirst(d.fields, 1, "properties");
    LookupFirst(d.fields, 2, "compress");
    LookupFirst(d.fields, 3, "large_threshold");
    LookupFirst(d.fields, 4, "intents");
    var p := d.fields[1].1;
    LookupFirst(p.fields, 0, "$os");
    LookupFirst(p.fields, 1, "$browser");
    LookupFirst(p.fields, 2, "$device");
  }

  // ---------------------------------------------------------------------
  // Frames, state and effects

  /** What `sock.receive()` delivers: a close with its code and extra text,
      a text frame with its decoded JSON, or any other message type. */
  datatype Frame = Close(code: Json, extra: Json) | Text(js: Json) | OtherFrame

  /** The fields the two loops read and write. */
  datatype GatewayState = GatewayState(sequence: Json, heartbeatInterval: Json, sessionId: Json)

  /** What `__init__` sets: all three None. */
  const Initial := GatewayState(JNull, JNull, JNull)

  /** A request the client makes of the socket or the client object. */
  datatype Effect =
    | Send(frame: Json)             // sock.send_json / send_str
    | CloseSocket(closeCode: int)   // sock.close(code=...)
    | Invoke(call: ClientModel.Call) // the handler call_event_handler awaits

  /** Why the receive loop ends: the gateway error raised on a close (the
      class `pycordia.errors.GatewayError` resolves to is not fixed here,
      so the raw code and extra are kept), or another exception. */
  datatype Stop = GatewayClosed(code: Json, extra: Json) | Raised(error: PyError)

  /** The result of one pass of the receive loop: the new state, the effects
      in order, and whether the pass raised. */
  datatype Outcome = Outcome(state: GatewayState, effects: seq<Effect>, stop: Option<Stop>)

  /** One pass of the `__listen_socket` loop. */
  function Receive(st: GatewayState, frame: Frame, token: Json, intents: Json, os: string, events: Registry): Outcome {
    match frame
    case Close(code, extra) => Outcome(st, [CloseSocket(1001)], Some(GatewayClosed(code, extra)))
    case OtherFrame => Outcome(st, [], None)
    case Text(js) =>
      match Subscript(js, "d")
      case Err(e) => Outcome(st, [], Some(Raised(e)))
      case Ok(d) =>
        var st1 := st.(sequence := FieldOr(js.fields, "s", JNull));
        match Subscript(js, "op")
        case Err(e) => Outcome(st1, [], Some(Raised(e)))
        case Ok(op) =>
          if IntValue(op) == Some(HelloOp) then
            match Subscript(d, "heartbeat_interval")
            case Err(e) => Outcome(st1, [], Some(Raised(e)))
            case Ok(hb) => Outcome(st1.(heartbeatInterval := hb), [Send(Identify(token, intents, os))], None)
          else if IntValue(op) == Some(DispatchOp) then
            match Subscript(js, "t")
            case Err(e) => Outcome(st1, [], Some(Raised(e)))
            case Ok(t) =>
              if t == JStr("READY") then
                match Subscript(d, "session_id")
                case Err(e) => Outcome(st1, [], Some(Raised(e)))
                case Ok(sid) => Deliver(st1.(sessionId := sid), events, t, d)
              else Deliver(st1, events, t, d)
          else Outcome(st1, [], None)
  }

  /** `await self.client.call_event_handler(t, d)` inside the loop: a name
      that is not a string has no `lower`; otherwise the client routes the
      event, and whatever routing raises ends the loop. The state is the
      one the pass had reached. */
  function Deliver(st: GatewayState, events: Registry, t: Json, d: Json): (o: Outcome)
    ensures o.state == st
    ensures o.stop == None <==> t.JStr? && ClientModel.Dispatch(events, t.s, d).Ok?
    ensures |o.effects| <= 1
    ensures o.effects != [] ==> o.effects[0].Invoke? && t.JStr? && ClientModel.Dispatch(events, t.s, d) == Ok(Some(o.effects[0].call))
  {
    if !t.JStr? then Outcome(st, [], Some(Raised(NoLower)))
    else
      match ClientModel.Dispatch(events, t.s, d)
      case Err(e) => Outcome(st, [], Some(Raised(e)))
      case Ok(None) => Outcome(st, [], None)
      case Ok(Some(c)) => Outcome(st, [Invoke(c)], None)
  }

  /** `event_name.lower()` on a name that is not a string. */
  const NoLower := AttributeError("object has no attribute 'lower'")

  /** Every close, whatever its code, closes the socket with 1001 and raises:
      there is no clean exit. The state is left as it was. */
  lemma CloseAlwaysRaises(st: GatewayState, code: Json, extra: Json, token: Json, intents: Json, os: string, events: Registry)
    ensures Receive(st, Close(code, extra), token, intents, os, events)
      == Outcome(st, [CloseSocket(1001)], Some(GatewayClosed(code, extra)))
  {
  }

  /** A frame that is neither close nor text changes nothing. */
  lemma OtherFramesIgnored(st: GatewayState, token: Json, intents: Json, os: string, events: Registry)
    ensures Receive(st, OtherFrame, token, intents, os, events) == Outcome(st, [], None)
  {
  }

  /** Once "d" has been read, the frame's "s" (None when absent, as on a
      hello) replaces the sequence, even if a later step raises. */
  lemma SequenceOverwritten(st: GatewayState, js: Json, token: Json, intents: Json, os: string, events: Registry)
    requires Subscript(js, "d").Ok?
    ensures Receive(st, Text(js), token, intents, os, events).state.sequence == FieldOr(js.fields, "s", JNull)
  {
  }

  /** A text frame without "d" raises before anything changes. */
  lemma MissingDataRaises(st: GatewayState, js: Json, token: Json, intents: Json, os: string, events: Registry)
    requires js.JObj? && !HasKey(js.fields, "d")
    ensures Receive(st, Text(js), token, intents, os, events) == Outcome(st, [], Some(Raised(KeyError("d"))))
  {
  }

  /** A hello stores the heartbeat interval and sends exactly one identify
      frame; the session id is untouched. */
  lemma HelloIdentifies(st: GatewayState, fs: Dict<Json>, d: Dict<Json>, token: Json, intents: Json, os: string, events: Registry)
    requires Lookup(fs, "d") == Some(JObj(d)) && Lookup(fs, "op") == Some(JInt(HelloOp))
    requires HasKey(d, "heartbeat_interval")
    ensures var o := Receive(st, Text(JObj(fs)), token, intents, os, events);
      o.stop == None
      && o.state == GatewayState(FieldOr(fs, "s", JNull), Lookup(d, "heartbeat_interval").value, st.sessionId)
      && o.effects == [Send(Identify(token, intents, os))]
  {
  }

  /** A dispatch is handed to the client once, as `(t, d)`: the pass ends
      normally exactly when the client's routing does, the handler it finds
      is awaited once, and an exception from the routing ends the pass with
      that exception. A READY dispatch also stores the session id, any other
      leaves it. */
  lemma DispatchForwardsOnce(st: GatewayState, fs: Dict<Json>, d: Json, t: Json, token: Json, intents: Json, os: string, events: Registry)
    requires Lookup(fs, "d") == Some(d) && Lookup(fs, "op") == Some(JInt(DispatchOp))
    requires Lookup(fs, "t") == Some(t)
    requires t == JStr("READY") ==> d.JObj? && HasKey(d.fields, "session_id")
    ensures var o := Receive(st, Text(JObj(fs)), token, intents, os, events);
      o.state.sequence == FieldOr(fs, "s", JNull)
      && o.state.heartbeatInterval == st.heartbeatInterval
    ensures var o := Receive(st, Text(JObj(fs)), token, intents, os, events);
      t == JStr("READY") ==> o.state.sessionId == Lookup(d.fields, "session_id").value
    ensures var o := Receive(st, Text(JObj(fs)), token, intents, os, events);
      t != JStr("READY") ==> o.state.sessionId == st.sessionId
    ensures var o := Receive(st, Text(JObj(fs)), token, intents, os, events);
      !t.JStr? ==> o.stop == Some(Raised(NoLower)) && o.effects == []
    ensures var o := Receive(st, Text(JObj(fs)), token, intents, os, events);
      t.JStr? ==>
        match ClientModel.Dispatch(events, t.s, d)
        case Err(e) => o.stop == Some(Raised(e)) && o.effects == []
        case Ok(None) => o.stop == None && o.effects == []
        case Ok(Some(c)) => o.stop == None && o.effects == [Invoke(c)]
  {
  }

  /** The first frame whose pass raises ends the loop with that exception:
      the frames after it are never read, so the state and effects are those
      at that frame. */
  lemma {:induction false} FirstRaiseEndsRun(st: GatewayState, inbox: seq<Frame>, i: nat, token: Json, intents: Json, os: string, events: Registry)
    requires i < |inbox| && Run(st, inbox[..i], token, intents, os, events).stop == None
    requires Receive(Run(st, inbox[..i], token, intents, os, events).state, inbox[i], token, intents, os, events).stop.Some?
    ensures var pre := Run(st, inbox[..i], token, intents, os, events);
      var o := Receive(pre.state, inbox[i], token, intents, os, events);
      Run(st, inbox, token, intents, os, events) == Outcome(o.state, pre.effects + o.effects, o.stop)
  {
    assert inbox[..i + 1][..i] == inbox[..i];
    assert inbox[..i + 1][i] == inbox[i];
    RunStopSticks(st, inbox, i + 1, token, intents, os, events);
  }

  /** A MESSAGE_DELETE dispatch (in any letter case) with
      `on_message_delete` registered ends the loop with TypeError: the next
      frame is never read, so the sequence stays the one the delete frame
      carried. */
  lemma DeleteDispatchEndsRun(fs: Dict<Json>, name: string, next: Frame, token: Json, intents: Json, os: string, events: Registry)
    requires HasKey(fs, "d") && Lookup(fs, "op") == Some(JInt(DispatchOp))
    requires Lookup(fs, "t") == Some(JStr(name)) && Lower(name) == "message_delete"
    requires "on_message_delete" in events
    ensures var o := Run(Initial, [Text(JObj(fs)), next], token, intents, os, events);
      o.stop.Some? && o.stop.value.Raised? && o.stop.value.error.TypeError?
      && o.state.sequence == FieldOr(fs, "s", JNull) && o.effects == []
  {
    var inbox := [Text(JObj(fs)), next];
    assert inbox[..0] == [];
    DeleteFrameRaises(Initial, fs, name, token, intents, os, events);
    FirstRaiseEndsRun(Initial, inbox, 0, token, intents, os, events);
  }

  lemma DeleteFrameRaises(st: GatewayState, fs: Dict<Json>, name: string, token: Json, intents: Json, os: string, events: Registry)
    requires HasKey(fs, "d") && Lookup(fs, "op") == Some(JInt(DispatchOp))
    requires Lookup(fs, "t") == Some(JStr(name)) && Lower(name) == "message_delete"
    requires "on_message_delete" in events
    ensures var o := Receive(st, Text(JObj(fs)), token, intents, os, events);
      o.stop.Some? && o.stop.value.Raised? && o.stop.value.error.TypeError?
      && o.state.sequence == FieldOr(fs, "s", JNull) && o.effects == []
  {
    var d := Lookup(fs, "d").value;
    DeleteRoutingRaises(events, name, d);
    assert JStr(name) != JStr("READY") by {
      assert |name| == |Lower(name)|;
    }
    DispatchForwardsOnce(st, fs, d, JStr(name), token, intents, os, events);
  }

  lemma DeleteRoutingRaises(events: Registry, name: string, d: Json)
    requires Lower(name) == "message_delete" && "on_message_delete" in events
    ensures ClientModel.Dispatch(events, name, d).Err? && ClientModel.Dispatch(events, name, d).error.TypeError?
  {
    assert ClientModel.HandlerName(name) == "on_message_delete";
    ClientModel.DeleteDispatchRaises(events, name, d);
  }

  /** Any other opcode changes only the sequence: nothing is sent or
      forwarded. */
  lemma OtherOpcodesOnlySequence(st: GatewayState, fs: Dict<Json>, d: Json, op: Json, token: Json, intents: Json, os: string, events: Registry)
    requires Lookup(fs, "d") == Some(d) && Lookup(fs, "op") == Some(op)
    requires IntValue(op) != Some(HelloOp) && IntValue(op) != Some(DispatchOp)
    ensures Receive(st, Text(JObj(fs)), token, intents, os, events)
      == Outcome(st.(sequence := FieldOr(fs, "s", JNull)), [], None)
  {
  }

  /** The session id changes only on a READY dispatch, and the interval only
      on a hello. */
  lemma OnlyReadySetsSession(st: GatewayState, frame: Frame, token: Json, intents: Json, os: string, events: Registry)
    ensures var o := Receive(st, frame, token, intents, os, events);
      o.state.sessionId != st.sessionId ==>
        frame.Text? && Subscript(frame.js, "op").Ok? && IntValue(Subscript(frame.js, "op").value) == Some(DispatchOp)
        && Subscript(frame.js, "t") == Ok(JStr("READY"))
    ensures var o := Receive(st, frame, token, intents, os, events);
      o.state.heartbeatInterval != st.heartbeatInterval ==>
        frame.Text? && Subscript(frame.js, "op").Ok? && IntValue(Subscript(frame.js, "op").value) == Some(HelloOp)
  {
  }

  // ---------------------------------------------------------------------
  // The receive loop over a sequence of frames

  /** The receive loop after the frames `inbox` (or up to the one that
      raised): the state, all effects in order, and the stop if any. */
  function Run(st: GatewayState, inbox: seq<Frame>, token: Json, intents: Json, os: string, events: Registry): Outcome {
    if inbox == [] then Outcome(st, [], None)
    else
      var prev := Run(st, inbox[..|inbox| - 1], token, intents, os, events);
      if prev.stop.Some? then prev
      else
        var o := Receive(prev.state, inbox[|inbox| - 1], token, intents, os, events);
        Outcome(o.state, prev.effects + o.effects, o.stop)
  }

  /** Once the loop has raised, later frames are never read. */
  lemma {:induction false} RunStopSticks(st: GatewayState, inbox: seq<Frame>, k: nat, token: Json, intents: Json, os: string, events: Registry)
    requires k <= |inbox| && Run(st, inbox[..k], token, intents, os, events).stop.Some?
    ensures Run(st, inbox, token, intents, os, events) == Run(st, inbox[..k], token, intents, os, events)
    decreases |inbox| - k
  {
    if k < |inbox| {
      assert inbox[..k + 1][..k] == inbox[..k];
      RunStopSticks(st, inbox, k + 1, token, intents, os, events);
    } else {
      assert inbox[..k] == inbox;
    }
  }

  /** A close anywhere in the frames ends the loop with an exception: the
      loop never finishes cleanly once the gateway closes. */
  lemma {:induction false} CloseEndsRun(st: GatewayState, inbox: seq<Frame>, i: nat, token: Json, intents: Json, os: string, events: Registry)
    requires i < |inbox| && inbox[i].Close?
    ensures Run(st, inbox, token, intents, os, events).stop.Some?
  {
    var pre := Run(st, inbox[..i + 1], token, intents, os, events);
    assert inbox[..i + 1][..i] == inbox[..i];
    assert inbox[..i + 1][i] == inbox[i];
    assert pre.stop.Some?;
    RunStopSticks(st, inbox, i + 1, token, intents, os, events);
  }

  /** Effects only accumulate: the effects after a prefix of the frames
      begin the effects after all of them. */
  lemma {:induction false} RunEffectsGrow(st: GatewayState, inbox: seq<Frame>, k: nat, token: Json, intents: Json, os: string, events: Registry)
    requires k <= |inbox|
    ensures var pre, all := Run(st, inbox[..k], token, intents, os, events).effects, Run(st, inbox, token, intents, os, events).effects;
      |pre| <= |all| && all[..|pre|] == pre
    decreases |inbox| - k
  {
    if k < |inbox| {
      RunEffectsGrow(st, inbox, k + 1, token, intents, os, events);
      RunEffectsStep(st, inbox, k, token, intents, os, events);
      PrefixTrans(Run(st, inbox[..k], token, intents, os, events).effects, Run(st, inbox[..k + 1], token, intents, os, events).effects,
                  Run(st, inbox, token, intents, os, events).effects);
    } else {
      assert inbox[..k] == inbox;
    }
  }

  /** One more frame only appends effects. */
  lemma RunEffectsStep(st: GatewayState, inbox: seq<Frame>, k: nat, token: Json, intents: Json, os: string, events: Registry)
    requires k < |inbox|
    ensures var p0, p1 := Run(st, inbox[..k], token, intents, os, events).effects, Run(st, inbox[..k + 1], token, intents, os, events).effects;
      |p0| <= |p1| && p1[..|p0|] == p0
  {
    assert inbox[..k + 1][..k] == inbox[..k];
  }

  /** One more frame after a prefix that did not raise. */
  lemma RunSnoc(st: GatewayState, inbox: seq<Frame>, i: nat, token: Json, intents: Json, os: string, events: Registry)
    requires i < |inbox| && Run(st, inbox[..i], token, intents, os, events).stop == None
    ensures var pre := Run(st, inbox[..i], token, intents, os, events);
      var o := Receive(pre.state, inbox[i], token, intents, os, events);
      Run(st, inbox[..i + 1], token, intents, os, events) == Outcome(o.state, pre.effects + o.effects, o.stop)
  {
    assert inbox[..i + 1][..i] == inbox[..i];
  }

  lemma PrefixTrans<T>(a: seq<T>, b: seq<T>, c: seq<T>)
    requires |a| <= |b| && b[..|a|] == a
    requires |b| <= |c| && c[..|b|] == b
    ensures c[..|a|] == a
  {
    assert c[..|b|][..|a|] == c[..|a|];
  }

  // ---------------------------------------------------------------------
  // The heartbeat loop

  /** One pass of `__keep_alive`: with a falsy interval the loop spins
      without sending; otherwise, after the wait, it sends a heartbeat
      carrying the sequence current at that moment. */
  datatype Beat = Spin | Heartbeat(frame: Json)

  function KeepAlive(st: GatewayState): (b: Beat)
    ensures !Truthy(st.heartbeatInterval) <==> b == Spin
  {
    if Truthy(st.heartbeatInterval) then Heartbeat(JObj([("op", JInt(HeartbeatOp)), ("d", st.sequence)]))
    else Spin
  }

  /** The initial state sends no heartbeat. */
  lemma NoHeartbeatBeforeHello()
    ensures KeepAlive(Initial) == Spin
  {
  }

  /** After a hello with a truthy interval, the next heartbeat carries the
      hello's own "s" (None when absent), and so after every later frame the
      sequence that frame set. */
  lemma HeartbeatAfterFrame(st: GatewayState, frame: Frame, token: Json, intents: Json, os: string, events: Registry)
    requires frame.Text? && Subscript(frame.js, "d").Ok?
    ensures var o := Receive(st, frame, token, intents, os, events);
      Truthy(o.state.heartbeatInterval) ==>
        KeepAlive(o.state) == Heartbeat(JObj([("op", JInt(1)), ("d", FieldOr(frame.js.fields, "s", JNull))]))
  {
    SequenceOverwritten(st, frame.js, token, intents, os, events);
  }

  /** The gateway client's state as `DiscordWebSocket` holds it. */
  class DiscordWebSocket {
    const client: ClientModel.Client
    const botToken: Json
    const intents: Json
    var heartbeatInterval: Json
    var sequence: Json
    var sessionId: Json

    function State(): GatewayState
      reads this
    {
      GatewayState(sequence, heartbeatInterval, sessionId)
    }

    /** `DiscordWebSocket(client, bot_token, intents)` */
    constructor(client: ClientModel.Client, botToken: Json, intents: Json)
      ensures this.client == client && this.botToken == botToken && this.intents == intents
      ensures State() == Initial
    {
      this.client := client;
      this.botToken := botToken;
      this.intents := intents;
      heartbeatInterval := JNull;
      sequence := JNull;
      sessionId := JNull;
    }

    /** One pass of the receive loop, updating the fields as it goes. */
    method HandleFrame(frame: Frame, os: string) returns (effects: seq<Effect>, stop: Option<Stop>)
      modifies this
      ensures Outcome(State(), effects, stop) == Receive(old(State()), frame, botToken, intents, os, client.events)
    {
      effects, stop := [], None;
      match frame
      case Close(code, extra) =>
        effects := [CloseSocket(1001)];
        stop := Some(GatewayClosed(code, extra));
      case OtherFrame =>
      case Text(js) =>
        var eventData := Subscript(js, "d");
        if eventData.Err? {
          stop := Some(Raised(eventData.error));
          return;
        }
        var d := eventData.value;
        sequence := FieldOr(js.fields, "s", JNull);
        var op := Subscript(js, "op");
        if op.Err? {
          stop := Some(Raised(op.error));
          return;
        }
        if IntValue(op.value) == Some(HelloOp) {
          var hb := Subscript(d, "heartbeat_interval");
          if hb.Err? {
            stop := Some(Raised(hb.error));
            return;
          }
          heartbeatInterval := hb.value;
          effects := [Send(Identify(botToken, intents, os))];
        } else if IntValue(op.value) == Some(DispatchOp) {
          var t := Subscript(js, "t");
          if t.Err? {
            stop := Some(Raised(t.error));
            return;
          }
          if t.value == JStr("READY") {
            var sid := Subscript(d, "session_id");
            if sid.Err? {
              stop := Some(Raised(sid.error));
              return;
            }
            sessionId := sid.value;
          }
          if !t.value.JStr? {
            stop := Some(Raised(NoLower));
            return;
          }
          var handled := client.CallEventHandler(t.value.s, d);
          match handled
          case Err(e) => stop := Some(Raised(e));
          case Ok(None) =>
          case Ok(Some(c)) => effects := [Invoke(c)];
        }
    }

    /** `__listen_socket` over the frames `inbox`: it stops at the first
        frame that raises. */
    method ListenSocket(inbox: seq<Frame>, os: string) returns (effects: seq<Effect>, stop: Option<Stop>)
      modifies this
      ensures Outcome(State(), effects, stop) == Run(old(State()), inbox, botToken, intents, os, client.events)
    {
      ghost var st0 := State();
      effects, stop := [], None;
      var i := 0;
      while i < |inbox|
        invariant 0 <= i <= |inbox|
        invariant Run(st0, inbox[..i], botToken, intents, os, client.events) == Outcome(State(), effects, None)
      {
        RunSnoc(st0, inbox, i, botToken, intents, os, client.events);
        var more, s := HandleFrame(inbox[i], os);
        effects := effects + more;
        if s.Some? {
          stop := s;
          RunStopSticks(st0, inbox, i + 1, botToken, intents, os, client.events);
          return;
        }
        i := i + 1;
      }
      assert inbox[..i] == inbox;
    }

    /** One pass of `__keep_alive`. */
    method KeepAliveStep() returns (b: Beat)
      ensures b == KeepAlive(State())
    {
      if Truthy(heartbeatInterval) {
        b := Heartbeat(JObj([("op", JInt(HeartbeatOp)), ("d", sequence)]));
      } else {
        b := Spin;
      }
    }
  }
}
