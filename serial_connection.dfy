/**
 * The serial connection object: the renderer's view of the serial bridge.
 * It remembers whether it is connected, the port it last connected to and
 * the ports last listed, and reports connection changes to one registered
 * callback.
 *
 * Every call into the bridge and every callback invocation is recorded, in
 * order, in the object's effect trace; what the bridge answers is a
 * parameter of the method that awaits it.
 */
module Connection {
  import opened Values

  /** A port as the bridge lists it. */
  datatype PortInfo = PortInfo(path: string)

  /** The calls into `window.ipc_serial`. */
  datatype IpcCall =
    | ListSerialPorts
    | OpenSerialConnection(port: string)
    | CloseSerialConnection
    | SendSerialData(data: Value)                   // the value before `JSON.stringify`
    | SetupSerialResponseHandler(handler: nat)
    | SetupSerialUnexpectedDisconnectHandler(handler: nat)

  /** What the connection-state callback is called with: nothing, or `{unexpected: true}`. */
  datatype Notice = StateChanged | UnexpectedlyClosed

  /** One observable effect: a bridge call, or a call of the registered callback (a function handle). */
  datatype Effect = Ipc(call: IpcCall) | Notify(callback: nat, notice: Notice)

  /**
   * How `listSerialPorts` settles: a list, `null`/`undefined`, the object
   * `{err}` the bridge resolves with when listing fails, or a rejection.
   */
  datatype ListReply = Ports(ports: seq<PortInfo>) | NoPorts | ErrorObject(err: Value) | ListRejected

  /** What `availablePorts` holds: a port list, or the bridge's `{err}` object, which `?? []` lets through. */
  datatype Listing = PortList(ports: seq<PortInfo>) | ErrorReply(err: Value)

  /** How a bridge call whose value is ignored settles. */
  datatype Settled = Resolved | Rejected

  /** How `openSerialConnection` settles: the result object, or a rejection. */
  datatype OpenReply = Opened(result: Value) | OpenRejected

  /**
   * The fields of the object. `connected` and the callback are declared by
   * type annotations only, so both start out `undefined`; `currentPort`
   * starts out `null`, written `None`.
   */
  datatype ConnState = ConnState(
    connected: Value,
    currentPort: Option<string>,
    availablePorts: Listing,
    callback: Option<nat>,
    effects: seq<Effect>)

  /** The state after a call, and how the call ended. */
  datatype Step = Step(state: ConnState, outcome: Outcome)

  const InitialConnState := ConnState(Undefined, None, PortList([]), None, [])

  /** The `{message: "requestValues"}` object the poll tick sends. */
  const RequestValues: Value := Record(map["message" := Text("requestValues")])

  /** JavaScript truthiness. */
  predicate Truthy(v: Value) {
    match v
    case Undefined => false
    case Flag(b) => b
    case Number(n) => n != 0
    case Text(s) => s != ""
    case _ => true
  }

  /** `this.onConnectionStateChangeCallback(...)`: a TypeError while no callback is registered. */
  function NotifyResult(s: ConnState, notice: Notice): Step {
    match s.callback
    case None => Step(s, Threw(TypeError))
    case Some(cb) => Step(s.(effects := s.effects + [Notify(cb, notice)]), Done)
  }

  /** The body the constructor schedules 60 times a second. */
  function TickResult(s: ConnState): ConnState {
    if !Truthy(s.connected) then s
    else s.(effects := s.effects + [Ipc(SendSerialData(RequestValues))])
  }

  /** What `listPorts` stores: the bridge's list or error object, and `[]` on `null`, `undefined` or a rejection. */
  function ListedPorts(reply: ListReply): Listing {
    match reply
    case Ports(ps) => PortList(ps)
    case NoPorts => PortList([])
    case ErrorObject(e) => ErrorReply(e)
    case ListRejected => PortList([])
  }

  function ListPortsResult(s: ConnState, reply: ListReply): ConnState {
    s.(availablePorts := ListedPorts(reply), effects := s.effects + [Ipc(ListSerialPorts)])
  }

  /** `disconnect`: close, then clear `connected`, then notify. A rejected close throws before either. */
  function DisconnectResult(s: ConnState, closeReply: Settled): Step {
    var closing := s.(effects := s.effects + [Ipc(CloseSerialConnection)]);
    if closeReply == Rejected then Step(closing, Threw(IpcError))
    else NotifyResult(closing.(connected := Flag(false)), StateChanged)
  }

  function UnexpectedDisconnectResult(s: ConnState): Step {
    NotifyResult(s, UnexpectedlyClosed)
  }

  /** What follows the awaited `openSerialConnection(port)` in `connect`. */
  function OpenedResult(s: ConnState, port: string, openReply: OpenReply): Step {
    match openReply
    case OpenRejected => Step(s, Threw(IpcError))
    case Opened(result) =>
      if result == Undefined then Step(s, Threw(TypeError))   // `result.response`
      else if Property(result, "response") == Text("ok") then
        NotifyResult(s.(connected := Flag(true), currentPort := Some(port)), StateChanged)
      else Step(s, Threw(ConnectError))
  }

  /** `connect(port)`: disconnect first when connected, then open and check the response. */
  function ConnectResult(s: ConnState, port: string, closeReply: Settled, openReply: OpenReply): Step {
    var d := if Truthy(s.connected) then DisconnectResult(s, closeReply) else Step(s, Done);
    if d.outcome.Threw? then d
    else OpenedResult(d.state.(effects := d.state.effects + [Ipc(OpenSerialConnection(port))]), port, openReply)
  }

  function SendDataResult(s: ConnState, data: Value, reply: Settled): Step {
    var sent := s.(effects := s.effects + [Ipc(SendSerialData(data))]);
    Step(sent, if reply == Rejected then Threw(IpcError) else Done)
  }

  // ----- the inbound decode -----

  /** The argument a data handler is called with: the parsed object, or the raw line. */
  datatype Delivery = ParsedData(v: Value) | RawData(line: string)

  /** The handler calls an inbound line causes, and whether the wrapper itself ends by throwing. */
  datatype Deliveries = Deliveries(calls: seq<Delivery>, outcome: Outcome)

  /**
   * The wrapper `addSerialDataHandler` and `addSerialUnexpectedDisconnectHandler`
   * install, as written: `JSON.parse` and the handler call share one `try`,
   * so a handler that throws on the parsed object is called again with the
   * raw line. `parsed` is what `JSON.parse` gives (`None` when it throws);
   * `throwsOnParsed` and `throwsOnRaw` say whether the handler throws.
   */
  function DeliverLine(line: string, parsed: Option<Value>, throwsOnParsed: bool, throwsOnRaw: bool): (r: Deliveries)
    ensures 1 <= |r.calls| <= 2 && r.calls[|r.calls| - 1] == (if |r.calls| == 1 && parsed.Some? then ParsedData(parsed.value) else RawData(line))
    ensures |r.calls| == 2 <==> parsed.Some? && throwsOnParsed
    ensures |r.calls| == 2 ==> r.calls[0] == ParsedData(parsed.value)
    ensures r.outcome.Threw? <==> r.calls[|r.calls| - 1] == RawData(line) && throwsOnRaw
  {
    var fallback := Deliveries([RawData(line)], if throwsOnRaw then Threw(HandlerError()) else Done);
    match parsed
    case None => fallback
    case Some(v) =>
      if !throwsOnParsed then Deliveries([ParsedData(v)], Done)
      else Deliveries([ParsedData(v)] + fallback.calls, fallback.outcome)
  }

  /** The handler's own exception, which the model does not tell apart from the others. */
  function HandlerError(): Error { TypeError }

  /** The wrapper as the comment "convert to object if possible" describes it: only the parse is guarded. */
  function IntendedDeliverLine(line: string, parsed: Option<Value>, throwsOnParsed: bool, throwsOnRaw: bool): (r: Deliveries)
    ensures |r.calls| == 1
    ensures r.calls[0] == if parsed.Some? then ParsedData(parsed.value) else RawData(line)
    ensures r.outcome.Threw? <==> (if parsed.Some? then throwsOnParsed else throwsOnRaw)
  {
    match parsed
    case None => Deliveries([RawData(line)], if throwsOnRaw then Threw(HandlerError()) else Done)
    case Some(v) => Deliveries([ParsedData(v)], if throwsOnParsed then Threw(HandlerError()) else Done)
  }

  /** A line that parses, given to a handler that throws on objects: the handler runs twice, the second time on the raw line. */
  lemma ThrowingHandlerSeesLineTwice()
    ensures var r := DeliverLine("{}", Some(Record(map[])), true, false);
      r.calls == [ParsedData(Record(map[])), RawData("{}")] && r.outcome == Done
    ensures |IntendedDeliverLine("{}", Some(Record(map[])), true, false).calls| == 1
  {
  }

  /** Both wrappers agree whenever the handler does not throw on the parsed object. */
  lemma {:induction false} DeliveriesAgreeWithoutHandlerFailure(line: string, parsed: Option<Value>, throwsOnParsed: bool, throwsOnRaw: bool)
    requires parsed.None? || !throwsOnParsed
    ensures DeliverLine(line, parsed, throwsOnParsed, throwsOnRaw) == IntendedDeliverLine(line, parsed, throwsOnParsed, throwsOnRaw)
  {
  }

  // ----- properties of the connection -----

  /** The port of the most recent open request in a trace. */
  function LastOpen(effects: seq<Effect>): (r: Option<string>)
    ensures r.Some? ==> Ipc(OpenSerialConnection(r.value)) in effects
    decreases |effects|
  {
    if effects == [] then None
    else match effects[|effects| - 1]
      case Ipc(OpenSerialConnection(p)) => Some(p)
      case _ => LastOpen(effects[..|effects| - 1])
  }

  /** While connected, `currentPort` names the port of the most recent open request. */
  ghost predicate Consistent(s: ConnState) {
    Truthy(s.connected) ==> s.currentPort.Some? && LastOpen(s.effects) == s.currentPort
  }

  lemma LastOpenSkips(effects: seq<Effect>, e: Effect)
    requires !(e.Ipc? && e.call.OpenSerialConnection?)
    ensures LastOpen(effects + [e]) == LastOpen(effects)
  {
    assert (effects + [e])[..|effects|] == effects;
  }

  lemma NotifyKeepsConsistent(s: ConnState, notice: Notice)
    requires Consistent(s)
    ensures Consistent(NotifyResult(s, notice).state)
  {
    if s.callback.Some? {
      LastOpenSkips(s.effects, Notify(s.callback.value, notice));
    }
  }

  /** A poll tick sends exactly one `requestValues` message when connected and does nothing otherwise. */
  lemma TickSendsOnlyWhenConnected(s: ConnState)
    ensures var r := TickResult(s);
      && r.(effects := s.effects) == s
      && (Truthy(s.connected) ==> r.effects == s.effects + [Ipc(SendSerialData(RequestValues))])
      && (!Truthy(s.connected) ==> r.effects == s.effects)
  {
  }

  /**
   * `sendData` records exactly one send of its value and changes nothing
   * else; a rejected send throws, and a send keeps the invariant.
   */
  lemma SendDataRecordsOneSend(s: ConnState, data: Value, reply: Settled)
    ensures var r := SendDataResult(s, data, reply);
      && r.state.(effects := s.effects) == s
      && r.state.effects == s.effects + [Ipc(SendSerialData(data))]
      && (r.outcome.Threw? <==> reply == Rejected)
      && (Consistent(s) ==> Consistent(r.state))
  {
    LastOpenSkips(s.effects, Ipc(SendSerialData(data)));
  }

  /**
   * `listPorts` stores and returns the bridge's list, the bridge's `{err}`
   * object as it came, and `[]` on `null`, `undefined` or a rejection.
   */
  lemma ListPortsStoresReply(s: ConnState, reply: ListReply)
    ensures var r := ListPortsResult(s, reply);
      && r.(availablePorts := s.availablePorts, effects := s.effects) == s
      && r.effects == s.effects + [Ipc(ListSerialPorts)]
      && (reply.Ports? ==> r.availablePorts == PortList(reply.ports))
      && (reply.ErrorObject? ==> r.availablePorts == ErrorReply(reply.err))
      && (reply.NoPorts? || reply.ListRejected? ==> r.availablePorts == PortList([]))
  {
  }

  /**
   * `disconnect`, also when already disconnected: it closes, and unless the
   * close is rejected it leaves `connected` false and calls the callback
   * with no argument (a TypeError when none is registered); the port is kept.
   */
  lemma DisconnectClearsConnected(s: ConnState, closeReply: Settled)
    ensures var r := DisconnectResult(s, closeReply);
      && r.state.currentPort == s.currentPort && r.state.availablePorts == s.availablePorts
      && r.state.effects[..|s.effects| + 1] == s.effects + [Ipc(CloseSerialConnection)]
      && (closeReply == Resolved ==> r.state.connected == Flag(false))
      && (closeReply == Rejected ==> r.state.connected == s.connected && r.outcome == Threw(IpcError))
      && (r.outcome == Done <==> closeReply == Resolved && s.callback.Some?)
      && (r.outcome == Done ==> r.state.effects == s.effects + [Ipc(CloseSerialConnection), Notify(s.callback.value, StateChanged)])
  {
    var closing := s.effects + [Ipc(CloseSerialConnection)];
    if closeReply == Resolved && s.callback.Some? {
      assert (closing + [Notify(s.callback.value, StateChanged)])[..|s.effects| + 1] == closing;
    }
  }

  /** `unexpectedDisconnect` leaves the connection fields alone and calls the callback with `{unexpected: true}`. */
  lemma UnexpectedDisconnectKeepsConnected(s: ConnState)
    ensures var r := UnexpectedDisconnectResult(s);
      && r.state.(effects := s.effects) == s
      && (r.outcome == Done <==> s.callback.Some?)
      && (s.callback.Some? ==> r.state.effects == s.effects + [Notify(s.callback.value, UnexpectedlyClosed)])
      && (s.callback.None? ==> r == Step(s, Threw(TypeError)))
  {
  }

  /** `connect` on a connected object closes the old connection before it opens the new one. */
  lemma ConnectClosesFirst(s: ConnState, port: string, closeReply: Settled, openReply: OpenReply)
    requires Truthy(s.connected)
    ensures var r := ConnectResult(s, port, closeReply, openReply);
      && |r.state.effects| > |s.effects|
      && r.state.effects[|s.effects|] == Ipc(CloseSerialConnection)
      && (Ipc(OpenSerialConnection(port)) in r.state.effects[|s.effects|..] ==>
            closeReply == Resolved && s.callback.Some?
            && r.state.effects[|s.effects|..|s.effects| + 3]
               == [Ipc(CloseSerialConnection), Notify(s.callback.value, StateChanged), Ipc(OpenSerialConnection(port))])
  {
    var d := DisconnectResult(s, closeReply);
    DisconnectClearsConnected(s, closeReply);
    var closed := s.effects + [Ipc(CloseSerialConnection)];
    if closeReply == Resolved && s.callback.Some? {
      var opening := closed + [Notify(s.callback.value, StateChanged), Ipc(OpenSerialConnection(port))];
      var r := ConnectResult(s, port, closeReply, openReply);
      assert r.state.effects[..|opening|] == opening;
      assert opening[|s.effects|..|s.effects| + 3] == [Ipc(CloseSerialConnection), Notify(s.callback.value, StateChanged), Ipc(OpenSerialConnection(port))];
    } else {
      assert ConnectResult(s, port, closeReply, openReply) == d;
      assert d.state.effects[|s.effects|..] == [Ipc(CloseSerialConnection)];
    }
  }

  /**
   * `connect` succeeds exactly when any needed close and the open went
   * through, the response is `'ok'` and a callback is registered; then the
   * object is connected to `port`.
   */
  lemma ConnectSucceeds(s: ConnState, port: string, closeReply: Settled, openReply: OpenReply)
    ensures var r := ConnectResult(s, port, closeReply, openReply);
      && (r.outcome == Done <==>
            && (Truthy(s.connected) ==> closeReply == Resolved)
            && openReply.Opened? && openReply.result != Undefined
            && Property(openReply.result, "response") == Text("ok")
            && s.callback.Some?)
      && (r.outcome == Done ==> r.state.connected == Flag(true) && r.state.currentPort == Some(port))
      && (r.outcome == Done ==> r.state.effects[|r.state.effects| - 1] == Notify(s.callback.value, StateChanged))
      && r.state.availablePorts == s.availablePorts && r.state.callback == s.callback
  {
  }

  /**
   * A response other than `'ok'` throws the connect error and keeps
   * `currentPort`; `connected` is false if the disconnect ran, and as
   * before otherwise.
   */
  lemma ConnectFailureKeepsPort(s: ConnState, port: string, closeReply: Settled, result: Value)
    requires result != Undefined && Property(result, "response") != Text("ok")
    requires Truthy(s.connected) ==> closeReply == Resolved && s.callback.Some?
    ensures var r := ConnectResult(s, port, closeReply, Opened(result));
      && r.outcome == Threw(ConnectError)
      && r.state.currentPort == s.currentPort
      && r.state.connected == if Truthy(s.connected) then Flag(false) else s.connected
  {
  }

  /** Every operation keeps `Consistent`. */
  lemma ConnectKeepsConsistent(s: ConnState, port: string, closeReply: Settled, openReply: OpenReply)
    requires Consistent(s)
    ensures Consistent(ConnectResult(s, port, closeReply, openReply).state)
  {
    var d := if Truthy(s.connected) then DisconnectResult(s, closeReply) else Step(s, Done);
    if Truthy(s.connected) {
      if closeReply == Resolved {
        NotifyKeepsConsistent(s.(effects := s.effects + [Ipc(CloseSerialConnection)], connected := Flag(false)), StateChanged);
      }
    }
    if d.outcome.Done? {
      var opening := d.state.(effects := d.state.effects + [Ipc(OpenSerialConnection(port))]);
      assert LastOpen(opening.effects) == Some(port);
      if openReply.Opened? && openReply.result != Undefined && Property(openReply.result, "response") == Text("ok") {
        NotifyKeepsConsistent(opening.(connected := Flag(true), currentPort := Some(port)), StateChanged);
      }
    }
  }

  /** The operations of the object, with what the bridge answers to each. */
  datatype Op =
    | TickOp
    | ListPortsOp(listReply: ListReply)
    | SetPortOp(port: string, closeReply: Settled, openReply: OpenReply)
    | DisconnectOp(closeReply: Settled)
    | UnexpectedDisconnectOp
    | OnConnectionStateChangeOp(callback: nat)
    | SendDataOp(data: Value, sendReply: Settled)
    | AddSerialDataHandlerOp(handler: nat)
    | AddSerialUnexpectedDisconnectHandlerOp(handler: nat)

  function Apply(s: ConnState, op: Op): ConnState {
    match op
    case TickOp => TickResult(s)
    case ListPortsOp(reply) => ListPortsResult(s, reply)
    case SetPortOp(port, closeReply, openReply) => ConnectResult(s, port, closeReply, openReply).state
    case DisconnectOp(closeReply) => DisconnectResult(s, closeReply).state
    case UnexpectedDisconnectOp => UnexpectedDisconnectResult(s).state
    case OnConnectionStateChangeOp(cb) => s.(callback := Some(cb))
    case SendDataOp(data, reply) => SendDataResult(s, data, reply).state
    case AddSerialDataHandlerOp(h) => s.(effects := s.effects + [Ipc(SetupSerialResponseHandler(h))])
    case AddSerialUnexpectedDisconnectHandlerOp(h) => s.(effects := s.effects + [Ipc(SetupSerialUnexpectedDisconnectHandler(h))])
  }

  /** The state after a run of operations, each applied to the state the previous one left. */
  function Run(s: ConnState, ops: seq<Op>): ConnState
    decreases |ops|
  {
    if ops == [] then s else Run(Apply(s, ops[0]), ops[1..])
  }

  lemma ApplyKeepsConsistent(s: ConnState, op: Op)
    requires Consistent(s)
    ensures Consistent(Apply(s, op))
    ensures s.effects <= Apply(s, op).effects
  {
    match op
    case TickOp =>
      if Truthy(s.connected) { LastOpenSkips(s.effects, Ipc(SendSerialData(RequestValues))); }
    case ListPortsOp(_) => LastOpenSkips(s.effects, Ipc(ListSerialPorts));
    case SetPortOp(port, closeReply, openReply) =>
      ConnectKeepsConsistent(s, port, closeReply, openReply);
      ConnectTraceGrows(s, port, closeReply, openReply);
    case DisconnectOp(closeReply) =>
      var closing := s.(effects := s.effects + [Ipc(CloseSerialConnection)]);
      if closeReply == Resolved { NotifyKeepsConsistent(closing.(connected := Flag(false)), StateChanged); }
      else { LastOpenSkips(s.effects, Ipc(CloseSerialConnection)); }
    case UnexpectedDisconnectOp => NotifyKeepsConsistent(s, UnexpectedlyClosed);
    case OnConnectionStateChangeOp(_) =>
    case SendDataOp(data, _) => LastOpenSkips(s.effects, Ipc(SendSerialData(data)));
    case AddSerialDataHandlerOp(h) => LastOpenSkips(s.effects, Ipc(SetupSerialResponseHandler(h)));
    case AddSerialUnexpectedDisconnectHandlerOp(h) => LastOpenSkips(s.effects, Ipc(SetupSerialUnexpectedDisconnectHandler(h)));
  }

  lemma ConnectTraceGrows(s: ConnState, port: string, closeReply: Settled, openReply: OpenReply)
    ensures s.effects <= ConnectResult(s, port, closeReply, openReply).state.effects
  {
  }

  /**
   * From a fresh object, after any run of operations, the object is
   * connected only to the port of its most recent open request, and the
   * trace only ever grew.
   */
  lemma {:induction false} RunKeepsConsistent(s: ConnState, ops: seq<Op>)
    requires Consistent(s)
    ensures Consistent(Run(s, ops))
    ensures s.effects <= Run(s, ops).effects
    decreases |ops|
  {
    if ops != [] {
      ApplyKeepsConsistent(s, ops[0]);
      RunKeepsConsistent(Apply(s, ops[0]), ops[1..]);
    }
  }

  lemma FreshObjectIsConsistent(ops: seq<Op>)
    ensures !Truthy(InitialConnState.connected)
    ensures Consistent(Run(InitialConnState, ops))
  {
    RunKeepsConsistent(InitialConnState, ops);
  }

  /** The connection object; `getSerialConnection` hands out a single one. */
  class SerialConnection {
    var connected: Value
    var currentPort: Option<string>
    var availablePorts: Listing
    var callback: Option<nat>
    var effects: seq<Effect>

    function State(): ConnState
      reads this
    {
      ConnState(connected, currentPort, availablePorts, callback, effects)
    }

    constructor ()
      ensures State() == InitialConnState
    {
      connected := Undefined;
      currentPort := None;
      availablePorts := PortList([]);
      callback := None;
      effects := [];
    }

    /** The `requestValues` body of the poll timer. */
    method Tick()
      modifies this
      ensures State() == TickResult(old(State()))
    {
      if !Truthy(connected) {
        return;
      }
      effects := effects + [Ipc(SendSerialData(RequestValues))];
    }

    method ListPorts(reply: ListReply) returns (ports: Listing)
      modifies this
      ensures State() == ListPortsResult(old(State()), reply)
      ensures ports == availablePorts
    {
      effects := effects + [Ipc(ListSerialPorts)];
      match reply {
        case Ports(ps) => availablePorts := PortList(ps);
        case NoPorts => availablePorts := PortList([]);
        case ErrorObject(e) => availablePorts := ErrorReply(e);
        case ListRejected => availablePorts := PortList([]);
      }
      ports := availablePorts;
    }

    method SetPort(port: string, closeReply: Settled, openReply: OpenReply) returns (out: Outcome)
      modifies this
      ensures Step(State(), out) == ConnectResult(old(State()), port, closeReply, openReply)
    {
      out := Connect(port, closeReply, openReply);
    }

    method Disconnect(closeReply: Settled) returns (out: Outcome)
      modifies this
      ensures Step(State(), out) == DisconnectResult(old(State()), closeReply)
    {
      effects := effects + [Ipc(CloseSerialConnection)];
      if closeReply == Rejected {
        return Threw(IpcError);
      }
      connected := Flag(false);
      out := NotifyCallback(StateChanged);
    }

    method UnexpectedDisconnect() returns (out: Outcome)
      modifies this
      ensures Step(State(), out) == UnexpectedDisconnectResult(old(State()))
    {
      out := NotifyCallback(UnexpectedlyClosed);
    }

    method Connect(port: string, closeReply: Settled, openReply: OpenReply) returns (out: Outcome)
      modifies this
      ensures Step(State(), out) == ConnectResult(old(State()), port, closeReply, openReply)
    {
      if Truthy(connected) {
        out := Disconnect(closeReply);
        if out.Threw? {
          return;
        }
      }
      effects := effects + [Ipc(OpenSerialConnection(port))];
      match openReply {
        case OpenRejected =>
          out := Threw(IpcError);
        case Opened(result) =>
          if result == Undefined {
            out := Threw(TypeError);
          } else if Property(result, "response") == Text("ok") {
            connected := Flag(true);
            currentPort := Some(port);
            out := NotifyCallback(StateChanged);
          } else {
            out := Threw(ConnectError);
          }
      }
    }

    method IsConnected() returns (r: Value)
      ensures r == connected
    {
      r := connected;
    }

    method OnConnectionStateChange(cb: nat)
      modifies this
      ensures State() == old(State()).(callback := Some(cb))
    {
      callback := Some(cb);
    }

    method SendData(data: Value, reply: Settled) returns (out: Outcome)
      modifies this
      ensures Step(State(), out) == SendDataResult(old(State()), data, reply)
    {
      effects := effects + [Ipc(SendSerialData(data))];
      out := if reply == Rejected then Threw(IpcError) else Done;
    }

    method AddSerialDataHandler(handler: nat)
      modifies this
      ensures State() == old(State()).(effects := old(effects) + [Ipc(SetupSerialResponseHandler(handler))])
    {
      effects := effects + [Ipc(SetupSerialResponseHandler(handler))];
    }

    method AddSerialUnexpectedDisconnectHandler(handler: nat)
      modifies this
      ensures State() == old(State()).(effects := old(effects) + [Ipc(SetupSerialUnexpectedDisconnectHandler(handler))])
    {
      effects := effects + [Ipc(SetupSerialUnexpectedDisconnectHandler(handler))];
    }

    /** Calls the registered callback; a TypeError while none is registered. */
    method NotifyCallback(notice: Notice) returns (out: Outcome)
      modifies this
      ensures Step(State(), out) == NotifyResult(old(State()), notice)
    {
      if callback.None? {
        return Threw(TypeError);
      }
      effects := effects + [Notify(callback.value, notice)];
      out := Done;
    }
  }
}
