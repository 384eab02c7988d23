/**
 The per-message protocol engine of the subscription server: `SubscriptionServer.on_message`
 and `unsubscribe`, working on the server-wide table `connection_subscriptions`.

 The state the engine changes is the subscription table, the frames it emits and the calls
 it makes into the subscription manager and the configured hooks. Each message kind has a
 pure specification function from the old state to the new one; the class methods update
 the fields step by step and are proved to agree with those functions; the lemmas state
 what the source promises about them.

 Hooks and the subscription manager are oracles: which hooks are configured is fixed when
 the server is built (`Hooks`), and what each of them returns or raises while one message
 is handled is an input (`Answers`).
 */
module Server {
  import opened Values
  import opened Keys
  import opened Frames

  /** The message type strings of the subscriptions-transport-ws protocol. Only their
      being pairwise distinct matters here. */
  const INIT: string := "init"
  const SUBSCRIPTION_START: string := "subscription_start"
  const SUBSCRIPTION_END: string := "subscription_end"
  const PARAMS_MUST_BE_OBJECT: string := "Params must be an object"
  const INVALID_MESSAGE_TYPE: string := "Invalid message type"

  /** Which of the optional hooks the server was built with. */
  datatype Hooks = Hooks(onSubscribe: bool, onUnsubscribe: bool, onConnect: bool, parseContext: bool)

  /** What a hook or `subscription_manager.subscribe` did when it was called. */
  datatype Outcome = Returned(value: PyValue) | Raised(exc: Exc)

  /** The outcome of every collaborator that handling one message may call; the outcome of
      a hook that is not configured, or not reached, is ignored. */
  datatype Answers = Answers(onConnect: Outcome, parseContext: Outcome, onSubscribe: Outcome, subscribe: Outcome)

  /** A decoded message: a JSON object with a `type` field. The other fields may be absent. */
  datatype Message = Message(
    msgType: PyValue,
    id: ClientId,
    payload: Option<PyValue>,
    query: Option<PyValue>,
    variables: Option<PyValue>,
    operationName: Option<PyValue>)

  /** A raw inbound message: either `json.loads` raised, or it produced a message. */
  datatype Inbound = Undecodable(error: Exc) | Decoded(msg: Message)

  /** A call the engine makes into a hook or the subscription manager, in the order made. */
  datatype Call =
    | OnConnectHook(payload: PyValue)
    | ParseContextHook
    | OnSubscribeHook(baseParams: map<string, PyValue>)
    | ManagerSubscribe(params: map<string, PyValue>)
    | ManagerUnsubscribe(handle: PyValue)
    | OnUnsubscribeHook(handle: PyValue)

  /** The subscription table, every frame emitted so far and every call made so far. */
  datatype State = State(subscriptions: map<Key, PyValue>, outbox: seq<Outbound>, calls: seq<Call>)

  /** `connection_subscriptions.get(key, None)`. */
  function Get(table: map<Key, PyValue>, key: Key): PyValue {
    if key in table then table[key] else PyNone
  }

  /** The lookup `connection_subscriptions.get(key, None)` is truthy: a stored falsy handle
      counts as absent, and an active key always has an entry to unsubscribe and pop. */
  function Active(table: map<Key, PyValue>, key: Key): (b: bool)
    ensures b <==> Truthy(Get(table, key))
    ensures b ==> key in table
  {
    key in table && Truthy(table[key])
  }

  /** The two tables hold the same entries at every key other than `key`. */
  ghost predicate AgreeOutside(t: map<Key, PyValue>, u: map<Key, PyValue>, key: Key) {
    forall k :: k != key ==> (k in t <==> k in u) && (k in t ==> t[k] == u[k])
  }

  function Emitted(s: State, o: Outbound): State {
    s.(outbox := s.outbox + [o])
  }

  function Logged(s: State, cs: seq<Call>): State {
    s.(calls := s.calls + cs)
  }

  /** The calls `unsubscribe(handle)` makes. */
  function UnsubscribeCalls(hooks: Hooks, handle: PyValue): seq<Call> {
    [ManagerUnsubscribe(handle)] + (if hooks.onUnsubscribe then [OnUnsubscribeHook(handle)] else [])
  }

  /** The table after lines 161-163 / 207-209: the entry under `key` is dropped if it is active. */
  function Dropped(table: map<Key, PyValue>, key: Key): map<Key, PyValue> {
    if Active(table, key) then table - {key} else table
  }

  /** The calls lines 161-163 / 207-209 make: `unsubscribe` of the active handle, if any. */
  function TeardownCalls(hooks: Hooks, table: map<Key, PyValue>, key: Key): seq<Call> {
    if Active(table, key) then UnsubscribeCalls(hooks, table[key]) else []
  }

  /** Unsubscribe and drop the entry under `key` if it is active; otherwise nothing. */
  function Teardown(hooks: Hooks, s: State, key: Key): State {
    State(Dropped(s.subscriptions, key), s.outbox, s.calls + TeardownCalls(hooks, s.subscriptions, key))
  }

  // ----- INIT -----

  datatype Verdict = Accepted | Rejected(reason: Exc)

  /** The handshake decision: an absent `on_connect` accepts; a configured one is called with
      the message's payload (a missing payload raises `KeyError`), and rejects by raising or
      by returning a falsy value. */
  function Handshake(hooks: Hooks, msg: Message, ans: Answers): (v: Verdict)
    ensures v.Accepted? <==>
              !hooks.onConnect ||
              (msg.payload.Some? && ans.onConnect.Returned? && Truthy(ans.onConnect.value))
    ensures hooks.onConnect && msg.payload.None? ==> v == Rejected(KeyError("payload"))
    ensures hooks.onConnect && msg.payload.Some? && ans.onConnect.Raised? ==> v == Rejected(ans.onConnect.exc)
    ensures hooks.onConnect && msg.payload.Some? && ans.onConnect.Returned? && !Truthy(ans.onConnect.value) ==>
              v == Rejected(ProhibitedConnection)
  {
    if !hooks.onConnect then Accepted
    else if msg.payload.None? then Rejected(KeyError("payload"))
    else match ans.onConnect
      case Raised(e) => Rejected(e)
      case Returned(context) => if Truthy(context) then Accepted else Rejected(ProhibitedConnection)
  }

  function HandshakeCalls(hooks: Hooks, msg: Message): seq<Call> {
    if hooks.onConnect && msg.payload.Some? then [OnConnectHook(msg.payload.value)] else []
  }

  /** The frame the INIT branch emits, with `send_init_result` as written: acceptance calls it
      with no payload, which raises, and the handler then reports that error as INIT_FAIL. */
  function InitResponseAsWritten(v: Verdict, sid: string): Outbound {
    match v
    case Accepted =>
      (match InitResultAsWritten(InitSuccess, None, sid)
       case Ok(o) => o
       case Err(e) => InitResultAsWritten(InitFail, Some(PyException(e)), sid).value)
    case Rejected(e) => InitResultAsWritten(InitFail, Some(PyException(e)), sid).value
  }

  /** The frame the INIT branch emits with the corrected `send_init_result`. */
  function InitResponse(v: Verdict, sid: string): Outbound {
    match v
    case Accepted => InitResultFrame(InitSuccess, None, sid)
    case Rejected(e) => InitResultFrame(InitFail, Some(PyException(e)), sid)
  }

  /** The as-written INIT branch never answers INIT_SUCCESS: an accepted handshake is
      reported as a failure carrying the `None.get` error. */
  lemma InitAsWrittenNeverSucceeds(v: Verdict, sid: string)
    ensures InitResponseAsWritten(v, sid).room == sid
    ensures InitResponseAsWritten(v, sid).frame ==
              InitResult(InitFail, ErrorText(PyException(if v.Accepted? then NoneHasNoGet else v.reason)))
  {
  }

  /** With the corrected builder, INIT_SUCCESS (without payload) is sent exactly for an
      accepted handshake, and a rejection is reported as the code reports it. */
  lemma InitSucceedsIffAccepted(v: Verdict, sid: string)
    ensures InitResponse(v, sid).frame.InitResult?
    ensures InitResponse(v, sid).frame.kind == InitSuccess <==> v.Accepted?
    ensures v.Accepted? ==> InitResponse(v, sid) == Outbound(sid, InitResult(InitSuccess, NoPayload))
    ensures v.Rejected? ==> InitResponse(v, sid) == InitResponseAsWritten(v, sid)
  {
  }

  function InitSpec(hooks: Hooks, s: State, sid: string, msg: Message, ans: Answers): State {
    Emitted(Logged(s, HandshakeCalls(hooks, msg)), InitResponse(Handshake(hooks, msg, ans), sid))
  }

  // ----- SUBSCRIPTION_START -----

  function ContextCalls(hooks: Hooks): seq<Call> {
    if hooks.parseContext then [ParseContextHook] else []
  }

  /** The base parameter set, or the exception that building it raised: `parse_context`
      raising, then a missing `query`, then a missing `variables`. */
  function BaseParams(hooks: Hooks, msg: Message, ans: Answers): (r: Result<map<string, PyValue>, Exc>)
    ensures r.Err? <==>
              (hooks.parseContext && ans.parseContext.Raised?) || msg.query.None? || msg.variables.None?
    ensures r.Err? ==>
              r.error == (if hooks.parseContext && ans.parseContext.Raised? then ans.parseContext.exc
                          else if msg.query.None? then KeyError("query")
                          else KeyError("variables"))
    ensures r.Ok? ==>
              r.value.Keys == {"query", "variables", "operation_name", "context",
                               "format_response", "format_error", "callback"} &&
              r.value["query"] == msg.query.value && r.value["variables"] == msg.variables.value &&
              r.value["operation_name"] == msg.operationName.GetOr(PyNone) &&
              r.value["context"] == (if hooks.parseContext then ans.parseContext.value else PyDict(map[])) &&
              r.value["format_response"] == r.value["format_error"] == r.value["callback"] == PyNone
  {
    if hooks.parseContext && ans.parseContext.Raised? then Err(ans.parseContext.exc)
    else if msg.query.None? then Err(KeyError("query"))
    else if msg.variables.None? then Err(KeyError("variables"))
    else
      var context := if hooks.parseContext then ans.parseContext.value else PyDict(map[]);
      Ok(map[
        "query" := msg.query.value,
        "variables" := msg.variables.value,
        "operation_name" := msg.operationName.GetOr(PyNone),
        "context" := context,
        "format_response" := PyNone,
        "format_error" := PyNone,
        "callback" := PyNone])
  }

  function SubscribeHookCalls(hooks: Hooks, base: map<string, PyValue>): seq<Call> {
    if hooks.onSubscribe then [OnSubscribeHook(base)] else []
  }

  /** The parameter set after the optional `on_subscribe` hook, or what the hook raised. */
  function HookedParams(hooks: Hooks, base: map<string, PyValue>, ans: Answers): Result<PyValue, Exc> {
    if !hooks.onSubscribe then Ok(PyDict(base))
    else match ans.onSubscribe
      case Returned(params) => Ok(params)
      case Raised(e) => Err(e)
  }

  /** `base_params['callback'] = callback`: the callback is bound to the client id and the session. */
  function WithCallback(params: map<string, PyValue>, id: ClientId, sid: string): map<string, PyValue> {
    params["callback" := PyCallback(id, sid)]
  }

  /** The START handler reaches `subscription_manager.subscribe`. */
  predicate ReachesSubscribe(hooks: Hooks, msg: Message, ans: Answers) {
    BaseParams(hooks, msg, ans).Ok? &&
    HookedParams(hooks, BaseParams(hooks, msg, ans).value, ans).Ok? &&
    HookedParams(hooks, BaseParams(hooks, msg, ans).value, ans).value.PyDict?
  }

  /** The hook calls START makes before it looks at the table. */
  function PreludeCalls(hooks: Hooks, msg: Message, ans: Answers): seq<Call> {
    ContextCalls(hooks) +
    (if BaseParams(hooks, msg, ans).Ok? then SubscribeHookCalls(hooks, BaseParams(hooks, msg, ans).value) else [])
  }

  /** The keyword arguments START passes to `subscription_manager.subscribe`. */
  function SubscribeParams(hooks: Hooks, msg: Message, ans: Answers, sid: string): map<string, PyValue>
    requires ReachesSubscribe(hooks, msg, ans)
  {
    WithCallback(HookedParams(hooks, BaseParams(hooks, msg, ans).value, ans).value.entries, msg.id, sid)
  }

  /** Lines 159-192, once the parameter set is known: tear down the entry under the key,
      reject a non-dict parameter set, then subscribe, store the handle and report success. */
  function InstallSpec(hooks: Hooks, s: State, sid: string, id: ClientId, params: PyValue, ans: Answers): State {
    var key := KeyFor(sid, id);
    var s1 := Teardown(hooks, s, key);
    if !params.PyDict? then Emitted(s1, FailFrame(id, PyStr(PARAMS_MUST_BE_OBJECT), sid))
    else
      var s2 := Logged(s1, [ManagerSubscribe(WithCallback(params.entries, id, sid))]);
      match ans.subscribe
      case Raised(e) => Emitted(s2, FailFrame(id, PyException(e), sid))
      case Returned(handle) =>
        Emitted(s2.(subscriptions := s2.subscriptions[key := handle]), SuccessFrame(id, sid))
  }

  function StartSpec(hooks: Hooks, s: State, sid: string, msg: Message, ans: Answers): State {
    var s1 := Logged(s, ContextCalls(hooks));
    match BaseParams(hooks, msg, ans)
    case Err(e) => Emitted(s1, FailFrame(msg.id, PyStr(e.repr), sid))
    case Ok(base) =>
      var s2 := Logged(s1, SubscribeHookCalls(hooks, base));
      match HookedParams(hooks, base, ans)
      case Err(e) => Emitted(s2, FailFrame(msg.id, PyException(e), sid))
      case Ok(params) => InstallSpec(hooks, s2, sid, msg.id, params, ans)
  }

  // ----- SUBSCRIPTION_END -----

  function EndSpec(hooks: Hooks, s: State, sid: string, msg: Message): State {
    Teardown(hooks, s, KeyFor(sid, msg.id))
  }

  // ----- dispatch -----

  function Step(hooks: Hooks, s: State, sid: string, inbound: Inbound, ans: Answers): State {
    match inbound
    case Undecodable(e) => Emitted(s, FailFrame(NoId, PyException(e), sid))
    case Decoded(msg) =>
      if msg.msgType == PyStr(INIT) then InitSpec(hooks, s, sid, msg, ans)
      else if msg.msgType == PyStr(SUBSCRIPTION_START) then StartSpec(hooks, s, sid, msg, ans)
      else if msg.msgType == PyStr(SUBSCRIPTION_END) then EndSpec(hooks, s, sid, msg)
      else Emitted(s, FailFrame(msg.id, PyStr(INVALID_MESSAGE_TYPE), sid))
  }

  /** The subscription server: its table, the frames it has emitted and the calls it has made. */
  class SubscriptionServer {
    const hooks: Hooks
    var subscriptions: map<Key, PyValue>
    var outbox: seq<Outbound>
    var calls: seq<Call>

    function Current(): State
      reads this
    {
      State(subscriptions, outbox, calls)
    }

    constructor (hooks: Hooks)
      ensures this.hooks == hooks
      ensures Current() == State(map[], [], [])
    {
      this.hooks := hooks;
      subscriptions := map[];
      outbox := [];
      calls := [];
    }

    /** `socketio.emit(...)` to one session. */
    method Emit(o: Outbound)
      modifies this`outbox
      ensures outbox == old(outbox) + [o]
    {
      outbox := outbox + [o];
    }

    /** `unsubscribe(sub_id)`: the manager's `unsubscribe`, then the optional hook, both with the handle. */
    method Unsubscribe(handle: PyValue)
      modifies this`calls
      ensures calls == old(calls) + UnsubscribeCalls(hooks, handle)
    {
      calls := calls + [ManagerUnsubscribe(handle)];
      if hooks.onUnsubscribe {
        calls := calls + [OnUnsubscribeHook(handle)];
      }
    }

    /** `callback(error, result)` as bound at subscription time to `id` and `room`. */
    method RunCallback(id: ClientId, room: string, error: PyValue, data: PyValue)
      modifies this`outbox
      ensures outbox == old(outbox) + [CallbackFrame(id, room, error, data)]
    {
      if !Truthy(error) {
        Emit(DataFrame(id, Data(data), room));
      } else if error.PyDict? && "errors" in error.entries {
        Emit(DataFrame(id, Errors(error.entries["errors"]), room));
      } else {
        Emit(FailFrame(id, error, room));
      }
    }

    method HandleInit(sid: string, msg: Message, ans: Answers)
      modifies this`outbox, this`calls
      ensures Current() == InitSpec(hooks, old(Current()), sid, msg, ans)
    {
      var verdict := Accepted;
      if hooks.onConnect {
        if msg.payload.None? {
          verdict := Rejected(KeyError("payload"));
        } else {
          calls := calls + [OnConnectHook(msg.payload.value)];
          match ans.onConnect
          case Raised(e) =>
            verdict := Rejected(e);
          case Returned(context) =>
            if !Truthy(context) {
              verdict := Rejected(ProhibitedConnection);
            }
        }
      }
      Emit(InitResponse(verdict, sid));
    }

    /** Lines 161-163 and 207-209: unsubscribe and drop the entry under `key` if it is active. */
    method TearDown(key: Key)
      modifies this`subscriptions, this`calls
      ensures Current() == Teardown(hooks, old(Current()), key)
    {
      if key in subscriptions && Truthy(subscriptions[key]) {
        Unsubscribe(subscriptions[key]);
        subscriptions := subscriptions - {key};
      }
    }

    method Install(sid: string, id: ClientId, params: PyValue, ans: Answers)
      modifies this
      ensures Current() == InstallSpec(hooks, old(Current()), sid, id, params, ans)
    {
      var key := KeyFor(sid, id);
      TearDown(key);
      if !params.PyDict? {
        Emit(FailFrame(id, PyStr(PARAMS_MUST_BE_OBJECT), sid));
        return;
      }
      calls := calls + [ManagerSubscribe(WithCallback(params.entries, id, sid))];
      match ans.subscribe
      case Raised(e) =>
        Emit(FailFrame(id, PyException(e), sid));
      case Returned(handle) =>
        subscriptions := subscriptions[key := handle];
        Emit(SuccessFrame(id, sid));
    }

    method HandleStart(sid: string, msg: Message, ans: Answers)
      modifies this
      ensures Current() == StartSpec(hooks, old(Current()), sid, msg, ans)
    {
      if hooks.parseContext {
        calls := calls + [ParseContextHook];
      }
      ghost var s0 := old(Current());
      assert Current() == Logged(s0, ContextCalls(hooks));
      var built := BaseParams(hooks, msg, ans);
      if built.Err? {
        Emit(FailFrame(msg.id, PyStr(built.error.repr), sid));
        return;
      }
      var base := built.value;
      var params := PyDict(base);
      if hooks.onSubscribe {
        calls := calls + [OnSubscribeHook(base)];
        match ans.onSubscribe
        case Raised(e) =>
          Emit(FailFrame(msg.id, PyException(e), sid));
          return;
        case Returned(p) =>
          params := p;
      }
      assert HookedParams(hooks, base, ans) == Ok(params);
      assert Current() == Logged(Logged(s0, ContextCalls(hooks)), SubscribeHookCalls(hooks, base));
      Install(sid, msg.id, params, ans);
    }

    method HandleEnd(sid: string, msg: Message)
      modifies this`subscriptions, this`calls
      ensures Current() == EndSpec(hooks, old(Current()), sid, msg)
    {
      TearDown(KeyFor(sid, msg.id));
    }

    /** `on_message(message)` received on the session `sid`. */
    method OnMessage(sid: string, inbound: Inbound, ans: Answers)
      modifies this
      ensures Current() == Step(hooks, old(Current()), sid, inbound, ans)
    {
      match inbound
      case Undecodable(e) =>
        Emit(FailFrame(NoId, PyException(e), sid));
      case Decoded(msg) =>
        if msg.msgType == PyStr(INIT) {
          HandleInit(sid, msg, ans);
        } else if msg.msgType == PyStr(SUBSCRIPTION_START) {
          HandleStart(sid, msg, ans);
        } else if msg.msgType == PyStr(SUBSCRIPTION_END) {
          HandleEnd(sid, msg);
        } else {
          Emit(FailFrame(msg.id, PyStr(INVALID_MESSAGE_TYPE), sid));
        }
    }
  }
}
