# Flask GraphQL subscriptions transport: the message engine, in Dafny

This project models the protocol engine of `SubscriptionServer`, the Flask-SocketIO
transport for GraphQL subscriptions. A client sends JSON messages over one socket session.
The engine decodes each message and dispatches on its `type`:

- INIT runs the `on_connect` hook and is meant to answer INIT_SUCCESS or INIT_FAIL. As
  written it always answers INIT_FAIL (see Findings).
- SUBSCRIPTION_START builds the subscription parameters and runs the `parse_context` and
  `on_subscribe` hooks. It then tears down any active subscription under the same scoped
  key, checks that the parameters are a dict, calls the subscription manager's `subscribe`
  with a result callback, stores the returned handle and answers SUBSCRIPTION_SUCCESS.
- SUBSCRIPTION_END unsubscribes and removes the entry under its key, if there is one.
- Any other type is answered with SUBSCRIPTION_FAIL.

The scoped key is the session id followed by `str()` of the client's id. When the message
has no id, the key is `None`, and that key is shared by all sessions.

Files and modules:

- `values.dfy` (`Values`): Python values and their truthiness. `str()` of a client id, with
  the decimal rendering of ints, its inverse, and the proof that it is injective.
- `keys.dfy` (`Keys`): key derivation and when two ids or sessions share a key.
- `frames.dfy` (`Frames`): the outbound frames, the `send_*` builders, and the result
  callback's classification of a delivery.
- `server.dfy` (`Server`): the class `SubscriptionServer`. Its fields are the subscription
  table, the emitted frames and the log of calls into hooks and the subscription manager.
  Each message kind has a pure specification function (`InitSpec`, `StartSpec`, `EndSpec`,
  `Step`). The methods change the fields step by step and are proved to end in the state
  the specification function gives.
- `properties.dfy` (`Properties`): the promised behaviour, proved about those functions.

Hooks and the subscription manager are oracles. `Hooks` says which hooks are configured.
`Answers` says what each hook, and `subscribe`, returned or raised while one message was
handled. The session id (`request.sid`) is a parameter. `emit` appends an `Outbound` frame,
addressed to a session, to the outbox.

Points where the code's behaviour is easy to misread:

- `on_unsubscribe` is called with the backend handle, not with the client id.
- The teardown of an existing entry runs before the dict check. A rejected `on_subscribe`
  result has therefore already removed the old subscription.
- `socket_disconnect` does not tear down the session's subscriptions.
- INIT never reaches INIT_SUCCESS as written (see Findings).

## Model

| member | source | states |
|---|---|---|
| Values.NatDigits | flask_graphql_subscriptions_transport/flask_graphql_subscriptions_transport.py:107 | `str()` of a natural number is a non-empty string of decimal digits with no leading zero |
| Values.NatDigitsRoundTrip | flask_graphql_subscriptions_transport/flask_graphql_subscriptions_transport.py:107 | reading the digits back gives the number: `int(str(n)) == n` |
| Values.Decimal | flask_graphql_subscriptions_transport/flask_graphql_subscriptions_transport.py:107 | `str()` of an int is non-empty and starts with '-' exactly for negative ints |
| Values.DecimalRoundTrip | flask_graphql_subscriptions_transport/flask_graphql_subscriptions_transport.py:107 | `int(str(i)) == i` for every int, sign included |
| Values.DecimalInjective | flask_graphql_subscriptions_transport/flask_graphql_subscriptions_transport.py:107 | two ints have the same `str()` text exactly when they are equal |
| Values.Show | flask_graphql_subscriptions_transport/flask_graphql_subscriptions_transport.py:107 | `str()` of a string id is the string itself, and `str()` of an int id reads back as that int |
| Keys.KeyFor | flask_graphql_subscriptions_transport/flask_graphql_subscriptions_transport.py:103-107 | the key is `None` exactly when the id is absent or null; otherwise it is the session id followed by `str(id)` |
| Keys.SameSessionKeysAgreeIffTextsAgree | flask_graphql_subscriptions_transport/flask_graphql_subscriptions_transport.py:103-107 | on one session, two present ids share a key exactly when their `str()` texts agree |
| Keys.IntIdsGiveDistinctKeys | flask_graphql_subscriptions_transport/flask_graphql_subscriptions_transport.py:103-107 | on one session, integer ids share a key exactly when they are equal |
| Keys.IntAndStrIdsCollide | flask_graphql_subscriptions_transport/flask_graphql_subscriptions_transport.py:107 | every integer id collides with the string id holding its decimal text: `1` and `"1"` get the same key |
| Keys.MissingIdKeyIsShared | flask_graphql_subscriptions_transport/flask_graphql_subscriptions_transport.py:103-107 | a message without an id gets the key `None` on every session |
| Keys.EqualLengthSessionsNeverShareKeys | flask_graphql_subscriptions_transport/flask_graphql_subscriptions_transport.py:107 | for session ids of equal length, keys agree exactly when the sessions and the id texts agree |
| Keys.UnequalLengthSessionsCanShareKeys | flask_graphql_subscriptions_transport/flask_graphql_subscriptions_transport.py:107 | plain concatenation lets sessions `ab` and `a` collide, on ids `c` and `bc` |
| Frames.DataFrame | flask_graphql_subscriptions_transport/flask_graphql_subscriptions_transport.py:217-230 | a SUBSCRIPTION_DATA frame carries the given client id and payload, and names as its room the session it is sent to |
| Frames.FailFrame | flask_graphql_subscriptions_transport/flask_graphql_subscriptions_transport.py:231-244 | a SUBSCRIPTION_FAIL frame carries the given client id and errors, and is sent to the given session |
| Frames.SuccessFrame | flask_graphql_subscriptions_transport/flask_graphql_subscriptions_transport.py:246-257 | a SUBSCRIPTION_SUCCESS frame carries the given client id and is sent to the given session |
| Frames.InitResultAsWritten | flask_graphql_subscriptions_transport/flask_graphql_subscriptions_transport.py:260-270 | as written, `send_init_result` raises the `None.get` error exactly when it gets no payload; otherwise it emits the given kind to the session, with `str(errors)` as payload when `errors` is truthy and the dict `{'errors': errors}` unchanged when it is falsy |
| Frames.InitResultFrame | flask_graphql_subscriptions_transport/flask_graphql_subscriptions_transport.py:260-270 | corrected: no payload gives a frame without payload, and the result agrees with the as-written builder wherever that one succeeds |
| Frames.CallbackFrame | flask_graphql_subscriptions_transport/flask_graphql_subscriptions_transport.py:174-181 | a falsy error gives data `{data}`; a dict error with `errors` gives data `{errors}`; any other error gives SUBSCRIPTION_FAIL with it. The frame carries the bound id, and a data frame names the bound session as its room |
| Frames.GraphQLErrorsAreDeliveredAsData | flask_graphql_subscriptions_transport/flask_graphql_subscriptions_transport.py:177-178 | an `{'errors': ...}` error is delivered as data, never as a failure |
| Frames.RuntimeErrorsAreDeliveredAsFailures | flask_graphql_subscriptions_transport/flask_graphql_subscriptions_transport.py:179-181 | an exception object is delivered as SUBSCRIPTION_FAIL |
| Server.Active | flask_graphql_subscriptions_transport/flask_graphql_subscriptions_transport.py:161 | an entry counts as present exactly when `connection_subscriptions.get(key, None)` is truthy, and a present entry is in the table |
| Server.Handshake | flask_graphql_subscriptions_transport/flask_graphql_subscriptions_transport.py:113-121 | accepted exactly when there is no `on_connect` hook, or the payload is present and the hook returns a truthy value; a missing payload rejects with `KeyError('payload')`, a raising hook rejects with its error, and a falsy result rejects with `ValueError('Prohibited connection!')` |
| Server.InitAsWrittenNeverSucceeds | flask_graphql_subscriptions_transport/flask_graphql_subscriptions_transport.py:123-126 | as written, INIT always answers INIT_FAIL to the session; an accepted handshake is reported with the `None.get` error |
| Server.InitSucceedsIffAccepted | flask_graphql_subscriptions_transport/flask_graphql_subscriptions_transport.py:123-126 | corrected: INIT_SUCCESS without payload exactly for an accepted handshake; rejections are answered as the code answers them |
| Server.BaseParams | flask_graphql_subscriptions_transport/flask_graphql_subscriptions_transport.py:132-147 | building fails exactly when `parse_context` raises or `query` or `variables` is missing, with `parse_context`'s own error, else `KeyError('query')`, else `KeyError('variables')`; otherwise the seven fields hold the message's query, variables and operation name (default `None`), the context (default `{}`), and `None` for `format_response`, `format_error` and `callback` |
| Server.SubscriptionServer.constructor | flask_graphql_subscriptions_transport/flask_graphql_subscriptions_transport.py:37-46 | a new server has an empty table, has emitted nothing and has called nothing |
| Server.SubscriptionServer.Emit | flask_graphql_subscriptions_transport/flask_graphql_subscriptions_transport.py:226-229 | emitting appends exactly that frame to the outbox |
| Server.SubscriptionServer.Unsubscribe | flask_graphql_subscriptions_transport/flask_graphql_subscriptions_transport.py:76-81 | the manager's `unsubscribe(handle)`, then `on_unsubscribe(handle)` when configured, and nothing else |
| Server.SubscriptionServer.RunCallback | flask_graphql_subscriptions_transport/flask_graphql_subscriptions_transport.py:174-181 | one callback invocation emits exactly the frame `CallbackFrame` classifies |
| Server.SubscriptionServer.HandleInit | flask_graphql_subscriptions_transport/flask_graphql_subscriptions_transport.py:111-127 | the INIT branch ends in the state `InitSpec` gives, which answers an accepted handshake through the corrected `send_init_result` |
| Server.SubscriptionServer.TearDown | flask_graphql_subscriptions_transport/flask_graphql_subscriptions_transport.py:161-163 | unsubscribes and drops the entry under the key if and only if it is active |
| Server.SubscriptionServer.Install | flask_graphql_subscriptions_transport/flask_graphql_subscriptions_transport.py:159-192 | teardown, dict check, `subscribe` and store end in the state `InstallSpec` gives |
| Server.SubscriptionServer.HandleStart | flask_graphql_subscriptions_transport/flask_graphql_subscriptions_transport.py:130-202 | the START branch ends in the state `StartSpec` gives |
| Server.SubscriptionServer.HandleEnd | flask_graphql_subscriptions_transport/flask_graphql_subscriptions_transport.py:204-210 | the END branch ends in the state `EndSpec` gives |
| Server.SubscriptionServer.OnMessage | flask_graphql_subscriptions_transport/flask_graphql_subscriptions_transport.py:83-215 | handling one inbound message ends in the state `Step` gives; an accepted INIT is answered through the corrected `send_init_result` |
| Properties.PreludeCallsNeverReachManager | flask_graphql_subscriptions_transport/flask_graphql_subscriptions_transport.py:132-157 | the hook calls made before the table is consulted include no `subscribe` and no `unsubscribe` |
| Properties.UnsubscribeCallsCount | flask_graphql_subscriptions_transport/flask_graphql_subscriptions_transport.py:76-81 | `unsubscribe` makes exactly one manager `unsubscribe` call and no `subscribe` call |
| Properties.UndecodableMessageFails | flask_graphql_subscriptions_transport/flask_graphql_subscriptions_transport.py:96-101 | an undecodable message emits exactly one SUBSCRIPTION_FAIL with null id and the decode error; table and call log unchanged |
| Properties.UnknownTypeFails | flask_graphql_subscriptions_transport/flask_graphql_subscriptions_transport.py:212-215 | any other type emits exactly one SUBSCRIPTION_FAIL with the client id and 'Invalid message type'; table and call log unchanged |
| Properties.InitLeavesTableAlone | flask_graphql_subscriptions_transport/flask_graphql_subscriptions_transport.py:111-127 | corrected: INIT leaves the table unchanged, calls only `on_connect`, and emits exactly one INIT result; it is a success exactly when the hook is absent or returns a truthy value for a present payload |
| Properties.InitRejectionReasons | flask_graphql_subscriptions_transport/flask_graphql_subscriptions_transport.py:117-126 | a raising hook is reported with its own error; a falsy result is reported as 'Prohibited connection!' |
| Properties.StartFailsOnBadParameters | flask_graphql_subscriptions_transport/flask_graphql_subscriptions_transport.py:132-152 | a missing query or variables, or a raising `parse_context`, emits one SUBSCRIPTION_FAIL with the client id and `repr` of the error; no manager call; table unchanged |
| Properties.StartMissingQueryReported | flask_graphql_subscriptions_transport/flask_graphql_subscriptions_transport.py:139-141 | a missing query is reported as `KeyError('query')` unless `parse_context` raised first |
| Properties.StartFailsWhenHookRaises | flask_graphql_subscriptions_transport/flask_graphql_subscriptions_transport.py:154-201 | a raising `on_subscribe` emits one SUBSCRIPTION_FAIL with its error; no manager call; table unchanged |
| Properties.StartRejectsNonDictParams | flask_graphql_subscriptions_transport/flask_graphql_subscriptions_transport.py:159-169 | a non-dict parameter set emits SUBSCRIPTION_FAIL with PARAMS_MUST_BE_OBJECT and never calls `subscribe`; an active entry under the key has already been unsubscribed and removed |
| Properties.StartInstallsHandle | flask_graphql_subscriptions_transport/flask_graphql_subscriptions_transport.py:159-192 | success: the old active handle is unsubscribed, then `subscribe` is called once; the key then holds the new handle, every other key is unchanged, and one SUBSCRIPTION_SUCCESS with the client id is sent |
| Properties.StartFailsWhenSubscribeRaises | flask_graphql_subscriptions_transport/flask_graphql_subscriptions_transport.py:186-201 | a raising `subscribe` emits one SUBSCRIPTION_FAIL with its error and stores nothing; the old entry is already gone |
| Properties.SubscribeGetsBoundCallback | flask_graphql_subscriptions_transport/flask_graphql_subscriptions_transport.py:183-187 | `subscribe` receives a `callback` bound to the client id and the session, whatever the parameter set said |
| Properties.StartAnswersOnce | flask_graphql_subscriptions_transport/flask_graphql_subscriptions_transport.py:130-202 | every START emits exactly one frame, to the session: SUBSCRIPTION_SUCCESS or SUBSCRIPTION_FAIL with the client id; success exactly when `subscribe` is reached and returns |
| Properties.StartAppendsCalls | flask_graphql_subscriptions_transport/flask_graphql_subscriptions_transport.py:130-202 | a START only appends to the call log: hook calls, then the teardown, then `subscribe` |
| Properties.StartCallsManagerAtMostOnce | flask_graphql_subscriptions_transport/flask_graphql_subscriptions_transport.py:154-192 | a START calls `subscribe` exactly once if it gets past the dict check and never otherwise; it calls `unsubscribe` at most once |
| Properties.EndRemovesActiveEntry | flask_graphql_subscriptions_transport/flask_graphql_subscriptions_transport.py:205-210 | END on an active key makes exactly one `unsubscribe(handle)` (with `on_unsubscribe(handle)`) and removes only that key; no frame |
| Properties.EndWithoutEntryIsNoOp | flask_graphql_subscriptions_transport/flask_graphql_subscriptions_transport.py:205-210 | END on a key without an active entry changes nothing: no frame, no call |
| Properties.StepKeepsOtherKeys | flask_graphql_subscriptions_transport/flask_graphql_subscriptions_transport.py:159-210 | no message changes a table entry other than the one under its own key |
| Properties.RepeatedStartReplacesSubscription | flask_graphql_subscriptions_transport/flask_graphql_subscriptions_transport.py:159-192 | two STARTs with one id on one session: the second unsubscribes the first handle once, then subscribes once; the key holds the second handle |
| Properties.StartThenEndRestoresTable | tests/test_flask_graphql_subscriptions_transport.py:345-362 | START on a free key adds one entry, and END with the same id restores the table and unsubscribes the handle |
| Properties.FalsyHandleOutlivesEnd | flask_graphql_subscriptions_transport/flask_graphql_subscriptions_transport.py:205-209 | a falsy stored handle counts as absent: END does nothing and the entry stays |
| Properties.MissingIdReachesAcrossConnections | flask_graphql_subscriptions_transport/flask_graphql_subscriptions_transport.py:103-107 | an id-less END on one session tears down the id-less subscription that another session started |

## Left out

- Server.InitSpec: `InitSpec`, and with it `Server.SubscriptionServer.HandleInit`,
  `Server.SubscriptionServer.OnMessage` and `Server.Step`, answers an accepted INIT with
  INIT_SUCCESS through the corrected builder `Frames.InitResultFrame`. As written, the code
  answers INIT_FAIL with the `None.get` error instead. That answer is kept in
  `Server.InitResponseAsWritten` and stated by `Server.InitAsWrittenNeverSucceeds` (see Findings).
- The Flask-SocketIO wiring is not modelled: `SocketIO()`, `init_app`, event registration,
  the namespace and the `SUBSCRIPTION_MESSAGE` event name. `emit` is an append to the outbox,
  addressed by session id.
- `json.loads` and `json.dumps` are not modelled. A message is decoded or undecodable, and a
  frame holds the value whose `str()` is its text payload, not the text.
- A decoded message always has a `type` field, by its datatype. A non-object JSON body or a
  missing `type` raises an uncaught error in the source, which is not modelled.
- Values.Show: only `str()` of a None, bool, int or string id is computed. A float, list or
  object id carries its `str()` text as given.
- Values.Exc: an exception is given by its `str()` and `repr()` texts.
- `message_types.py` is not part of this model. The type strings are taken to be the
  subscriptions-transport-ws names, and only their distinctness matters. The
  PARAMS_MUST_BE_OBJECT text is likewise assumed.
- Server.SubscriptionServer.Unsubscribe: the manager's `unsubscribe` and the `on_unsubscribe`
  hook are assumed not to raise. In START such an error would be caught before the entry
  is popped; in END it would escape.
- Frames.CallbackFrame: `result.data` is given as an input. A falsy error with a `None`
  result, where the source would raise, is not modelled.
- The callback runs asynchronously in the source. Only one invocation is modelled, with
  no ordering against other messages.
- The `isinstance(e, dict)` branch at line 196 is left out, because a Python exception is
  never a dict. Every raising `subscribe` takes the raw-error path.
- `socket_connect` and `socket_disconnect` only run a hook and emit a liveness message.
  They do not touch the table.
- The handshake state is not modelled, because the code keeps none: START and END are
  accepted without a prior INIT.
- The subscription manager, GraphQL execution, the pub/sub system, the test schema and the
  packaging script are not part of this model.

## Findings

| source | as written | input that shows it | evidently intended | confidence | as-written member | corrected member |
|---|---|---|---|---|---|---|
| flask_graphql_subscriptions_transport/flask_graphql_subscriptions_transport.py:123 | an accepted handshake calls `send_init_result(INIT_SUCCESS, None, ...)`, whose line 261 calls `None.get`; the `AttributeError` is caught at line 125 and reported as INIT_FAIL | any INIT on a server without `on_connect`, or one whose `on_connect` returns a truthy value | answer INIT_SUCCESS without payload | high; not executed | Server.InitAsWrittenNeverSucceeds | Server.InitSucceedsIffAccepted |

The engine's INIT branch (`Server.InitSpec`, `Server.SubscriptionServer.HandleInit`) uses the
corrected builder `Frames.InitResultFrame`. `Server.InitResponseAsWritten` keeps the frame the
code as written sends.
