/**
 Outbound frames and the `send_*` builders of the subscription server, plus the result
 callback that the server hands to the subscription manager with every subscription.

 A frame records the value whose `str()` becomes its text payload rather than the text
 itself: the JSON serialisation and Python's rendering of arbitrary values are not part
 of this model.
 */
module Frames {
  import opened Values

  /** The payload of a SUBSCRIPTION_DATA frame: `{'data': ...}` or `{'errors': ...}`. */
  datatype DataPayload = Data(data: PyValue) | Errors(errors: PyValue)

  datatype InitKind = InitSuccess | InitFail

  /** The payload of an INIT result: absent, the text `str(errors)`, or (when `errors` is
      falsy) the dict `{'errors': errors}` left as it was. */
  datatype InitPayload = NoPayload | ErrorText(errors: PyValue) | ErrorsDict(errors: PyValue)

  datatype Frame =
    | SubscriptionData(id: ClientId, payload: DataPayload, room: string)
    | SubscriptionFail(id: ClientId, errors: PyValue)
    | SubscriptionSuccess(id: ClientId)
    | InitResult(kind: InitKind, initPayload: InitPayload)

  /** A frame emitted to the connection whose session id is `room`. */
  datatype Outbound = Outbound(room: string, frame: Frame)

  /** `send_subscription_data`: a data frame that names, as its room, the session it is
      addressed to. */
  function DataFrame(id: ClientId, payload: DataPayload, room: string): (o: Outbound)
    ensures o.frame.SubscriptionData? && o.frame.room == o.room == room
    ensures o.frame.id == id && o.frame.payload == payload
  {
    Outbound(room, SubscriptionData(id, payload, room))
  }

  /** `send_subscription_fail(sub_id, {'errors': errors}, room)`. */
  function FailFrame(id: ClientId, errors: PyValue, room: string): (o: Outbound)
    ensures o.room == room && o.frame.SubscriptionFail?
    ensures o.frame.id == id && o.frame.errors == errors
  {
    Outbound(room, SubscriptionFail(id, errors))
  }

  /** `send_subscription_success(sub_id, room)`. */
  function SuccessFrame(id: ClientId, room: string): (o: Outbound)
    ensures o.room == room && o.frame.SubscriptionSuccess? && o.frame.id == id
  {
    Outbound(room, SubscriptionSuccess(id))
  }

  /** `send_init_result(kind, payload, room)` as written. `errors == None` stands for
      `payload = None`, `Some(e)` for `payload = {'errors': e}`. With no payload the
      builder calls `None.get` and raises instead of emitting. */
  function InitResultAsWritten(kind: InitKind, errors: Option<PyValue>, room: string)
    : (r: Result<Outbound, Exc>)
    ensures r.Err? <==> errors.None?
    ensures r.Err? ==> r.error == NoneHasNoGet
    ensures r.Ok? ==> r.value.room == room && r.value.frame.InitResult? && r.value.frame.kind == kind
    ensures r.Ok? ==>
              r.value.frame.initPayload ==
                (if Truthy(errors.value) then ErrorText(errors.value) else ErrorsDict(errors.value))
  {
    match errors
    case None => Err(NoneHasNoGet)
    case Some(e) =>
      Ok(Outbound(room, InitResult(kind, if Truthy(e) then ErrorText(e) else ErrorsDict(e))))
  }

  /** `send_init_result` as evidently intended: no payload means a frame without one. */
  function InitResultFrame(kind: InitKind, errors: Option<PyValue>, room: string): (o: Outbound)
    ensures o.room == room && o.frame.InitResult? && o.frame.kind == kind
    ensures errors.None? ==> o.frame.initPayload == NoPayload
    ensures InitResultAsWritten(kind, errors, room).Ok? ==> InitResultAsWritten(kind, errors, room).value == o
  {
    match errors
    case None => Outbound(room, InitResult(kind, NoPayload))
    case Some(e) =>
      Outbound(room, InitResult(kind, if Truthy(e) then ErrorText(e) else ErrorsDict(e)))
  }

  /** `isinstance(error, dict) and 'errors' in error`. */
  predicate IsErrorsDict(error: PyValue) {
    error.PyDict? && "errors" in error.entries
  }

  /** One invocation `callback(error, result)` of the result callback bound to the client
      id `id` and the session `room`; `data` is `result.data`. */
  function CallbackFrame(id: ClientId, room: string, error: PyValue, data: PyValue): (o: Outbound)
    ensures o.room == room
    ensures o.frame.SubscriptionData? || o.frame.SubscriptionFail?
    ensures o.frame.id == id
    ensures o.frame.SubscriptionData? <==> !Truthy(error) || IsErrorsDict(error)
    ensures o.frame.SubscriptionData? ==> o.frame.room == room
    ensures !Truthy(error) ==> o.frame.payload == Data(data)
    ensures Truthy(error) && IsErrorsDict(error) ==> o.frame.payload == Errors(error.entries["errors"])
    ensures o.frame.SubscriptionFail? ==> o.frame.errors == error
  {
    if !Truthy(error) then DataFrame(id, Data(data), room)
    else if IsErrorsDict(error) then DataFrame(id, Errors(error.entries["errors"]), room)
    else FailFrame(id, error, room)
  }

  /** A GraphQL error dict is always delivered as data, never as a failure. */
  lemma GraphQLErrorsAreDeliveredAsData(id: ClientId, room: string, errors: PyValue, data: PyValue)
    ensures var o := CallbackFrame(id, room, PyDict(map["errors" := errors]), data);
            o == Outbound(room, SubscriptionData(id, Errors(errors), room))
  {
    var error := PyDict(map["errors" := errors]);
    assert "errors" in error.entries;
    assert Truthy(error) && IsErrorsDict(error);
  }

  /** A runtime error (an exception object) is always delivered as a failure. */
  lemma RuntimeErrorsAreDeliveredAsFailures(id: ClientId, room: string, e: Exc, data: PyValue)
    ensures CallbackFrame(id, room, PyException(e), data) == Outbound(room, SubscriptionFail(id, PyException(e)))
  {
  }
}
