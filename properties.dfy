/**
 What the protocol engine promises, stated about the specification functions that the
 methods of `SubscriptionServer` are proved to follow.
 */
module Properties {
  import opened Values
  import opened Keys
  import opened Frames
  import opened Server

  // ----- counting calls -----

  predicate IsSubscribe(c: Call) { c.ManagerSubscribe? }
  predicate IsUnsubscribe(c: Call) { c.ManagerUnsubscribe? }

  /** How many of the calls `cs` satisfy `p`. */
  function CountCalls(cs: seq<Call>, p: Call -> bool): nat {
    if cs == [] then 0 else CountCalls(cs[..|cs| - 1], p) + (if p(cs[|cs| - 1]) then 1 else 0)
  }

  lemma {:induction false} CountCallsAppend(a: seq<Call>, b: seq<Call>, p: Call -> bool)
    ensures CountCalls(a + b, p) == CountCalls(a, p) + CountCalls(b, p)
    decreases |b|
  {
    if b != [] {
      assert (a + b)[..|a + b| - 1] == a + b[..|b| - 1];
      CountCallsAppend(a, b[..|b| - 1], p);
    } else {
      assert a + b == a;
    }
  }

  lemma CountCallsSingle(c: Call, p: Call -> bool)
    ensures CountCalls([c], p) == if p(c) then 1 else 0
  {
    assert [c][..0] == [];
  }

  /** The hook calls before the table is looked at never reach the subscription manager. */
  lemma PreludeCallsNeverReachManager(hooks: Hooks, msg: Message, ans: Answers)
    ensures CountCalls(PreludeCalls(hooks, msg, ans), IsSubscribe) == 0
    ensures CountCalls(PreludeCalls(hooks, msg, ans), IsUnsubscribe) == 0
  {
    var ctx := ContextCalls(hooks);
    var hook := PreludeCalls(hooks, msg, ans)[|ctx|..];
    assert PreludeCalls(hooks, msg, ans) == ctx + hook;
    CountCallsAppend(ctx, hook, IsSubscribe);
    CountCallsAppend(ctx, hook, IsUnsubscribe);
    if ctx != [] {
      CountCallsSingle(ctx[0], IsSubscribe);
      CountCallsSingle(ctx[0], IsUnsubscribe);
    }
    if hook != [] {
      CountCallsSingle(hook[0], IsSubscribe);
      CountCallsSingle(hook[0], IsUnsubscribe);
    }
  }

  lemma UnsubscribeCallsCount(hooks: Hooks, handle: PyValue)
    ensures CountCalls(UnsubscribeCalls(hooks, handle), IsUnsubscribe) == 1
    ensures CountCalls(UnsubscribeCalls(hooks, handle), IsSubscribe) == 0
  {
    var tail := if hooks.onUnsubscribe then [OnUnsubscribeHook(handle)] else [];
    CountCallsAppend([ManagerUnsubscribe(handle)], tail, IsUnsubscribe);
    CountCallsAppend([ManagerUnsubscribe(handle)], tail, IsSubscribe);
    CountCallsSingle(ManagerUnsubscribe(handle), IsUnsubscribe);
    CountCallsSingle(ManagerUnsubscribe(handle), IsSubscribe);
    if hooks.onUnsubscribe {
      CountCallsSingle(OnUnsubscribeHook(handle), IsUnsubscribe);
      CountCallsSingle(OnUnsubscribeHook(handle), IsSubscribe);
    }
  }

  // ----- undecodable and unknown messages -----

  /** An undecodable message gets one SUBSCRIPTION_FAIL with a null id carrying the decode
      error, and nothing else happens. */
  lemma UndecodableMessageFails(hooks: Hooks, s: State, sid: string, e: Exc, ans: Answers)
    ensures Step(hooks, s, sid, Undecodable(e), ans) ==
              State(s.subscriptions, s.outbox + [Outbound(sid, SubscriptionFail(NoId, PyException(e)))], s.calls)
  {
  }

  /** A message of any other type gets one SUBSCRIPTION_FAIL carrying the client id and
      'Invalid message type', and nothing else happens. */
  lemma UnknownTypeFails(hooks: Hooks, s: State, sid: string, msg: Message, ans: Answers)
    requires msg.msgType != PyStr(INIT) && msg.msgType != PyStr(SUBSCRIPTION_START)
    requires msg.msgType != PyStr(SUBSCRIPTION_END)
    ensures Step(hooks, s, sid, Decoded(msg), ans) ==
              State(s.subscriptions,
                    s.outbox + [Outbound(sid, SubscriptionFail(msg.id, PyStr(INVALID_MESSAGE_TYPE)))],
                    s.calls)
  {
  }

  // ----- INIT -----

  /** INIT never touches the table, makes no call besides `on_connect`, and answers with
      exactly one INIT result, which is a success exactly when the handshake is accepted. */
  lemma InitLeavesTableAlone(hooks: Hooks, s: State, sid: string, msg: Message, ans: Answers)
    requires msg.msgType == PyStr(INIT)
    ensures var r := Step(hooks, s, sid, Decoded(msg), ans);
            r.subscriptions == s.subscriptions &&
            r.calls == s.calls + HandshakeCalls(hooks, msg) &&
            |r.outbox| == |s.outbox| + 1 && r.outbox[..|s.outbox|] == s.outbox &&
            r.outbox[|s.outbox|].room == sid && r.outbox[|s.outbox|].frame.InitResult? &&
            (r.outbox[|s.outbox|].frame.kind == InitSuccess <==>
               !hooks.onConnect ||
               (msg.payload.Some? && ans.onConnect.Returned? && Truthy(ans.onConnect.value)))
  {
    var r := Step(hooks, s, sid, Decoded(msg), ans);
    assert r.outbox[..|s.outbox|] == s.outbox;
    InitSucceedsIffAccepted(Handshake(hooks, msg, ans), sid);
  }

  /** How a rejected handshake is reported: the hook's own error, or 'Prohibited connection!'
      for a falsy result. */
  lemma InitRejectionReasons(hooks: Hooks, s: State, sid: string, msg: Message, ans: Answers)
    requires msg.msgType == PyStr(INIT)
    requires hooks.onConnect && msg.payload.Some?
    ensures var r := Step(hooks, s, sid, Decoded(msg), ans);
            (ans.onConnect.Raised? ==>
               r.outbox == s.outbox + [Outbound(sid, InitResult(InitFail, ErrorText(PyException(ans.onConnect.exc))))]) &&
            (ans.onConnect.Returned? && !Truthy(ans.onConnect.value) ==>
               r.outbox == s.outbox + [Outbound(sid, InitResult(InitFail, ErrorText(PyException(ProhibitedConnection))))])
  {
  }

  // ----- SUBSCRIPTION_START, path by path -----

  /** A missing `query` or `variables`, or a raising `parse_context`: one SUBSCRIPTION_FAIL
      with the client id and `repr` of the error; no subscription-manager call; table unchanged. */
  lemma StartFailsOnBadParameters(hooks: Hooks, s: State, sid: string, msg: Message, ans: Answers)
    requires msg.msgType == PyStr(SUBSCRIPTION_START)
    requires (hooks.parseContext && ans.parseContext.Raised?) || msg.query.None? || msg.variables.None?
    ensures Step(hooks, s, sid, Decoded(msg), ans) ==
              State(s.subscriptions,
                    s.outbox + [Outbound(sid, SubscriptionFail(msg.id, PyStr(BaseParams(hooks, msg, ans).error.repr)))],
                    s.calls + ContextCalls(hooks))
  {
  }

  /** A missing `query` is reported as `repr(KeyError('query'))` unless `parse_context` raised first. */
  lemma StartMissingQueryReported(hooks: Hooks, msg: Message, ans: Answers)
    requires msg.query.None? && !(hooks.parseContext && ans.parseContext.Raised?)
    ensures BaseParams(hooks, msg, ans) == Err(KeyError("query"))
  {
  }

  /** A raising `on_subscribe`: one SUBSCRIPTION_FAIL with the error; the table is untouched,
      since the hook runs before the teardown. */
  lemma StartFailsWhenHookRaises(hooks: Hooks, s: State, sid: string, msg: Message, ans: Answers)
    requires msg.msgType == PyStr(SUBSCRIPTION_START)
    requires BaseParams(hooks, msg, ans).Ok? && hooks.onSubscribe && ans.onSubscribe.Raised?
    ensures Step(hooks, s, sid, Decoded(msg), ans) ==
              State(s.subscriptions,
                    s.outbox + [Outbound(sid, SubscriptionFail(msg.id, PyException(ans.onSubscribe.exc)))],
                    s.calls + PreludeCalls(hooks, msg, ans))
  {
  }

  /** A non-dict parameter set: SUBSCRIPTION_FAIL with PARAMS_MUST_BE_OBJECT and no `subscribe`;
      but an active entry under the same key has already been unsubscribed and removed. */
  lemma StartRejectsNonDictParams(hooks: Hooks, s: State, sid: string, msg: Message, ans: Answers)
    requires msg.msgType == PyStr(SUBSCRIPTION_START)
    requires BaseParams(hooks, msg, ans).Ok?
    requires HookedParams(hooks, BaseParams(hooks, msg, ans).value, ans).Ok?
    requires !HookedParams(hooks, BaseParams(hooks, msg, ans).value, ans).value.PyDict?
    ensures var key := KeyFor(sid, msg.id);
            var r := Step(hooks, s, sid, Decoded(msg), ans);
            r.subscriptions == Dropped(s.subscriptions, key) && !Active(r.subscriptions, key) &&
            r.calls == s.calls + PreludeCalls(hooks, msg, ans) + TeardownCalls(hooks, s.subscriptions, key) &&
            r.outbox == s.outbox + [Outbound(sid, SubscriptionFail(msg.id, PyStr(PARAMS_MUST_BE_OBJECT)))]
  {
  }

  /** A successful START: the old active handle (if any) is unsubscribed, then `subscribe` is
      called once, the new handle is stored under the key, and SUBSCRIPTION_SUCCESS is sent. */
  lemma StartInstallsHandle(hooks: Hooks, s: State, sid: string, msg: Message, ans: Answers)
    requires msg.msgType == PyStr(SUBSCRIPTION_START)
    requires ReachesSubscribe(hooks, msg, ans) && ans.subscribe.Returned?
    ensures var key := KeyFor(sid, msg.id);
            var r := Step(hooks, s, sid, Decoded(msg), ans);
            r.subscriptions == s.subscriptions[key := ans.subscribe.value] &&
            r.calls == s.calls + PreludeCalls(hooks, msg, ans) + TeardownCalls(hooks, s.subscriptions, key) +
                       [ManagerSubscribe(SubscribeParams(hooks, msg, ans, sid))] &&
            r.outbox == s.outbox + [Outbound(sid, SubscriptionSuccess(msg.id))]
  {
    var key := KeyFor(sid, msg.id);
    assert Dropped(s.subscriptions, key)[key := ans.subscribe.value] == s.subscriptions[key := ans.subscribe.value];
  }

  /** `subscribe` raising: one SUBSCRIPTION_FAIL with the error; nothing is stored, yet the
      old active entry under the key is already gone. */
  lemma StartFailsWhenSubscribeRaises(hooks: Hooks, s: State, sid: string, msg: Message, ans: Answers)
    requires msg.msgType == PyStr(SUBSCRIPTION_START)
    requires ReachesSubscribe(hooks, msg, ans) && ans.subscribe.Raised?
    ensures var key := KeyFor(sid, msg.id);
            var r := Step(hooks, s, sid, Decoded(msg), ans);
            r.subscriptions == Dropped(s.subscriptions, key) &&
            r.calls == s.calls + PreludeCalls(hooks, msg, ans) + TeardownCalls(hooks, s.subscriptions, key) +
                       [ManagerSubscribe(SubscribeParams(hooks, msg, ans, sid))] &&
            r.outbox == s.outbox + [Outbound(sid, SubscriptionFail(msg.id, PyException(ans.subscribe.exc)))]
  {
  }

  /** The callback handed to `subscribe` is bound to the client id and the session, whatever
      the parameter set said about `callback`. */
  lemma SubscribeGetsBoundCallback(hooks: Hooks, msg: Message, ans: Answers, sid: string)
    requires ReachesSubscribe(hooks, msg, ans)
    ensures "callback" in SubscribeParams(hooks, msg, ans, sid)
    ensures SubscribeParams(hooks, msg, ans, sid)["callback"] == PyCallback(msg.id, sid)
  {
  }

  // ----- SUBSCRIPTION_START, as a whole -----

  /** Every START gets exactly one answer, SUBSCRIPTION_SUCCESS or SUBSCRIPTION_FAIL, carrying
      the client id and sent to the session; it is a success exactly when `subscribe` returned. */
  lemma StartAnswersOnce(hooks: Hooks, s: State, sid: string, msg: Message, ans: Answers)
    requires msg.msgType == PyStr(SUBSCRIPTION_START)
    ensures var r := Step(hooks, s, sid, Decoded(msg), ans);
            |r.outbox| == |s.outbox| + 1 && r.outbox[..|s.outbox|] == s.outbox &&
            r.outbox[|s.outbox|].room == sid &&
            (r.outbox[|s.outbox|].frame.SubscriptionSuccess? || r.outbox[|s.outbox|].frame.SubscriptionFail?) &&
            r.outbox[|s.outbox|].frame.id == msg.id &&
            (r.outbox[|s.outbox|].frame.SubscriptionSuccess? <==>
               ReachesSubscribe(hooks, msg, ans) && ans.subscribe.Returned?)
  {
    var r := Step(hooks, s, sid, Decoded(msg), ans);
    var o: Outbound;
    if BaseParams(hooks, msg, ans).Err? {
      StartFailsOnBadParameters(hooks, s, sid, msg, ans);
      o := Outbound(sid, SubscriptionFail(msg.id, PyStr(BaseParams(hooks, msg, ans).error.repr)));
    } else if HookedParams(hooks, BaseParams(hooks, msg, ans).value, ans).Err? {
      StartFailsWhenHookRaises(hooks, s, sid, msg, ans);
      o := Outbound(sid, SubscriptionFail(msg.id, PyException(ans.onSubscribe.exc)));
    } else if !ReachesSubscribe(hooks, msg, ans) {
      StartRejectsNonDictParams(hooks, s, sid, msg, ans);
      o := Outbound(sid, SubscriptionFail(msg.id, PyStr(PARAMS_MUST_BE_OBJECT)));
    } else if ans.subscribe.Raised? {
      StartFailsWhenSubscribeRaises(hooks, s, sid, msg, ans);
      o := Outbound(sid, SubscriptionFail(msg.id, PyException(ans.subscribe.exc)));
    } else {
      StartInstallsHandle(hooks, s, sid, msg, ans);
      o := Outbound(sid, SubscriptionSuccess(msg.id));
    }
    assert r.outbox == s.outbox + [o];
    assert r.outbox[..|s.outbox|] == s.outbox;
  }

  /** The calls one START makes, in order. */
  function StartCalls(hooks: Hooks, table: map<Key, PyValue>, sid: string, msg: Message, ans: Answers): seq<Call> {
    var pre := PreludeCalls(hooks, msg, ans);
    var down := TeardownCalls(hooks, table, KeyFor(sid, msg.id));
    if BaseParams(hooks, msg, ans).Err? || HookedParams(hooks, BaseParams(hooks, msg, ans).value, ans).Err? then pre
    else if !ReachesSubscribe(hooks, msg, ans) then pre + down
    else pre + down + [ManagerSubscribe(SubscribeParams(hooks, msg, ans, sid))]
  }

  /** A START that fails before it looks at the table appends only its prelude. */
  lemma StartAppendsCallsBeforeTable(hooks: Hooks, s: State, sid: string, msg: Message, ans: Answers)
    requires msg.msgType == PyStr(SUBSCRIPTION_START)
    requires BaseParams(hooks, msg, ans).Err? || HookedParams(hooks, BaseParams(hooks, msg, ans).value, ans).Err?
    ensures Step(hooks, s, sid, Decoded(msg), ans).calls == s.calls + StartCalls(hooks, s.subscriptions, sid, msg, ans)
  {
    if BaseParams(hooks, msg, ans).Err? {
      StartFailsOnBadParameters(hooks, s, sid, msg, ans);
    } else {
      StartFailsWhenHookRaises(hooks, s, sid, msg, ans);
    }
  }

  /** A START that reaches the table appends its prelude, the teardown and `subscribe`
      when it gets that far. */
  lemma StartAppendsCallsAtTable(hooks: Hooks, s: State, sid: string, msg: Message, ans: Answers)
    requires msg.msgType == PyStr(SUBSCRIPTION_START)
    requires BaseParams(hooks, msg, ans).Ok? && HookedParams(hooks, BaseParams(hooks, msg, ans).value, ans).Ok?
    ensures Step(hooks, s, sid, Decoded(msg), ans).calls == s.calls + StartCalls(hooks, s.subscriptions, sid, msg, ans)
  {
    if !ReachesSubscribe(hooks, msg, ans) {
      StartRejectsNonDictParams(hooks, s, sid, msg, ans);
    } else if ans.subscribe.Raised? {
      StartFailsWhenSubscribeRaises(hooks, s, sid, msg, ans);
    } else {
      StartInstallsHandle(hooks, s, sid, msg, ans);
    }
  }

  /** A START only appends to the call log, and what it appends is `StartCalls`. */
  lemma StartAppendsCalls(hooks: Hooks, s: State, sid: string, msg: Message, ans: Answers)
    requires msg.msgType == PyStr(SUBSCRIPTION_START)
    ensures Step(hooks, s, sid, Decoded(msg), ans).calls == s.calls + StartCalls(hooks, s.subscriptions, sid, msg, ans)
  {
    if BaseParams(hooks, msg, ans).Err? || HookedParams(hooks, BaseParams(hooks, msg, ans).value, ans).Err? {
      StartAppendsCallsBeforeTable(hooks, s, sid, msg, ans);
    } else {
      StartAppendsCallsAtTable(hooks, s, sid, msg, ans);
    }
  }

  /** Counts over a START's calls: the prelude reaches no manager method, the teardown at most
      one `unsubscribe`, and the tail is empty or the one `subscribe`. */
  lemma CountStartShape(pre: seq<Call>, down: seq<Call>, tail: seq<Call>, p: Call -> bool)
    ensures CountCalls(pre + down + tail, p) == CountCalls(pre, p) + CountCalls(down, p) + CountCalls(tail, p)
  {
    CountCallsAppend(pre, down, p);
    CountCallsAppend(pre + down, tail, p);
  }

  /** The teardown and tail of a START that reaches the table. */
  lemma StartCallsAtTable(
    hooks: Hooks, table: map<Key, PyValue>, sid: string, msg: Message, ans: Answers, pre: seq<Call>)
    returns (down: seq<Call>, tail: seq<Call>)
    requires pre == PreludeCalls(hooks, msg, ans)
    requires BaseParams(hooks, msg, ans).Ok? && HookedParams(hooks, BaseParams(hooks, msg, ans).value, ans).Ok?
    ensures StartCalls(hooks, table, sid, msg, ans) == pre + down + tail
    ensures CountCalls(down, IsSubscribe) == 0 && CountCalls(down, IsUnsubscribe) <= 1
    ensures CountCalls(tail, IsSubscribe) == (if ReachesSubscribe(hooks, msg, ans) then 1 else 0)
    ensures CountCalls(tail, IsUnsubscribe) == 0
  {
    var key := KeyFor(sid, msg.id);
    down := TeardownCalls(hooks, table, key);
    if Active(table, key) {
      UnsubscribeCallsCount(hooks, table[key]);
    }
    if ReachesSubscribe(hooks, msg, ans) {
      tail := [ManagerSubscribe(SubscribeParams(hooks, msg, ans, sid))];
      CountCallsSingle(tail[0], IsSubscribe);
      CountCallsSingle(tail[0], IsUnsubscribe);
    } else {
      tail := [];
    }
  }

  /** A START's calls split into the prelude, the teardown and the tail: the prelude reaches
      no manager method, the teardown makes at most one `unsubscribe`, and the tail is the
      one `subscribe` exactly when START gets that far. */
  lemma StartCallsParts(
    hooks: Hooks, table: map<Key, PyValue>, sid: string, msg: Message, ans: Answers)
    returns (pre: seq<Call>, down: seq<Call>, tail: seq<Call>)
    ensures StartCalls(hooks, table, sid, msg, ans) == pre + down + tail
    ensures CountCalls(pre, IsSubscribe) == 0 && CountCalls(pre, IsUnsubscribe) == 0
    ensures CountCalls(down, IsSubscribe) == 0 && CountCalls(down, IsUnsubscribe) <= 1
    ensures CountCalls(tail, IsSubscribe) == (if ReachesSubscribe(hooks, msg, ans) then 1 else 0)
    ensures CountCalls(tail, IsUnsubscribe) == 0
  {
    pre := PreludeCalls(hooks, msg, ans);
    PreludeCallsNeverReachManager(hooks, msg, ans);
    if BaseParams(hooks, msg, ans).Err? || HookedParams(hooks, BaseParams(hooks, msg, ans).value, ans).Err? {
      down, tail := [], [];
      assert !ReachesSubscribe(hooks, msg, ans);
      assert StartCalls(hooks, table, sid, msg, ans) == pre + down + tail;
    } else {
      down, tail := StartCallsAtTable(hooks, table, sid, msg, ans, pre);
    }
  }

  /** A START calls `subscribe` exactly once if it gets that far and never otherwise, and
      `unsubscribe` at most once. */
  lemma StartCallsManagerAtMostOnce(
    hooks: Hooks, table: map<Key, PyValue>, sid: string, msg: Message, ans: Answers)
    ensures CountCalls(StartCalls(hooks, table, sid, msg, ans), IsSubscribe) ==
              (if ReachesSubscribe(hooks, msg, ans) then 1 else 0)
    ensures CountCalls(StartCalls(hooks, table, sid, msg, ans), IsUnsubscribe) <= 1
  {
    var pre, down, tail := StartCallsParts(hooks, table, sid, msg, ans);
    CountStartShape(pre, down, tail, IsSubscribe);
    CountStartShape(pre, down, tail, IsUnsubscribe);
  }

  // ----- SUBSCRIPTION_END -----

  /** END on an active key: exactly one `unsubscribe(handle)` (with `on_unsubscribe(handle)`),
      the key removed, no frame. */
  lemma EndRemovesActiveEntry(hooks: Hooks, s: State, sid: string, msg: Message, ans: Answers)
    requires msg.msgType == PyStr(SUBSCRIPTION_END)
    requires Active(s.subscriptions, KeyFor(sid, msg.id))
    ensures var key := KeyFor(sid, msg.id);
            Step(hooks, s, sid, Decoded(msg), ans) ==
              State(s.subscriptions - {key}, s.outbox, s.calls + UnsubscribeCalls(hooks, s.subscriptions[key]))
  {
  }

  /** END on a key without an active entry: nothing at all happens. */
  lemma EndWithoutEntryIsNoOp(hooks: Hooks, s: State, sid: string, msg: Message, ans: Answers)
    requires msg.msgType == PyStr(SUBSCRIPTION_END)
    requires !Active(s.subscriptions, KeyFor(sid, msg.id))
    ensures Step(hooks, s, sid, Decoded(msg), ans) == s
  {
  }

  /** No message changes a table entry other than the one under its own key. */
  lemma StepKeepsOtherKeys(hooks: Hooks, s: State, sid: string, msg: Message, ans: Answers)
    ensures AgreeOutside(Step(hooks, s, sid, Decoded(msg), ans).subscriptions, s.subscriptions, KeyFor(sid, msg.id))
  {
    if msg.msgType == PyStr(SUBSCRIPTION_START) {
      if BaseParams(hooks, msg, ans).Err? {
        StartFailsOnBadParameters(hooks, s, sid, msg, ans);
      } else if HookedParams(hooks, BaseParams(hooks, msg, ans).value, ans).Err? {
        StartFailsWhenHookRaises(hooks, s, sid, msg, ans);
      } else if !ReachesSubscribe(hooks, msg, ans) {
        StartRejectsNonDictParams(hooks, s, sid, msg, ans);
      } else if ans.subscribe.Raised? {
        StartFailsWhenSubscribeRaises(hooks, s, sid, msg, ans);
      } else {
        StartInstallsHandle(hooks, s, sid, msg, ans);
      }
    }
  }

  // ----- sequences of messages -----

  /** Two STARTs with the same id on one connection: the second unsubscribes the first handle
      exactly once, then subscribes once; one entry remains, holding the second handle. */
  lemma RepeatedStartReplacesSubscription(
    hooks: Hooks, s: State, sid: string, msg1: Message, ans1: Answers, msg2: Message, ans2: Answers)
    requires msg1.msgType == PyStr(SUBSCRIPTION_START) && msg2.msgType == PyStr(SUBSCRIPTION_START)
    requires msg2.id == msg1.id
    requires ReachesSubscribe(hooks, msg1, ans1) && ans1.subscribe.Returned? && Truthy(ans1.subscribe.value)
    requires ReachesSubscribe(hooks, msg2, ans2) && ans2.subscribe.Returned?
    ensures var key := KeyFor(sid, msg1.id);
            var s1 := Step(hooks, s, sid, Decoded(msg1), ans1);
            var s2 := Step(hooks, s1, sid, Decoded(msg2), ans2);
            s2.subscriptions == s.subscriptions[key := ans2.subscribe.value] &&
            s2.calls == s1.calls + PreludeCalls(hooks, msg2, ans2) + UnsubscribeCalls(hooks, ans1.subscribe.value) +
                        [ManagerSubscribe(SubscribeParams(hooks, msg2, ans2, sid))]
  {
    var key := KeyFor(sid, msg1.id);
    var s1 := Step(hooks, s, sid, Decoded(msg1), ans1);
    StartInstallsHandle(hooks, s, sid, msg1, ans1);
    StartInstallsHandle(hooks, s1, sid, msg2, ans2);
    assert Active(s1.subscriptions, key);
    assert s1.subscriptions[key := ans2.subscribe.value] == s.subscriptions[key := ans2.subscribe.value];
  }

  /** START then END with the same id, on a key that was free: the table is as before, one
      entry larger in between, and the handle is unsubscribed. */
  lemma StartThenEndRestoresTable(
    hooks: Hooks, s: State, sid: string, msg1: Message, ans1: Answers, msg2: Message, ans2: Answers)
    requires msg1.msgType == PyStr(SUBSCRIPTION_START) && msg2.msgType == PyStr(SUBSCRIPTION_END)
    requires msg2.id == msg1.id
    requires KeyFor(sid, msg1.id) !in s.subscriptions
    requires ReachesSubscribe(hooks, msg1, ans1) && ans1.subscribe.Returned? && Truthy(ans1.subscribe.value)
    ensures var s1 := Step(hooks, s, sid, Decoded(msg1), ans1);
            var s2 := Step(hooks, s1, sid, Decoded(msg2), ans2);
            |s1.subscriptions| == |s.subscriptions| + 1 &&
            s2.subscriptions == s.subscriptions &&
            s2.calls == s1.calls + UnsubscribeCalls(hooks, ans1.subscribe.value) &&
            s2.outbox == s1.outbox
  {
    var key := KeyFor(sid, msg1.id);
    var s1 := Step(hooks, s, sid, Decoded(msg1), ans1);
    StartInstallsHandle(hooks, s, sid, msg1, ans1);
    EndRemovesActiveEntry(hooks, s1, sid, msg2, ans2);
    assert s1.subscriptions - {key} == s.subscriptions;
  }

  /** A falsy handle is stored but counts as absent: a later END with the same id does nothing,
      and the entry stays in the table. */
  lemma FalsyHandleOutlivesEnd(
    hooks: Hooks, s: State, sid: string, msg1: Message, ans1: Answers, msg2: Message, ans2: Answers)
    requires msg1.msgType == PyStr(SUBSCRIPTION_START) && msg2.msgType == PyStr(SUBSCRIPTION_END)
    requires msg2.id == msg1.id
    requires ReachesSubscribe(hooks, msg1, ans1) && ans1.subscribe.Returned? && !Truthy(ans1.subscribe.value)
    ensures var s1 := Step(hooks, s, sid, Decoded(msg1), ans1);
            var s2 := Step(hooks, s1, sid, Decoded(msg2), ans2);
            s2 == s1 && KeyFor(sid, msg1.id) in s2.subscriptions
  {
    StartInstallsHandle(hooks, s, sid, msg1, ans1);
  }

  /** Messages without an id share the key `None` across connections: an id-less END on one
      connection tears down the id-less subscription another connection started. */
  lemma MissingIdReachesAcrossConnections(
    hooks: Hooks, s: State, sidA: string, msgA: Message, ansA: Answers,
    sidB: string, msgB: Message, ansB: Answers)
    requires msgA.msgType == PyStr(SUBSCRIPTION_START) && msgB.msgType == PyStr(SUBSCRIPTION_END)
    requires msgA.id == NoId && msgB.id == NoId
    requires ReachesSubscribe(hooks, msgA, ansA) && ansA.subscribe.Returned? && Truthy(ansA.subscribe.value)
    ensures var s1 := Step(hooks, s, sidA, Decoded(msgA), ansA);
            var s2 := Step(hooks, s1, sidB, Decoded(msgB), ansB);
            NoneKey !in s2.subscriptions &&
            s2.calls == s1.calls + UnsubscribeCalls(hooks, ansA.subscribe.value)
  {
    var s1 := Step(hooks, s, sidA, Decoded(msgA), ansA);
    StartInstallsHandle(hooks, s, sidA, msgA, ansA);
    MissingIdKeyIsShared(sidA, sidB);
    EndRemovesActiveEntry(hooks, s1, sidB, msgB, ansB);
  }
}
