/** The broadcast endpoint (`POST /api/pmp/push`): send one notification
    payload to every stored subscription, count the deliveries that
    succeeded, and delete the subscriptions the push service reports as gone.

    The environment, the store read and the push service are parameters: the
    VAPID key pair as read from the environment, what the select returned,
    and `deliver`, the push service's answer to one send. The concurrent
    fan-out (`Promise.allSettled`) is a sequential loop here; lemmas
    SentCountIgnoresOrder and StaleIdsIgnoreOrder show the counts and the stale ids it reports
    do not depend on the order in which the sends settle. */
module PushBroadcast {
  import opened Basics
  import opened SubscriptionStore

  /** The VAPID key pair from the environment; `None` is an unset variable. */
  datatype VapidConfig = VapidConfig(publicKey: Option<string>, privateKey: Option<string>)

  /** The request body `{title, message, url}`; an absent field is `None`. */
  datatype BroadcastRequest = BroadcastRequest(title: Option<string>, message: Option<string>, url: Option<string>)

  /** The JSON payload `{title, body, url}` sent to every recipient. */
  datatype Payload = Payload(title: Option<string>, body: Option<string>, url: string)

  /** The push service's answer to one send: delivered, or an error carrying
      an HTTP `statusCode` (`None` when the error has none). */
  datatype DeliveryOutcome = Delivered | Failed(statusCode: Option<int>)

  /** The push service's answer to sending a payload to a subscription. */
  type Deliver = (Descriptor, Payload) -> DeliveryOutcome

  /** What the handler does to the world, in order. */
  datatype Effect =
    | ReadSubscriptions
    | Send(to: Descriptor, payload: Payload)
    | DeleteIdsIn(ids: seq<Id>)

  /** What `select("subscription_json, id")` returned. */
  datatype SelectResult = SelectError | SelectNull | SelectRows(rows: seq<Selected>)

  datatype BroadcastResponse =
    | Error(status: int, message: string)        // {error: message} with that status
    | NoSubscriptions                            // 200 {sent: 0, message: "No subscriptions found"}
    | Summary(sent: nat, total: nat, staleRemoved: nat)  // 200 {sent, total, staleRemoved}
  {
    function Status(): int {
      if Error? then status else 200
    }
  }

  const NotConfiguredMessage := "VAPID keys not configured. Add PMP_VAPID_PUBLIC_KEY and PMP_VAPID_PRIVATE_KEY to environment variables."
  const FetchFailedMessage := "Failed to fetch subscriptions"
  const UnknownErrorMessage := "Unknown error"

  /** Both keys are set and non-empty. */
  predicate Configured(config: VapidConfig): (r: bool)
    ensures r <==> config.publicKey.Some? && config.publicKey.value != "" && config.privateKey.Some? && config.privateKey.value != ""
  {
    Truthy(config.publicKey) && Truthy(config.privateKey)
  }

  /** `const { title, message, url = "/" } = body` then `{title, body: message, url}`:
      the default applies only to an absent url. */
  function BuildPayload(request: BroadcastRequest): (r: Payload)
    ensures r.title == request.title && r.body == request.message
    ensures request.url.None? ==> r.url == "/"
    ensures request.url.Some? ==> r.url == request.url.value
  {
    Payload(request.title, request.message, if request.url.Some? then request.url.value else "/")
  }

  /** The push service reports the subscription gone: 410 Gone, or 404 Not
      Found (section 7.3 of RFC 8030). */
  predicate Gone(outcome: DeliveryOutcome): (g: bool)
    ensures g ==> !outcome.Delivered?
    ensures g <==> outcome.Failed? && outcome.statusCode.Some? && outcome.statusCode.value in {404, 410}
  {
    outcome.Failed? && (outcome.statusCode == Some(410) || outcome.statusCode == Some(404))
  }

  function Last<T>(s: seq<T>): T
    requires s != []
  {
    s[|s| - 1]
  }

  function AllButLast<T>(s: seq<T>): seq<T>
    requires s != []
  {
    s[..|s| - 1]
  }

  /** The number of recipients whose send was delivered. */
  function SentCount(subs: seq<Selected>, deliver: Deliver, payload: Payload): nat {
    if subs == [] then 0
    else SentCount(AllButLast(subs), deliver, payload)
         + (if deliver(Last(subs).subscriptionJson, payload).Delivered? then 1 else 0)
  }

  /** The ids of the recipients whose send reported them gone, in order. */
  function StaleIds(subs: seq<Selected>, deliver: Deliver, payload: Payload): seq<Id> {
    if subs == [] then []
    else StaleIds(AllButLast(subs), deliver, payload)
         + (if Gone(deliver(Last(subs).subscriptionJson, payload)) then [Last(subs).id] else [])
  }

  /** One send per recipient, in order, all with the same payload. */
  function Sends(subs: seq<Selected>, payload: Payload): (r: seq<Effect>)
    ensures |r| == |subs|
    ensures forall i :: 0 <= i < |subs| ==> r[i] == Send(subs[i].subscriptionJson, payload)
  {
    if subs == [] then [] else Sends(AllButLast(subs), payload) + [Send(Last(subs).subscriptionJson, payload)]
  }

  lemma {:induction false} ClassifyAppend(a: seq<Selected>, b: seq<Selected>, deliver: Deliver, payload: Payload)
    ensures SentCount(a + b, deliver, payload) == SentCount(a, deliver, payload) + SentCount(b, deliver, payload)
    ensures StaleIds(a + b, deliver, payload) == StaleIds(a, deliver, payload) + StaleIds(b, deliver, payload)
  {
    if b != [] {
      assert AllButLast(a + b) == a + AllButLast(b);
      assert Last(a + b) == Last(b);
      ClassifyAppend(a, AllButLast(b), deliver, payload);
    } else {
      assert a + b == a;
    }
  }

  /** An id is stale exactly when some recipient with that id was reported gone. */
  lemma {:induction false} StaleIdsExactlyGone(subs: seq<Selected>, deliver: Deliver, payload: Payload, id: Id)
    ensures id in StaleIds(subs, deliver, payload)
        <==> exists i :: 0 <= i < |subs| && subs[i].id == id && Gone(deliver(subs[i].subscriptionJson, payload))
  {
    if subs != [] {
      var init := AllButLast(subs);
      StaleIdsExactlyGone(init, deliver, payload, id);
      if id in StaleIds(subs, deliver, payload) && id !in StaleIds(init, deliver, payload) {
        assert subs[|subs| - 1].id == id && Gone(deliver(subs[|subs| - 1].subscriptionJson, payload));
      }
      if exists i :: 0 <= i < |init| && init[i].id == id && Gone(deliver(init[i].subscriptionJson, payload)) {
        var i :| 0 <= i < |init| && init[i].id == id && Gone(deliver(init[i].subscriptionJson, payload));
        assert subs[i] == init[i];
      }
    }
  }

  /** A recipient is counted as sent, marked stale, or neither (any other
      failure), never both: so sent + staleRemoved <= total, with equality
      exactly when every failure was a "gone" one. */
  lemma {:induction false} SentAndStaleWithinTotal(subs: seq<Selected>, deliver: Deliver, payload: Payload)
    ensures SentCount(subs, deliver, payload) + |StaleIds(subs, deliver, payload)| <= |subs|
    ensures SentCount(subs, deliver, payload) + |StaleIds(subs, deliver, payload)| == |subs|
        <==> forall i :: 0 <= i < |subs| ==> var o := deliver(subs[i].subscriptionJson, payload); o.Delivered? || Gone(o)
  {
    if subs != [] {
      var init := AllButLast(subs);
      SentAndStaleWithinTotal(init, deliver, payload);
      assert forall i :: 0 <= i < |init| ==> init[i] == subs[i];
    }
  }

  lemma MultisetRemoveAt(s: seq<Selected>, j: nat)
    requires j < |s|
    ensures multiset(s[..j] + s[j + 1..]) == multiset(s) - multiset{s[j]}
  {
    assert s == s[..j] + [s[j]] + s[j + 1..];
  }

  /** Taking the element at index j out and counting it on its own. */
  lemma SentCountRemoveAt(s: seq<Selected>, j: nat, deliver: Deliver, payload: Payload)
    requires j < |s|
    ensures SentCount(s, deliver, payload)
         == SentCount(s[..j] + s[j + 1..], deliver, payload) + SentCount([s[j]], deliver, payload)
  {
    assert s == s[..j] + [s[j]] + s[j + 1..];
    ClassifyAppend(s[..j] + [s[j]], s[j + 1..], deliver, payload);
    ClassifyAppend(s[..j], [s[j]], deliver, payload);
    ClassifyAppend(s[..j], s[j + 1..], deliver, payload);
  }

  lemma StaleIdsRemoveAt(s: seq<Selected>, j: nat, deliver: Deliver, payload: Payload)
    requires j < |s|
    ensures multiset(StaleIds(s, deliver, payload))
         == multiset(StaleIds(s[..j] + s[j + 1..], deliver, payload)) + multiset(StaleIds([s[j]], deliver, payload))
  {
    assert s == s[..j] + [s[j]] + s[j + 1..];
    ClassifyAppend(s[..j] + [s[j]], s[j + 1..], deliver, payload);
    ClassifyAppend(s[..j], [s[j]], deliver, payload);
    ClassifyAppend(s[..j], s[j + 1..], deliver, payload);
  }

  /** The sends settle in no particular order; any order of the same
      recipients gives the same `sent`. */
  lemma {:induction false} SentCountIgnoresOrder(a: seq<Selected>, b: seq<Selected>, deliver: Deliver, payload: Payload)
    requires multiset(a) == multiset(b)
    ensures SentCount(a, deliver, payload) == SentCount(b, deliver, payload)
  {
    if a == [] {
      assert |b| == |multiset(b)| == 0;
    } else {
      var x := a[0];
      assert x in multiset(b);
      var j :| 0 <= j < |b| && b[j] == x;
      var rest := b[..j] + b[j + 1..];
      MultisetRemoveAt(b, j);
      assert a == [x] + a[1..];
      assert multiset(a[1..]) == multiset(rest);
      SentCountIgnoresOrder(a[1..], rest, deliver, payload);
      ClassifyAppend([x], a[1..], deliver, payload);
      SentCountRemoveAt(b, j, deliver, payload);
    }
  }

  /** Any order of the same recipients marks the same ids stale, each as
      often, so the batch delete and `staleRemoved` are the same. */
  lemma {:induction false} StaleIdsIgnoreOrder(a: seq<Selected>, b: seq<Selected>, deliver: Deliver, payload: Payload)
    requires multiset(a) == multiset(b)
    ensures multiset(StaleIds(a, deliver, payload)) == multiset(StaleIds(b, deliver, payload))
  {
    if a == [] {
      assert |b| == |multiset(b)| == 0;
    } else {
      var x := a[0];
      assert x in multiset(b);
      var j :| 0 <= j < |b| && b[j] == x;
      var rest := b[..j] + b[j + 1..];
      MultisetRemoveAt(b, j);
      assert a == [x] + a[1..];
      assert multiset(a[1..]) == multiset(rest);
      StaleIdsIgnoreOrder(a[1..], rest, deliver, payload);
      ClassifyAppend([x], a[1..], deliver, payload);
      StaleIdsRemoveAt(b, j, deliver, payload);
    }
  }

  /** The per-recipient loop: send the same payload to each subscription,
      count deliveries, collect the ids reported gone; other failures are
      swallowed. */
  method Classify(subs: seq<Selected>, deliver: Deliver, payload: Payload)
    returns (sent: nat, staleIds: seq<Id>, sends: seq<Effect>)
    ensures sent == SentCount(subs, deliver, payload)
    ensures staleIds == StaleIds(subs, deliver, payload)
    ensures |sends| == |subs| && forall i :: 0 <= i < |subs| ==> sends[i] == Send(subs[i].subscriptionJson, payload)
  {
    sent, staleIds, sends := 0, [], [];
    var i := 0;
    while i < |subs|
      invariant 0 <= i <= |subs|
      invariant sent == SentCount(subs[..i], deliver, payload)
      invariant staleIds == StaleIds(subs[..i], deliver, payload)
      invariant sends == Sends(subs[..i], payload)
    {
      var sub := subs[i];
      assert AllButLast(subs[..i + 1]) == subs[..i] && Last(subs[..i + 1]) == sub;
      sends := sends + [Send(sub.subscriptionJson, payload)];
      var outcome := deliver(sub.subscriptionJson, payload);
      if outcome.Delivered? {
        sent := sent + 1;
      } else if outcome.statusCode == Some(410) || outcome.statusCode == Some(404) {
        staleIds := staleIds + [sub.id];
      }
      i := i + 1;
    }
    assert subs[..i] == subs;
  }

  /** After a non-empty read of the subscriptions: classify every
      send, delete the stale ids in one batch if there are any, and report the
      counts. `deleteFails` is the store rejecting the delete, whose result
      the handler does not look at. */
  method SendToAll(store: Store, subs: seq<Selected>, payload: Payload, deliver: Deliver, deleteFails: bool)
    returns (response: BroadcastResponse, effects: seq<Effect>)
    requires store.Valid()
    modifies store
    ensures store.Valid() && store.nextId == old(store.nextId)
    ensures response == Summary(SentCount(subs, deliver, payload), |subs|, |StaleIds(subs, deliver, payload)|)
    ensures effects == Sends(subs, payload) + if StaleIds(subs, deliver, payload) == [] then [] else [DeleteIdsIn(StaleIds(subs, deliver, payload))]
    ensures store.table == if StaleIds(subs, deliver, payload) == [] || deleteFails then old(store.table)
                           else WithoutIds(old(store.table), StaleIds(subs, deliver, payload))
  {
    var sent, staleIds, sends := Classify(subs, deliver, payload);
    assert sends == Sends(subs, payload);
    effects := sends;
    if |staleIds| > 0 {
      effects := effects + [DeleteIdsIn(staleIds)];
      var _ := store.DeleteIdsIn(staleIds, deleteFails);
    }
    response := Summary(sent, |subs|, |staleIds|);
  }

  /** The whole handler. */
  method Broadcast(store: Store, config: VapidConfig, request: Incoming<BroadcastRequest>,
                   select: SelectResult, deliver: Deliver, deleteFails: bool)
    returns (response: BroadcastResponse, effects: seq<Effect>)
    requires store.Valid()
    modifies store
    ensures store.Valid() && store.nextId == old(store.nextId)
    // missing keys: 503 before the store is read or anything is sent
    ensures !Configured(config) ==>
      response == Error(503, NotConfiguredMessage) && effects == [] && store.table == old(store.table)
    // an unreadable body: 500 with the error's message
    ensures Configured(config) && request.Unparseable? ==>
      response == Error(500, OrElse(Some(request.message), UnknownErrorMessage))
      && effects == [] && store.table == old(store.table)
    // a failed read: 500, nothing sent or deleted
    ensures Configured(config) && request.Parsed? && select.SelectError? ==>
      response == Error(500, FetchFailedMessage) && effects == [ReadSubscriptions] && store.table == old(store.table)
    // no subscriptions: sent = 0 and no delivery attempted
    ensures Configured(config) && request.Parsed? && (select.SelectNull? || select == SelectRows([])) ==>
      response == NoSubscriptions && effects == [ReadSubscriptions] && store.table == old(store.table)
    // otherwise: one send per subscription, all with the same payload, then
    // one batch delete of the stale ids if there are any
    ensures Configured(config) && request.Parsed? && select.SelectRows? && select.rows != [] ==>
      var payload := BuildPayload(request.body);
      var stale := StaleIds(select.rows, deliver, payload);
      && response == Summary(SentCount(select.rows, deliver, payload), |select.rows|, |stale|)
      && effects == [ReadSubscriptions] + Sends(select.rows, payload) + (if stale == [] then [] else [DeleteIdsIn(stale)])
      && store.table == (if stale == [] || deleteFails then old(store.table) else WithoutIds(old(store.table), stale))
    ensures response.Summary? ==> response.sent + response.staleRemoved <= response.total
  {
    if !Truthy(config.publicKey) || !Truthy(config.privateKey) {
      return Error(503, NotConfiguredMessage), [];
    }
    if request.Unparseable? {
      return Error(500, OrElse(Some(request.message), UnknownErrorMessage)), [];
    }
    if select.SelectError? {
      return Error(500, FetchFailedMessage), [ReadSubscriptions];
    }
    if select.SelectNull? || |select.rows| == 0 {
      return NoSubscriptions, [ReadSubscriptions];
    }
    var rest;
    response, rest := SendToAll(store, select.rows, BuildPayload(request.body), deliver, deleteFails);
    effects := [ReadSubscriptions] + rest;
    SentAndStaleWithinTotal(select.rows, deliver, BuildPayload(request.body));
  }

  /** Five recipients answering delivered, 410, delivered, 404 and 500 (the
      keys name them): two are sent, two are marked stale, the fifth is kept
      and not counted. */
  function ExampleAnswer(to: Descriptor, payload: Payload): DeliveryOutcome {
    if to.keys == "B" then Failed(Some(410))
    else if to.keys == "D" then Failed(Some(404))
    else if to.keys == "E" then Failed(Some(500))
    else Delivered
  }

  lemma MixedOutcomesExample(payload: Payload)
    ensures var subs := [Selected(1, Descriptor(None, "A")), Selected(2, Descriptor(None, "B")),
                         Selected(3, Descriptor(None, "C")), Selected(4, Descriptor(None, "D")),
                         Selected(5, Descriptor(None, "E"))];
      && SentCount(subs, ExampleAnswer, payload) == 2
      && StaleIds(subs, ExampleAnswer, payload) == [2, 4]
  {
    var subs := [Selected(1, Descriptor(None, "A")), Selected(2, Descriptor(None, "B")),
                 Selected(3, Descriptor(None, "C")), Selected(4, Descriptor(None, "D")),
                 Selected(5, Descriptor(None, "E"))];
    assert AllButLast(subs[..1]) == [];
    assert AllButLast(subs[..2]) == subs[..1];
    assert AllButLast(subs[..3]) == subs[..2];
    assert AllButLast(subs[..4]) == subs[..3];
    assert AllButLast(subs) == subs[..4];
    assert ExampleAnswer(subs[0].subscriptionJson, payload) == Delivered;
    assert ExampleAnswer(subs[1].subscriptionJson, payload) == Failed(Some(410));
    assert ExampleAnswer(subs[2].subscriptionJson, payload) == Delivered;
    assert ExampleAnswer(subs[3].subscriptionJson, payload) == Failed(Some(404));
    assert ExampleAnswer(subs[4].subscriptionJson, payload) == Failed(Some(500));
    assert SentCount(subs[..1], ExampleAnswer, payload) == 1 && StaleIds(subs[..1], ExampleAnswer, payload) == [];
    assert SentCount(subs[..2], ExampleAnswer, payload) == 1 && StaleIds(subs[..2], ExampleAnswer, payload) == [2];
    assert SentCount(subs[..3], ExampleAnswer, payload) == 2 && StaleIds(subs[..3], ExampleAnswer, payload) == [2];
    assert SentCount(subs[..4], ExampleAnswer, payload) == 2 && StaleIds(subs[..4], ExampleAnswer, payload) == [2, 4];
  }
}
