/** The registration endpoint (`POST /api/pmp/push/subscribe`): accept a
    browser's push subscription descriptor and upsert it into the
    subscription table, keyed by its endpoint. */
module PushSubscribe {
  import opened Basics
  import opened SubscriptionStore

  /** The request body `{subscription}`; an absent or null subscription is `None`. */
  datatype SubscribeRequest = SubscribeRequest(subscription: Option<Descriptor>)

  datatype SubscribeResponse =
    | Invalid                   // 400 {error: "Invalid subscription"}
    | SaveFailed                // 500 {error: "Failed to save subscription"}
    | Thrown(message: string)   // 500 {error: err.message}
    | Saved                     // 200 {ok: true}
  {
    function Status(): int {
      match this
      case Invalid => 400
      case SaveFailed => 500
      case Thrown(_) => 500
      case Saved => 200
    }
  }

  /** `subscription?.endpoint` when it is truthy: the endpoint to key the row by. */
  function EndpointOf(subscription: Option<Descriptor>): (r: Option<string>)
    ensures r.Some? <==> subscription.Some? && Truthy(subscription.value.endpoint)
    ensures r.Some? ==> r.value != "" && r == subscription.value.endpoint
  {
    if subscription.Some? && Truthy(subscription.value.endpoint) then subscription.value.endpoint else None
  }

  /** The whole handler. `writeFails` is the store rejecting the upsert. */
  method Subscribe(store: Store, request: Incoming<SubscribeRequest>, writeFails: bool)
    returns (response: SubscribeResponse)
    requires store.Valid()
    modifies store
    ensures store.Valid()
    // an unreadable body: 500 with the error's message, nothing written
    ensures request.Unparseable? ==>
      response == Thrown(request.message) && store.table == old(store.table) && store.nextId == old(store.nextId)
    // no subscription or a falsy endpoint: 400, nothing written
    ensures request.Parsed? && EndpointOf(request.body.subscription).None? ==>
      response == Invalid && store.table == old(store.table) && store.nextId == old(store.nextId)
    // a store error: 500, nothing written
    ensures request.Parsed? && EndpointOf(request.body.subscription).Some? && writeFails ==>
      response == SaveFailed && store.table == old(store.table) && store.nextId == old(store.nextId)
    // success: the row for that endpoint holds this descriptor, other rows are untouched
    ensures request.Parsed? && EndpointOf(request.body.subscription).Some? && !writeFails ==>
      var endpoint := EndpointOf(request.body.subscription).value;
      && response == Saved
      && store.table == Upserted(old(store.table), old(store.nextId), endpoint, request.body.subscription.value)
      && store.nextId == NextIdAfter(old(store.table), old(store.nextId), endpoint)
    ensures response.Status() == 200 <==> response == Saved
  {
    if request.Unparseable? {
      return Thrown(request.message);
    }
    var endpoint := EndpointOf(request.body.subscription);
    if endpoint.None? {
      return Invalid;
    }
    var ok := store.Upsert(endpoint.value, request.body.subscription.value, writeFails);
    if !ok {
      return SaveFailed;
    }
    response := Saved;
  }
}
