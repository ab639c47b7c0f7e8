/** The payment-platform webhook of `app/api/webhooks/route.ts`: the
    relevant-event filter, the switch from event type to mirror upsert, and
    the response status. Signature checking (`constructEvent`) and the upserts
    are oracles passed in as functions. */
module Webhook {

  import opened Wrappers

  /** The event types the handler acts on (`relevantEvents`). */
  const RelevantEvents: set<string> := {
    "product.created",
    "product.updated",
    "price.created",
    "price.updated",
    "checkout.session.completed",
    "customer.subscription.created",
    "customer.subscription.updated",
    "customer.subscription.deleted"
  }

  /** The fields of `event.data.object` that the handler reads. The casts in
      the handler are unchecked, so every event carries all of them. */
  datatype EventObject = EventObject(id: string, customer: string, mode: string, subscription: string)

  datatype Event = Event(eventType: string, payload: EventObject)

  /** The arm of the `switch` an event type falls into. */
  datatype Route = ProductRoute | PriceRoute | SubscriptionRoute(createAction: bool) | CheckoutRoute | DefaultRoute

  /** A mirror-table update the handler asks for. */
  datatype Upsert =
    | UpsertProductRecord(product: EventObject)
    | UpsertPriceRecord(price: EventObject)
    | ManageSubscriptionStatusChange(subscriptionId: string, customerId: string, createAction: bool)

  /** What `constructEvent` did with the payload: the parsed event, or the
      message of the error it threw. */
  datatype Verification = Verified(event: Event) | Rejected(message: string)

  /** The handler's answer; `NoResponse` is the bare `return`. */
  datatype Response = NoResponse | Text(status: int, body: string) | Json(status: int, received: bool)

  /** The 400 body of a handler failure. */
  const HandlerFailed := "Webhook error: \"Webhook handler failed. View logs.\""

  /** The `switch (event.type)`. */
  function RouteOf(eventType: string): Route
  {
    match eventType
    case "product.created" => ProductRoute
    case "product.updated" => ProductRoute
    case "price.created" => PriceRoute
    case "price.updated" => PriceRoute
    case "customer.subscription.created" => SubscriptionRoute(true)
    case "customer.subscription.updated" => SubscriptionRoute(false)
    case "customer.subscription.deleted" => SubscriptionRoute(false)
    case "checkout.session.completed" => CheckoutRoute
    case _ => DefaultRoute
  }

  /** Every relevant event has a case of its own and nothing else does, so
      the `default` throw is unreachable for events that pass the filter. */
  lemma RelevantIffRouted(eventType: string)
    ensures eventType in RelevantEvents <==> RouteOf(eventType) != DefaultRoute
  {
  }

  /** The `createAction` flag of a subscription event is set only for
      creation; product events are routed to products, price events to
      prices. */
  lemma RouteClasses(eventType: string)
    ensures RouteOf(eventType).SubscriptionRoute? ==>
      (RouteOf(eventType).createAction <==> eventType == "customer.subscription.created")
    ensures RouteOf(eventType) == ProductRoute <==>
      eventType in {"product.created", "product.updated"}
    ensures RouteOf(eventType) == PriceRoute <==>
      eventType in {"price.created", "price.updated"}
  {
  }

  /** The upsert a routed event asks for, if any. A completed checkout asks
      for one only in subscription mode, and then always as a creation. */
  function UpsertFor(event: Event): (u: Option<Upsert>)
    requires RouteOf(event.eventType) != DefaultRoute
    ensures RouteOf(event.eventType) == ProductRoute ==> u == Some(UpsertProductRecord(event.payload))
    ensures RouteOf(event.eventType) == PriceRoute ==> u == Some(UpsertPriceRecord(event.payload))
    ensures RouteOf(event.eventType).SubscriptionRoute? ==>
      u == Some(ManageSubscriptionStatusChange(event.payload.id, event.payload.customer,
                                               event.eventType == "customer.subscription.created"))
    ensures event.eventType == "checkout.session.completed" && event.payload.mode == "subscription" ==>
      u == Some(ManageSubscriptionStatusChange(event.payload.subscription, event.payload.customer, true))
    ensures u.Some? && u.value.ManageSubscriptionStatusChange? ==>
      u.value.customerId == event.payload.customer
      && (u.value.createAction <==> event.eventType in {"customer.subscription.created", "checkout.session.completed"})
    ensures u.None? <==> event.eventType == "checkout.session.completed" && event.payload.mode != "subscription"
  {
    match RouteOf(event.eventType)
    case ProductRoute => Some(UpsertProductRecord(event.payload))
    case PriceRoute => Some(UpsertPriceRecord(event.payload))
    case SubscriptionRoute(create) =>
      Some(ManageSubscriptionStatusChange(event.payload.id, event.payload.customer, create))
    case CheckoutRoute =>
      if event.payload.mode == "subscription" then
        Some(ManageSubscriptionStatusChange(event.payload.subscription, event.payload.customer, true))
      else None
  }

  /** `STRIPE_WEBHOOK_SECRET_LIVE ?? STRIPE_WEBHOOK_SECRET`: a set but empty
      live secret is kept. */
  function WebhookSecret(live: Option<string>, fallback: Option<string>): (r: Option<string>)
    ensures live.Some? ==> r == live
    ensures live.None? ==> r == fallback
  {
    if live.Some? then live else fallback
  }

  /** `POST(request)`. `verify` stands for `constructEvent(body, sig, secret)`
      and `upsertSucceeds` for whether the awaited upsert resolves. */
  method Post(body: string, signature: Option<string>,
              secretLive: Option<string>, secretFallback: Option<string>,
              verify: (string, string, string) -> Verification,
              upsertSucceeds: Upsert -> bool)
    returns (response: Response, upserts: seq<Upsert>)
    ensures var secret := WebhookSecret(secretLive, secretFallback);
      !Truthy(signature) || !Truthy(secret) ==> response == NoResponse && upserts == []
    ensures |upserts| <= 1
    ensures response == NoResponse ==> upserts == []
    ensures var secret := WebhookSecret(secretLive, secretFallback);
      Truthy(signature) && Truthy(secret) && verify(body, signature.value, secret.value).Rejected? ==>
        upserts == [] &&
        response == Text(400, "Webhook Error: " + verify(body, signature.value, secret.value).message)
    ensures var secret := WebhookSecret(secretLive, secretFallback);
      Truthy(signature) && Truthy(secret) && verify(body, signature.value, secret.value).Verified? ==>
        var event := verify(body, signature.value, secret.value).event;
        && (event.eventType !in RelevantEvents ==> upserts == [] && response == Json(200, true))
        && (event.eventType in RelevantEvents ==>
              && upserts == (if UpsertFor(event).Some? then [UpsertFor(event).value] else [])
              && response == (if upserts != [] && !upsertSucceeds(upserts[0])
                              then Text(400, HandlerFailed) else Json(200, true)))
  {
    upserts := [];
    var secret := WebhookSecret(secretLive, secretFallback);
    if !Truthy(signature) || !Truthy(secret) {
      return NoResponse, [];
    }
    var verification := verify(body, signature.value, secret.value);
    if verification.Rejected? {
      return Text(400, "Webhook Error: " + verification.message), [];
    }
    var event := verification.event;
    if event.eventType in RelevantEvents {
      RelevantIffRouted(event.eventType);
      var upsert := UpsertFor(event);
      if upsert.Some? {
        upserts := [upsert.value];
        if !upsertSucceeds(upsert.value) {
          return Text(400, HandlerFailed), upserts;
        }
      }
    }
    response := Json(200, true);
  }

  /** A deleted subscription with a valid signature updates the mirror and is
      acknowledged, when the update resolves. */
  lemma DeletedSubscriptionScenario(payload: EventObject)
    ensures UpsertFor(Event("customer.subscription.deleted", payload))
         == Some(ManageSubscriptionStatusChange(payload.id, payload.customer, false))
  {
  }
}
