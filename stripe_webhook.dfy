/**
 * app/api/webhooks/stripe/route.ts: the billing provider's webhook. It checks
 * the signature, and for a completed checkout records the purchase.
 */
module StripeWebhook {
  import opened Js
  import opened Http
  import Store
  import Mongoose
  import TransactionActions

  /** The part of `event.data.object` the route reads for a checkout session. */
  datatype CheckoutSessionObject = CheckoutSessionObject(id: string, amountTotal: Option<int>,
                                                         metadata: Option<map<string, string>>)

  datatype StripeEvent = StripeEvent(eventType: string, session: CheckoutSessionObject)

  /** The outcome of `stripe.webhooks.constructEvent`: the event, or what it threw. */
  datatype Verification = Verified(event: StripeEvent) | VerificationFailed(error: Thrown)

  /** The route's outcome and the `createTransaction` calls it made. */
  datatype Handled = Handled(outcome: Outcome, calls: seq<TransactionActions.CreateTransactionParams>)

  const CheckoutCompleted := "checkout.session.completed"

  const MissingSignature := ErrorObject("Missing Stripe signature")

  /** `metadata?.[key] || ''`. */
  function MetadataText(metadata: Option<map<string, string>>, key: string): string {
    if metadata.Some? && key in metadata.value then metadata.value[key] else ""
  }

  /** `Number(metadata?.credits) || 0`: NaN and 0 both give 0. */
  function MetadataCredits(metadata: Option<map<string, string>>): int {
    if metadata.Some? && "credits" in metadata.value then
      var n := NumberOf(metadata.value["credits"]);
      if n.Some? then n.value else 0
    else 0
  }

  /** `amountTotal ? amountTotal / 100 : 0`: minor units back to major units. */
  function MajorUnits(amountTotal: Option<int>): (amount: real)
    ensures TransactionActions.MinorUnits(amount) == if amountTotal.Some? then amountTotal.value as real else 0.0
  {
    if amountTotal.Some? && amountTotal.value != 0 then amountTotal.value as real / 100.0 else 0.0
  }

  /** The `CreateTransactionParams` built from a completed session; `now` is `new Date()`. */
  function TransactionParams(session: CheckoutSessionObject, now: int): (p: TransactionActions.CreateTransactionParams)
    ensures p.stripeId == session.id && p.createdAt == now
    ensures TransactionActions.MinorUnits(p.amount)
            == if session.amountTotal.Some? then session.amountTotal.value as real else 0.0
    ensures session.metadata.None? ==> p.plan == "" && p.credits == 0 && p.buyerId == ""
    ensures session.metadata.Some? ==>
      p.plan == (if "plan" in session.metadata.value then session.metadata.value["plan"] else "")
    ensures session.metadata.Some? ==>
      p.buyerId == (if "buyerId" in session.metadata.value then session.metadata.value["buyerId"] else "")
    ensures session.metadata.Some? && !("credits" in session.metadata.value && NumberOf(session.metadata.value["credits"]).Some?)
            ==> p.credits == 0
    ensures session.metadata.Some? && "credits" in session.metadata.value ==>
      forall n :: session.metadata.value["credits"] == IntToString(n) ==> p.credits == n
  {
    assert forall n :: NumberOf(IntToString(n)) == Some(n) by {
      forall n: int ensures NumberOf(IntToString(n)) == Some(n) {
        NumberOfIntToString(n);
      }
    }
    TransactionActions.CreateTransactionParams(
      session.id,
      MajorUnits(session.amountTotal),
      MetadataCredits(session.metadata),
      MetadataText(session.metadata, "plan"),
      MetadataText(session.metadata, "buyerId"),
      now)
  }

  predicate SignaturePresent(signature: Option<string>) {
    signature.Some? && signature.value != ""
  }

  /** `POST`. `created` is how `createTransaction` ends if it is called: with a
      record, with nothing (`None`), or by throwing. */
  function Post(signature: Option<string>, verification: Verification, now: int,
                created: Completion<Option<Store.TransactionRecord>>): (h: Handled)
    ensures |h.calls| <= 1
    ensures h.calls != [] <==>
      SignaturePresent(signature) && verification.Verified? && verification.event.eventType == CheckoutCompleted
    ensures h.calls != [] ==> h.calls == [TransactionParams(verification.event.session, now)]
    ensures !SignaturePresent(signature) ==>
      h.outcome == Responded(JsonResponse("Stripe Webhook error", ErrorField(MissingSignature)))
    ensures SignaturePresent(signature) && verification.VerificationFailed? ==>
      h.outcome == Responded(JsonResponse("Stripe Webhook error", ErrorField(verification.error)))
    ensures SignaturePresent(signature) && verification.Verified? && verification.event.eventType != CheckoutCompleted ==>
      h.outcome == Responded(EmptyOk)
    ensures h.calls != [] ==>
      h.outcome == match created
                   case Threw(e) => Raised(e)
                   case Returned(None) => Responded(JsonResponse("Failed to create transaction", TransactionField(None)))
                   case Returned(Some(t)) => Responded(JsonResponse("OK", TransactionField(Some(t))))
    ensures h.outcome.Responded? ==> h.outcome.response.status == 200
  {
    if !SignaturePresent(signature) then
      Handled(Responded(JsonResponse("Stripe Webhook error", ErrorField(MissingSignature))), [])
    else match verification
      case VerificationFailed(e) =>
        Handled(Responded(JsonResponse("Stripe Webhook error", ErrorField(e))), [])
      case Verified(event) =>
        if event.eventType == CheckoutCompleted then
          var params := TransactionParams(event.session, now);
          var outcome := match created
            case Threw(e) => Raised(e)
            case Returned(None) => Responded(JsonResponse("Failed to create transaction", TransactionField(None)))
            case Returned(Some(t)) => Responded(JsonResponse("OK", TransactionField(Some(t))));
          Handled(outcome, [params])
        else Handled(Responded(EmptyOk), [])
  }

  /** How `createTransaction`'s completion looks to the route: always a record or a throw. */
  function AsReply(c: Completion<Store.TransactionRecord>): Completion<Option<Store.TransactionRecord>> {
    match c
    case Returned(t) => Returned(Some(t))
    case Threw(e) => Threw(e)
  }

  /** Because `createTransaction` rethrows every failure, the route never answers
      'Failed to create transaction': a failure escapes it as an exception. */
  lemma NeverReportsFailedCreation(signature: Option<string>, verification: Verification, now: int,
                                   c: Completion<Store.TransactionRecord>)
    ensures MessageOf(Post(signature, verification, now, AsReply(c)).outcome) != Some("Failed to create transaction")
    ensures c.Threw? && Post(signature, verification, now, AsReply(c)).calls != [] ==>
      Post(signature, verification, now, AsReply(c)).outcome == Raised(c.thrown)
  {
  }

  /** The metadata as the billing provider reports it back: every value a string. */
  function EchoedMetadata(m: TransactionActions.SessionMetadata): map<string, string> {
    map["plan" := m.plan, "credits" := IntToString(m.credits), "buyerId" := m.buyerId]
  }

  /** Checkout, then webhook: when the provider reports the session that
      `checkoutCredits` created, with the charged total and the metadata it was
      given, the ledger receives the plan, credits, buyer and amount of the
      original purchase. */
  lemma CheckoutRoundTrip(t: TransactionActions.CheckoutTransactionParams, serverUrl: string,
                          sessionId: string, amountTotal: int, now: int)
    requires amountTotal as real == TransactionActions.CheckoutSession(t, serverUrl).lineItems[0].unitAmount
    ensures var s := TransactionActions.CheckoutSession(t, serverUrl);
            var reported := CheckoutSessionObject(sessionId, Some(amountTotal), Some(EchoedMetadata(s.metadata)));
            TransactionParams(reported, now)
            == TransactionActions.CreateTransactionParams(sessionId, t.amount, t.credits, t.plan, t.buyerId, now)
  {
    NumberOfIntToString(t.credits);
  }

  /** A session charged 2000 minor units for "100" credits records 20 units and 100 credits. */
  lemma ExamplePurchase(id: string, buyer: string, now: int)
    ensures var session := CheckoutSessionObject(id, Some(2000),
                                                 Some(map["plan" := "Pro", "credits" := "100", "buyerId" := buyer]));
            var p := TransactionParams(session, now);
            p.amount == 20.0 && p.credits == 100 && p.buyerId == buyer && p.plan == "Pro"
  {
    NumberOfIntToString(100);
    assert IntToString(100) == "100";
  }

  /** The route with its `createTransaction` call carried out on the store. */
  method Deliver(db: Store.Database, signature: Option<string>, verification: Verification, now: int,
                 settlement: Mongoose.Settlement, reply: Store.InsertReply)
    returns (h: Handled)
    requires db.Valid()
    modifies db, db.cache
    ensures db.Valid()
    ensures |h.calls| <= 1
    ensures h.calls == [] ==> h == Post(signature, verification, now, Returned(None))
                              && db.users == old(db.users) && db.transactions == old(db.transactions)
    ensures h.calls != [] ==>
      exists c :: h == Post(signature, verification, now, AsReply(c))
    ensures h.calls != [] && Mongoose.Connect(old(db.cache.State()), db.mongodbUrl, settlement).0.Returned?
            && reply.Stored? && h.calls[0].buyerId in old(db.users) ==>
      h.calls[0].buyerId in db.users
      && db.users[h.calls[0].buyerId].creditBalance == old(db.users)[h.calls[0].buyerId].creditBalance + h.calls[0].credits
      && db.users == old(db.users)[h.calls[0].buyerId := Store.Credited(old(db.users)[h.calls[0].buyerId], h.calls[0].credits)]
      && db.transactions == old(db.transactions) + [TransactionActions.NewRecord(h.calls[0])]
      && MessageOf(h.outcome) == Some("OK")
  {
    h := Post(signature, verification, now, Returned(None));
    if h.calls != [] {
      var c := TransactionActions.CreateTransaction(db, h.calls[0], settlement, reply);
      h := Post(signature, verification, now, AsReply(c));
    }
  }
}
