/**
 * lib/actions/transaction.actions.ts: building the hosted checkout session, and
 * recording a completed purchase in the ledger.
 */
module TransactionActions {
  import opened Js
  import Utils
  import Mongoose
  import opened Store

  /** `CheckoutTransactionParams`; `amount` in major currency units. */
  datatype CheckoutTransactionParams = CheckoutTransactionParams(plan: string, credits: int, amount: real, buyerId: string)

  /** `CreateTransactionParams`; `createdAt` is a timestamp. */
  datatype CreateTransactionParams = CreateTransactionParams(stripeId: string, amount: real, credits: int,
                                                             plan: string, buyerId: string, createdAt: int)

  datatype LineItem = LineItem(currency: string, unitAmount: real, productName: string, quantity: int)

  datatype SessionMetadata = SessionMetadata(plan: string, credits: int, buyerId: string)

  /** The arguments of `stripe.checkout.sessions.create`. */
  datatype SessionParams = SessionParams(lineItems: seq<LineItem>, metadata: SessionMetadata, mode: string,
                                         successUrl: string, cancelUrl: string)

  /** Major currency units to minor units. */
  function MinorUnits(amount: real): real {
    amount * 100.0
  }

  /** The session `checkoutCredits` asks for; `serverUrl` is `NEXT_PUBLIC_SERVER_URL`. */
  function CheckoutSession(t: CheckoutTransactionParams, serverUrl: string): (s: SessionParams)
    ensures |s.lineItems| == 1 && s.lineItems[0].quantity == 1
    ensures s.lineItems[0].productName == t.plan
    ensures s.lineItems[0].unitAmount * s.lineItems[0].quantity as real / 100.0 == t.amount
    ensures s.metadata == SessionMetadata(t.plan, t.credits, t.buyerId)
    ensures s.mode == "payment"
  {
    SessionParams(
      [LineItem("usd", MinorUnits(t.amount), t.plan, 1)],
      SessionMetadata(t.plan, t.credits, t.buyerId),
      "payment",
      serverUrl + "/profile",
      serverUrl + "/")
  }

  /** The document `Transaction.create` receives: every input field plus `buyer`. */
  function NewRecord(t: CreateTransactionParams): (rec: TransactionRecord)
    ensures rec.stripeId == t.stripeId && rec.amount == t.amount && rec.credits == t.credits
    ensures rec.plan == t.plan && rec.buyerId == t.buyerId && rec.createdAt == t.createdAt
    ensures rec.buyer == t.buyerId
  {
    TransactionRecord(t.stripeId, t.amount, t.credits, t.plan, t.buyerId, t.createdAt, t.buyerId)
  }

  /** What `createTransaction` throws when the insert yields nothing. */
  const CreationFailed := Utils.HandleError(ErrorObject("Failed to create transaction"))

  /** `createTransaction`: connect, insert the ledger record, then add the credits
      to the buyer. Every failure is rethrown through `handleError`, so it never
      returns without a record. `settlement` is what `mongoose.connect` would give
      and `reply` how the store answers the insert. */
  method CreateTransaction(db: Database, t: CreateTransactionParams, settlement: Mongoose.Settlement,
                           reply: InsertReply)
    returns (r: Completion<TransactionRecord>)
    requires db.Valid()
    modifies db, db.cache
    ensures db.Valid()
    ensures var step := Mongoose.Connect(old(db.cache.State()), db.mongodbUrl, settlement);
            var rec := NewRecord(t);
            && db.cache.State() == step.1
            && (step.0.Threw? ==>
                  r == Threw(Utils.HandleError(step.0.thrown)) && db.users == old(db.users)
                  && db.transactions == old(db.transactions) && db.log == old(db.log))
            && (step.0.Returned? && !reply.Stored? ==>
                  r == Threw(if reply.Rejected? then Utils.HandleError(reply.error) else CreationFailed)
                  && db.users == old(db.users) && db.transactions == old(db.transactions)
                  && db.log == old(db.log) + [InsertTransaction(rec)])
            && (step.0.Returned? && reply.Stored? ==>
                  db.transactions == old(db.transactions) + [rec]
                  && db.log == old(db.log) + [InsertTransaction(rec), IncrementCredits(t.buyerId, t.credits)]
                  && (t.buyerId in old(db.users) ==>
                        r == Returned(rec)
                        && db.users == old(db.users)[t.buyerId := Credited(old(db.users)[t.buyerId], t.credits)])
                  && (t.buyerId !in old(db.users) ==>
                        r == Threw(Utils.HandleError(db.updateCreditsError)) && db.users == old(db.users)))
  {
    var connected := db.cache.ConnectToDatabase(db.mongodbUrl, settlement);
    if connected.Threw? {
      return Threw(Utils.HandleError(connected.thrown));
    }
    var newTransaction := db.Insert(NewRecord(t), reply);
    if newTransaction.Threw? {
      return Threw(Utils.HandleError(newTransaction.thrown));
    }
    if newTransaction.value.None? {
      return Threw(Utils.HandleError(ErrorObject("Failed to create transaction")));
    }
    var updated := db.UpdateCredits(t.buyerId, t.credits);
    if updated.Threw? {
      return Threw(Utils.HandleError(updated.thrown));
    }
    r := Returned(newTransaction.value.value);
  }
}
