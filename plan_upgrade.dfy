/**
 * The premium plan upgrade: the card checkout form, which asks the payment
 * backend for a 49-dollar intent, confirms the card payment and reports the
 * outcome to exactly one of its two callbacks (or to none), and the page
 * that, on success, patches the star's document with the new plan.
 *
 * The backend, the card confirmation and the document store's failures are
 * inputs; the document store itself is an object whose documents the
 * upgrade rewrites.
 */
module PlanUpgrade {
  import opened Js

  /** The amount the checkout always asks for, in cents. */
  const PremiumAmountCents: int := 4900

  const PaymentFailedMessage: string := "Payment processing failed. Please try again."
  const UpgradeFailedMessage: string := "Failed to upgrade plan. Please try again."

  /** The backend's answer to the intent request: OK with the client secret, a non-OK
    * status, or a request or body read that throws. */
  datatype ServerReply = Ok(clientSecret: string) | NotOk | RequestThrew

  datatype PaymentIntent = PaymentIntent(id: string, amount: int, status: string)

  /** The card confirmation: the provider's error, the confirmed intent, or a throw. */
  datatype Confirmation = ConfirmError(message: string) | Confirmed(intent: PaymentIntent) | ConfirmThrew

  /** Which callback of the checkout form fires. */
  datatype Callback = NoCallback | PaymentSuccess(intent: PaymentIntent) | PaymentError(message: string)

  /** The callback fired and the card error left on the form, once the Stripe and Elements
    * handles are ready. */
  datatype CheckoutResult = CheckoutResult(callback: Callback, cardError: string)

  /** The outcome of `handleSubmit` for a backend reply and a card confirmation. */
  function Checkout(reply: ServerReply, confirm: string -> Confirmation): (r: CheckoutResult)
    ensures r.callback.PaymentSuccess? ==> reply.Ok? && r.callback.intent.status == "succeeded"
    ensures r.cardError != "" ==> r.callback == PaymentError(r.cardError)
    ensures r.callback.NoCallback? ==> reply.Ok? && confirm(reply.clientSecret).Confirmed?
  {
    match reply
    case NotOk => CheckoutResult(PaymentError(PaymentFailedMessage), "")
    case RequestThrew => CheckoutResult(PaymentError(PaymentFailedMessage), "")
    case Ok(secret) =>
      match confirm(secret)
      case ConfirmError(message) => CheckoutResult(PaymentError(message), message)
      case ConfirmThrew => CheckoutResult(PaymentError(PaymentFailedMessage), "")
      case Confirmed(intent) =>
        if intent.status == "succeeded" then CheckoutResult(PaymentSuccess(intent), "")
        else CheckoutResult(NoCallback, "")
  }

  /** The success callback fires exactly when the backend answers OK and the confirmed intent's
    * status is "succeeded", and it is handed that intent. */
  lemma SuccessOnlyWhenSucceeded(reply: ServerReply, confirm: string -> Confirmation)
    ensures var r := Checkout(reply, confirm);
      r.callback.PaymentSuccess? <==>
        reply.Ok? && confirm(reply.clientSecret).Confirmed?
        && confirm(reply.clientSecret).intent.status == "succeeded"
    ensures var r := Checkout(reply, confirm);
      r.callback.PaymentSuccess? ==> r.callback.intent == confirm(reply.clientSecret).intent
  {
  }

  /** A non-OK or failed backend request ends in the error callback with the generic message,
    * never in success. */
  lemma ServerFailureIsGenericError(reply: ServerReply, confirm: string -> Confirmation)
    requires !reply.Ok?
    ensures Checkout(reply, confirm) == CheckoutResult(PaymentError(PaymentFailedMessage), "")
  {
  }

  /** A confirmation error is shown on the card and handed to the error callback, message and all;
    * a confirmed intent that did not succeed fires no callback at all. */
  lemma ConfirmationOutcomes(secret: string, confirm: string -> Confirmation)
    ensures confirm(secret).ConfirmError? ==>
      Checkout(Ok(secret), confirm)
        == CheckoutResult(PaymentError(confirm(secret).message), confirm(secret).message)
    ensures confirm(secret).Confirmed? && confirm(secret).intent.status != "succeeded" ==>
      Checkout(Ok(secret), confirm) == CheckoutResult(NoCallback, "")
  {
  }

  /** The card error is set only by a confirmation error. */
  lemma CardErrorOnlyFromConfirmation(reply: ServerReply, confirm: string -> Confirmation)
    ensures Checkout(reply, confirm).cardError != "" ==>
      reply.Ok? && confirm(reply.clientSecret).ConfirmError?
  {
  }

  /** The card checkout form (`CheckoutForm`). */
  class CheckoutForm {
    var processing: bool
    var cardError: string

    constructor()
      ensures !processing && cardError == ""
    {
      processing := false;
      cardError := "";
    }

    /** `handleSubmit`. `ready` says whether the Stripe and Elements handles are loaded,
      * `server` answers the intent request for an amount, `confirm` confirms the card payment
      * for a client secret. Returns the amount asked for and the callback fired. */
    method HandleSubmit(ready: bool, server: int -> ServerReply, confirm: string -> Confirmation)
      returns (requested: Option<int>, callback: Callback)
      modifies this
      ensures !ready ==>
        && requested == None && callback == NoCallback
        && processing == old(processing) && cardError == old(cardError)
      ensures ready ==>
        && requested == Some(PremiumAmountCents) && !processing
        && callback == Checkout(server(PremiumAmountCents), confirm).callback
        && cardError == Checkout(server(PremiumAmountCents), confirm).cardError
    {
      if !ready {
        return None, NoCallback;
      }
      processing := true;
      cardError := "";
      requested := Some(PremiumAmountCents);
      callback := NoCallback;
      var reply := server(PremiumAmountCents);
      if reply.Ok? {
        var confirmation := confirm(reply.clientSecret);
        if confirmation.ConfirmError? {
          cardError := confirmation.message;
          callback := PaymentError(confirmation.message);
        } else if confirmation.ConfirmThrew? {
          callback := PaymentError(PaymentFailedMessage);
        } else if confirmation.intent.status == "succeeded" {
          callback := PaymentSuccess(confirmation.intent);
        }
      } else {
        callback := PaymentError(PaymentFailedMessage);
      }
      processing := false;
    }
  }

  // ---------------------------------------------------------------------------
  // The upgrade patch
  // ---------------------------------------------------------------------------

  /** A field value of a stored document. */
  datatype FieldValue = Str(s: string) | Num(n: real) | Flag(b: bool)

  type Doc = map<string, FieldValue>

  const PatchKeys: set<string> := {"plan", "planUpdatedAt", "paymentId", "paymentAmount", "paymentDate"}

  /** The fields `handleUpgradePlan` writes; `updatedAt` and `paidAt` are the two clock readings. */
  function UpgradePatch(intent: PaymentIntent, updatedAt: string, paidAt: string): (patch: Doc)
    ensures patch.Keys == PatchKeys
  {
    map["plan" := Str("premium"), "planUpdatedAt" := Str(updatedAt), "paymentId" := Str(intent.id),
        "paymentAmount" := Num(intent.amount as real / 100.0), "paymentDate" := Str(paidAt)]
  }

  /** `updateDoc`: the patched fields take their new values, every other field is kept. */
  function ApplyPatch(doc: Doc, patch: Doc): (r: Doc)
    ensures r.Keys == doc.Keys + patch.Keys
    ensures forall k :: k in patch ==> r[k] == patch[k]
    ensures forall k :: k in doc && k !in patch ==> r[k] == doc[k]
  {
    doc + patch
  }

  /** After an upgrade the plan is "premium", the payment id is the intent's, the amount is the
    * intent's cents in dollars, and every field outside the patch is as it was. */
  lemma UpgradedDocument(doc: Doc, intent: PaymentIntent, updatedAt: string, paidAt: string)
    ensures var r := ApplyPatch(doc, UpgradePatch(intent, updatedAt, paidAt));
      && r["plan"] == Str("premium")
      && r["paymentId"] == Str(intent.id)
      && r["paymentAmount"].Num? && r["paymentAmount"].n * 100.0 == intent.amount as real
      && r.Keys == doc.Keys + PatchKeys
      && forall k :: k in doc && k !in PatchKeys ==> r[k] == doc[k]
  {
  }

  /** The `stars` collection of the document store. */
  class StarStore {
    var docs: map<string, Doc>

    constructor(docs0: map<string, Doc>)
      ensures docs == docs0
    {
      docs := docs0;
    }
  }

  /** `PlanUpgradePage`: its status flags, and whether the redirect to the profile is scheduled. */
  class UpgradePage {
    var loading: bool
    var error: string
    var success: bool
    var redirectScheduled: bool

    constructor()
      ensures !loading && error == "" && !success && !redirectScheduled
    {
      loading, error, success, redirectScheduled := false, "", false, false;
    }

    /** `handleUpgradePlan`, the success callback of the checkout. `user` is the signed-in uid,
      * `updatedAt` and `paidAt` the clock readings, `writeOk` whether the store accepts the
      * write; updating a document that does not exist fails. */
    method HandleUpgradePlan(user: Option<string>, intent: PaymentIntent, updatedAt: string, paidAt: string,
                             store: StarStore, writeOk: bool)
      modifies this, store
      ensures user.None? ==>
        && store.docs == old(store.docs)
        && loading == old(loading) && error == old(error)
        && success == old(success) && redirectScheduled == old(redirectScheduled)
      ensures user.Some? && user.value in old(store.docs) && writeOk ==>
        && store.docs == old(store.docs)[user.value :=
             ApplyPatch(old(store.docs)[user.value], UpgradePatch(intent, updatedAt, paidAt))]
        && !loading && error == "" && success && redirectScheduled
      ensures user.Some? && !(user.value in old(store.docs) && writeOk) ==>
        && store.docs == old(store.docs)
        && !loading && error == UpgradeFailedMessage
        && success == old(success) && redirectScheduled == old(redirectScheduled)
    {
      if user.None? {
        return;
      }
      loading := true;
      error := "";
      var uid := user.value;
      if uid in store.docs && writeOk {
        store.docs := store.docs[uid := ApplyPatch(store.docs[uid], UpgradePatch(intent, updatedAt, paidAt))];
        success := true;
        redirectScheduled := true;
      } else {
        error := UpgradeFailedMessage;
      }
      loading := false;
    }

    /** `handlePaymentError`, the error callback of the checkout. */
    method HandlePaymentError(message: string)
      modifies this
      ensures error == message && !loading
      ensures success == old(success) && redirectScheduled == old(redirectScheduled)
    {
      error := message;
      loading := false;
    }

    /** What the page does with the checkout's callback. */
    method OnCheckout(callback: Callback, user: Option<string>, updatedAt: string, paidAt: string,
                      store: StarStore, writeOk: bool)
      modifies this, store
      ensures callback.NoCallback? ==>
        && store.docs == old(store.docs)
        && loading == old(loading) && error == old(error)
        && success == old(success) && redirectScheduled == old(redirectScheduled)
      ensures callback.PaymentError? ==>
        && store.docs == old(store.docs)
        && error == callback.message && !loading
        && success == old(success) && redirectScheduled == old(redirectScheduled)
      ensures callback.PaymentSuccess? && user.None? ==>
        && store.docs == old(store.docs)
        && loading == old(loading) && error == old(error)
        && success == old(success) && redirectScheduled == old(redirectScheduled)
      ensures callback.PaymentSuccess? && user.Some? && user.value in old(store.docs) && writeOk ==>
        && store.docs == old(store.docs)[user.value :=
             ApplyPatch(old(store.docs)[user.value], UpgradePatch(callback.intent, updatedAt, paidAt))]
        && store.docs[user.value]["plan"] == Str("premium")
        && store.docs[user.value]["paymentId"] == Str(callback.intent.id)
        && !loading && error == "" && success && redirectScheduled
      ensures callback.PaymentSuccess? && user.Some? && !(user.value in old(store.docs) && writeOk) ==>
        && store.docs == old(store.docs)
        && !loading && error == UpgradeFailedMessage
        && success == old(success) && redirectScheduled == old(redirectScheduled)
    {
      match callback {
        case NoCallback =>
        case PaymentError(message) =>
          HandlePaymentError(message);
        case PaymentSuccess(intent) =>
          HandleUpgradePlan(user, intent, updatedAt, paidAt, store, writeOk);
          if user.Some? && user.value in old(store.docs) && writeOk {
            UpgradedDocument(old(store.docs)[user.value], intent, updatedAt, paidAt);
          }
      }
    }
  }
}
