/** The subscription dialog (components/PaymentModal.tsx): the `step`,
    `errorMessage` and `priceInfo` state, the subscribe handler split at its
    `await` into the part before the request and the part after the answer,
    the close and retry buttons, and the price fetch on opening. Navigation,
    the two-second timer and the parent's callbacks are recorded in fields. */
module PaymentModal {
  import opened Js

  datatype Step = Info | Loading | Success | Pending | Failed

  datatype PriceInfo = PriceInfo(price: int, isPromo: bool, regularPrice: int)

  /** What the price endpoint gave: nothing usable (the fetch or its JSON
      failed) or the data. */
  datatype PriceFetch = PriceFailed | PriceData(info: PriceInfo)

  /** The create-subscription answer as the dialog sees it: a thrown error
      (with its message, if any) or the parsed JSON. */
  datatype SubscriptionReply =
    | Threw(errorMessage: Option<string>)
    | Json(initPoint: Option<string>, status: Option<string>, message: Option<string>)

  const LOGIN_REQUIRED: string := "Debes iniciar sesión para continuar"
  const CREATE_FAILED: string := "Error al crear la suscripción"
  const PROCESS_FAILED: string := "Error al procesar la suscripción"

  /** The fallback used when the price cannot be fetched. */
  const FALLBACK_PRICE: PriceInfo := PriceInfo(29, true, 49)

  /** `priceInfo?.price || 29`: the price shown on the dialog and its button. */
  function DisplayedPrice(info: Option<PriceInfo>): (p: int)
    ensures info.Some? && info.value.price != 0 ==> p == info.value.price
    ensures info.None? || info.value.price == 0 ==> p == 29
  {
    if info.Some? && info.value.price != 0 then info.value.price else 29
  }

  /** The state an answer leads to. */
  datatype Effect = Effect(step: Step, errorMessage: Option<string>, redirect: Option<string>, timer: bool)

  /** The branches after `await response.json()`: a checkout link redirects
      whatever the status; `authorized` without a link shows success and starts
      the timer; anything else shows an error: the reply's `message`, or else
      the creation failure text, and for a thrown error its `message`, or else
      the processing failure text. `None` leaves the message as it was. */
  function ReplyEffect(reply: SubscriptionReply): (e: Effect)
    ensures e.redirect.Some? <==> reply.Json? && Truthy(reply.initPoint)
    ensures e.timer <==> e.step == Success
    ensures e.step == Success <==> reply.Json? && !Truthy(reply.initPoint) && reply.status == Some("authorized")
    ensures e.step == Failed <==> e.errorMessage.Some?
    ensures e.errorMessage.Some? ==> e.errorMessage.value != ""
    ensures reply.Threw? ==> e.errorMessage == Some(OrElse(reply.errorMessage, PROCESS_FAILED))
    ensures reply.Json? && !Truthy(reply.initPoint) && reply.status != Some("authorized") ==>
      e.errorMessage == Some(OrElse(reply.message, CREATE_FAILED))
  {
    match reply
    case Threw(m) => Effect(Failed, Some(OrElse(m, PROCESS_FAILED)), None, false)
    case Json(initPoint, status, message) =>
      if Truthy(initPoint) then Effect(Loading, None, initPoint, false)
      else if status == Some("authorized") then Effect(Success, None, None, true)
      else Effect(Failed, Some(OrElse(message, CREATE_FAILED)), None, false)
  }

  /** A reply with a checkout link redirects to that link, whatever its status. */
  lemma LinkWins(link: string, status: Option<string>, message: Option<string>)
    requires link != ""
    ensures ReplyEffect(Json(Some(link), status, message)) == Effect(Loading, None, Some(link), false)
  {
  }

  class Modal {
    var step: Step
    var errorMessage: string
    var priceInfo: Option<PriceInfo>
    /** `window.location.href` once the dialog has redirected. */
    var redirectedTo: Option<string>
    /** The create-subscription requests sent, as (user id, e-mail). */
    var requests: seq<(string, string)>
    /** The two-second timer before `onSuccess(); onClose()` is pending. */
    var successTimer: bool
    var successCalls: nat
    var closeCalls: nat

    constructor()
      ensures step == Info && errorMessage == "" && priceInfo.None? && redirectedTo.None?
      ensures requests == [] && !successTimer && successCalls == 0 && closeCalls == 0
    {
      step := Info;
      errorMessage := "";
      priceInfo := None;
      redirectedTo := None;
      requests := [];
      successTimer := false;
      successCalls := 0;
      closeCalls := 0;
    }

    /** The effect run when `isOpen` changes: an open dialog stores the fetched
        price, or the fallback when the fetch failed. */
    method OnOpen(isOpen: bool, fetched: PriceFetch)
      modifies this
      ensures isOpen && fetched.PriceFailed? ==> priceInfo == Some(FALLBACK_PRICE)
      ensures isOpen && fetched.PriceData? ==> priceInfo == Some(fetched.info)
      ensures !isOpen ==> priceInfo == old(priceInfo)
      ensures step == old(step) && errorMessage == old(errorMessage) && redirectedTo == old(redirectedTo)
      ensures requests == old(requests) && successTimer == old(successTimer)
      ensures successCalls == old(successCalls) && closeCalls == old(closeCalls)
    {
      if isOpen {
        match fetched
        case PriceFailed => priceInfo := Some(FALLBACK_PRICE);
        case PriceData(info) => priceInfo := Some(info);
      }
    }

    /** `handleSubscription` up to the request: without a user or an e-mail it
        shows the login error and sends nothing; otherwise it shows the
        loading step and sends exactly one request. */
    method BeginSubscription(userId: Option<string>, userEmail: Option<string>) returns (sent: bool)
      modifies this
      ensures sent <==> Truthy(userId) && Truthy(userEmail)
      ensures !sent ==> step == Failed && errorMessage == LOGIN_REQUIRED && requests == old(requests)
      ensures sent ==> step == Loading && errorMessage == old(errorMessage)
                       && requests == old(requests) + [(userId.value, userEmail.value)]
      ensures priceInfo == old(priceInfo) && redirectedTo == old(redirectedTo) && successTimer == old(successTimer)
      ensures successCalls == old(successCalls) && closeCalls == old(closeCalls)
    {
      if !Truthy(userId) || !Truthy(userEmail) {
        errorMessage := LOGIN_REQUIRED;
        step := Failed;
        return false;
      }
      step := Loading;
      requests := requests + [(userId.value, userEmail.value)];
      return true;
    }

    /** `handleSubscription` after the answer. */
    method FinishSubscription(reply: SubscriptionReply)
      modifies this
      ensures var e := ReplyEffect(reply);
        && (e.redirect.Some? ==> redirectedTo == e.redirect && step == old(step))
        && (e.redirect.None? ==> redirectedTo == old(redirectedTo) && step == e.step)
        && errorMessage == (if e.errorMessage.Some? then e.errorMessage.value else old(errorMessage))
        && successTimer == (old(successTimer) || e.timer)
      ensures priceInfo == old(priceInfo) && requests == old(requests)
      ensures successCalls == old(successCalls) && closeCalls == old(closeCalls)
    {
      match reply {
        case Threw(m) =>
          errorMessage := OrElse(m, PROCESS_FAILED);
          step := Failed;
        case Json(initPoint, status, message) =>
          if Truthy(initPoint) {
            redirectedTo := initPoint;
          } else if status == Some("authorized") {
            step := Success;
            successTimer := true;
          } else {
            errorMessage := OrElse(message, CREATE_FAILED);
            step := Failed;
          }
      }
    }

    /** The two-second timer firing: `onSuccess()` then `onClose()`. */
    method SuccessTimerFires()
      modifies this
      ensures old(successTimer) ==> successCalls == old(successCalls) + 1 && closeCalls == old(closeCalls) + 1
      ensures !old(successTimer) ==> successCalls == old(successCalls) && closeCalls == old(closeCalls)
      ensures !successTimer
      ensures step == old(step) && errorMessage == old(errorMessage) && priceInfo == old(priceInfo)
      ensures redirectedTo == old(redirectedTo) && requests == old(requests)
    {
      if successTimer {
        successTimer := false;
        successCalls := successCalls + 1;
        closeCalls := closeCalls + 1;
      }
    }

    /** `handleClose`: back to the first step with no message, then `onClose()`. */
    method HandleClose()
      modifies this
      ensures step == Info && errorMessage == "" && closeCalls == old(closeCalls) + 1
      ensures priceInfo == old(priceInfo) && redirectedTo == old(redirectedTo) && requests == old(requests)
      ensures successTimer == old(successTimer) && successCalls == old(successCalls)
    {
      step := Info;
      errorMessage := "";
      closeCalls := closeCalls + 1;
    }

    /** The retry button of the error step: back to the first step; the
        message is left as it was. */
    method Retry()
      modifies this
      ensures step == Info && errorMessage == old(errorMessage) && closeCalls == old(closeCalls)
      ensures priceInfo == old(priceInfo) && redirectedTo == old(redirectedTo) && requests == old(requests)
      ensures successTimer == old(successTimer) && successCalls == old(successCalls)
    {
      step := Info;
    }
  }

  /** A subscription attempt from a fresh dialog, as a whole: without a login
      nothing is sent and the error shows; with one, one request is sent and
      the dialog ends up as the answer says. */
  method SubscribeOnce(userId: Option<string>, userEmail: Option<string>, reply: SubscriptionReply)
    returns (step: Step, message: string, requests: seq<(string, string)>, redirect: Option<string>)
    ensures !(Truthy(userId) && Truthy(userEmail)) ==>
      step == Failed && message == LOGIN_REQUIRED && requests == [] && redirect.None?
    ensures Truthy(userId) && Truthy(userEmail) ==>
      && requests == [(userId.value, userEmail.value)]
      && redirect == ReplyEffect(reply).redirect
      && step == ReplyEffect(reply).step
      && message == (if ReplyEffect(reply).errorMessage.Some? then ReplyEffect(reply).errorMessage.value else "")
  {
    var m := new Modal();
    var sent := m.BeginSubscription(userId, userEmail);
    if sent {
      m.FinishSubscription(reply);
    }
    step, message, requests, redirect := m.step, m.errorMessage, m.requests, m.redirectedTo;
  }
}
