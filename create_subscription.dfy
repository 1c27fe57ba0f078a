/** The recurring-subscription endpoint (api/create-subscription.ts): the
    time-dependent price, request validation, the subscription payload and the
    classification of the processor's answer. The current time (milliseconds
    since the epoch) and the processor's answer are inputs. */
module CreateSubscription {
  import opened Js
  import opened Text
  import opened Http

  /** `2026-01-07T06:00:00Z` in milliseconds since the epoch. */
  const PROMO_END_DATE: int := 1767765600000
  const PROMO_PRICE: int := 29
  const REGULAR_PRICE: int := 49
  const DEFAULT_ORIGIN: string := "https://manana-desde-0.vercel.app"

  /** `getCurrentPrice()`: the promotional price strictly before the end of the
      promotion, the regular price from that instant on. */
  function GetCurrentPrice(now: int): (price: int)
    ensures now < PROMO_END_DATE ==> price == PROMO_PRICE
    ensures now >= PROMO_END_DATE ==> price == REGULAR_PRICE
  {
    if now < PROMO_END_DATE then PROMO_PRICE else REGULAR_PRICE
  }

  /** The price never goes back to the promotion once it has ended. */
  lemma PriceIsMonotone(earlier: int, later: int)
    requires earlier <= later
    ensures GetCurrentPrice(earlier) <= GetCurrentPrice(later)
    ensures GetCurrentPrice(earlier) == REGULAR_PRICE ==> GetCurrentPrice(later) == REGULAR_PRICE
  {
  }

  /** `isPromo`: the price equals the promotional one, which is the case
      exactly before the end of the promotion. */
  function IsPromo(now: int): (promo: bool)
    ensures promo <==> now < PROMO_END_DATE
  {
    GetCurrentPrice(now) == PROMO_PRICE
  }

  datatype SubscriptionForm = SubscriptionForm(userId: Option<string>, userEmail: Option<string>)

  datatype Request = Request(verb: string, origin: Option<string>, body: Option<SubscriptionForm>)

  /** `subscriptionData`. */
  datatype SubscriptionData = SubscriptionData(
    reason: string,
    externalReference: string,
    payerEmail: string,
    backUrl: string,
    frequency: int,
    frequencyType: string,
    transactionAmount: int,
    currencyId: string)

  /** The payload for a validated user at time `now`. */
  function BuildSubscriptionData(userId: string, userEmail: string, origin: Option<string>, now: int)
    : (d: SubscriptionData)
    ensures d.externalReference == userId && d.payerEmail == userEmail
    ensures d.backUrl == OrElse(origin, DEFAULT_ORIGIN) + "?subscription=success"
    ensures d.frequency == 1 && d.frequencyType == "months" && d.currencyId == "MXN"
    ensures d.transactionAmount == GetCurrentPrice(now)
  {
    SubscriptionData(
      "MAÑANA PRO - Suscripción Mensual",
      userId,
      userEmail,
      OrElse(origin, DEFAULT_ORIGIN) + "?subscription=success",
      1,
      "months",
      GetCurrentPrice(now),
      "MXN")
  }

  /** The processor's answer: thrown (network or JSON error) or a result with
      an id, a checkout link, a message and the `cause` list's descriptions. */
  datatype Reply =
    | Threw
    | Result(id: Option<string>, initPoint: Option<string>, message: Option<string>,
             cause: Option<seq<Option<string>>>)

  datatype Body =
    | Empty
    | Error(message: string)
    | Failed(error: string)
    | Redirect(initPoint: string, subscriptionId: string, price: int, isPromo: bool, message: string)
    | Refused(message: string)

  const REFUSED_DEFAULT: string := "No se pudo crear la suscripción"

  const PROMO_WORDING: string := "¡Precio promocional de "
  const REGULAR_WORDING: string := "Suscripción de "

  /** The message shown with a price: the promotional wording, ending in `!`,
      exactly when the price is the promotional one, the plain subscription
      wording otherwise; either way it quotes `$<price> MXN/mes`. */
  function PriceMessage(price: nat): (m: string)
    ensures Contains(m, "$" + DecimalText(price) + " MXN/mes")
    ensures price == PROMO_PRICE ==> |PROMO_WORDING| < |m| && m[..|PROMO_WORDING|] == PROMO_WORDING && m[|m| - 1] == '!'
    ensures price != PROMO_PRICE ==> |REGULAR_WORDING| < |m| && m[..|REGULAR_WORDING|] == REGULAR_WORDING
  {
    var amount := "$" + DecimalText(price) + " MXN/mes";
    if price == PROMO_PRICE then
      ContainsInfix(PROMO_WORDING, amount, "!");
      var m := PROMO_WORDING + amount + "!";
      assert m[..|PROMO_WORDING|] == PROMO_WORDING;
      m
    else
      ContainsInfix(REGULAR_WORDING, amount, "");
      var m := REGULAR_WORDING + amount;
      assert m + "" == m;
      assert m[..|REGULAR_WORDING|] == REGULAR_WORDING;
      m
  }

  /** The two wordings never coincide, so the message tells a promotional
      price from a regular one. */
  lemma PriceMessageTellsPromo(price: nat)
    ensures price == PROMO_PRICE <==> PriceMessage(price)[0] == '¡'
  {
  }

  /** `result.cause?.[0]?.description`. */
  function FirstCause(cause: Option<seq<Option<string>>>): Option<string>
  {
    if cause.Some? && |cause.value| > 0 then cause.value[0] else None
  }

  /** `result.message || result.cause?.[0]?.description || default`. */
  function RefusalMessage(message: Option<string>, cause: Option<seq<Option<string>>>): (m: string)
    ensures Truthy(message) ==> m == message.value
    ensures !Truthy(message) && Truthy(FirstCause(cause)) ==> m == FirstCause(cause).value
    ensures !Truthy(message) && !Truthy(FirstCause(cause)) ==> m == REFUSED_DEFAULT
    ensures m != ""
  {
    OrElse(Or(message, FirstCause(cause)), REFUSED_DEFAULT)
  }

  /** The whole handler at time `now`. */
  function Respond(req: Request, accessToken: Option<string>, now: int, reply: Reply): Response<Body>
  {
    if req.verb == "OPTIONS" then Response(OK, Empty)
    else if req.verb != "POST" then Response(METHOD_NOT_ALLOWED, Error("Method not allowed"))
    else match req.body
      case None => Response(SERVER_ERROR, Failed("Error al crear la suscripción"))
      case Some(f) =>
        if !Truthy(f.userId) || !Truthy(f.userEmail) then
          Response(BAD_REQUEST, Error("User ID and email are required"))
        else if !Truthy(accessToken) then Response(SERVER_ERROR, Error("Payment system not configured"))
        else match reply
          case Threw => Response(SERVER_ERROR, Failed("Error al crear la suscripción"))
          case Result(id, initPoint, message, cause) =>
            var price := GetCurrentPrice(now);
            if Truthy(id) && Truthy(initPoint) then
              Response(OK, Redirect(initPoint.value, id.value, price, price == PROMO_PRICE, PriceMessage(price)))
            else Response(BAD_REQUEST, Refused(RefusalMessage(message, cause)))
  }

  /** Validation: a missing user id or e-mail is 400 whatever the
      configuration; with both present, a missing access token is 500. */
  lemma ValidationOrder(req: Request, accessToken: Option<string>, now: int, reply: Reply)
    requires req.verb == "POST" && req.body.Some?
    ensures !Truthy(req.body.value.userId) || !Truthy(req.body.value.userEmail) ==>
      Respond(req, accessToken, now, reply) == Response(BAD_REQUEST, Error("User ID and email are required"))
    ensures Truthy(req.body.value.userId) && Truthy(req.body.value.userEmail) && !Truthy(accessToken) ==>
      Respond(req, accessToken, now, reply) == Response(SERVER_ERROR, Error("Payment system not configured"))
  {
  }

  /** A result with both an id and a checkout link redirects, quoting the
      price of the moment and flagging the promotion exactly before it ends;
      any other result is refused with 400. */
  lemma RedirectIffIdAndLink(req: Request, accessToken: Option<string>, now: int, reply: Reply)
    requires req.verb == "POST" && req.body.Some?
    requires Truthy(req.body.value.userId) && Truthy(req.body.value.userEmail) && Truthy(accessToken)
    requires reply.Result?
    ensures var resp := Respond(req, accessToken, now, reply);
      && (resp.status == OK <==> Truthy(reply.id) && Truthy(reply.initPoint))
      && (resp.status == OK ==> resp.body.Redirect? && resp.body.price == GetCurrentPrice(now)
                                && (resp.body.isPromo <==> now < PROMO_END_DATE))
      && (resp.status != OK ==> resp == Response(BAD_REQUEST, Refused(RefusalMessage(reply.message, reply.cause))))
  {
  }
}
