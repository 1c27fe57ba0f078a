/** The one-off checkout endpoint (api/create-preference.ts): validation, the
    choice of the site's base URL, the checkout preference and the response.
    The environment and the processor's answer are inputs. */
module CreatePreference {
  import opened Js
  import opened Http

  datatype PreferenceForm = PreferenceForm(userId: Option<string>, userEmail: Option<string>)

  datatype Request = Request(verb: string, body: Option<PreferenceForm>)

  datatype Env = Env(accessToken: Option<string>, vercelUrl: Option<string>, replitDevDomain: Option<string>)

  const LOCAL_URL: string := "http://localhost:5000"

  /** `baseUrl`: the deployment host, else the development host, each under
      `https://`, else the local server. */
  function BaseUrl(env: Env): (url: string)
    ensures Truthy(env.vercelUrl) ==> url == "https://" + env.vercelUrl.value
    ensures !Truthy(env.vercelUrl) && Truthy(env.replitDevDomain) ==> url == "https://" + env.replitDevDomain.value
    ensures !Truthy(env.vercelUrl) && !Truthy(env.replitDevDomain) ==> url == LOCAL_URL
  {
    if Truthy(env.vercelUrl) then "https://" + env.vercelUrl.value
    else if Truthy(env.replitDevDomain) then "https://" + env.replitDevDomain.value
    else LOCAL_URL
  }

  datatype Item = Item(id: string, title: string, description: string, quantity: int,
                       currencyId: string, unitPrice: int)

  datatype BackUrls = BackUrls(success: string, failure: string, pending: string)

  /** `preference`. */
  datatype Preference = Preference(
    items: seq<Item>,
    payerEmail: Option<string>,
    externalReference: string,
    backUrls: BackUrls,
    autoReturn: string,
    notificationUrl: string)

  const MONTHLY_ITEM: Item := Item(
    "manana-pro-monthly", "MAÑANA PRO - Suscripción Mensual",
    "Acceso ilimitado a generación de planeaciones NEM", 1, "MXN", 29)

  /** The preference for a validated user: one monthly item at 29 MXN, the
      user as the reference, and every URL under the base URL. An empty
      e-mail is sent as absent. */
  function BuildPreference(userId: string, userEmail: Option<string>, env: Env): (p: Preference)
    ensures |p.items| == 1 && p.items[0].quantity == 1 && p.items[0].unitPrice == 29
    ensures p.items[0].currencyId == "MXN"
    ensures p.externalReference == userId
    ensures p.payerEmail == (if Truthy(userEmail) then userEmail else None)
    ensures p.backUrls == BackUrls(BaseUrl(env) + "/?payment=success", BaseUrl(env) + "/?payment=failure",
                                   BaseUrl(env) + "/?payment=pending")
    ensures p.notificationUrl == BaseUrl(env) + "/api/mercadopago-webhook"
  {
    var baseUrl := BaseUrl(env);
    Preference(
      [MONTHLY_ITEM],
      if Truthy(userEmail) then userEmail else None,
      userId,
      BackUrls(baseUrl + "/?payment=success", baseUrl + "/?payment=failure", baseUrl + "/?payment=pending"),
      "approved",
      baseUrl + "/api/mercadopago-webhook")
  }

  /** Every URL of the preference starts with the base URL, and the three
      return URLs differ. */
  lemma UrlsShareBase(userId: string, userEmail: Option<string>, env: Env)
    ensures var p := BuildPreference(userId, userEmail, env);
      var base := BaseUrl(env);
      && p.backUrls.success[..|base|] == base
      && p.backUrls.failure[..|base|] == base
      && p.backUrls.pending[..|base|] == base
      && p.notificationUrl[..|base|] == base
      && p.backUrls.success != p.backUrls.failure
      && p.backUrls.success != p.backUrls.pending
      && p.backUrls.failure != p.backUrls.pending
  {
    var p := BuildPreference(userId, userEmail, env);
    var base := BaseUrl(env);
    assert p.backUrls.success[|base| + 10] == 's';
    assert p.backUrls.failure[|base| + 10] == 'f';
    assert p.backUrls.pending[|base| + 10] == 'p';
  }

  /** The processor's answer: thrown, a non-ok status, or the created preference. */
  datatype Reply = Threw | NotOk | Created(id: Option<string>, initPoint: Option<string>,
                                          sandboxInitPoint: Option<string>)

  datatype Body =
    | Empty
    | Error(message: string)
    | Checkout(preferenceId: Option<string>, initPoint: Option<string>, sandboxInitPoint: Option<string>)

  /** The whole handler. */
  function Respond(req: Request, env: Env, reply: Reply): Response<Body>
  {
    if req.verb == "OPTIONS" then Response(OK, Empty)
    else if req.verb != "POST" then Response(METHOD_NOT_ALLOWED, Error("Method not allowed"))
    else match req.body
      case None => Response(SERVER_ERROR, Error("Internal server error"))
      case Some(f) =>
        if !Truthy(f.userId) then Response(BAD_REQUEST, Error("User ID is required"))
        else if !Truthy(env.accessToken) then Response(SERVER_ERROR, Error("Payment system not configured"))
        else match reply
          case Threw => Response(SERVER_ERROR, Error("Internal server error"))
          case NotOk => Response(SERVER_ERROR, Error("Failed to create payment preference"))
          case Created(id, initPoint, sandbox) => Response(OK, Checkout(id, initPoint, sandbox))
  }

  /** OPTIONS is 200 and other non-POST 405; a missing user id is 400 before
      the token is looked at, and a missing token then 500; a valid request is
      200 exactly when the processor created the preference, passing its three
      fields through, and 500 when the processor failed or refused. */
  lemma ResponseClassification(req: Request, env: Env, reply: Reply)
    ensures req.verb == "OPTIONS" ==> Respond(req, env, reply) == Response(OK, Empty)
    ensures req.verb != "OPTIONS" && req.verb != "POST" ==> Respond(req, env, reply).status == METHOD_NOT_ALLOWED
    ensures req.verb == "POST" && req.body.Some? && !Truthy(req.body.value.userId) ==>
      Respond(req, env, reply) == Response(BAD_REQUEST, Error("User ID is required"))
    ensures req.verb == "POST" && req.body.Some? && Truthy(req.body.value.userId) && !Truthy(env.accessToken) ==>
      Respond(req, env, reply) == Response(SERVER_ERROR, Error("Payment system not configured"))
    ensures req.verb == "POST" && req.body.Some? && Truthy(req.body.value.userId) && Truthy(env.accessToken) ==>
      (Respond(req, env, reply).status == OK <==> reply.Created?)
    ensures (req.verb == "POST" && req.body.Some? && Truthy(req.body.value.userId) && Truthy(env.accessToken)
             && !reply.Created?) ==>
      Respond(req, env, reply).status == SERVER_ERROR
    ensures req.verb == "POST" && req.body.Some? && Truthy(req.body.value.userId) && Truthy(env.accessToken)
            && reply == NotOk ==>
      Respond(req, env, reply) == Response(SERVER_ERROR, Error("Failed to create payment preference"))
    ensures (req.verb == "POST" && req.body.Some? && Truthy(req.body.value.userId) && Truthy(env.accessToken)
             && reply.Created?) ==>
      Respond(req, env, reply).body == Checkout(reply.id, reply.initPoint, reply.sandboxInitPoint)
  {
  }
}
