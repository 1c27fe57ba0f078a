/** The sign-up endpoint (api/register-user.ts): validation and the upsert of
    the user's row with its defaults. The store's answer is an input. */
module RegisterUser {
  import opened Js
  import opened Http
  import opened Store

  /** The JSON value sent as `acceptedMarketing`. */
  datatype JsonValue = JBool(b: bool) | JString(s: string) | JNumber(n: int) | JNull

  datatype RegisterForm = RegisterForm(userId: Option<string>, email: Option<string>,
                                       acceptedMarketing: Option<JsonValue>)

  datatype Request = Request(verb: string, body: Option<RegisterForm>)

  datatype Env = Env(supabaseUrl: Option<string>, serviceKey: Option<string>)

  /** `acceptedMarketing === true`: only the boolean `true` counts; the string
      "true", 1 and a missing field do not. */
  predicate MarketingAccepted(v: Option<JsonValue>)
  {
    v == Some(JBool(true))
  }

  /** The columns the upsert writes: not pro, no generations, terms accepted,
      marketing as given, and the e-mail; the other columns keep their values. */
  function Registered(email: string, marketing: bool): Row -> Row
  {
    (r: Row) => r.(email := Some(email), isPro := false, totalGenerations := 0,
                   acceptedTerms := true, acceptedMarketing := marketing)
  }

  /** `Failure` carries the thrown or returned error's own message, which is
      not modelled. */
  datatype Body = Error(message: string) | Failure | Success

  /** The whole handler. A missing body makes the destructuring throw, which
      the catch answers with 500. */
  function Respond(req: Request, env: Env, upsertOk: bool, users: Table): (Response<Body>, Table)
  {
    if req.verb != "POST" then (Response(METHOD_NOT_ALLOWED, Error("Method not allowed")), users)
    else match req.body
      case None => (Response(SERVER_ERROR, Failure), users)
      case Some(f) =>
        if !Truthy(f.userId) || !Truthy(f.email) then
          (Response(BAD_REQUEST, Error("userId and email are required")), users)
        else if !Truthy(env.supabaseUrl) || !Truthy(env.serviceKey) then
          (Response(SERVER_ERROR, Error("Server configuration error")), users)
        else if !upsertOk then (Response(SERVER_ERROR, Failure), users)
        else
          (Response(OK, Success),
           Upsert(users, f.userId.value, Registered(f.email.value, MarketingAccepted(f.acceptedMarketing))))
  }

  /** Non-POST is 405, missing fields 400 and a missing configuration 500, in
      that order, and none of them writes. */
  lemma ValidationOrder(req: Request, env: Env, upsertOk: bool, users: Table)
    ensures req.verb != "POST" ==> Respond(req, env, upsertOk, users).0.status == METHOD_NOT_ALLOWED
    ensures req.verb == "POST" && req.body.Some? && (!Truthy(req.body.value.userId) || !Truthy(req.body.value.email))
      ==> Respond(req, env, upsertOk, users) == (Response(BAD_REQUEST, Error("userId and email are required")), users)
    ensures (req.verb == "POST" && req.body.Some? && Truthy(req.body.value.userId) && Truthy(req.body.value.email)
             && (!Truthy(env.supabaseUrl) || !Truthy(env.serviceKey)))
      ==> Respond(req, env, upsertOk, users) == (Response(SERVER_ERROR, Error("Server configuration error")), users)
    ensures Respond(req, env, upsertOk, users).0.status != OK ==> Respond(req, env, upsertOk, users).1 == users
  {
  }

  /** A successful registration leaves exactly one row for the user, with the
      defaults, whether or not it existed; every other row is unchanged. */
  lemma RegisteredRow(req: Request, env: Env, users: Table)
    requires req.verb == "POST" && req.body.Some?
    requires Truthy(req.body.value.userId) && Truthy(req.body.value.email)
    requires Truthy(env.supabaseUrl) && Truthy(env.serviceKey)
    ensures var f := req.body.value;
      var u := f.userId.value;
      var (resp, users') := Respond(req, env, true, users);
      && resp == Response(OK, Success)
      && users'.Keys == users.Keys + {u}
      && users'[u].email == f.email && !users'[u].isPro && users'[u].totalGenerations == 0
      && users'[u].acceptedTerms
      && (users'[u].acceptedMarketing <==> f.acceptedMarketing == Some(JBool(true)))
      && (forall k :: k in users && k != u ==> users'[k] == users[k])
  {
  }

  /** Registering again an existing user resets the row's entitlement: a pro
      user with generations comes out not pro, at zero, keeping the
      subscription columns. */
  lemma ReRegisterResetsEntitlement(req: Request, env: Env, users: Table)
    requires req.verb == "POST" && req.body.Some?
    requires Truthy(req.body.value.userId) && Truthy(req.body.value.email)
    requires Truthy(env.supabaseUrl) && Truthy(env.serviceKey)
    requires req.body.value.userId.value in users
    ensures var u := req.body.value.userId.value;
      var users' := Respond(req, env, true, users).1;
      && !users'[u].isPro && users'[u].totalGenerations == 0
      && users'[u].subscriptionStatus == users[u].subscriptionStatus
      && users'[u].subscriptionId == users[u].subscriptionId
      && users'[u].subscriptionEndDate == users[u].subscriptionEndDate
  {
  }
}
