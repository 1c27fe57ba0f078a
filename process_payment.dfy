/** The card-payment endpoint (api/process-payment.ts): request validation,
    the payment payload sent to the processor with its defaults, and the
    classification of the processor's answer. The processor's answer and the
    store's answer to the one update are inputs. */
module ProcessPayment {
  import opened Js
  import opened Http
  import opened Store
  import Text
  import Webhook

  /** The fields of `req.body` the handler reads. */
  datatype PaymentForm = PaymentForm(
    userId: Option<string>,
    userEmail: Option<string>,
    payerEmail: Option<string>,
    transactionAmount: Option<int>,
    amount: Option<int>,
    installments: Option<int>,
    description: Option<string>)

  datatype Request = Request(verb: string, body: Option<PaymentForm>)

  /** The module-level configuration read from the environment. */
  datatype Env = Env(accessToken: Option<string>, supabaseUrl: Option<string>, serviceKey: Option<string>)

  /** The fields of `paymentData` that carry logic; the card token, issuer,
      method and identification are passed through unchanged and left out. */
  datatype PaymentData = PaymentData(
    transactionAmount: int,
    installments: int,
    description: string,
    payerEmail: Option<string>,
    externalReference: string,
    statementDescriptor: string,
    metadataUserId: string,
    metadataPlanId: string)

  const DEFAULT_AMOUNT: int := 29
  const DEFAULT_DESCRIPTION: string := "MAÑANA PRO - Suscripción Mensual"
  const PLAN_ID: string := "navidad-2024"

  /** `${userId}|navidad-2024`. */
  function ExternalReference(userId: string): (r: string)
    ensures |r| == |userId| + 1 + |PLAN_ID|
    ensures r[..|userId|] == userId && r[|userId|] == '|' && r[|userId| + 1..] == PLAN_ID
  {
    userId + "|" + PLAN_ID
  }

  /** `paymentData` for a user: the first truthy of the two amounts or 29, one
      installment and the fixed description unless given, the payer's e-mail
      falling back to the user's, and the reference naming the Christmas plan. */
  function BuildPaymentData(userId: string, f: PaymentForm): (d: PaymentData)
    ensures TruthyNum(f.transactionAmount) ==> d.transactionAmount == f.transactionAmount.value
    ensures !TruthyNum(f.transactionAmount) && TruthyNum(f.amount) ==> d.transactionAmount == f.amount.value
    ensures !TruthyNum(f.transactionAmount) && !TruthyNum(f.amount) ==> d.transactionAmount == DEFAULT_AMOUNT
    ensures d.transactionAmount != 0
    ensures d.installments == (if TruthyNum(f.installments) then f.installments.value else 1)
    ensures d.description == (if Truthy(f.description) then f.description.value else DEFAULT_DESCRIPTION)
    ensures d.payerEmail == Or(f.payerEmail, f.userEmail)
    ensures d.externalReference == ExternalReference(userId)
    ensures d.metadataUserId == userId && d.metadataPlanId == PLAN_ID
  {
    PaymentData(
      OrElseNum(OrNum(f.transactionAmount, f.amount), DEFAULT_AMOUNT),
      OrElseNum(f.installments, 1),
      OrElse(f.description, DEFAULT_DESCRIPTION),
      Or(f.payerEmail, f.userEmail),
      ExternalReference(userId),
      "MANANA PRO",
      userId,
      PLAN_ID)
  }

  /** The reference this endpoint writes is split by the webhook back into the
      user and the `navidad-2024` plan, for any user id without a `|`. */
  lemma ReferenceRoundTrip(userId: string, f: PaymentForm)
    requires '|' !in userId
    ensures Webhook.SplitReference(BuildPaymentData(userId, f).externalReference) == (userId, PLAN_ID)
  {
    Webhook.SplitReferenceRoundTrip(userId, PLAN_ID);
  }

  /** A user id holding a `|` is cut at it by the webhook: for `a|b` the
      webhook reads user `a` and plan `b`, not `navidad-2024`. */
  lemma BarInUserIdMisroutes(a: string, b: string)
    requires '|' !in a && '|' !in b
    ensures Webhook.SplitReference(ExternalReference(a + "|" + b)) == (a, b)
  {
    var rest := b + "|" + PLAN_ID;
    assert ExternalReference(a + "|" + b) == a + "|" + rest;
    Webhook.SplitReferenceAtFirstBar(a, rest);
    assert rest == b + ['|'] + PLAN_ID;
    Text.SplitAtFirst(b, PLAN_ID, '|');
  }

  /** The processor's answer: thrown (network or JSON error) or a result. */
  datatype Reply = Threw | Result(status: Option<string>, id: Option<string>, statusDetail: Option<string>)

  datatype Body =
    | Empty
    | Error(message: string)
    | Failed(error: string)
    | Approved(paymentId: Option<string>, message: string)
    | Processing(status: string, paymentId: Option<string>, message: string)
    | Rejected(statusDetail: Option<string>, message: string)

  const APPROVED_MESSAGE: string := "¡Pago aprobado! Tu cuenta PRO está activa."
  const PROCESSING_MESSAGE: string := "Tu pago está siendo procesado. Te notificaremos cuando se complete."
  const REJECTED_DEFAULT: string := "El pago fue rechazado. Intenta con otra tarjeta."

  /** The five `status_detail` codes with a message of their own. */
  const RejectionMessages: map<string, string> := map[
    "cc_rejected_bad_filled_card_number" := "Número de tarjeta incorrecto",
    "cc_rejected_bad_filled_date" := "Fecha de vencimiento incorrecta",
    "cc_rejected_bad_filled_security_code" := "Código de seguridad incorrecto",
    "cc_rejected_insufficient_amount" := "Fondos insuficientes",
    "cc_rejected_other_reason" := "Tu tarjeta no pudo procesar el pago"]

  /** The nested conditional choosing the rejection message. */
  function RejectionMessage(detail: Option<string>): (m: string)
  {
    if detail == Some("cc_rejected_bad_filled_card_number") then "Número de tarjeta incorrecto"
    else if detail == Some("cc_rejected_bad_filled_date") then "Fecha de vencimiento incorrecta"
    else if detail == Some("cc_rejected_bad_filled_security_code") then "Código de seguridad incorrecto"
    else if detail == Some("cc_rejected_insufficient_amount") then "Fondos insuficientes"
    else if detail == Some("cc_rejected_other_reason") then "Tu tarjeta no pudo procesar el pago"
    else REJECTED_DEFAULT
  }

  /** The conditional agrees with the table: a listed code gets its message and
      anything else, a missing detail included, the generic one. */
  lemma RejectionMessageFollowsTable(detail: Option<string>)
    ensures detail.Some? && detail.value in RejectionMessages ==>
      RejectionMessage(detail) == RejectionMessages[detail.value]
    ensures !(detail.Some? && detail.value in RejectionMessages) ==>
      RejectionMessage(detail) == REJECTED_DEFAULT
  {
  }

  /** The classification of a result that was obtained, and the row write of
      an approved one: made only with the store configured and no update error. */
  function Classify(userId: string, status: Option<string>, id: Option<string>, detail: Option<string>,
                    env: Env, updateOk: bool, users: Table): (Response<Body>, Table)
  {
    if status == Some("approved") then
      var users' := if Truthy(env.supabaseUrl) && Truthy(env.serviceKey) && updateOk
                    then Update(users, userId, (r: Row) => r.(isPro := true)) else users;
      (Response(OK, Approved(id, APPROVED_MESSAGE)), users')
    else if status == Some("in_process") || status == Some("pending") then
      (Response(OK, Processing(status.value, id, PROCESSING_MESSAGE)), users)
    else (Response(BAD_REQUEST, Rejected(detail, RejectionMessage(detail))), users)
  }

  /** The whole handler. A missing body makes the destructuring throw, which
      the catch answers with 500. */
  function Respond(req: Request, env: Env, reply: Reply, updateOk: bool, users: Table): (Response<Body>, Table)
  {
    if req.verb == "OPTIONS" then (Response(OK, Empty), users)
    else if req.verb != "POST" then (Response(METHOD_NOT_ALLOWED, Error("Method not allowed")), users)
    else match req.body
      case None => (Response(SERVER_ERROR, Failed("Error al procesar el pago")), users)
      case Some(f) =>
        if !Truthy(f.userId) then (Response(BAD_REQUEST, Error("User ID is required")), users)
        else if !Truthy(env.accessToken) then (Response(SERVER_ERROR, Error("Payment system not configured")), users)
        else match reply
          case Threw => (Response(SERVER_ERROR, Failed("Error al procesar el pago")), users)
          case Result(status, id, detail) => Classify(f.userId.value, status, id, detail, env, updateOk, users)
  }

  /** OPTIONS is answered 200 with no body and any other non-POST 405, with no
      write; a missing user id is 400 whatever the configuration. */
  lemma MethodAndUserChecks(req: Request, env: Env, reply: Reply, updateOk: bool, users: Table)
    ensures req.verb == "OPTIONS" ==> Respond(req, env, reply, updateOk, users) == (Response(OK, Empty), users)
    ensures req.verb != "OPTIONS" && req.verb != "POST" ==>
      Respond(req, env, reply, updateOk, users).0.status == METHOD_NOT_ALLOWED
    ensures req.verb == "POST" && req.body.Some? && !Truthy(req.body.value.userId) ==>
      Respond(req, env, reply, updateOk, users) == (Response(BAD_REQUEST, Error("User ID is required")), users)
    ensures req.verb == "POST" && req.body.Some? && Truthy(req.body.value.userId) && !Truthy(env.accessToken) ==>
      Respond(req, env, reply, updateOk, users).0.status == SERVER_ERROR
  {
  }

  /** Only an approved payment writes, and it writes nothing but `is_pro = true`
      on the paying user's row; it is answered 200 even when the write failed. */
  lemma OnlyApprovalWrites(req: Request, env: Env, reply: Reply, updateOk: bool, users: Table)
    ensures var (resp, users') := Respond(req, env, reply, updateOk, users);
      && (users' != users ==> resp.status == OK && resp.body.Approved?)
      && users'.Keys == users.Keys
      && ((req.verb == "POST" && req.body.Some? && Truthy(req.body.value.userId) && Truthy(env.accessToken)
           && reply.Result? && reply.status == Some("approved")) ==> resp.status == OK)
      && (forall k :: k in users && users'[k] != users[k] ==>
            req.body.Some? && req.body.value.userId == Some(k) && users'[k] == users[k].(isPro := true))
  {
  }

  /** An approved payment for a configured request is answered 200 `approved`
      with its id, and the paying user's row becomes pro exactly when the
      store is configured, the update reports no error and the row exists;
      otherwise the table is left as it was. */
  lemma ApprovedWritesPro(req: Request, env: Env, id: Option<string>, detail: Option<string>,
                          updateOk: bool, users: Table)
    requires req.verb == "POST" && req.body.Some? && Truthy(req.body.value.userId) && Truthy(env.accessToken)
    ensures var userId := req.body.value.userId.value;
      var (resp, users') := Respond(req, env, Result(Some("approved"), id, detail), updateOk, users);
      && resp == Response(OK, Approved(id, APPROVED_MESSAGE))
      && (Truthy(env.supabaseUrl) && Truthy(env.serviceKey) && updateOk && userId in users ==>
            users' == users[userId := users[userId].(isPro := true)])
      && (!(Truthy(env.supabaseUrl) && Truthy(env.serviceKey) && updateOk && userId in users) ==>
            users' == users)
  {
  }

  /** A payment in process or pending is answered 200 with its status and id
      and the processing message, and nothing is written. */
  lemma PendingIsProcessing(req: Request, env: Env, status: string, id: Option<string>, detail: Option<string>,
                            updateOk: bool, users: Table)
    requires req.verb == "POST" && req.body.Some? && Truthy(req.body.value.userId) && Truthy(env.accessToken)
    requires status == "in_process" || status == "pending"
    ensures Respond(req, env, Result(Some(status), id, detail), updateOk, users)
      == (Response(OK, Processing(status, id, PROCESSING_MESSAGE)), users)
  {
  }

  /** A status other than approved, in process or pending is answered 400
      `rejected` with the message for its detail, and nothing is written. */
  lemma RejectedStatus(userId: string, status: Option<string>, id: Option<string>, detail: Option<string>,
                       env: Env, updateOk: bool, users: Table)
    requires status != Some("approved") && status != Some("in_process") && status != Some("pending")
    ensures Classify(userId, status, id, detail, env, updateOk, users)
      == (Response(BAD_REQUEST, Rejected(detail, RejectionMessage(detail))), users)
  {
  }
}
