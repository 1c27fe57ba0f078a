/** The payment processor's webhook (api/mercadopago-webhook.ts): signature
    verification over the `x-signature` header, then a decision tree over the
    notification type that ends in at most one update of the `users` table.
    HMAC-SHA256 is a parameter `hmac(secret, message)` returning the hex digest;
    the processor's answers to the two re-fetches are inputs. */
module Webhook {
  import opened Js
  import opened Text
  import opened Http
  import opened Store

  // ---------------------------------------------------------------------------
  // x-signature header

  /** The keys of the two fields of `x-signature`. */
  const TS_KEY: string := "ts"
  const V1_KEY: string := "v1"

  /** One comma-separated part after `part.split('=')` and trimming: the key is
      the text before the first `=`, the value the text between the first and
      second `=` (`undefined` when there is no `=`). */
  datatype Part = Part(key: string, value: Option<string>)

  function ParsePart(part: string): Part
  {
    var pieces := Split(part, '=');
    Part(Trim(pieces[0]), if |pieces| >= 2 then Some(Trim(pieces[1])) else None)
  }

  /** The value assigned by the last part whose key is `key`, if there is one. */
  function LastValueFor(parts: seq<string>, key: string): Option<Option<string>>
    decreases |parts|
  {
    if parts == [] then None
    else
      var p := ParsePart(parts[|parts| - 1]);
      if p.key == key then Some(p.value) else LastValueFor(parts[..|parts| - 1], key)
  }

  /** The local `ts` (or `hash`) after the loop: it starts as "" and each part
      with the matching key overwrites it, so the last such part wins. */
  function FieldAfter(parts: seq<string>, key: string): Option<string>
  {
    match LastValueFor(parts, key)
    case None => Some("")
    case Some(v) => v
  }

  /** `if (trimmedKey === key) field = trimmedValue`. */
  function Assigned(field: Option<string>, p: Part, key: string): (r: Option<string>)
    ensures p.key != key ==> r == field
  {
    if p.key == key then p.value else field
  }

  /** A later part with the key overrides whatever came before; a part with any
      other key leaves the field alone. */
  lemma LaterPartOverrides(parts: seq<string>, part: string, key: string)
    ensures FieldAfter(parts + [part], key) == Assigned(FieldAfter(parts, key), ParsePart(part), key)
  {
    var all := parts + [part];
    assert all[|all| - 1] == part;
    assert all[..|all| - 1] == parts;
  }

  /** One more part read: the field is the old one, overwritten if the part
      names its key. */
  lemma ReadStep(parts: seq<string>, i: int, key: string)
    requires 0 <= i < |parts|
    ensures FieldAfter(parts[..i + 1], key) == Assigned(FieldAfter(parts[..i], key), ParsePart(parts[i]), key)
  {
    assert parts[..i + 1] == parts[..i] + [parts[i]];
    LaterPartOverrides(parts[..i], parts[i], key);
  }

  /** The loop of `verifyMercadoPagoSignature` over the header's parts: `ts`
      and `hash` start empty and each part naming them overwrites them. */
  method ReadFields(parts: seq<string>) returns (ts: Option<string>, hash: Option<string>)
    ensures ts == FieldAfter(parts, TS_KEY)
    ensures hash == FieldAfter(parts, V1_KEY)
  {
    ts, hash := Some(""), Some("");
    var i := 0;
    while i < |parts|
      invariant 0 <= i <= |parts|
      invariant ts == FieldAfter(parts[..i], TS_KEY)
      invariant hash == FieldAfter(parts[..i], V1_KEY)
    {
      var p := ParsePart(parts[i]);
      ReadStep(parts, i, TS_KEY);
      ReadStep(parts, i, V1_KEY);
      ts := Assigned(ts, p, TS_KEY);
      hash := Assigned(hash, p, V1_KEY);
      i := i + 1;
    }
    assert parts[..|parts|] == parts;
  }

  /** `xSignature.split(',')` followed by the loop. */
  method ParseSignatureHeader(header: string) returns (ts: Option<string>, hash: Option<string>)
    ensures ts == FieldAfter(Split(header, ','), TS_KEY)
    ensures hash == FieldAfter(Split(header, ','), V1_KEY)
  {
    var parts := Split(header, ',');
    ts, hash := ReadFields(parts);
  }

  /** The signed manifest `id:<dataId>;request-id:<requestId>;ts:<ts>;`. */
  function Manifest(dataId: string, requestId: string, ts: string): string
  {
    "id:" + dataId + ";request-id:" + requestId + ";ts:" + ts + ";"
  }

  /** What `verifyMercadoPagoSignature` answers. */
  predicate SignatureValid(secret: Option<string>, xSignature: Option<string>,
                           xRequestId: Option<string>, dataId: string,
                           hmac: (string, string) -> string)
  {
    if !Truthy(secret) then true
    else if !Truthy(xSignature) || !Truthy(xRequestId) then false
    else
      var parts := Split(xSignature.value, ',');
      var ts := FieldAfter(parts, TS_KEY);
      var hash := FieldAfter(parts, V1_KEY);
      Truthy(ts) && Truthy(hash)
      && hash.value == hmac(secret.value, Manifest(dataId, xRequestId.value, ts.value))
  }

  /** `verifyMercadoPagoSignature`. */
  method VerifySignature(secret: Option<string>, xSignature: Option<string>,
                         xRequestId: Option<string>, dataId: string,
                         hmac: (string, string) -> string) returns (ok: bool)
    ensures ok == SignatureValid(secret, xSignature, xRequestId, dataId, hmac)
  {
    if !Truthy(secret) {
      return true;
    }
    if !Truthy(xSignature) || !Truthy(xRequestId) {
      return false;
    }
    var ts, hash := ParseSignatureHeader(xSignature.value);
    if !Truthy(ts) || !Truthy(hash) {
      return false;
    }
    var manifest := Manifest(dataId, xRequestId.value, ts.value);
    var expected := hmac(secret.value, manifest);
    return hash.value == expected;
  }

  /** Without a configured secret every request passes; with one, a missing
      `x-signature` or `x-request-id` header fails. */
  lemma SecretGatesVerification(secret: Option<string>, xSignature: Option<string>,
                                xRequestId: Option<string>, dataId: string,
                                hmac: (string, string) -> string)
    ensures !Truthy(secret) ==> SignatureValid(secret, xSignature, xRequestId, dataId, hmac)
    ensures Truthy(secret) && (!Truthy(xSignature) || !Truthy(xRequestId)) ==>
      !SignatureValid(secret, xSignature, xRequestId, dataId, hmac)
  {
  }

  /** A token with no `,`, no `=` and no white space at either end. */
  predicate PlainToken(s: string)
  {
    s != [] && ',' !in s && '=' !in s && !IsSpace(s[0]) && !IsSpace(s[|s| - 1])
  }

  /** The text `<key>=<value>`. */
  function Assignment(key: string, value: string): string
  {
    key + "=" + value
  }

  /** The header a correct sender puts in `x-signature`: `ts=<T>,v1=<H>`. */
  function SignatureHeader(ts: string, h: string): string
  {
    Assignment(TS_KEY, ts) + "," + Assignment(V1_KEY, h)
  }

  lemma ParsePlainPart(key: string, value: string)
    requires PlainToken(key) && PlainToken(value)
    ensures ParsePart(Assignment(key, value)) == Part(key, Some(value))
  {
    var part := Assignment(key, value);
    assert part == key + ['='] + value;
    SplitAtFirst(key, value, '=');
    SplitNoSep(value, '=');
    var pieces := Split(part, '=');
    assert pieces == [key, value];
    TrimNoop(key);
    TrimNoop(value);
  }

  /** `ts=<T>,v1=<H>` splits into its two parts. */
  lemma HeaderParts(ts: string, h: string)
    requires PlainToken(ts) && PlainToken(h)
    ensures Split(SignatureHeader(ts, h), ',') == [Assignment(TS_KEY, ts), Assignment(V1_KEY, h)]
  {
    var first := Assignment(TS_KEY, ts);
    var second := Assignment(V1_KEY, h);
    assert SignatureHeader(ts, h) == first + [','] + second;
    assert ',' !in first;
    assert ',' !in second;
    SplitAtFirst(first, second, ',');
    SplitNoSep(second, ',');
  }

  /** Reading two parts whose keys are `ts` and `v1`. */
  lemma FieldsOfTwoParts(first: string, second: string, ts: string, h: string)
    requires ParsePart(first) == Part(TS_KEY, Some(ts)) && ParsePart(second) == Part(V1_KEY, Some(h))
    ensures FieldAfter([first, second], TS_KEY) == Some(ts)
    ensures FieldAfter([first, second], V1_KEY) == Some(h)
  {
    var parts := [first, second];
    assert parts[..|parts| - 1] == [first];
    assert [first][..0] == [];
    assert LastValueFor(parts, V1_KEY) == Some(Some(h));
    assert LastValueFor(parts, TS_KEY) == LastValueFor([first], TS_KEY);
    assert LastValueFor([first], TS_KEY) == Some(Some(ts));
  }

  /** The two header keys are plain tokens. */
  lemma PlainKeys()
    ensures PlainToken(TS_KEY) && PlainToken(V1_KEY)
  {
  }

  /** A header `ts=<T>,v1=<H>` signed with the configured secret over the
      manifest of this request passes verification. */
  lemma SignedRequestAccepted(secret: string, ts: string, requestId: string, dataId: string,
                              hmac: (string, string) -> string, h: string)
    requires secret != "" && requestId != ""
    requires h == hmac(secret, Manifest(dataId, requestId, ts))
    requires PlainToken(ts) && PlainToken(h)
    ensures SignatureValid(Some(secret), Some(SignatureHeader(ts, h)), Some(requestId), dataId, hmac)
  {
    SignatureHeaderFields(ts, h);
  }

  /** Reading `ts=<T>,v1=<H>` back gives `T` and `H`. */
  lemma SignatureHeaderFields(ts: string, h: string)
    requires PlainToken(ts) && PlainToken(h)
    ensures SignatureHeader(ts, h) != ""
    ensures FieldAfter(Split(SignatureHeader(ts, h), ','), TS_KEY) == Some(ts)
    ensures FieldAfter(Split(SignatureHeader(ts, h), ','), V1_KEY) == Some(h)
  {
    HeaderParts(ts, h);
    PlainKeys();
    ParsePlainPart(TS_KEY, ts);
    ParsePlainPart(V1_KEY, h);
    FieldsOfTwoParts(Assignment(TS_KEY, ts), Assignment(V1_KEY, h), ts, h);
    assert |SignatureHeader(ts, h)| > 0;
  }

  /** A header whose `v1` is not the digest of the manifest is refused. */
  lemma WrongDigestRejected(secret: Option<string>, xSignature: Option<string>,
                            xRequestId: Option<string>, dataId: string,
                            hmac: (string, string) -> string)
    requires Truthy(secret) && Truthy(xSignature) && Truthy(xRequestId)
    requires var parts := Split(xSignature.value, ',');
      var ts := FieldAfter(parts, TS_KEY);
      var hash := FieldAfter(parts, V1_KEY);
      ts.Some? && hash.Some? && hash.value != hmac(secret.value, Manifest(dataId, xRequestId.value, ts.value))
    ensures !SignatureValid(secret, xSignature, xRequestId, dataId, hmac)
  {
  }

  // ---------------------------------------------------------------------------
  // external_reference

  /** `externalReference.includes('|') ? split('|') : [ref, 'unknown']`,
      destructured into `[userId, planId]`. */
  function SplitReference(reference: string): (r: (UserId, string))
    ensures '|' !in reference ==> r == (reference, "unknown")
    ensures '|' !in r.0
  {
    if '|' in reference then
      var parts := Split(reference, '|');
      (parts[0], parts[1])
    else (reference, "unknown")
  }

  /** With a `|`, the user is the text before the first bar and the plan the
      next segment; any further segments are dropped. */
  lemma SplitReferenceAtFirstBar(userId: UserId, rest: string)
    requires '|' !in userId
    ensures SplitReference(userId + "|" + rest) == (userId, Split(rest, '|')[0])
  {
    assert userId + "|" + rest == userId + ['|'] + rest;
    SplitAtFirst(userId, rest, '|');
  }

  /** A reference `<user>|<plan>` is split back into its two halves. */
  lemma SplitReferenceRoundTrip(userId: UserId, planId: string)
    requires '|' !in userId && '|' !in planId
    ensures SplitReference(userId + "|" + planId) == (userId, planId)
  {
    SplitReferenceAtFirstBar(userId, planId);
    SplitNoSep(planId, '|');
  }

  // ---------------------------------------------------------------------------
  // handler

  /** `req.body`'s `{ type, data: { id } }`. */
  datatype Notification = Notification(kind: Option<string>, dataId: Option<string>)

  datatype Request = Request(
    verb: string,
    xSignature: Option<string>,
    xRequestId: Option<string>,
    queryDataId: Option<string>,
    body: Option<Notification>)

  /** The environment variables the handler reads. */
  datatype Env = Env(
    secret: Option<string>,
    viteSupabaseUrl: Option<string>,
    supabaseUrl: Option<string>,
    serviceKey: Option<string>,
    accessToken: Option<string>)

  /** A re-fetch from the processor: a transport error (thrown), a non-ok
      answer, or the object. */
  datatype Fetch<T> = Threw | NotOk | Fetched(value: T)

  /** The fields of a fetched subscription (preapproval) the handler reads. */
  datatype Preapproval = Preapproval(
    id: Option<string>,
    status: Option<string>,
    externalReference: Option<string>,
    amount: Option<int>)

  /** The fields of a fetched payment the handler reads. */
  datatype Payment = Payment(
    status: Option<string>,
    externalReference: Option<string>,
    transactionAmount: Option<int>)

  datatype Body =
    | Error(message: string)
    | Received
    | ReceivedStatus(status: Option<string>)
    | Updated(userId: UserId)
    | SubscriptionUpdated(userId: UserId, status: Option<string>)

  /** The processor's answers and the store's answer to the one update. */
  datatype World = World(subscription: Fetch<Preapproval>, payment: Fetch<Payment>, updateOk: bool)

  /** `req.query['data.id'] || req.body.data.id`, as printed into the manifest. */
  function ManifestDataId(req: Request): string
  {
    Show(Or(req.queryDataId, if req.body.Some? then req.body.value.dataId else None))
  }

  /** The row change of a `subscription_preapproval` notification. */
  function ApplyPreapproval(s: Preapproval): Row -> Row
  {
    (r: Row) => r.(isPro := s.status == Some("authorized"),
                   subscriptionId := Keep(r.subscriptionId, s.id),
                   subscriptionStatus := Keep(r.subscriptionStatus, s.status),
                   subscriptionPrice := Keep(r.subscriptionPrice, s.amount))
  }

  /** The row change of an approved `payment` notification. */
  function ApplyPayment(planId: string, amount: Option<int>): Row -> Row
  {
    (r: Row) => r.(isPro := true,
                   subscriptionPlan := Some(planId),
                   subscriptionAmount := Keep(r.subscriptionAmount, amount))
  }

  const INTERNAL: Response<Body> := Response(SERVER_ERROR, Error("Internal server error"))
  const CONFIG_ERROR: Response<Body> := Response(SERVER_ERROR, Error("Server configuration error"))

  /** The `subscription_preapproval` branch. Creating the store client throws
      when its URL or key is missing, which the outer catch turns into a 500. */
  function PreapprovalBranch(dataId: Option<string>, env: Env, w: World, users: Table): (Response<Body>, Table)
  {
    if !Truthy(dataId) then (Response(BAD_REQUEST, Error("Missing subscription ID")), users)
    else match w.subscription
      case Threw => (INTERNAL, users)
      case NotOk => (Response(SERVER_ERROR, Error("Failed to verify subscription")), users)
      case Fetched(s) =>
        if !Truthy(s.externalReference) then (Response(BAD_REQUEST, Error("Missing user reference")), users)
        else if !Truthy(Or(env.viteSupabaseUrl, env.supabaseUrl)) || !Truthy(env.serviceKey) then (INTERNAL, users)
        else if !w.updateOk then (Response(SERVER_ERROR, Error("Failed to update user")), users)
        else
          var userId := s.externalReference.value;
          (Response(OK, SubscriptionUpdated(userId, s.status)), Update(users, userId, ApplyPreapproval(s)))
  }

  /** The `payment` branch. */
  function PaymentBranch(dataId: Option<string>, env: Env, w: World, users: Table): (Response<Body>, Table)
  {
    if !Truthy(env.accessToken) then (CONFIG_ERROR, users)
    else if !Truthy(Or(env.viteSupabaseUrl, env.supabaseUrl)) || !Truthy(env.serviceKey) then (CONFIG_ERROR, users)
    else if !Truthy(dataId) then (Response(BAD_REQUEST, Error("Missing payment ID")), users)
    else match w.payment
      case Threw => (INTERNAL, users)
      case NotOk => (Response(SERVER_ERROR, Error("Failed to verify payment")), users)
      case Fetched(p) =>
        if p.status != Some("approved") then (Response(OK, ReceivedStatus(p.status)), users)
        else if !Truthy(p.externalReference) then (Response(BAD_REQUEST, Error("Missing user reference")), users)
        else if !w.updateOk then (Response(SERVER_ERROR, Error("Failed to update user")), users)
        else
          var (userId, planId) := SplitReference(p.externalReference.value);
          (Response(OK, Updated(userId)), Update(users, userId, ApplyPayment(planId, p.transactionAmount)))
  }

  /** The error answers of the two branches, none of which writes: a missing
      id or user reference is 400, a failed or throwing fetch and a missing
      store or payment configuration are 500, and a failed update is 500. */
  lemma BranchErrors(dataId: Option<string>, env: Env, w: World, users: Table)
    ensures !Truthy(dataId) ==>
      PreapprovalBranch(dataId, env, w, users) == (Response(BAD_REQUEST, Error("Missing subscription ID")), users)
    ensures Truthy(dataId) && w.subscription.Threw? ==> PreapprovalBranch(dataId, env, w, users) == (INTERNAL, users)
    ensures Truthy(dataId) && w.subscription.NotOk? ==>
      PreapprovalBranch(dataId, env, w, users) == (Response(SERVER_ERROR, Error("Failed to verify subscription")), users)
    ensures Truthy(dataId) && w.subscription.Fetched? && !Truthy(w.subscription.value.externalReference) ==>
      PreapprovalBranch(dataId, env, w, users) == (Response(BAD_REQUEST, Error("Missing user reference")), users)
    ensures (Truthy(dataId) && w.subscription.Fetched? && Truthy(w.subscription.value.externalReference)
             && (!Truthy(Or(env.viteSupabaseUrl, env.supabaseUrl)) || !Truthy(env.serviceKey))) ==>
      PreapprovalBranch(dataId, env, w, users) == (INTERNAL, users)
    ensures !Truthy(env.accessToken) || !Truthy(Or(env.viteSupabaseUrl, env.supabaseUrl)) || !Truthy(env.serviceKey) ==>
      PaymentBranch(dataId, env, w, users) == (CONFIG_ERROR, users)
    ensures Truthy(env.accessToken) && Truthy(Or(env.viteSupabaseUrl, env.supabaseUrl)) && Truthy(env.serviceKey) ==>
      && (!Truthy(dataId) ==>
            PaymentBranch(dataId, env, w, users) == (Response(BAD_REQUEST, Error("Missing payment ID")), users))
      && (Truthy(dataId) && w.payment.Threw? ==> PaymentBranch(dataId, env, w, users) == (INTERNAL, users))
      && (Truthy(dataId) && w.payment.NotOk? ==>
            PaymentBranch(dataId, env, w, users) == (Response(SERVER_ERROR, Error("Failed to verify payment")), users))
      && (Truthy(dataId) && w.payment.Fetched? && w.payment.value.status == Some("approved")
          && !Truthy(w.payment.value.externalReference) ==>
            PaymentBranch(dataId, env, w, users) == (Response(BAD_REQUEST, Error("Missing user reference")), users))
      && (Truthy(dataId) && w.payment.Fetched? && w.payment.value.status == Some("approved")
          && Truthy(w.payment.value.externalReference) && !w.updateOk ==>
            PaymentBranch(dataId, env, w, users) == (Response(SERVER_ERROR, Error("Failed to update user")), users))
  {
  }

  /** The dispatch after a successful signature check. */
  function Dispatch(req: Request, env: Env, w: World, users: Table): (Response<Body>, Table)
  {
    match req.body
    case None => (INTERNAL, users)
    case Some(n) =>
      if n.kind == Some("subscription_preapproval") then PreapprovalBranch(n.dataId, env, w, users)
      else if n.kind != Some("payment") then (Response(OK, Received), users)
      else PaymentBranch(n.dataId, env, w, users)
  }

  /** The whole handler as a function of the request, the environment, the
      outside world's answers and the table. */
  function Respond(req: Request, env: Env, hmac: (string, string) -> string, w: World, users: Table)
    : (Response<Body>, Table)
  {
    if req.verb != "POST" then (Response(METHOD_NOT_ALLOWED, Error("Method not allowed")), users)
    else if !SignatureValid(env.secret, req.xSignature, req.xRequestId, ManifestDataId(req), hmac)
    then (Response(UNAUTHORIZED, Error("Invalid signature")), users)
    else Dispatch(req, env, w, users)
  }

  /** `handler` as the source runs it: the same answers as `Respond`, but the
      signature is checked by `VerifySignature`, so the header is read by the
      `ReadFields` loop rather than by its specification. */
  method Handle(req: Request, env: Env, hmac: (string, string) -> string, w: World, users: Table)
    returns (resp: Response<Body>, users': Table)
    ensures (resp, users') == Respond(req, env, hmac, w, users)
  {
    if req.verb != "POST" {
      return Response(METHOD_NOT_ALLOWED, Error("Method not allowed")), users;
    }
    var ok := VerifySignature(env.secret, req.xSignature, req.xRequestId, ManifestDataId(req), hmac);
    if !ok {
      return Response(UNAUTHORIZED, Error("Invalid signature")), users;
    }
    var outcome := Dispatch(req, env, w, users);
    resp, users' := outcome.0, outcome.1;
  }

  // ---------------------------------------------------------------------------
  // properties of the handler

  /** Non-POST is 405 and a failed signature is 401, neither touching the table. */
  lemma RejectedBeforeAnyWrite(req: Request, env: Env, hmac: (string, string) -> string, w: World, users: Table)
    requires req.verb != "POST"
      || !SignatureValid(env.secret, req.xSignature, req.xRequestId, ManifestDataId(req), hmac)
    ensures var (resp, users') := Respond(req, env, hmac, w, users);
      users' == users && resp.status == (if req.verb != "POST" then METHOD_NOT_ALLOWED else UNAUTHORIZED)
  {
  }

  /** Only a 200 answer changes the table: every error leaves it as it was, and
      the table only ever changes on the row the notification names. */
  lemma ErrorsDoNotWrite(req: Request, env: Env, hmac: (string, string) -> string, w: World, users: Table)
    ensures var (resp, users') := Respond(req, env, hmac, w, users);
      (resp.status != OK ==> users' == users) && users'.Keys == users.Keys
    ensures var (resp, users') := Respond(req, env, hmac, w, users);
      forall k :: k in users && users'[k] != users[k] ==>
        resp.status == OK && (resp.body.Updated? || resp.body.SubscriptionUpdated?) && resp.body.userId == k
  {
  }

  /** A type other than `payment` and `subscription_preapproval` is
      acknowledged with 200 and changes nothing. */
  lemma OtherTypesAcknowledged(req: Request, env: Env, hmac: (string, string) -> string, w: World, users: Table)
    requires req.verb == "POST"
    requires SignatureValid(env.secret, req.xSignature, req.xRequestId, ManifestDataId(req), hmac)
    requires req.body.Some? && req.body.value.kind != Some("payment")
    requires req.body.value.kind != Some("subscription_preapproval")
    ensures Respond(req, env, hmac, w, users) == (Response(OK, Received), users)
  {
  }

  /** A fetched subscription sets `is_pro` exactly when its status is
      `authorized`, records its id, status and price, and touches no other row. */
  lemma PreapprovalSetsProIffAuthorized(dataId: Option<string>, env: Env, w: World, users: Table)
    requires Truthy(dataId) && w.subscription.Fetched?
    requires Truthy(w.subscription.value.externalReference)
    requires Truthy(Or(env.viteSupabaseUrl, env.supabaseUrl)) && Truthy(env.serviceKey) && w.updateOk
    ensures var s := w.subscription.value;
      var u := s.externalReference.value;
      var (resp, users') := PreapprovalBranch(dataId, env, w, users);
      && resp.status == OK
      && (u in users ==> users'[u].isPro == (s.status == Some("authorized"))
                         && users'[u].subscriptionStatus == Keep(users[u].subscriptionStatus, s.status)
                         && users'[u].subscriptionId == Keep(users[u].subscriptionId, s.id)
                         && users'[u].subscriptionPrice == Keep(users[u].subscriptionPrice, s.amount)
                         && users'[u].totalGenerations == users[u].totalGenerations)
      && (forall k :: k in users && k != u ==> users'[k] == users[k])
  {
  }

  /** A subscription row written by the webhook is pro exactly when its
      recorded status is `authorized` (when the processor reported a status). */
  lemma PreapprovalProMatchesStatus(s: Preapproval, r: Row)
    requires s.status.Some?
    ensures ApplyPreapproval(s)(r).isPro <==> ApplyPreapproval(s)(r).subscriptionStatus == Some("authorized")
  {
  }

  /** A fetched payment that is not approved is acknowledged with no write. */
  lemma UnapprovedPaymentNoWrite(dataId: Option<string>, env: Env, w: World, users: Table)
    requires Truthy(env.accessToken) && Truthy(Or(env.viteSupabaseUrl, env.supabaseUrl)) && Truthy(env.serviceKey)
    requires Truthy(dataId) && w.payment.Fetched? && w.payment.value.status != Some("approved")
    ensures PaymentBranch(dataId, env, w, users) == (Response(OK, ReceivedStatus(w.payment.value.status)), users)
  {
  }

  /** An approved payment makes the referenced user pro and records the plan. */
  lemma ApprovedPaymentGrantsPro(dataId: Option<string>, env: Env, w: World, users: Table)
    requires Truthy(env.accessToken) && Truthy(Or(env.viteSupabaseUrl, env.supabaseUrl)) && Truthy(env.serviceKey)
    requires Truthy(dataId) && w.payment.Fetched? && w.payment.value.status == Some("approved")
    requires Truthy(w.payment.value.externalReference) && w.updateOk
    ensures var p := w.payment.value;
      var (u, plan) := SplitReference(p.externalReference.value);
      var (resp, users') := PaymentBranch(dataId, env, w, users);
      && resp == Response(OK, Updated(u))
      && (u in users ==> users'[u].isPro && users'[u].subscriptionPlan == Some(plan))
      && (forall k :: k in users && k != u ==> users'[k] == users[k])
  {
  }

  /** Replaying a notification against the table it produced answers the same
      and leaves the table as the first delivery left it, up to the timestamp
      columns the table does not keep. */
  lemma ReplayIsIdempotent(req: Request, env: Env, hmac: (string, string) -> string,
                           w: World, users: Table)
    ensures var (resp1, users1) := Respond(req, env, hmac, w, users);
      Respond(req, env, hmac, w, users1) == (resp1, users1)
  {
    var (resp1, users1) := Respond(req, env, hmac, w, users);
    if req.verb == "POST" && SignatureValid(env.secret, req.xSignature, req.xRequestId, ManifestDataId(req), hmac)
       && req.body.Some?
    {
      var n := req.body.value;
      if n.kind == Some("subscription_preapproval") && Truthy(n.dataId) && w.subscription.Fetched? {
        var s := w.subscription.value;
        var f := ApplyPreapproval(s);
        forall r: Row ensures f(f(r)) == f(r) {}
        if Truthy(s.externalReference) {
          UpdateIdempotent(users, s.externalReference.value, f);
        }
      } else if n.kind == Some("payment") && Truthy(n.dataId) && w.payment.Fetched? {
        var p := w.payment.value;
        if Truthy(p.externalReference) {
          var (u, plan) := SplitReference(p.externalReference.value);
          var f := ApplyPayment(plan, p.transactionAmount);
          forall r: Row ensures f(f(r)) == f(r) {}
          UpdateIdempotent(users, u, f);
        }
      }
    }
  }

  /** A signed payment notification that the processor reports approved with
      the reference `<user>|<plan>` makes that user pro on that plan. */
  lemma ApprovedReferenceScenario(req: Request, env: Env, hmac: (string, string) -> string,
                                  userId: UserId, planId: string, amount: Option<int>, users: Table)
    requires req.verb == "POST"
    requires SignatureValid(env.secret, req.xSignature, req.xRequestId, ManifestDataId(req), hmac)
    requires req.body.Some? && req.body.value.kind == Some("payment") && Truthy(req.body.value.dataId)
    requires Truthy(env.accessToken) && Truthy(env.serviceKey) && Truthy(Or(env.viteSupabaseUrl, env.supabaseUrl))
    requires userId != "" && '|' !in userId && '|' !in planId && userId in users
    ensures var w := World(NotOk, Fetched(Payment(Some("approved"), Some(userId + "|" + planId), amount)), true);
      var (resp, users') := Respond(req, env, hmac, w, users);
      && resp == Response(OK, Updated(userId))
      && users'[userId].isPro && users'[userId].subscriptionPlan == Some(planId)
  {
    SplitReferenceRoundTrip(userId, planId);
  }
}
