/** The cancellation endpoint (api/cancel-subscription.ts): configuration and
    request checks, a read of the user's row, an optional cancel request to the
    processor, and one update of the row. The store and the processor are a
    class whose `users` table the handler changes in place and whose
    `cancelRequests` log records the subscriptions the processor was asked to
    cancel. */
module CancelSubscription {
  import opened Js
  import opened Http
  import opened Store

  datatype Request = Request(verb: string, body: Option<Option<string>>)

  datatype Env = Env(viteSupabaseUrl: Option<string>, supabaseUrl: Option<string>,
                     serviceKey: Option<string>, accessToken: Option<string>)

  /** How the processor's answer to the cancel request came back: its JSON
      could not be read (thrown), or it was read and the status was ok or not. */
  datatype PutReply = PutThrew | PutAnswered(ok: bool)

  /** The answers of the outside world: whether the `.single()` read went
      through, the processor's answer, and whether the update went through. */
  datatype World = World(lookupOk: bool, put: PutReply, updateOk: bool)

  datatype Body = Empty | Error(message: string) | Failed(error: string) | Cancelled(message: string)

  const CANCEL_ERROR: string := "Error al cancelar la suscripción"
  const CANCELLED_MESSAGE: string := "Suscripción cancelada exitosamente"

  /** The row change: no longer pro, status `cancelled`; the end date is not
      written. */
  function MarkCancelled(r: Row): (r': Row)
    ensures !r'.isPro && r'.subscriptionStatus == Some("cancelled")
    ensures r'.subscriptionEndDate == r.subscriptionEndDate && r'.subscriptionId == r.subscriptionId
    ensures r'.totalGenerations == r.totalGenerations && r'.email == r.email
  {
    r.(isPro := false, subscriptionStatus := Some("cancelled"))
  }

  /** What one call leads to: the response, the new table and the subscription
      ids the processor is asked to cancel. */
  datatype Outcome = Outcome(resp: Response<Body>, users: Table, cancelRequests: seq<string>)

  /** The handler as a function of the request, the configuration, the outside
      world's answers and the table. */
  function Cancel(req: Request, env: Env, w: World, users: Table): Outcome
  {
    if req.verb == "OPTIONS" then Outcome(Response(OK, Empty), users, [])
    else if req.verb != "POST" then Outcome(Response(METHOD_NOT_ALLOWED, Error("Method not allowed")), users, [])
    else if !Truthy(Or(env.viteSupabaseUrl, env.supabaseUrl)) || !Truthy(env.serviceKey) then
      Outcome(Response(SERVER_ERROR, Error("Server configuration error")), users, [])
    else if !Truthy(env.accessToken) then
      Outcome(Response(SERVER_ERROR, Error("Payment system not configured")), users, [])
    else match req.body
      case None => Outcome(Response(SERVER_ERROR, Failed(CANCEL_ERROR)), users, [])
      case Some(userId) =>
        if !Truthy(userId) then Outcome(Response(BAD_REQUEST, Error("User ID is required")), users, [])
        else if !w.lookupOk || userId.value !in users then
          Outcome(Response(NOT_FOUND, Error("User not found")), users, [])
        else
          var u := userId.value;
          var sid := users[u].subscriptionId;
          var requests := if Truthy(sid) then [sid.value] else [];
          if Truthy(sid) && w.put.PutThrew? then
            Outcome(Response(SERVER_ERROR, Failed(CANCEL_ERROR)), users, requests)
          else if !w.updateOk then
            Outcome(Response(SERVER_ERROR, Error("Failed to update user status")), users, requests)
          else Outcome(Response(OK, Cancelled(CANCELLED_MESSAGE)), Update(users, u, MarkCancelled), requests)
  }

  /** The store and the processor as the handler sees them. */
  class Backend {
    var users: Table
    var cancelRequests: seq<string>

    constructor(users0: Table)
      ensures users == users0 && cancelRequests == []
    {
      users := users0;
      cancelRequests := [];
    }

    /** `handler`: the checks in the source's order, then the read, the
        optional cancel request and the update. */
    method HandleCancel(req: Request, env: Env, w: World) returns (resp: Response<Body>)
      modifies this
      ensures var o := Cancel(req, env, w, old(users));
        resp == o.resp && users == o.users && cancelRequests == old(cancelRequests) + o.cancelRequests
    {
      if req.verb == "OPTIONS" {
        return Response(OK, Empty);
      }
      if req.verb != "POST" {
        return Response(METHOD_NOT_ALLOWED, Error("Method not allowed"));
      }
      var supabaseUrl := Or(env.viteSupabaseUrl, env.supabaseUrl);
      if !Truthy(supabaseUrl) || !Truthy(env.serviceKey) {
        return Response(SERVER_ERROR, Error("Server configuration error"));
      }
      if !Truthy(env.accessToken) {
        return Response(SERVER_ERROR, Error("Payment system not configured"));
      }
      if req.body.None? {
        return Response(SERVER_ERROR, Failed(CANCEL_ERROR));
      }
      var userId := req.body.value;
      if !Truthy(userId) {
        return Response(BAD_REQUEST, Error("User ID is required"));
      }
      var u := userId.value;
      if !w.lookupOk || u !in users {
        return Response(NOT_FOUND, Error("User not found"));
      }
      var subscriptionId := users[u].subscriptionId;
      if Truthy(subscriptionId) {
        cancelRequests := cancelRequests + [subscriptionId.value];
        if w.put.PutThrew? {
          return Response(SERVER_ERROR, Failed(CANCEL_ERROR));
        }
      }
      if !w.updateOk {
        return Response(SERVER_ERROR, Error("Failed to update user status"));
      }
      users := Update(users, u, MarkCancelled);
      resp := Response(OK, Cancelled(CANCELLED_MESSAGE));
    }
  }

  /** OPTIONS is 200 and other non-POST 405; the store and token checks come
      before the body is read, so a misconfigured server answers 500 even when
      the user id is missing. None of these writes or calls the processor. */
  lemma ConfigurationBeforeBody(req: Request, env: Env, w: World, users: Table)
    ensures req.verb == "OPTIONS" ==> Cancel(req, env, w, users) == Outcome(Response(OK, Empty), users, [])
    ensures req.verb != "OPTIONS" && req.verb != "POST" ==>
      Cancel(req, env, w, users).resp.status == METHOD_NOT_ALLOWED
    ensures (req.verb == "POST" && (!Truthy(Or(env.viteSupabaseUrl, env.supabaseUrl)) || !Truthy(env.serviceKey)
                                   || !Truthy(env.accessToken))) ==>
      Cancel(req, env, w, users).resp.status == SERVER_ERROR && Cancel(req, env, w, users).users == users
      && Cancel(req, env, w, users).cancelRequests == []
  {
  }

  /** A configured server answers a missing user id 400 and an unknown or
      unreadable user 404, with no write and no processor call. */
  lemma MissingUser(req: Request, env: Env, w: World, users: Table)
    requires req.verb == "POST" && Truthy(Or(env.viteSupabaseUrl, env.supabaseUrl)) && Truthy(env.serviceKey)
    requires Truthy(env.accessToken) && req.body.Some?
    ensures !Truthy(req.body.value) ==>
      Cancel(req, env, w, users) == Outcome(Response(BAD_REQUEST, Error("User ID is required")), users, [])
    ensures Truthy(req.body.value) && (!w.lookupOk || req.body.value.value !in users) ==>
      Cancel(req, env, w, users) == Outcome(Response(NOT_FOUND, Error("User not found")), users, [])
  {
  }

  /** For a user that is found: the processor is asked to cancel exactly the
      row's subscription id, if it has one; an unsuccessful answer does not stop
      the flow; with the update going through the row ends not pro and
      `cancelled`, with its end date as it was, and no other row changes; a
      failed update is 500 "Failed to update user status" and a cancel request
      whose answer cannot be read is the catch's 500, neither writing. */
  lemma CancelledRow(req: Request, env: Env, w: World, users: Table)
    requires req.verb == "POST" && Truthy(Or(env.viteSupabaseUrl, env.supabaseUrl)) && Truthy(env.serviceKey)
    requires Truthy(env.accessToken) && req.body.Some? && Truthy(req.body.value)
    requires w.lookupOk && req.body.value.value in users
    ensures var u := req.body.value.value;
      var o := Cancel(req, env, w, users);
      var sid := users[u].subscriptionId;
      && (o.cancelRequests == if Truthy(sid) then [sid.value] else [])
      && ((w.updateOk && (!Truthy(sid) || w.put.PutAnswered?)) ==>
            && o.resp == Response(OK, Cancelled(CANCELLED_MESSAGE))
            && !o.users[u].isPro && o.users[u].subscriptionStatus == Some("cancelled")
            && o.users[u].subscriptionEndDate == users[u].subscriptionEndDate
            && (forall k :: k in users && k != u ==> o.users[k] == users[k]))
      && ((!w.updateOk && (!Truthy(sid) || w.put.PutAnswered?)) ==>
            o.resp == Response(SERVER_ERROR, Error("Failed to update user status")) && o.users == users)
      && ((Truthy(sid) && w.put.PutThrew?) ==>
            o.resp == Response(SERVER_ERROR, Failed(CANCEL_ERROR)) && o.users == users)
      && (o.resp.status != OK ==> o.users == users)
  {
  }

  /** Cancelling twice leaves the table as one cancellation does, up to the
      `updated_at` column the table does not keep. */
  lemma CancelIsIdempotent(req: Request, env: Env, w: World, users: Table)
    ensures var o1 := Cancel(req, env, w, users);
      var o2 := Cancel(req, env, w, o1.users);
      o2.users == o1.users && o2.resp == o1.resp
  {
    var o1 := Cancel(req, env, w, users);
    if req.verb == "POST" && req.body.Some? && Truthy(req.body.value) && req.body.value.value in users {
      var u := req.body.value.value;
      assert o1.users.Keys == users.Keys;
      assert u in o1.users && o1.users[u].subscriptionId == users[u].subscriptionId;
      forall r: Row ensures MarkCancelled(MarkCancelled(r)) == MarkCancelled(r) {}
      UpdateIdempotent(users, u, MarkCancelled);
    }
  }
}
