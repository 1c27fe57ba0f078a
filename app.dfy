/** The client's entitlement state machine (App.tsx): the free-tier gate, the
    generation counter, the lazy subscription-expiry check, the reconciliation
    with the `users` table when the session changes, the actions waiting for a
    login, the logout wipe and the saved-lesson list.

    The component is a class whose fields are the component's state, the
    browser's `localStorage` (a typed map), the remote `users` table and the
    current session. Each handler is a method that updates the fields in the
    source's order; its postcondition ties the new state to a pure transition
    on a `State` snapshot, and the properties are lemmas about those
    transitions. The answers of the outside world (the generation endpoints,
    the store's answers, the clock) are parameters. */
module App {
  import opened Js
  import opened Text
  import opened Http
  import opened Store
  import GenerateLesson
  import CancelSubscription
  import RegisterUser

  const FREE_WITHOUT_EMAIL_LIMIT: int := 1
  const FREE_WITH_EMAIL_LIMIT: int := 10
  const MAX_FREE_FAVORITES: int := 3

  /** The four `localStorage` keys the component uses. */
  datatype Key = EmailKey | ProStatusKey | GenerationsKey | FavoritesKey

  /** The key's name in the browser's storage. */
  function KeyName(k: Key): string
  {
    match k
    case EmailKey => "manana_user_email"
    case ProStatusKey => "manana_pro_status"
    case GenerationsKey => "manana_total_generations"
    case FavoritesKey => "manana_favorites"
  }

  const EMPTY_TOPIC: string := "Por favor ingresa un tema."
  const LIMIT_REACHED: string := "Has llegado al límite de 10 planeaciones gratuitas."
  const UNEXPECTED: string := "Ocurrió un error inesperado."
  const GENERATION_FAILED: string := "Error de generación"
  const AI_UNREACHABLE: string := "Error al conectar con la IA de planeación."
  const PLAN_B_FAILED: string := "No se pudo generar el Plan B."
  const SAVED: string := "¡Clase guardada en tu biblioteca!"
  const WELCOME: string := "¡Bienvenido a MAÑANA PRO! 👑"
  const CANCELLED_REMOTE: string :=
    "Suscripción cancelada exitosamente. Mercado Pago dejará de cobrar automáticamente."
  const CANCELLED_LOCAL: string := "Suscripción cancelada."
  const CONNECTION_ERROR: string := "Error de conexión. Intenta de nuevo."

  datatype View = Landing | Generator | ProPanel

  /** The signed-in user as the auth service reports it. */
  datatype Session = Session(id: UserId, email: Option<string>)

  /** A saved lesson: its id, the parameters that name it, and the text. */
  datatype SavedLesson = SavedLesson(id: string, topic: string, grade: string, content: string, createdAt: int)

  /** What a `localStorage` key holds once parsed. */
  datatype LocalValue = Num(n: int) | Str(s: string) | Lessons(lessons: seq<SavedLesson>)

  /** Who is using the app and what they are entitled to, with the session the
      auth service holds. */
  datatype Account = Account(userId: Option<UserId>, userEmail: Option<string>, isPro: bool,
                             totalGenerations: int, session: Option<Session>)

  /** What is on screen: the view, the four dialogs, and the two actions
      waiting for a login. */
  datatype Screen = Screen(view: View, paymentOpen: bool, cancelOpen: bool, authOpen: bool,
                           resetPasswordOpen: bool, pendingGeneration: bool, pendingUpgrade: bool)

  /** The lesson form and what the generators produced. */
  datatype Work = Work(params: GenerateLesson.LessonParams, result: Option<string>, planBResult: Option<string>,
                       isLoading: bool, isPlanBLoading: bool, error: Option<string>)

  /** The component's state, the browser's storage, the remote `users` table
      and the alerts shown, as one value. */
  datatype State = State(account: Account, screen: Screen, work: Work, favorites: seq<SavedLesson>,
                         local: map<Key, LocalValue>, remote: Table, alerts: seq<string>)

  /** The row change `update({ is_pro: pro })`. */
  function SetPro(pro: bool): Row -> Row
  {
    (r: Row) => r.(isPro := pro)
  }

  /** The row change `update({ total_generations: n })`. */
  function SetGenerations(n: int): Row -> Row
  {
    (r: Row) => r.(totalGenerations := n)
  }

  // ---------------------------------------------------------------------------
  // the free-tier gate

  datatype Gate = RequireAuth | RequireUpgrade | Allow

  /** The two checks `handleGenerate` and `handleGeneratePlanB` make, in order. */
  function GateFor(isPro: bool, totalGenerations: int, userEmail: Option<string>): (g: Gate)
    ensures g == RequireAuth <==> !isPro && totalGenerations >= FREE_WITHOUT_EMAIL_LIMIT && !Truthy(userEmail)
    ensures g == Allow <==>
      isPro || totalGenerations < FREE_WITHOUT_EMAIL_LIMIT || (Truthy(userEmail) && totalGenerations < FREE_WITH_EMAIL_LIMIT)
  {
    if !isPro && totalGenerations >= FREE_WITHOUT_EMAIL_LIMIT && !Truthy(userEmail) then RequireAuth
    else if !isPro && totalGenerations >= FREE_WITH_EMAIL_LIMIT then RequireUpgrade
    else Allow
  }

  /** The gate for the account as it stands. */
  function GateOf(s: State): Gate
  {
    GateFor(s.account.isPro, s.account.totalGenerations, s.account.userEmail)
  }

  /** A pro user always passes; since the first limit is below the second, the
      upgrade branch is only reached by a user who has an e-mail. */
  lemma GateFacts(isPro: bool, totalGenerations: int, userEmail: Option<string>)
    ensures isPro ==> GateFor(isPro, totalGenerations, userEmail) == Allow
    ensures GateFor(isPro, totalGenerations, userEmail) == RequireUpgrade ==>
      !isPro && Truthy(userEmail) && totalGenerations >= FREE_WITH_EMAIL_LIMIT
  {
  }

  /** The free quota: one generation without an e-mail, ten with one. */
  lemma FreeQuota(n: int, email: string)
    requires n >= 0 && email != ""
    ensures GateFor(false, n, None) == Allow <==> n < 1
    ensures GateFor(false, n, Some(email)) == Allow <==> n < 10
  {
  }

  /** `handleUpgradeClick`: without an e-mail, remember the upgrade and ask
      for a login; with one, open the payment dialog. */
  function UpgradeClick(s: State): State
  {
    if !Truthy(s.account.userEmail) then s.(screen := s.screen.(pendingUpgrade := true, authOpen := true))
    else s.(screen := s.screen.(paymentOpen := true))
  }

  /** What a blocked attempt does: remember it and ask for a login, or show
      the limit error and go through the upgrade click. */
  function Block(s: State, g: Gate): State
    requires g != Allow
  {
    if g == RequireAuth then s.(screen := s.screen.(pendingGeneration := true, authOpen := true))
    else UpgradeClick(s.(work := s.work.(error := Some(LIMIT_REACHED))))
  }

  // ---------------------------------------------------------------------------
  // generation

  /** What `generateLessonContent` resolves with or rejects with. */
  datatype ClientReply = Delivered(content: Option<string>) | Refused(message: string)

  /** The lesson endpoint's answer, or a request that never got one. */
  datatype LessonCall = Reached(resp: Response<GenerateLesson.Body>) | Unreachable(message: Option<string>)

  /** `generateLessonContent`: a 2xx answer resolves with its `content`; any
      other answer rejects with its `error` or a default; a failed request
      rejects with its own message or a default. The rejection always carries
      a message. */
  function LessonReply(call: LessonCall): (r: ClientReply)
    ensures r.Refused? ==> r.message != ""
    ensures r.Delivered? <==> call.Reached? && 200 <= call.resp.status < 300
    ensures call.Reached? && 200 <= call.resp.status < 300 && call.resp.body.Content? ==>
      r == Delivered(Some(call.resp.body.text))
    ensures call.Reached? && !(200 <= call.resp.status < 300) && call.resp.body.Error? ==>
      r == Refused(OrElse(Some(call.resp.body.message), GENERATION_FAILED))
  {
    match call
    case Unreachable(m) => Refused(OrElse(m, AI_UNREACHABLE))
    case Reached(resp) =>
      if 200 <= resp.status < 300 then
        Delivered(if resp.body.Content? then Some(resp.body.text) else None)
      else Refused(OrElse(if resp.body.Error? then Some(resp.body.message) else None, GENERATION_FAILED))
  }

  /** The `try` block once the lesson arrived: the text is shown and the
      counter goes up by one, mirrored into `localStorage` and, for a signed-in
      user whose update goes through, into the user's row. */
  function Succeeded(s: State, content: Option<string>, remoteOk: bool): State
  {
    var n := s.account.totalGenerations + 1;
    s.(account := s.account.(totalGenerations := n),
       work := s.work.(result := content),
       local := s.local[GenerationsKey := Num(n)],
       remote := if s.account.session.Some? && remoteOk
                 then Update(s.remote, s.account.session.value.id, SetGenerations(n))
                 else s.remote)
  }

  /** `executeGeneration`: a blank topic only sets an error; otherwise the
      previous results are cleared, the lesson is asked for, and either the
      success is recorded or the rejection's message shown. */
  function Execute(s: State, call: LessonCall, remoteOk: bool): State
  {
    if Trim(s.work.params.topic) == "" then s.(work := s.work.(error := Some(EMPTY_TOPIC)))
    else
      var s1 := s.(work := s.work.(isLoading := true, error := None, result := None, planBResult := None));
      var s2 := match LessonReply(call)
        case Delivered(content) => Succeeded(s1, content, remoteOk)
        case Refused(m) => s1.(work := s1.work.(error := Some(OrElse(Some(m), UNEXPECTED))));
      s2.(work := s2.work.(isLoading := false))
  }

  /** `handleGenerate`. */
  function Generate(s: State, call: LessonCall, remoteOk: bool): State
  {
    var g := GateOf(s);
    if g == Allow then Execute(s, call, remoteOk) else Block(s, g)
  }

  /** The counter only moves on a generation that passed the gate, had a topic
      and succeeded, and then by exactly one, with `localStorage` holding the
      same value; a blocked, blank or failed attempt leaves the counter, the
      storage and the table as they were. */
  lemma CounterCountsSuccesses(s: State, call: LessonCall, remoteOk: bool)
    ensures var s' := Generate(s, call, remoteOk);
      var counted := GateOf(s) == Allow && Trim(s.work.params.topic) != "" && LessonReply(call).Delivered?;
      && (counted ==> s'.account.totalGenerations == s.account.totalGenerations + 1
                      && GenerationsKey in s'.local && s'.local[GenerationsKey] == Num(s'.account.totalGenerations))
      && (!counted ==> s'.account.totalGenerations == s.account.totalGenerations
                       && s'.local == s.local && s'.remote == s.remote)
  {
    if GateOf(s) != Allow {
      var b := Block(s, GateOf(s));
      assert b.account == s.account && b.local == s.local && b.remote == s.remote;
    } else if Trim(s.work.params.topic) != "" {
      ExecuteCounts(s, call, remoteOk);
    }
  }

  /** The counting part of `executeGeneration` once the topic is not blank. */
  lemma ExecuteCounts(s: State, call: LessonCall, remoteOk: bool)
    requires Trim(s.work.params.topic) != ""
    ensures var s' := Execute(s, call, remoteOk);
      && (LessonReply(call).Delivered? ==>
            && s'.account.totalGenerations == s.account.totalGenerations + 1
            && GenerationsKey in s'.local && s'.local[GenerationsKey] == Num(s'.account.totalGenerations))
      && (LessonReply(call).Refused? ==>
            && s'.account.totalGenerations == s.account.totalGenerations
            && s'.local == s.local && s'.remote == s.remote)
  {
    var s1 := s.(work := s.work.(isLoading := true, error := None, result := None, planBResult := None));
    match LessonReply(call) {
      case Delivered(content) =>
        var s2 := Succeeded(s1, content, remoteOk);
        assert Execute(s, call, remoteOk) == s2.(work := s2.work.(isLoading := false));
      case Refused(m) =>
        var s2 := s1.(work := s1.work.(error := Some(OrElse(Some(m), UNEXPECTED))));
        assert Execute(s, call, remoteOk) == s2.(work := s2.work.(isLoading := false));
    }
  }

  /** A user without an e-mail who has used the free generation is sent to log
      in, with the generation remembered and nothing generated. */
  lemma AnonymousLimitAsksForLogin(s: State, call: LessonCall, remoteOk: bool)
    requires !s.account.isPro && s.account.totalGenerations >= FREE_WITHOUT_EMAIL_LIMIT
    requires !Truthy(s.account.userEmail)
    ensures Generate(s, call, remoteOk) == s.(screen := s.screen.(pendingGeneration := true, authOpen := true))
  {
  }

  /** A user at the ten-generation limit sees the limit error and the payment
      dialog, never the login dialog. */
  lemma SignedInLimitOffersPayment(s: State, call: LessonCall, remoteOk: bool)
    requires !s.account.isPro && s.account.totalGenerations >= FREE_WITH_EMAIL_LIMIT
    requires Truthy(s.account.userEmail)
    ensures Generate(s, call, remoteOk) ==
      s.(work := s.work.(error := Some(LIMIT_REACHED)), screen := s.screen.(paymentOpen := true))
  {
  }

  /** A lesson the safety filter blocked reaches the user as the filter's
      message, and the counter does not move. */
  lemma BlockedLessonIsNotCounted(s: State, before: string, after: string, remoteOk: bool)
    requires GateOf(s) == Allow && Trim(s.work.params.topic) != ""
    ensures var resp := GenerateLesson.Handle("POST",
              GenerateLesson.Answered(Some(before + GenerateLesson.SAFETY_SENTINEL + after)));
      var s' := Generate(s, Reached(resp), remoteOk);
      s'.work.error == Some(GenerateLesson.SAFETY_ERROR)
      && s'.account.totalGenerations == s.account.totalGenerations
  {
    GenerateLesson.SentinelAnywhereBlocks(before, after);
  }

  /** `handleGeneratePlanB`: nothing while a plan B is loading; the same gate;
      then the plan B text, or an alert. */
  function GeneratePlanB(s: State, reply: ClientReply): State
  {
    var g := GateOf(s);
    if s.work.isPlanBLoading then s
    else if g != Allow then Block(s, g)
    else match reply
      case Delivered(content) => s.(work := s.work.(planBResult := content, isPlanBLoading := false))
      case Refused(m) =>
        s.(work := s.work.(isPlanBLoading := false), alerts := s.alerts + [OrElse(Some(m), PLAN_B_FAILED)])
  }

  /** Plan B never moves the counter, does nothing while loading, and blocks
      exactly as a lesson generation does. */
  lemma PlanBDoesNotCount(s: State, reply: ClientReply, call: LessonCall, remoteOk: bool)
    ensures GeneratePlanB(s, reply).account == s.account
    ensures GeneratePlanB(s, reply).local == s.local && GeneratePlanB(s, reply).remote == s.remote
    ensures s.work.isPlanBLoading ==> GeneratePlanB(s, reply) == s
    ensures !s.work.isPlanBLoading && GateOf(s) != Allow ==> GeneratePlanB(s, reply) == Generate(s, call, remoteOk)
  {
  }

  // ---------------------------------------------------------------------------
  // session

  /** `parseInt(localStorage.getItem('manana_total_generations') || '0', 10)`. */
  function LocalGens(local: map<Key, LocalValue>): (n: int)
    ensures GenerationsKey !in local ==> n == 0
    ensures GenerationsKey in local && local[GenerationsKey].Num? ==> n == local[GenerationsKey].n
  {
    if GenerationsKey in local && local[GenerationsKey].Num? then local[GenerationsKey].n else 0
  }

  /** A cancelled subscription whose end date has passed. */
  predicate Expired(row: Row, now: int)
  {
    row.subscriptionStatus == Some("cancelled") && row.subscriptionEndDate.Some?
    && now > row.subscriptionEndDate.value
  }

  /** The `is_pro` the client trusts: the row's, except false once a cancelled
      subscription has run out. */
  function EffectiveIsPro(row: Row, now: int): (pro: bool)
    ensures Expired(row, now) ==> !pro
    ensures !Expired(row, now) ==> pro == row.isPro
  {
    if Expired(row, now) then false else row.isPro
  }

  /** The expiry write: `is_pro = false` on the user's row when it has run
      out. The update's error is ignored, so when it fails (`writeOk` false)
      the row stays as it was. */
  function ExpiryWrite(remote: Table, id: UserId, now: int, writeOk: bool): (t: Table)
    requires id in remote
    ensures t.Keys == remote.Keys
    ensures forall k :: k in remote && k != id ==> t[k] == remote[k]
    ensures Expired(remote[id], now) && writeOk ==> t[id] == remote[id].(isPro := false)
    ensures !(Expired(remote[id], now) && writeOk) ==> t == remote
  {
    if Expired(remote[id], now) && writeOk then Update(remote, id, SetPro(false)) else remote
  }

  /** The update is sent for every expired row, but the table only changes for
      an expired row that is still pro and only when the update goes through;
      a row whose end date is unset, as the cancellation endpoint leaves it,
      is trusted verbatim and never written. */
  lemma ExpiryOnlyWhenRunOut(remote: Table, id: UserId, now: int, writeOk: bool)
    requires id in remote
    ensures ExpiryWrite(remote, id, now, writeOk) != remote ==> Expired(remote[id], now) && remote[id].isPro && writeOk
    ensures Expired(remote[id], now) && remote[id].isPro && writeOk ==> ExpiryWrite(remote, id, now, writeOk) != remote
    ensures remote[id].subscriptionEndDate.None? ==>
      EffectiveIsPro(remote[id], now) == remote[id].isPro && ExpiryWrite(remote, id, now, writeOk) == remote
  {
    if Expired(remote[id], now) && remote[id].isPro && writeOk {
      assert ExpiryWrite(remote, id, now, writeOk)[id].isPro != remote[id].isPro;
    }
  }

  /** `setFavorites(lessons)` when the lesson query returned data. */
  function WithLessons(s: State, lessons: Option<seq<SavedLesson>>): State
  {
    if lessons.Some? then s.(favorites := lessons.value) else s
  }

  /** The anonymous branch of `loadData`: each key that holds a usable value
      replaces the state it stands for. */
  function FromLocal(s: State): State
  {
    var l := s.local;
    var a := s.account;
    var a1 := if EmailKey in l && l[EmailKey].Str? && l[EmailKey].s != "" then a.(userEmail := Some(l[EmailKey].s)) else a;
    var a2 := if ProStatusKey in l && l[ProStatusKey] == Str("true") then a1.(isPro := true) else a1;
    var a3 := if GenerationsKey in l && l[GenerationsKey].Num? then a2.(totalGenerations := l[GenerationsKey].n) else a2;
    s.(account := a3,
       favorites := if FavoritesKey in l && l[FavoritesKey].Lessons? then l[FavoritesKey].lessons else s.favorites)
  }

  /** The signed-in branch of `loadData`: the session's user, the lessons, and
      the user's row after the expiry check. The row query's error is not
      looked at: when it fails (`rowOk` false) or finds no row, `userData` is
      null and `isPro` and the counter are left as they were. */
  function FromRemote(s: State, sess: Session, lessons: Option<seq<SavedLesson>>, rowOk: bool, expiryOk: bool,
                      now: int): State
  {
    var s1 := WithLessons(s.(account := s.account.(userId := Some(sess.id), userEmail := sess.email)), lessons);
    if rowOk && sess.id in s1.remote then
      var row := s1.remote[sess.id];
      s1.(remote := ExpiryWrite(s1.remote, sess.id, now, expiryOk),
          account := s1.account.(isPro := EffectiveIsPro(row, now), totalGenerations := row.totalGenerations))
    else s1
  }

  /** `loadData`, the first effect: with a session, the lessons and the user's
      row (after the expiry check); without one, what `localStorage` holds. */
  function Load(s: State, lessons: Option<seq<SavedLesson>>, rowOk: bool, expiryOk: bool, now: int): State
  {
    match s.account.session
    case Some(sess) => FromRemote(s, sess, lessons, rowOk, expiryOk, now)
    case None => FromLocal(s)
  }

  /** The first load trusts the row for a signed-in user and the storage for
      an anonymous one; a row query that fails or finds nothing leaves the
      entitlement as it was, and the expiry write only lands when it goes
      through. */
  lemma LoadSources(s: State, lessons: Option<seq<SavedLesson>>, rowOk: bool, expiryOk: bool, now: int)
    ensures var s' := Load(s, lessons, rowOk, expiryOk, now);
      && (s.account.session.Some? ==>
            s'.account.userId == Some(s.account.session.value.id)
            && s'.account.userEmail == s.account.session.value.email)
      && (s.account.session.Some? && rowOk && s.account.session.value.id in s.remote ==>
            var id := s.account.session.value.id;
            var row := s.remote[id];
            && s'.account.totalGenerations == row.totalGenerations && s'.account.isPro == EffectiveIsPro(row, now)
            && s'.remote == ExpiryWrite(s.remote, id, now, expiryOk))
      && (s.account.session.Some? && (!rowOk || s.account.session.value.id !in s.remote) ==>
            s'.account.isPro == s.account.isPro && s'.account.totalGenerations == s.account.totalGenerations
            && s'.remote == s.remote)
      && (s.account.session.None? ==>
            s'.remote == s.remote
            && s'.account.isPro == (s.account.isPro || (ProStatusKey in s.local && s.local[ProStatusKey] == Str("true")))
            && (GenerationsKey in s.local && s.local[GenerationsKey].Num? ==>
                  s'.account.totalGenerations == LocalGens(s.local)))
  {
  }

  /** What the auth service reports. */
  datatype AuthEvent = PasswordRecovery | UserUpdated | SignedIn | SignedOut | OtherEvent

  /** How the row query raced against its five-second timeout: the query
      answered (the row is then read from the table, and its absence is the
      not-found error), failed with another error, or lost the race. */
  datatype UserQuery = Answered | QueryFailed | TimedOut

  /** The not-found branch's call to the sign-up endpoint, marketing declined. */
  function RegisterFromClient(sess: Session, env: RegisterUser.Env, upsertOk: bool, remote: Table): Table
  {
    var form := RegisterUser.RegisterForm(Some(sess.id), sess.email, Some(RegisterUser.JBool(false)));
    RegisterUser.Respond(RegisterUser.Request("POST", Some(form)), env, upsertOk, remote).1
  }

  /** The signed-in part of the listener, after the identity is set. */
  function Reconcile(s: State, sess: Session, query: UserQuery, lessons: Option<seq<SavedLesson>>,
                     env: RegisterUser.Env, upsertOk: bool, expiryOk: bool, now: int): State
  {
    match query
    case TimedOut => s.(account := s.account.(totalGenerations := LocalGens(s.local)))
    case QueryFailed => WithLessons(s.(account := s.account.(totalGenerations := LocalGens(s.local))), lessons)
    case Answered =>
      if sess.id in s.remote then
        var row := s.remote[sess.id];
        WithLessons(s.(remote := ExpiryWrite(s.remote, sess.id, now, expiryOk),
                       account := s.account.(isPro := EffectiveIsPro(row, now), totalGenerations := row.totalGenerations),
                       local := s.local[GenerationsKey := Num(row.totalGenerations)]), lessons)
      else
        WithLessons(s.(remote := RegisterFromClient(sess, env, upsertOk, s.remote),
                       account := s.account.(isPro := false, totalGenerations := LocalGens(s.local))), lessons)
  }

  /** The `onAuthStateChange` listener. */
  function AuthChange(s: State, event: AuthEvent, session: Option<Session>, query: UserQuery,
                      lessons: Option<seq<SavedLesson>>, env: RegisterUser.Env, upsertOk: bool, expiryOk: bool,
                      now: int): State
  {
    if event == PasswordRecovery then s.(screen := s.screen.(resetPasswordOpen := true))
    else
      var sc1 := if event == UserUpdated then s.screen.(resetPasswordOpen := false) else s.screen;
      var sc2 := if event == SignedIn && session.Some? then sc1.(authOpen := false) else sc1;
      match session
      case None =>
        s.(screen := sc2, favorites := [],
           account := Account(None, None, false, LocalGens(s.local), None))
      case Some(sess) =>
        Reconcile(s.(screen := sc2, account := s.account.(userId := Some(sess.id), userEmail := sess.email,
                                                           session := session)),
                  sess, query, lessons, env, upsertOk, expiryOk, now)
  }

  /** The four outcomes of the reconciliation: a found row is the source of
      truth for the counter (mirrored locally) and for `is_pro` after the
      expiry check; a missing row makes the user free with the local counter;
      another error or a timeout keeps `is_pro` and uses the local counter;
      signing out clears the identity, `is_pro` and the favourites. */
  lemma Reconciliation(s: State, event: AuthEvent, session: Option<Session>, query: UserQuery,
                       lessons: Option<seq<SavedLesson>>, env: RegisterUser.Env, upsertOk: bool, expiryOk: bool,
                       now: int)
    requires event != PasswordRecovery
    ensures var s' := AuthChange(s, event, session, query, lessons, env, upsertOk, expiryOk, now);
      && (session.Some? && query == Answered && session.value.id in s.remote ==>
            var row := s.remote[session.value.id];
            && s'.remote == ExpiryWrite(s.remote, session.value.id, now, expiryOk)
            && s'.account.totalGenerations == row.totalGenerations
            && GenerationsKey in s'.local && s'.local[GenerationsKey] == Num(row.totalGenerations)
            && s'.account.isPro == EffectiveIsPro(row, now))
      && (session.Some? && query == Answered && session.value.id !in s.remote ==>
            !s'.account.isPro && s'.account.totalGenerations == LocalGens(s.local))
      && (session.Some? && query != Answered ==>
            s'.account.isPro == s.account.isPro && s'.account.totalGenerations == LocalGens(s.local)
            && s'.remote == s.remote)
      && (session.Some? ==> s'.account.userId == Some(session.value.id) && s'.account.userEmail == session.value.email)
      && (session.None? ==>
            s'.account.userId.None? && s'.account.userEmail.None? && !s'.account.isPro && s'.favorites == []
            && s'.account.totalGenerations == LocalGens(s.local))
  {
  }

  /** A user signing in with no row gets one through the sign-up endpoint,
      created not pro with no generations, terms accepted and marketing
      declined; the login dialog closes. */
  lemma MissingRowIsRegistered(s: State, sess: Session, lessons: Option<seq<SavedLesson>>,
                               env: RegisterUser.Env, expiryOk: bool, now: int)
    requires sess.id !in s.remote && sess.id != "" && Truthy(sess.email)
    requires Truthy(env.supabaseUrl) && Truthy(env.serviceKey)
    ensures var s' := AuthChange(s, SignedIn, Some(sess), Answered, lessons, env, true, expiryOk, now);
      && sess.id in s'.remote
      && !s'.remote[sess.id].isPro && s'.remote[sess.id].totalGenerations == 0
      && !s'.remote[sess.id].acceptedMarketing && s'.remote[sess.id].acceptedTerms
      && !s'.screen.authOpen
  {
    var form := RegisterUser.RegisterForm(Some(sess.id), sess.email, Some(RegisterUser.JBool(false)));
    RegisterUser.RegisteredRow(RegisterUser.Request("POST", Some(form)), env, s.remote);
  }

  // ---------------------------------------------------------------------------
  // login, logout, payment and cancellation

  /** `handleAuthSuccess`: record the e-mail, close the login dialog, then
      resume the pending upgrade or else the pending generation. */
  function AuthSuccess(s: State, email: string, call: LessonCall, remoteOk: bool): State
  {
    var s1 := s.(account := s.account.(userEmail := Some(email)), local := s.local[EmailKey := Str(email)],
                 screen := s.screen.(authOpen := false));
    if s1.screen.pendingUpgrade then s1.(screen := s1.screen.(pendingUpgrade := false, paymentOpen := true))
    else if s1.screen.pendingGeneration then
      var s2 := Execute(s1, call, remoteOk);
      s2.(screen := s2.screen.(pendingGeneration := false))
    else s1
  }

  /** A pending upgrade wins and opens the payment dialog without generating;
      otherwise a pending generation runs once and is cleared. */
  lemma PendingActionResumes(s: State, email: string, call: LessonCall, remoteOk: bool)
    ensures var s' := AuthSuccess(s, email, call, remoteOk);
      && s'.account.userEmail == Some(email) && !s'.screen.authOpen
      && (s.screen.pendingUpgrade ==>
            && !s'.screen.pendingUpgrade && s'.screen.paymentOpen
            && s'.account.totalGenerations == s.account.totalGenerations
            && s'.screen.pendingGeneration == s.screen.pendingGeneration)
      && (!s.screen.pendingUpgrade && s.screen.pendingGeneration ==>
            && !s'.screen.pendingGeneration
            && s'.account.totalGenerations ==
               (if Trim(s.work.params.topic) != "" && LessonReply(call).Delivered?
                then s.account.totalGenerations + 1 else s.account.totalGenerations))
  {
  }

  /** `handleLogout`: the identity, `is_pro`, the counter and the favourites
      are cleared and the four keys removed, before the sign-out is tried. */
  function Logout(s: State, signedOut: bool): State
  {
    s.(account := Account(None, None, false, 0, if signedOut then None else s.account.session),
       favorites := [], local := s.local - {EmailKey, ProStatusKey, GenerationsKey, FavoritesKey},
       screen := s.screen.(view := Landing))
  }

  /** After a logout no trace of the user is left locally, and a later
      anonymous load finds a zero counter and a free user. */
  lemma LogoutWipes(s: State, signedOut: bool, lessons: Option<seq<SavedLesson>>, rowOk: bool, expiryOk: bool,
                    now: int)
    ensures var s' := Logout(s, signedOut);
      && s'.account.totalGenerations == 0 && !s'.account.isPro && s'.account.userEmail.None? && s'.favorites == []
      && (s'.local.Keys == {} <==> s.local.Keys <= {EmailKey, ProStatusKey, GenerationsKey, FavoritesKey})
    ensures var s' := Logout(s, signedOut);
      EmailKey !in s'.local && ProStatusKey !in s'.local && GenerationsKey !in s'.local && FavoritesKey !in s'.local
      && s'.remote == s.remote
    ensures signedOut ==>
      var r := Load(Logout(s, signedOut), lessons, rowOk, expiryOk, now);
      r.account.totalGenerations == 0 && !r.account.isPro && r.account.userEmail.None? && r.favorites == []
  {
  }

  /** `handlePaymentSuccess`. */
  function PaymentSuccess(s: State, remoteOk: bool): State
  {
    s.(account := s.account.(isPro := true), local := s.local[ProStatusKey := Str("true")],
       remote := if s.account.session.Some? && remoteOk
                 then Update(s.remote, s.account.session.value.id, SetPro(true)) else s.remote,
       screen := s.screen.(paymentOpen := false, view := ProPanel), alerts := s.alerts + [WELCOME])
  }

  /** A payment success makes the client pro, and the user's existing row
      too when the update goes through. */
  lemma PaymentSuccessGrantsPro(s: State, remoteOk: bool)
    ensures var s' := PaymentSuccess(s, remoteOk);
      && s'.account.isPro && s'.local[ProStatusKey] == Str("true") && !s'.screen.paymentOpen
      && s'.remote.Keys == s.remote.Keys
      && (s.account.session.Some? && remoteOk && s.account.session.value.id in s.remote ==>
            s'.remote[s.account.session.value.id].isPro)
  {
  }

  /** `result.error || 'Intenta de nuevo'` for a failed cancellation. */
  function CancelErrorText(body: CancelSubscription.Body): string
  {
    match body
    case Error(m) => OrElse(Some(m), "Intenta de nuevo")
    case Failed(e) => OrElse(Some(e), "Intenta de nuevo")
    case _ => "Intenta de nuevo"
  }

  /** The local effects of a cancellation: free, stored as such, the dialog
      closed, the message shown and the generator on screen. */
  function Freed(s: State, message: string): State
  {
    s.(account := s.account.(isPro := false), local := s.local[ProStatusKey := Str("false")],
       screen := s.screen.(cancelOpen := false, view := Generator), alerts := s.alerts + [message])
  }

  /** `handleFinalCancel`: a signed-in user's cancellation goes through the
      cancellation endpoint and only its success makes the client free; an
      anonymous user is made free locally. */
  function FinalCancel(s: State, reachable: bool, env: CancelSubscription.Env, w: CancelSubscription.World): State
  {
    match s.account.session
    case None => Freed(s, CANCELLED_LOCAL)
    case Some(sess) =>
      if !reachable then s.(alerts := s.alerts + [CONNECTION_ERROR])
      else
        var o := CancelSubscription.Cancel(CancelSubscription.Request("POST", Some(Some(sess.id))), env, w, s.remote);
        if o.resp.body.Cancelled? then Freed(s.(remote := o.users), CANCELLED_REMOTE)
        else s.(remote := o.users, alerts := s.alerts + ["Error al cancelar: " + CancelErrorText(o.resp.body)])
  }

  /** A signed-in user becomes free on the client exactly when the endpoint
      cancelled, and then the row is free and `cancelled` too, with its end
      date untouched; a failed cancellation leaves the client's `is_pro`. */
  lemma CancelIsImmediate(s: State, env: CancelSubscription.Env, w: CancelSubscription.World)
    requires s.account.session.Some?
    ensures var s' := FinalCancel(s, true, env, w);
      var u := s.account.session.value.id;
      var o := CancelSubscription.Cancel(CancelSubscription.Request("POST", Some(Some(u))), env, w, s.remote);
      && (o.resp.body.Cancelled? ==>
            && !s'.account.isPro && s'.local[ProStatusKey] == Str("false")
            && u in s.remote && u in s'.remote && !s'.remote[u].isPro
            && s'.remote[u].subscriptionStatus == Some("cancelled")
            && s'.remote[u].subscriptionEndDate == s.remote[u].subscriptionEndDate)
      && (!o.resp.body.Cancelled? ==> s'.account == s.account && s'.remote == s.remote)
  {
  }

  // ---------------------------------------------------------------------------
  // saved lessons

  /** `favorites.filter(f => f.id !== id)`. */
  function DeleteById(ls: seq<SavedLesson>, id: string): (r: seq<SavedLesson>)
    ensures |r| <= |ls|
    decreases |ls|
  {
    if ls == [] then [] else (if ls[0].id == id then [] else [ls[0]]) + DeleteById(ls[1..], id)
  }

  /** Deleting keeps exactly the entries with another id. */
  lemma {:induction false} DeleteByIdKeeps(ls: seq<SavedLesson>, id: string)
    ensures forall x :: x in DeleteById(ls, id) ==> x in ls && x.id != id
    ensures forall x :: x in ls && x.id != id ==> x in DeleteById(ls, id)
    decreases |ls|
  {
    if ls != [] {
      DeleteByIdKeeps(ls[1..], id);
      DeleteByIdStep(ls, id);
      assert ls == [ls[0]] + ls[1..];
    }
  }

  /** Deleting keeps the order: it works piece by piece on a concatenation. */
  lemma {:induction false} DeleteByIdDistributes(a: seq<SavedLesson>, b: seq<SavedLesson>, id: string)
    ensures DeleteById(a + b, id) == DeleteById(a, id) + DeleteById(b, id)
    decreases |a|
  {
    if a == [] {
      assert a + b == b;
    } else {
      DeleteByIdStep(a + b, id);
      assert (a + b)[0] == a[0] && (a + b)[1..] == a[1..] + b;
      DeleteByIdStep(a, id);
      DeleteByIdDistributes(a[1..], b, id);
    }
  }

  /** One step of the filter: the head is kept or dropped, then the tail. */
  lemma DeleteByIdStep(ls: seq<SavedLesson>, id: string)
    requires ls != []
    ensures DeleteById(ls, id) == (if ls[0].id == id then [] else [ls[0]]) + DeleteById(ls[1..], id)
  {
  }

  /** A list with no entry of that id is left as it is. */
  lemma {:induction false} DeleteAbsentIsIdentity(ls: seq<SavedLesson>, id: string)
    requires forall i :: 0 <= i < |ls| ==> ls[i].id != id
    ensures DeleteById(ls, id) == ls
    decreases |ls|
  {
    if ls != [] {
      DeleteAbsentIsIdentity(ls[1..], id);
      assert [ls[0]] + ls[1..] == ls;
    }
  }

  /** `favorites.map(f => f.id === id ? { ...f, topic: newTitle } : f)`. */
  function RenameById(ls: seq<SavedLesson>, id: string, title: string): (r: seq<SavedLesson>)
    ensures |r| == |ls|
    ensures forall i :: 0 <= i < |ls| ==>
      r[i].id == ls[i].id && r[i].content == ls[i].content && r[i].grade == ls[i].grade
      && r[i].createdAt == ls[i].createdAt
  {
    seq(|ls|, i requires 0 <= i < |ls| => if ls[i].id == id then ls[i].(topic := title) else ls[i])
  }

  /** Renaming changes only the topic of the matching entries: deleting that
      id afterwards gives the same list as deleting it before, and the
      matching entries carry the new topic. */
  lemma {:induction false} RenameTouchesOnlyMatches(ls: seq<SavedLesson>, id: string, title: string)
    ensures DeleteById(RenameById(ls, id, title), id) == DeleteById(ls, id)
    ensures forall i :: 0 <= i < |ls| && ls[i].id == id ==> RenameById(ls, id, title)[i].topic == title
    decreases |ls|
  {
    if ls != [] {
      var r := RenameById(ls, id, title);
      RenameTouchesOnlyMatches(ls[1..], id, title);
      assert r[1..] == RenameById(ls[1..], id, title);
      assert DeleteById(r, id) == (if r[0].id == id then [] else [r[0]]) + DeleteById(r[1..], id);
      if ls[0].id != id {
        assert r[0] == ls[0];
      }
    }
  }

  /** `handleDeleteLesson` on the client's list and its stored copy. */
  function DeleteLesson(s: State, id: string): State
  {
    var updated := DeleteById(s.favorites, id);
    s.(favorites := updated, local := s.local[FavoritesKey := Lessons(updated)])
  }

  /** `handleRenameLesson` on the client's list and its stored copy. */
  function RenameLesson(s: State, id: string, title: string): State
  {
    var updated := RenameById(s.favorites, id, title);
    s.(favorites := updated, local := s.local[FavoritesKey := Lessons(updated)])
  }

  /** The alert shown at the free cap. */
  function CapAlert(count: nat): string
  {
    "Tienes " + DecimalText(count) + " clases guardadas (límite gratis: 3). "
      + "Para guardar más, elimina algunas clases de tu biblioteca o vuelve a PRO."
  }

  /** `handleSave`: the lesson shown is saved at the front of the list, with
      the store's id when a signed-in insert returned one. */
  function Save(s: State, localId: string, now: int, storedId: Option<string>): State
  {
    if !Truthy(s.work.result) then s
    else if !Truthy(s.account.userEmail) && !s.account.isPro then
      s.(screen := s.screen.(pendingGeneration := false, authOpen := true))
    else if !s.account.isPro && |s.favorites| >= MAX_FREE_FAVORITES then
      s.(alerts := s.alerts + [CapAlert(|s.favorites|)])
    else
      var id := if s.account.session.Some? && storedId.Some? then storedId.value else localId;
      var lesson := SavedLesson(id, s.work.params.topic, s.work.params.grade, s.work.result.value, now);
      var updated := [lesson] + s.favorites;
      s.(favorites := updated, local := s.local[FavoritesKey := Lessons(updated)], alerts := s.alerts + [SAVED])
  }

  /** A free user with three or more favourites cannot save; a save that goes
      through adds exactly the shown lesson in front of the others, stored
      locally as well. */
  lemma SaveRules(s: State, localId: string, now: int, storedId: Option<string>)
    ensures !Truthy(s.work.result) ==> Save(s, localId, now, storedId) == s
    ensures Truthy(s.work.result) && !Truthy(s.account.userEmail) && !s.account.isPro ==>
      var s' := Save(s, localId, now, storedId);
      s'.favorites == s.favorites && s'.local == s.local && s'.screen.authOpen && !s'.screen.pendingGeneration
    ensures !s.account.isPro && |s.favorites| >= MAX_FREE_FAVORITES ==>
      Save(s, localId, now, storedId).favorites == s.favorites
    ensures Truthy(s.work.result) && (Truthy(s.account.userEmail) || s.account.isPro)
            && (s.account.isPro || |s.favorites| < MAX_FREE_FAVORITES) ==>
      var s' := Save(s, localId, now, storedId);
      && |s'.favorites| == |s.favorites| + 1 && s'.favorites[1..] == s.favorites
      && s'.favorites[0].content == s.work.result.value && s'.favorites[0].topic == s.work.params.topic
      && s'.favorites[0].id == (if s.account.session.Some? && storedId.Some? then storedId.value else localId)
      && s'.local[FavoritesKey] == Lessons(s'.favorites) && s'.alerts == s.alerts + [SAVED]
    ensures var s' := Save(s, localId, now, storedId);
      s'.favorites != s.favorites ==>
        && Truthy(s.work.result) && (s.account.isPro || |s.favorites| < MAX_FREE_FAVORITES)
        && |s'.favorites| == |s.favorites| + 1 && s'.favorites[1..] == s.favorites
        && s'.favorites[0].content == s.work.result.value
        && s'.local[FavoritesKey] == Lessons(s'.favorites)
  {
    var s' := Save(s, localId, now, storedId);
    if Truthy(s.work.result) && (Truthy(s.account.userEmail) || s.account.isPro)
       && (s.account.isPro || |s.favorites| < MAX_FREE_FAVORITES) {
      assert s'.favorites[1..] == s.favorites;
    }
  }

  // ---------------------------------------------------------------------------
  // the component

  class AppComponent {
    /** `userId`, `userEmail`, `isPro`, `totalGenerations` and the session. */
    var account: Account
    /** `view`, the four dialog flags, `isPendingGeneration`, `isPendingUpgrade`. */
    var screen: Screen
    /** `params`, `result`, `planBResult`, `isLoading`, `isPlanBLoading`, `error`. */
    var work: Work
    var favorites: seq<SavedLesson>
    /** The browser's `localStorage`. */
    var local: map<Key, LocalValue>
    /** The remote `users` table. */
    var remote: Table
    /** The `alert` messages shown, in order. */
    var alerts: seq<string>

    /** All of the above as one value. */
    function Snapshot(): State
      reads this
    {
      State(account, screen, work, favorites, local, remote, alerts)
    }

    /** The first render, on a browser with `local0` stored, a table `remote0`
        and the session `session0`. */
    constructor(local0: map<Key, LocalValue>, remote0: Table, session0: Option<Session>)
      ensures account == Account(None, None, false, 0, session0)
      ensures screen == Screen(Landing, false, false, false, false, false, false)
      ensures work.params.grade == "1° Primaria" && work.params.topic == "" && work.params.narrative == "Random"
      ensures work.result.None? && work.planBResult.None? && !work.isLoading && !work.isPlanBLoading
      ensures work.error.None?
      ensures favorites == [] && local == local0 && remote == remote0 && alerts == []
    {
      account := Account(None, None, false, 0, session0);
      screen := Screen(Landing, false, false, false, false, false, false);
      var params := GenerateLesson.LessonParams("1° Primaria", "", "Divertido", "Mixto", "Random", None,
        Some(GenerateLesson.NemParams(Some("automatico"), Some(""), Some([]), Some("proponer"))));
      work := Work(params, None, None, false, false, None);
      favorites := [];
      local := local0;
      remote := remote0;
      alerts := [];
    }

    method HandleUpgradeClick()
      modifies this
      ensures Snapshot() == UpgradeClick(old(Snapshot()))
    {
      if !Truthy(account.userEmail) {
        screen := screen.(pendingUpgrade := true);
        screen := screen.(authOpen := true);
      } else {
        screen := screen.(paymentOpen := true);
      }
    }

    method ExecuteGeneration(call: LessonCall, remoteOk: bool)
      modifies this
      ensures Snapshot() == Execute(old(Snapshot()), call, remoteOk)
    {
      if Trim(work.params.topic) == "" {
        work := work.(error := Some(EMPTY_TOPIC));
        return;
      }
      work := work.(isLoading := true, error := None, result := None, planBResult := None);
      ghost var started := Snapshot();
      match LessonReply(call) {
        case Delivered(content) =>
          RecordSuccess(content, remoteOk);
          assert Snapshot() == Succeeded(started, content, remoteOk);
        case Refused(m) =>
          work := work.(error := Some(OrElse(Some(m), UNEXPECTED)));
      }
      work := work.(isLoading := false);
    }

    /** The part of `executeGeneration` after the lesson arrived. */
    method RecordSuccess(content: Option<string>, remoteOk: bool)
      modifies this
      ensures Snapshot() == Succeeded(old(Snapshot()), content, remoteOk)
    {
      work := work.(result := content);
      var newTotal := account.totalGenerations + 1;
      account := account.(totalGenerations := newTotal);
      local := local[GenerationsKey := Num(newTotal)];
      if account.session.Some? && remoteOk {
        remote := Update(remote, account.session.value.id, SetGenerations(newTotal));
      }
    }

    method HandleGenerate(call: LessonCall, remoteOk: bool)
      modifies this
      ensures Snapshot() == Generate(old(Snapshot()), call, remoteOk)
    {
      if !account.isPro && account.totalGenerations >= FREE_WITHOUT_EMAIL_LIMIT && !Truthy(account.userEmail) {
        screen := screen.(pendingGeneration := true, authOpen := true);
        return;
      }
      if !account.isPro && account.totalGenerations >= FREE_WITH_EMAIL_LIMIT {
        work := work.(error := Some(LIMIT_REACHED));
        HandleUpgradeClick();
        return;
      }
      ExecuteGeneration(call, remoteOk);
    }

    method HandleGeneratePlanB(reply: ClientReply)
      modifies this
      ensures Snapshot() == GeneratePlanB(old(Snapshot()), reply)
    {
      if work.isPlanBLoading {
        return;
      }
      if !account.isPro && account.totalGenerations >= FREE_WITHOUT_EMAIL_LIMIT && !Truthy(account.userEmail) {
        screen := screen.(pendingGeneration := true, authOpen := true);
        return;
      }
      if !account.isPro && account.totalGenerations >= FREE_WITH_EMAIL_LIMIT {
        work := work.(error := Some(LIMIT_REACHED));
        HandleUpgradeClick();
        return;
      }
      work := work.(isPlanBLoading := true);
      match reply {
        case Delivered(content) =>
          work := work.(planBResult := content);
        case Refused(m) =>
          alerts := alerts + [OrElse(Some(m), PLAN_B_FAILED)];
      }
      work := work.(isPlanBLoading := false);
    }

    method HandleAuthSuccess(email: string, call: LessonCall, remoteOk: bool)
      modifies this
      ensures Snapshot() == AuthSuccess(old(Snapshot()), email, call, remoteOk)
    {
      account := account.(userEmail := Some(email));
      local := local[EmailKey := Str(email)];
      screen := screen.(authOpen := false);
      if screen.pendingUpgrade {
        screen := screen.(pendingUpgrade := false, paymentOpen := true);
      } else if screen.pendingGeneration {
        ExecuteGeneration(call, remoteOk);
        screen := screen.(pendingGeneration := false);
      }
    }

    method HandleLogout(signedOut: bool)
      modifies this
      ensures Snapshot() == Logout(old(Snapshot()), signedOut)
    {
      account := account.(userId := None, userEmail := None, isPro := false, totalGenerations := 0);
      favorites := [];
      local := local - {EmailKey, ProStatusKey, GenerationsKey, FavoritesKey};
      screen := screen.(view := Landing);
      if signedOut {
        account := account.(session := None);
      }
    }

    method LoadData(lessons: Option<seq<SavedLesson>>, rowOk: bool, expiryOk: bool, now: int)
      modifies this
      ensures Snapshot() == Load(old(Snapshot()), lessons, rowOk, expiryOk, now)
    {
      if account.session.Some? {
        LoadFromRemote(account.session.value, lessons, rowOk, expiryOk, now);
      } else {
        LoadFromLocal();
      }
    }

    method LoadFromRemote(sess: Session, lessons: Option<seq<SavedLesson>>, rowOk: bool, expiryOk: bool, now: int)
      modifies this
      ensures Snapshot() == FromRemote(old(Snapshot()), sess, lessons, rowOk, expiryOk, now)
    {
      account := account.(userId := Some(sess.id), userEmail := sess.email);
      if lessons.Some? {
        favorites := lessons.value;
      }
      if rowOk && sess.id in remote {
        var row := remote[sess.id];
        var effective := row.isPro;
        if row.subscriptionStatus == Some("cancelled") && row.subscriptionEndDate.Some? {
          if now > row.subscriptionEndDate.value {
            effective := false;
            if expiryOk {
              remote := Update(remote, sess.id, SetPro(false));
            }
          }
        }
        account := account.(isPro := effective, totalGenerations := row.totalGenerations);
      }
    }

    method LoadFromLocal()
      modifies this
      ensures Snapshot() == FromLocal(old(Snapshot()))
    {
      if FavoritesKey in local && local[FavoritesKey].Lessons? {
        favorites := local[FavoritesKey].lessons;
      }
      if EmailKey in local && local[EmailKey].Str? && local[EmailKey].s != "" {
        account := account.(userEmail := Some(local[EmailKey].s));
      }
      if ProStatusKey in local && local[ProStatusKey] == Str("true") {
        account := account.(isPro := true);
      }
      if GenerationsKey in local && local[GenerationsKey].Num? {
        account := account.(totalGenerations := local[GenerationsKey].n);
      }
    }

    method OnAuthStateChange(event: AuthEvent, newSession: Option<Session>, query: UserQuery,
                             lessons: Option<seq<SavedLesson>>, env: RegisterUser.Env, upsertOk: bool,
                             expiryOk: bool, now: int)
      modifies this
      ensures Snapshot() == AuthChange(old(Snapshot()), event, newSession, query, lessons, env, upsertOk, expiryOk, now)
    {
      if event == PasswordRecovery {
        screen := screen.(resetPasswordOpen := true);
        return;
      }
      if event == UserUpdated {
        screen := screen.(resetPasswordOpen := false);
      }
      if event == SignedIn && newSession.Some? {
        screen := screen.(authOpen := false);
      }
      if newSession.None? {
        account := Account(None, None, false, LocalGens(local), None);
        favorites := [];
        return;
      }
      var sess := newSession.value;
      account := account.(userId := Some(sess.id), userEmail := sess.email, session := newSession);
      ReconcileUser(sess, query, lessons, env, upsertOk, expiryOk, now);
    }

    /** The `try` block of the listener for a signed-in user. */
    method ReconcileUser(sess: Session, query: UserQuery, lessons: Option<seq<SavedLesson>>,
                         env: RegisterUser.Env, upsertOk: bool, expiryOk: bool, now: int)
      modifies this
      ensures Snapshot() == Reconcile(old(Snapshot()), sess, query, lessons, env, upsertOk, expiryOk, now)
    {
      if query == TimedOut {
        account := account.(totalGenerations := LocalGens(local));
        return;
      }
      if query == Answered && sess.id in remote {
        var row := remote[sess.id];
        var effective := EffectiveIsPro(row, now);
        remote := ExpiryWrite(remote, sess.id, now, expiryOk);
        account := account.(isPro := effective, totalGenerations := row.totalGenerations);
        local := local[GenerationsKey := Num(row.totalGenerations)];
      } else if query == Answered {
        var localGens := LocalGens(local);
        remote := RegisterFromClient(sess, env, upsertOk, remote);
        account := account.(isPro := false, totalGenerations := localGens);
      } else {
        account := account.(totalGenerations := LocalGens(local));
      }
      if lessons.Some? {
        favorites := lessons.value;
      }
    }

    method HandleSave(localId: string, now: int, storedId: Option<string>)
      modifies this
      ensures Snapshot() == Save(old(Snapshot()), localId, now, storedId)
    {
      if !Truthy(work.result) {
        return;
      }
      if !Truthy(account.userEmail) && !account.isPro {
        screen := screen.(pendingGeneration := false, authOpen := true);
        return;
      }
      if !account.isPro && |favorites| >= MAX_FREE_FAVORITES {
        alerts := alerts + [CapAlert(|favorites|)];
        return;
      }
      var id := localId;
      if account.session.Some? && storedId.Some? {
        id := storedId.value;
      }
      var lesson := SavedLesson(id, work.params.topic, work.params.grade, work.result.value, now);
      var updated := [lesson] + favorites;
      favorites := updated;
      local := local[FavoritesKey := Lessons(updated)];
      alerts := alerts + [SAVED];
    }

    method HandleDeleteLesson(id: string)
      modifies this
      ensures Snapshot() == DeleteLesson(old(Snapshot()), id)
    {
      var updated := DeleteById(favorites, id);
      favorites := updated;
      local := local[FavoritesKey := Lessons(updated)];
    }

    method HandleRenameLesson(id: string, title: string)
      modifies this
      ensures Snapshot() == RenameLesson(old(Snapshot()), id, title)
    {
      var updated := RenameById(favorites, id, title);
      favorites := updated;
      local := local[FavoritesKey := Lessons(updated)];
    }

    method HandlePaymentSuccess(remoteOk: bool)
      modifies this
      ensures Snapshot() == PaymentSuccess(old(Snapshot()), remoteOk)
    {
      account := account.(isPro := true);
      local := local[ProStatusKey := Str("true")];
      if account.session.Some? && remoteOk {
        remote := Update(remote, account.session.value.id, SetPro(true));
      }
      screen := screen.(paymentOpen := false, view := ProPanel);
      alerts := alerts + [WELCOME];
    }

    /** The local effects shared by both cancellation paths. */
    method Free(message: string)
      modifies this
      ensures Snapshot() == Freed(old(Snapshot()), message)
    {
      account := account.(isPro := false);
      local := local[ProStatusKey := Str("false")];
      screen := screen.(cancelOpen := false);
      alerts := alerts + [message];
      screen := screen.(view := Generator);
    }

    method HandleFinalCancel(reachable: bool, env: CancelSubscription.Env, w: CancelSubscription.World)
      modifies this
      ensures Snapshot() == FinalCancel(old(Snapshot()), reachable, env, w)
    {
      if account.session.None? {
        Free(CANCELLED_LOCAL);
        return;
      }
      if !reachable {
        alerts := alerts + [CONNECTION_ERROR];
        return;
      }
      var request := CancelSubscription.Request("POST", Some(Some(account.session.value.id)));
      var o := CancelSubscription.Cancel(request, env, w, remote);
      remote := o.users;
      if o.resp.body.Cancelled? {
        Free(CANCELLED_REMOTE);
      } else {
        alerts := alerts + ["Error al cancelar: " + CancelErrorText(o.resp.body)];
      }
    }
  }
}
