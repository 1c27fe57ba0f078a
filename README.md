# MAÑANA — a Dafny model of the entitlement and payment core

MAÑANA is a lesson-planning web application for Mexican teachers. A React
client (`App.tsx`) asks an AI endpoint for lessons. It lets a visitor generate
one lesson without an e-mail and ten with one. After that, it asks the user to
log in or to pay for the PRO plan.

Payments go through Mercado Pago in three ways:

- a one-off card payment (`api/process-payment.ts`);
- a monthly subscription, a "preapproval" (`api/create-subscription.ts`);
- a Checkout Pro preference (`api/create-preference.ts`).

The processor confirms each of them by calling the signed webhook
(`api/mercadopago-webhook.ts`). The webhook sets `is_pro` on the user's row in
the `users` table. Users are registered by `api/register-user.ts` and cancel
through `api/cancel-subscription.ts`. The lesson endpoint
(`api/generate-lesson.ts`) selects prompt fragments from the request and
refuses any answer that carries the safety sentinel. `lib/prompts.ts` detects
the educational level and the phase from the grade label.

The project models this core one source file per module:

- `Js` and `Http`: JavaScript truthiness and `||` on optional strings and
  numbers, plus the HTTP response shape and status codes.
- `Text`: `includes`, `toLowerCase`, `trim`, one-character `split` and `join`,
  and decimal printing.
- `Store`: the `users` row and table, with the `update … eq('id')` and
  `upsert` writes.
- `SubscriptionPlans`: the plans table.
- `Prompts`: the level and phase classifiers and the head of the prompt.
- `GenerateLesson`: the selected instructions and the final classification.
- `Webhook`: the signature check as a loop over the header's parts, the
  reference split and the handler.
- `ProcessPayment`, `CreateSubscription`, `CreatePreference`, `RegisterUser`:
  each handler as a function from the request, the configuration and the
  outside world's answers to the response and the new table.
- `CancelSubscription`: the handler as a function, and a `Backend` class whose
  table the handler method changes in place.
- `PaymentModal` and `ResetPasswordModal`: classes with the components' state
  as fields. The handler that awaits is split into a method before the request
  and a method after the answer.
- `App`: a class whose fields are:
  - the account (`userId`, `userEmail`, `isPro`, `totalGenerations`, the session);
  - the screen (view, dialogs, pending actions);
  - the lesson work;
  - `localStorage`;
  - the remote `users` table;
  - the alerts.

  Each handler is a method whose `ensures` ties the new state to a function of
  the old one. The lemmas about those functions state what the application
  promises.

Behaviour of the code worth knowing, which the model keeps:

- Plan B generation does not consume the generation counter.
- Logout zeroes the counter and removes the stored keys, rather than keeping
  the count on the device.
- Cancelling never writes `subscription_end_date`. So the client's expiry check
  (a cancelled row whose end date has passed) only fires for rows whose date
  was written elsewhere.
- Registering again resets `is_pro` and `total_generations`.
- `is_pro` is not kept equal to "status is `authorized`". The webhook's payment
  branch and `process-payment` set `is_pro` without touching
  `subscription_status`.

## Model

| member | source | states |
|---|---|---|
| App.GateFor | App.tsx:388-407 | The gate asks for a login exactly for a free user at the one-generation limit without an e-mail. It lets the user through exactly when pro, under one generation, or under ten with an e-mail. |
| App.GateFacts | App.tsx:393-406 | A pro user always passes. The upgrade branch is only reached by a free user who has an e-mail and at least ten generations. |
| App.FreeQuota | App.tsx:19-21 | A free user may generate while under 1 generation without an e-mail and under 10 with one. |
| App.AnonymousLimitAsksForLogin | App.tsx:393-399 | A free user at the limit without an e-mail is remembered as pending and shown the login dialog. Nothing else changes. |
| App.SignedInLimitOffersPayment | App.tsx:400-405 | A free user with an e-mail at ten generations gets the limit error and the payment dialog. The counter does not move. |
| App.LessonReply | services/ai.ts:6-25 | The client call resolves exactly on a 2xx answer, with its content. Otherwise it rejects with the server's error, or the fixed message, which is never empty. |
| App.CounterCountsSuccesses | App.tsx:297-339 | `handleGenerate` adds one to the counter, and stores it, exactly when the gate passed, the topic was not blank and the lesson arrived. Otherwise the counter, the storage and the table are unchanged. |
| App.ExecuteCounts | App.tsx:312-314 | Once the topic is not blank, a delivered lesson increments the counter and mirrors it into storage. A refused one changes neither. |
| App.BlockedLessonIsNotCounted | App.tsx:297-339 | An answer that the lesson endpoint blocks for carrying the safety sentinel reaches the user as the safety error. It is not counted. |
| App.PlanBDoesNotCount | App.tsx:409-433 | Plan B never changes the account, the storage or the table. It does nothing while a plan B is loading, and it blocks exactly as `handleGenerate` does. |
| App.LocalGens | App.tsx:220-250 | The stored counter reads as 0 when the key is absent, and as its number when present. |
| App.EffectiveIsPro | App.tsx:112-131 | The client trusts the row's `is_pro`, except that a cancelled subscription past its end date is never pro. |
| App.ExpiryWrite | App.tsx:113-131 | The expiry write sets `is_pro = false` only on the user's row, only when it has run out and only when the write succeeds. A failed write leaves the table as it was. Every other row is kept. |
| App.ExpiryOnlyWhenRunOut | App.tsx:198-212 | The update is sent for any expired row, but the table changes exactly when the row has run out, is still pro and the write succeeds. A row with no end date is trusted and never written. |
| App.LoadSources | App.tsx:85-147 | For a signed-in user the first load takes the id and e-mail from the session. When the users query succeeds and finds the row, it trusts the row (counter, and `is_pro` after the expiry check) and the table is the expiry write's. When the query fails or finds no row, `is_pro`, the counter and the table stay as they were. For a visitor it trusts storage, and the table is untouched. |
| App.Reconciliation | App.tsx:152-280 | The auth listener has four outcomes. A found row is the source of truth, mirrored into storage, and the table is the expiry write's for that row (unchanged when that write fails). A missing row means not pro, with the stored counter. A query that failed or timed out keeps `is_pro`. A sign-out clears the user. |
| App.MissingRowIsRegistered | App.tsx:220-244 | A user signing in with no row gets one, not pro, with zero generations and terms accepted. The login dialog closes. |
| App.PendingActionResumes | App.tsx:341-356 | After a login, a pending upgrade opens the payment dialog without generating. Otherwise a pending generation runs once and is counted only if the lesson arrived. |
| App.LogoutWipes | App.tsx:358-386 | Logout leaves the counter at 0, not pro, no e-mail and no favourites. The four keys are removed and the table is untouched. A later load finds no trace of the user. |
| App.PaymentSuccessGrantsPro | App.tsx:487-509 | A payment success makes the client pro and stores it. It closes the dialog, and also makes the user's existing row pro when the update goes through. |
| App.CancelIsImmediate | App.tsx:513-551 | A signed-in user becomes free on the client and in the table exactly when the endpoint answers with success. The row becomes `cancelled` with its end date kept. Otherwise the account and the table are unchanged. |
| App.DeleteByIdKeeps | App.tsx:578-591 | Deleting keeps exactly the entries with another id. |
| App.DeleteByIdDistributes | App.tsx:587 | Deleting keeps the order: it works piece by piece on a concatenation. |
| App.DeleteAbsentIsIdentity | App.tsx:587 | Deleting an id that no entry has leaves the list as it is. |
| App.RenameById | App.tsx:593-604 | Renaming keeps the length. It retitles the matching entries and leaves the others equal. |
| App.RenameTouchesOnlyMatches | App.tsx:601 | Renaming changes only the matching entries: removing them gives the same list before and after. Each of them gets the new title. |
| App.SaveRules | App.tsx:435-485 | With no lesson shown nothing happens. An anonymous visitor who is not pro gets the login dialog and the favourites stay as they were. A free user with three or more favourites cannot save. Conversely, every allowed save puts exactly the shown lesson (its content, topic and the remote or local id) in front of the old list, stores the new list and shows the saved alert; a change happens only that way. |
| App.AppComponent.constructor | App.tsx:24-59 | The initial state: no user, not pro, zero generations, empty storage, nothing pending. |
| App.AppComponent.HandleUpgradeClick | App.tsx:286-295 | Without an e-mail the upgrade is remembered and the login shown. With one, the payment dialog opens. |
| App.AppComponent.HandleGenerate | App.tsx:388-407 | The new state is the gated generation of the old one, as `CounterCountsSuccesses` describes it. |
| App.AppComponent.ExecuteGeneration | App.tsx:297-339 | The new state is the generation of the old one for the lesson call's outcome. |
| App.AppComponent.RecordSuccess | App.tsx:309-329 | The lesson is shown, the counter goes up by one and is stored, and the row is written when the update goes through. |
| App.AppComponent.HandleGeneratePlanB | App.tsx:409-433 | The new state is the plan-B step of the old one. |
| App.AppComponent.HandleAuthSuccess | App.tsx:341-356 | The new state is the login-success step of the old one. |
| App.AppComponent.HandleLogout | App.tsx:358-386 | The new state is the logout of the old one. |
| App.AppComponent.LoadData | App.tsx:85-131 | The new state is the first load of the old one, given whether the users query and the expiry write succeeded. |
| App.AppComponent.LoadFromRemote | App.tsx:88-131 | The signed-in branch of the first load, including a failed users query and a failed expiry write. |
| App.AppComponent.LoadFromLocal | App.tsx:134-146 | The anonymous branch of the first load. |
| App.AppComponent.OnAuthStateChange | App.tsx:152-280 | The new state is the auth listener's step for the event and the query outcome. |
| App.AppComponent.ReconcileUser | App.tsx:174-268 | The signed-in part of the listener. |
| App.AppComponent.HandleSave | App.tsx:435-485 | The new state is the save step of the old one. |
| App.AppComponent.HandleDeleteLesson | App.tsx:578-591 | The list and its stored copy lose the entries with that id. |
| App.AppComponent.HandleRenameLesson | App.tsx:593-604 | The list and its stored copy get the matching entries retitled. |
| App.AppComponent.HandlePaymentSuccess | App.tsx:487-509 | The new state is the payment-success step of the old one. |
| App.AppComponent.Free | App.tsx:530-547 | The client becomes free, is stored as such, and the dialogs close. |
| App.AppComponent.HandleFinalCancel | App.tsx:513-551 | The new state is the cancellation step of the old one for the endpoint's answer. |
| Webhook.Assigned | api/mercadopago-webhook.ts:29-30 | A part with another key leaves the field as it was. |
| Webhook.LaterPartOverrides | api/mercadopago-webhook.ts:21-36 | Reading one more part keeps the field unless that part names the key, in which case its value wins. |
| Webhook.ReadStep | api/mercadopago-webhook.ts:25-35 | The field after a prefix one part longer is the previous field, overwritten by that part if its key matches. |
| Webhook.ReadFields | api/mercadopago-webhook.ts:21-36 | The loop leaves in `ts` and `hash` the value of the last part with that key, or `""` when there is none. |
| Webhook.ParseSignatureHeader | api/mercadopago-webhook.ts:21-36 | The header's fields are read from its comma-separated parts. |
| Webhook.VerifySignature | api/mercadopago-webhook.ts:5-44 | The verdict is exactly the signature predicate: no secret passes everything. With a secret, both headers and both fields must be present and the digest must match the manifest. |
| Webhook.SecretGatesVerification | api/mercadopago-webhook.ts:6-18 | Without a secret every request passes. With one, a request missing either header is refused. |
| Webhook.ParsePlainPart | api/mercadopago-webhook.ts:27-30 | A `key=value` part of plain tokens parses back to its key and value. |
| Webhook.HeaderParts | api/mercadopago-webhook.ts:21 | `ts=T,v1=H` splits into its two assignments. |
| Webhook.FieldsOfTwoParts | api/mercadopago-webhook.ts:25-35 | Reading a `ts` part then a `v1` part yields both values. |
| Webhook.PlainKeys | api/mercadopago-webhook.ts:31-32 | The two keys are plain tokens. |
| Webhook.SignatureHeaderFields | api/mercadopago-webhook.ts:21-36 | A well-formed header reads back to its `ts` and `v1`. |
| Webhook.SignedRequestAccepted | api/mercadopago-webhook.ts:38-43 | A correctly signed request, with the digest of the manifest under the configured secret, is accepted. |
| Webhook.WrongDigestRejected | api/mercadopago-webhook.ts:38-43 | With a secret configured, a `v1` that is not the digest of the manifest is refused. |
| Webhook.SplitReference | api/mercadopago-webhook.ts:167-169 | A reference without `|` gives the user with plan `unknown`. The user never contains a `|`. |
| Webhook.SplitReferenceAtFirstBar | api/mercadopago-webhook.ts:167-169 | With a bar, the user is the text before the first bar and the plan is the next piece. |
| Webhook.SplitReferenceRoundTrip | api/mercadopago-webhook.ts:167-169 | `user|plan` splits back into its two halves. |
| Webhook.Handle | api/mercadopago-webhook.ts:46-198 | The handler method answers and changes the table exactly as the handler function does; it exists to run the signature check through the `ReadFields` loop. |
| Webhook.RejectedBeforeAnyWrite | api/mercadopago-webhook.ts:47-56 | Non-POST gets 405 and a failed signature gets 401. Neither touches the table. |
| Webhook.BranchErrors | api/mercadopago-webhook.ts:66-190 | The error answers of both branches, with no write: a missing subscription id, payment id or user reference is 400; a failed or throwing fetch is 500; a missing store or payment configuration is 500; a failed update is 500. |
| Webhook.ErrorsDoNotWrite | api/mercadopago-webhook.ts:62-197 | Only a 200 answer changes the table. Any row that changes is the one the 200 body names as updated (`Updated` or `SubscriptionUpdated` with that user id). |
| Webhook.OtherTypesAcknowledged | api/mercadopago-webhook.ts:118-121 | A notification of another type gets 200 and changes nothing. |
| Webhook.PreapprovalSetsProIffAuthorized | api/mercadopago-webhook.ts:65-115 | A fetched subscription sets `is_pro` exactly when its status is `authorized`. It records the id, status and price and touches no other row. |
| Webhook.PreapprovalProMatchesStatus | api/mercadopago-webhook.ts:96-107 | When the subscription reports a status, the row the webhook writes is pro exactly when its recorded status is `authorized`. |
| Webhook.UnapprovedPaymentNoWrite | api/mercadopago-webhook.ts:156-159 | A payment that is not approved gets 200 with its status and no write. |
| Webhook.ApprovedPaymentGrantsPro | api/mercadopago-webhook.ts:161-192 | An approved payment makes the referenced user pro and records the plan. |
| Webhook.ReplayIsIdempotent | api/mercadopago-webhook.ts:96-107 | Delivering the same notification again answers the same and leaves the modelled columns as the first delivery did (the timestamps are not kept). |
| Webhook.ApprovedReferenceScenario | api/mercadopago-webhook.ts:123-192 | A signed, approved payment with reference `user|plan` makes exactly that user pro on that plan. |
| ProcessPayment.ExternalReference | api/process-payment.ts:55 | The reference is the user id, a bar, then `navidad-2024`. |
| ProcessPayment.BuildPaymentData | api/process-payment.ts:44-61 | The amount is the first truthy of the two given amounts, else 29, and is never 0. It also fixes the installments, description, payer e-mail fallback, reference and metadata. |
| ProcessPayment.ReferenceRoundTrip | api/process-payment.ts:55 | The webhook splits the reference written here back into the user and the Christmas plan, for any user id without a bar. |
| ProcessPayment.BarInUserIdMisroutes | api/process-payment.ts:55 | For any user id `a|b` with one bar, the webhook reads user `a` and plan `b` instead of the user and `navidad-2024`. |
| ProcessPayment.RejectionMessageFollowsTable | api/process-payment.ts:107-117 | A listed `status_detail` gets its own message. Anything else, a missing detail included, gets the generic one. |
| ProcessPayment.MethodAndUserChecks | api/process-payment.ts:13-42 | OPTIONS gets 200 and other non-POST methods 405. A missing user id gets 400 whatever the configuration. A missing token then gets 500. |
| ProcessPayment.OnlyApprovalWrites | api/process-payment.ts:79-105 | Only an approved payment writes, and only `is_pro = true` on the paying user's row. It is answered 200 even if the write failed. |
| ProcessPayment.ApprovedWritesPro | api/process-payment.ts:79-95 | An approved payment is answered 200 `approved` with its id. The paying user's row becomes pro exactly when the store is configured, the update reports no error and the row exists; otherwise the table is unchanged. |
| ProcessPayment.PendingIsProcessing | api/process-payment.ts:96-102 | A payment in process or pending is answered 200 with its status, id and the processing message, and nothing is written. |
| ProcessPayment.RejectedStatus | api/process-payment.ts:106-123 | Any other status gets 400 `rejected` with its detail's message and no write. |
| CreateSubscription.GetCurrentPrice | api/create-subscription.ts:5-12 | The price is 29 before the promotion ends and 49 from then on. |
| CreateSubscription.PriceIsMonotone | api/create-subscription.ts:5-12 | The price never goes down over time, and once regular it stays regular. |
| CreateSubscription.IsPromo | api/create-subscription.ts:40 | The promotion flag is on exactly before the end date. |
| CreateSubscription.BuildSubscriptionData | api/create-subscription.ts:41-54 | The preapproval is monthly in MXN at the current price. Its reference is the user id and its return URL is on the caller's origin or the default one. |
| CreateSubscription.PriceMessage | api/create-subscription.ts:78-80 | The message quotes the price as `$<n> MXN/mes`. The promotional price gets the `¡Precio promocional de …!` wording, any other price the `Suscripción de …` wording. |
| CreateSubscription.PriceMessageTellsPromo | api/create-subscription.ts:40-80 | The message opens with `¡` exactly when the price is the promotional one, as `isPromo` selects. |
| CreateSubscription.RefusalMessage | api/create-subscription.ts:86 | The refusal text is the processor's message, else the first cause, else the default. It is never empty. |
| CreateSubscription.ValidationOrder | api/create-subscription.ts:19-37 | A missing user id or e-mail gets 400 whatever the configuration. With both present, a missing token gets 500. |
| CreateSubscription.RedirectIffIdAndLink | api/create-subscription.ts:71-89 | The answer is 200 exactly when the processor returned both an id and a link, and it then quotes the current price and promotion. Otherwise it is 400 with the refusal text. |
| CreatePreference.BaseUrl | api/create-preference.ts:30-34 | The base URL is the Vercel host, else the Replit host, else localhost. |
| CreatePreference.BuildPreference | api/create-preference.ts:36-58 | One item at 29 MXN, referenced by the user id. The return and notification URLs are on the base URL. |
| CreatePreference.UrlsShareBase | api/create-preference.ts:36-58 | All four URLs start with the same base. |
| CreatePreference.ResponseClassification | api/create-preference.ts:10-82 | OPTIONS gets 200, other non-POST methods 405, a missing user 400, a missing access token 500 with "Payment system not configured". A configured request gets 200 exactly when the processor created the preference, and 500 otherwise ("Failed to create payment preference" for a non-OK reply). |
| RegisterUser.ValidationOrder | api/register-user.ts:5-22 | 405, then 400 for missing fields, then 500 for a missing configuration. No refusal writes. |
| RegisterUser.RegisteredRow | api/register-user.ts:28-40 | A registration leaves one row for the user with the defaults: not pro, zero generations, terms accepted, marketing as given. Every other row is unchanged. |
| RegisterUser.ReRegisterResetsEntitlement | api/register-user.ts:30-36 | Registering an existing user again resets it to not pro and zero generations, keeping the subscription columns. |
| CancelSubscription.MarkCancelled | api/cancel-subscription.ts:81-88 | A cancelled row is not pro, with status `cancelled`. Every other column, the end date included, is kept. |
| CancelSubscription.Backend.constructor | api/cancel-subscription.ts:39-45 | The backend starts with the given table and no processor calls. |
| CancelSubscription.Backend.HandleCancel | api/cancel-subscription.ts:6-108 | The method's answer, table and processor calls are those of the handler function. |
| CancelSubscription.ConfigurationBeforeBody | api/cancel-subscription.ts:11-30 | The configuration is checked before the body, so a misconfigured server gets 500 even without a user id. None of these refusals writes or calls the processor. |
| CancelSubscription.MissingUser | api/cancel-subscription.ts:33-50 | A missing user id gets 400, and an unknown or unreadable user 404, with no write. |
| CancelSubscription.CancelledRow | api/cancel-subscription.ts:52-99 | The processor is asked to cancel exactly the row's subscription id. A failed answer does not stop the flow. A successful update leaves the row cancelled and the others unchanged. A failed update is 500 "Failed to update user status", and an unreadable processor answer is the catch's 500; neither writes. |
| CancelSubscription.CancelIsIdempotent | api/cancel-subscription.ts:81-88 | Cancelling twice leaves the modelled columns as one cancellation does, with the same answer (`updated_at` is not kept). |
| SubscriptionPlans.GetActivePlan | lib/subscription-plans.ts:76-80 | The active plan is the Christmas one: 29 MXN, down from 49, as a promotion. |
| SubscriptionPlans.GetPlanById | lib/subscription-plans.ts:82-84 | Among the table's own keys, exactly the four ids find a plan, and the plan found has that id (inherited keys are not modelled). |
| SubscriptionPlans.KeysAreIds | lib/subscription-plans.ts:14-74 | Each plan is stored under its own id and priced in MXN. |
| SubscriptionPlans.DiscountsAreReal | lib/subscription-plans.ts:14-74 | Every original price is above the plan's price. Only the regular plan has none. |
| SubscriptionPlans.OnlyEarlyBirdCapsUsers | lib/subscription-plans.ts:39 | Only the early-bird plan has a user cap, and it is 100. |
| Prompts.DetectEducationalLevel | lib/prompts.ts:173-182 | The level is preschool, primary or secondary, by the first keyword found in the lower-cased grade. |
| Prompts.GetPhase | lib/prompts.ts:184-204 | The phase is always one of Fase 2 to Fase 6, and it is Fase 2 exactly when the label names `preescolar` or `kinder`. |
| Prompts.CaseInsensitive | lib/prompts.ts:173-186 | Both classifiers give the same answer for a label and its lower-cased form. |
| Prompts.PreescolarWins | lib/prompts.ts:175-177 | A label naming preschool is preschool whatever else it names. |
| Prompts.GradePhases | lib/prompts.ts:189-196 | First to fourth grade with `secundaria` give Fase 6. With `primaria` (and no `secundaria`), first and second grade give Fase 3, third and fourth Fase 4. |
| Prompts.FifthSixthPhase | lib/prompts.ts:197-199 | Any label naming fifth or sixth grade that no earlier rule decided gives Fase 5, whatever the school. |
| Prompts.DefaultPhase | lib/prompts.ts:200-203 | A label no grade rule decides gives Fase 6 with `secundaria` and Fase 4 otherwise. |
| Prompts.FifthGradePrimary | lib/prompts.ts:184-199 | The app's own label `5° Primaria` gives Fase 5. |
| Prompts.JardinLevelAndPhaseDisagree | lib/prompts.ts:173-204 | A label holding `jardín` and no other level or grade word is pre-school level, yet its phase is the default Fase 4 rather than pre-school's Fase 2. |
| Prompts.LowerJardinDeNinos | lib/prompts.ts:186 | Lower-casing `Jardín de niños` gives `jardín de niños`. |
| Prompts.JardinOverLetters | lib/prompts.ts:186 | `jardín de niños` is written with twelve letters only. |
| Prompts.LacksLetter | lib/prompts.ts:173-204 | A label written without one of a keyword's letters does not contain the keyword. |
| Prompts.JardinDeNinosNoLevelWord | lib/prompts.ts:175-181 | `jardín de niños` holds none of the level keywords. |
| Prompts.JardinDeNinosNoLowerGradeWord | lib/prompts.ts:189-192 | It holds no first-to-second-grade word. |
| Prompts.JardinDeNinosNoMiddleGradeWord | lib/prompts.ts:193-196 | It holds no third-to-fourth-grade word. |
| Prompts.JardinDeNinosNoUpperGradeWord | lib/prompts.ts:197-199 | It holds no fifth-to-sixth-grade word. |
| Prompts.JardinDeNinos | lib/prompts.ts:173-204 | The label `Jardín de niños` is pre-school level but Fase 4: level and phase disagree. |
| Prompts.BuildPromptHead | lib/prompts.ts:206-225 | The rules block is the detected level's, in both directions, and the intro names that level and embeds the grade's phase. |
| GenerateLesson.ChosenNarrative | api/generate-lesson.ts:50 | The custom narrative is used exactly for "Personalizada". |
| GenerateLesson.NarrativeInstruction | api/generate-lesson.ts:51-53 | "Random" asks for a surprise. Anything else quotes the chosen narrative. |
| GenerateLesson.EmphasisLabel | api/generate-lesson.ts:27-34 | A known key gets its label, and any other non-inherited key stands for itself. |
| GenerateLesson.EmphasisLabelList | api/generate-lesson.ts:58-60 | The labels are the keys' labels, in order. |
| Text.JoinWithContainsItems | api/generate-lesson.ts:58-60 | Every item appears in the joined text. |
| Text.JoinSplit | api/mercadopago-webhook.ts:21 | Splitting on a character loses nothing: joining the parts with that character gives the string back. |
| Text.TrimEmptyIffBlank | App.tsx:298 | A topic trims to the empty string exactly when it is white space only, so only a blank topic is refused. |
| Text.DecimalRoundTrip | api/create-subscription.ts:78-80 | The printed price reads back as the same number. |
| GenerateLesson.EmphasisText | api/generate-lesson.ts:58-60 | The emphasis text is empty exactly when no emphasis was chosen. |
| GenerateLesson.EmphasisTextNamesEveryKey | api/generate-lesson.ts:58-60 | With emphasis chosen, the text names every key through its label. |
| GenerateLesson.IntentText | api/generate-lesson.ts:62-64 | The intent text is empty exactly when no intent was given, and otherwise carries it. |
| GenerateLesson.DecisionLabel | api/generate-lesson.ts:36-40 | A known level gets its label. An unknown, non-inherited one prints as `undefined`. |
| GenerateLesson.DecisionText | api/generate-lesson.ts:66-68 | The decision text is empty exactly when no level was given, and otherwise carries its label. |
| GenerateLesson.FormalityText | api/generate-lesson.ts:70-72 | The formal-register text appears only for `formal`. |
| GenerateLesson.NoNemParamsNoTexts | api/generate-lesson.ts:55-72 | Without NEM parameters every optional text is empty. |
| GenerateLesson.ClassifyAnswer | api/generate-lesson.ts:218-224 | An answer carrying the sentinel gets 400. Any other gets 200 with its text, or the fixed apology when it is empty. |
| GenerateLesson.Handle | api/generate-lesson.ts:42-228 | Non-POST gets 405, a thrown model call 500, and an answer is classified. |
| GenerateLesson.SentinelAnywhereBlocks | api/generate-lesson.ts:218-224 | The sentinel anywhere in the answer blocks the lesson. |
| GenerateLesson.EmptyAnswerLacksSentinel | api/generate-lesson.ts:222-224 | The fixed apology does not hold the sentinel. |
| GenerateLesson.OkNeverCarriesSentinel | api/generate-lesson.ts:218-224 | A 200 answer never carries the sentinel. |
| PaymentModal.DisplayedPrice | components/PaymentModal.tsx:109 | The price shown is the fetched price when non-zero, otherwise 29. |
| PaymentModal.ReplyEffect | components/PaymentModal.tsx:48-66 | A link redirects whatever the status. `authorized` without a link shows success and starts the timer. Anything else fails, showing the reply's `message` or else "Error al crear la suscripción"; a thrown error shows its `message` or else "Error al procesar la suscripción". |
| PaymentModal.LinkWins | components/PaymentModal.tsx:48-52 | A reply with a checkout link redirects to it, whatever its status. |
| PaymentModal.Modal.constructor | components/PaymentModal.tsx:12-14 | The dialog starts on the first step with no message, no price and nothing sent. |
| PaymentModal.Modal.OnOpen | components/PaymentModal.tsx:16-23 | Opening stores the fetched price, or the 29/49 fallback. |
| PaymentModal.Modal.BeginSubscription | components/PaymentModal.tsx:27-34 | Without a user or e-mail it shows the login error and sends nothing. Otherwise it loads and sends exactly one request. |
| PaymentModal.Modal.FinishSubscription | components/PaymentModal.tsx:48-66 | The dialog takes the state the reply leads to. |
| PaymentModal.Modal.SuccessTimerFires | components/PaymentModal.tsx:54-57 | A pending timer calls `onSuccess` and `onClose` once each. |
| PaymentModal.Modal.HandleClose | components/PaymentModal.tsx:69-73 | Closing resets the step and the message and calls `onClose`. |
| PaymentModal.Modal.Retry | components/PaymentModal.tsx:207 | Retry returns to the first step and keeps everything else. |
| PaymentModal.SubscribeOnce | components/PaymentModal.tsx:27-66 | An attempt without a login sends nothing and shows the login error. With one, it sends exactly one request and ends as the reply says. |
| ResetPasswordModal.ValidationError | components/ResetPasswordModal.tsx:22-30 | The form is valid exactly when the password is at least six UTF-16 code units long (`length`) and is confirmed. The length error is reported first. |
| ResetPasswordModal.LengthCheckedFirst | components/ResetPasswordModal.tsx:22-30 | A short, mismatched pair reports the length. A long, mismatched pair reports the mismatch. A long, matching pair passes. |
| Js.Length | components/ResetPasswordModal.tsx:22 | `length` counts UTF-16 code units: between one and two per character, and exactly one per character when none lies above U+FFFF. |
| ResetPasswordModal.AstralPasswordLongEnough | components/ResetPasswordModal.tsx:22-25 | Three emoji are six code units, so they pass the length check. |
| ResetPasswordModal.ResetForm.constructor | components/ResetPasswordModal.tsx:11-14 | The form starts empty, not submitting and with nothing sent. |
| ResetPasswordModal.ResetForm.Type | components/ResetPasswordModal.tsx:11-12 | Typing sets the two fields only. |
| ResetPasswordModal.ResetForm.BeginSubmit | components/ResetPasswordModal.tsx:18-32 | The update is sent exactly when both checks pass, and then exactly once with the typed password. |
| ResetPasswordModal.ResetForm.FinishSubmit | components/ResetPasswordModal.tsx:34-55 | On success the fields clear and the timer starts. On failure the error shows. Submitting ends either way. |
| ResetPasswordModal.ResetForm.SuccessTimerFires | components/ResetPasswordModal.tsx:46-49 | A pending timer clears the message and calls `onSuccess` once. |
| ResetPasswordModal.SubmitOnce | components/ResetPasswordModal.tsx:18-56 | One submission sends the password exactly when it is valid and always ends not submitting. |
| Store.Update | api/cancel-subscription.ts:81-88 | An update changes only the named row, and only if it exists. |
| Store.Upsert | api/register-user.ts:28-40 | An upsert creates or merges the named row and keeps every other row. |
| Store.UpdateIdempotent | api/mercadopago-webhook.ts:98-107 | Applying an idempotent row change twice equals applying it once. |

## Left out

- HMAC-SHA256 is a function parameter (`hmac`). The model does not compute it; it only compares its output with the header's `v1`.
- All I/O is an input to the model, its failures included: the Supabase client, Mercado Pago's HTTP API, the AI model, `fetch`, `localStorage` reads and the auth service. Each becomes an outcome parameter (`World`, `Reply`, `LessonCall`, `UserQuery`, `remoteOk`).
- `Promise.race` with the five-second timeout, and the success timers, become outcome inputs and flags. Real time and interleaving are not modelled.
- Each `await` is atomic. React's batching of `setState`, and a second handler running while one is awaiting, are not modelled.
- App.AppComponent.HandleSave: a saved lesson keeps only its id, topic, grade, content and creation time. The other lesson parameters that `{...params}` copies (duration, status, tone, group size, narrative, custom narrative and the NEM parameters) are not modelled.
- App.AppComponent.HandleSave: the write to the remote `saved_lessons` table, and the delete and rename on it, are outcomes (`storedId`) rather than a modelled table.
- The query-string alerts on return from the processor (App.tsx:61-82), `handleSelectLesson`, `handleCancelClick` and all JSX rendering are not modelled.
- Text.ToLower: only ASCII and the Latin-1 capitals are lower-cased. That is all the grade labels use, not full Unicode.
- The prompt templates' literal text beyond the parts the properties mention is not modelled. Only `BuildPromptHead` and the selected instructions are.
- Amounts are integers. Fractional prices and the processor's decimal amounts are not modelled.
- `error.message` texts of thrown exceptions are optional strings, not tied to the library that threw them.
- Store.Row: the `updated_at`, `terms_accepted_at` and `subscription_date` columns are not kept, because every write sets them to the current time. The remaining dates (`subscription_end_date`, the clock) are integers in milliseconds; date parsing is not modelled.
- Webhook.ReplayIsIdempotent: a replayed notification leaves the table as the first delivery did apart from `updated_at` and `subscription_date`, which the source rewrites with the current time on every delivery.
- CancelSubscription.CancelIsIdempotent: a second cancellation leaves the row as the first did apart from `updated_at`, which the source rewrites on every cancellation.
- SubscriptionPlans.GetPlanById: only the table's own keys are modelled. A key inherited from `Object.prototype`, such as `constructor`, finds a value in JavaScript; the model answers `None` for it.
- GenerateLesson.EmphasisLabel: only the table's own keys are modelled. For an inherited key such as `toString`, JavaScript yields function text rather than the key itself.
- GenerateLesson.DecisionLabel: only the table's own keys are modelled. For an inherited key such as `constructor`, JavaScript prints function text rather than `undefined`.
- CORS headers are not modelled.
- App: the component's state is grouped into account, screen, work, storage, table and alerts records. Each handler sets whole records at once.
- App.LocalGens: `localStorage` is a typed map. `parseInt` of a non-numeric string is not modelled.
- Non-string JSON values in request bodies are not modelled, except `acceptedMarketing` in `register-user`.
- api/generate-planb.ts, server/index.ts, services/ai.ts beyond `generateLessonContent`, components/CancellationModal.tsx and the static components are not part of this model.
- App.AppComponent.HandleFinalCancel: the reason and feedback the user types are not modelled.
