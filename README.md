# IgnitiaAI business rules in Dafny

This project models the IgnitiaAI web application in Dafny. The application is a Next.js growth-audit product. Prospects pick an industry on a landing page and answer a six-step wizard. They then either request a free audit or pay 500 USD for a "Growth Blueprint" through the Paxum/Paxos payment provider. Administrators work the resulting leads, reports, deals and payments on a set of admin pages. Access to those pages is decided by a middleware and a role model held in Supabase.

The model covers these parts:

- **Payment integration.** The OAuth2 token cache is a class with a single cache slot and a 60-second safety margin (`PaxumToken`). The provider client covers the status table, the normalisation of statement lists, the query strings and the failure on a non-OK reply (`PaxumClient`). The three payment routes are create-payment, payment-status and webhook (`CreatePaymentRoute`, `PaymentStatusRoute`, `WebhookRoute`). The payment validation schemas are in `PaymentSchema`, and the payment status and currency unions in `PaymentModel`.
- **Settings validation.** The settings schemas are issue lists, each proved empty exactly when its validity predicate holds (`SettingsSchema`, with the library vocabulary in `Zod`).
- **Free-audit route.** `AuditRoute`.
- **Admin pages.** These are functions over sequences of leads, reports, deals and payments:
  - the lead CRM board with filter, sort, status groups, analytics and drag-and-drop (`LeadsBoard`; the board state is the class `LeadBoard`);
  - deal commission revenue (`DealsPage`);
  - payments, audits and analytics aggregations (`PaymentsPage`, `AuditsPage`, `AnalyticsPage`);
  - the dashboard KPIs (`AdminDashboard`).
- **Visitor pages.** The landing page is the class `Landing` and the audit wizard the class `WizardPage`. Both use the email pattern of `EmailRegex`.
- **Role-based routing.** The middleware decision (`Middleware`), the OAuth callback (`AuthCallback`), the access-denied page (`UnauthorizedPage`) and the `useAuth` hook (`UseAuth`, class `AuthState`).

Shared vocabulary:

- `Outcomes` holds `Option`, values a call returns or throws, HTTP replies and route responses.
- `JsText` holds the JavaScript string builtins the code relies on: `startsWith`, `includes`, ASCII case mapping, UTF-16 length, `encodeURIComponent`, `URLSearchParams` serialisation, `split` and `join`.
- `SeqUtil` holds `filter`, counts, sums, `find` and a stable sort.

Every clock read (`Date.now()`, `new Date()`) is an integer-millisecond parameter. Every provider, Supabase or `fetch` reply is an input value. Route handlers are functions from their inputs to a response. Where a route calls the provider, the handler also returns the request it sent. State that the source changes step by step is held in classes. Those are the token cache, the leads board, the landing page, the wizard and the auth hook. Their methods are proved against the pure functions above them.

## Model

| member | source | states |
|---|---|---|
| PaxumToken.GetTokenStep | lib/paxum/token.ts:20-67 | A token request is sent exactly when the cached token is not fresh and both credentials are set. A failure leaves the cache as it was. A returned token is the one now cached, and the cache changes only after a granted request. |
| PaxumToken.TokenManager.constructor | lib/paxum/token.ts:14 | The cache slot starts empty. |
| PaxumToken.TokenManager.GetToken | lib/paxum/token.ts:20-67 | The returned token, the request sent (if any) and the new cache slot are those of the token step on the old slot, the clock, the credentials and the provider reply. |
| PaxumToken.TokenManager.ClearCache | lib/paxum/token.ts:74-76 | The slot is empty afterwards. |
| PaxumToken.TokenManager.Info | lib/paxum/token.ts:83-92 | `hasToken` holds exactly when the slot is full. The reported expiry is the stored one, or absent when there is no token. |
| PaxumToken.FreshCacheIsReused | lib/paxum/token.ts:22-24 | A cached token whose expiry is after now is returned. No request is sent and the cache is unchanged. |
| PaxumToken.ExpiryIsStrict | lib/paxum/token.ts:22 | At `now == expiresAt` a new token request is sent to the token endpoint with the configured credentials. |
| PaxumToken.MissingCredentialsFail | lib/paxum/token.ts:22-33 | Without a fresh token and with the client id or secret missing, the call throws the missing-credentials error. No request is sent and the cache is untouched. A fresh token is still served without credentials, because the cache test comes first. |
| PaxumToken.RejectedTokenRequest | lib/paxum/token.ts:49-52 | A non-2xx token reply throws an Error whose message contains the HTTP status. The cache is left as it was. |
| PaxumToken.GrantedTokenIsCached | lib/paxum/token.ts:57-62 | A granted token is cached with expiry `receivedAt + (expires_in - 60) * 1000`. The returned token is the cached one. |
| PaxumToken.ResultAgreesWithCache | lib/paxum/token.ts:20-67 | On every path a returned token equals the cached token, and a failure leaves the cache unchanged. |
| PaxumToken.ShortLifetimeIsNeverReused | lib/paxum/token.ts:59 | With `expires_in <= 60` the stored expiry is not after any later clock reading, so the next call fetches again. |
| PaxumToken.SecondCallReusesToken | lib/paxum/token.ts:22-24 | A second call made while the first call's token is still valid returns the same token. It sends no request and keeps the cache. |
| PaxumToken.CachedTokenScenario | scripts/test-paxum-integration.ts:34-39 | Two consecutive `GetToken` calls on one manager with a granted token of lifetime over 60 s return the same token. The second call sends nothing. |
| PaxumClient.ApiBaseUrlDefault | lib/paxum/client.ts:13-15 | An unset base URL falls back to the sandbox URL; a set one is used as is. |
| PaxumClient.MapPaxosStatus | lib/paxum/client.ts:135-145 | Every provider status maps to one of the six payment status names, and never to "expired". |
| PaxumClient.MapPaxosStatusIsTableLookup | lib/paxum/client.ts:136-144 | The five `PAYMENT_STATUS_*` constants map to pending, processing, completed, failed and cancelled. Any other input maps to "pending". |
| PaxumClient.MapPaxosStatusAsWrittenDiverges | lib/paxum/client.ts:135-145 | The object-literal lookup as written agrees with the table on every key that is not an inherited `Object.prototype` member. On "toString" it yields the inherited function instead of "pending". |
| PaxumClient.FirstPayment | lib/paxum/client.ts:79-91 | The lookup yields nothing exactly when `payments` is missing or empty. |
| PaxumClient.FirstPaymentFields | lib/paxum/client.ts:80-88 | The normalised record copies `id`, `ref_id` and `created_at` from the first element. It takes `amount` from `payment_amount` and `status` from `payment_status`, fixes the currency to "USD" and has no payment URL. |
| PaxumClient.NormaliseEntry | lib/paxum/client.ts:80-88 | The record copies `id`, `ref_id` and `created_at` from the entry, takes `amount` from `payment_amount` and `status` from `payment_status`, has currency "USD" and no payment URL. |
| PaxumClient.LookupOutcome | lib/paxum/client.ts:54-96 | The lookup returns a value exactly for a 2xx reply whose body parsed, and that value is the first payment of the list. Any other reply throws what the shared reply check throws. |
| PaxumClient.NoAmpersandInParam | lib/paxum/client.ts:109 | An encoded `ref_ids[]` parameter never contains '&'. |
| PaxumClient.RefIdsQueryParams | lib/paxum/client.ts:109 | The list query splits on '&' into exactly one `ref_ids[]=<encoded id>` parameter per input id, in input order. |
| PaxumClient.SingleLookupMatchesList | lib/paxum/client.ts:62 | The single-payment lookup requests the same URL as a list query for that one id. |
| PaxumClient.ReplyOutcome | lib/paxum/client.ts:37-43 | A value is returned only for a 2xx reply, and it is the parsed body unchanged. Every 2xx reply whose body parsed returns that body. |
| PaxumClient.NonOkReplyThrowsStatus | lib/paxum/client.ts:37-40 | A non-2xx reply throws an Error whose message contains the HTTP status code. |
| PaxumClient.CreatePaxosPayment | lib/paxum/client.ts:21-48 | A token failure is rethrown with no request sent. Otherwise it sends one POST to `/payments` with the bearer token and the request body, and returns the provider body or throws on a non-OK reply. |
| PaxumClient.GetPaxosPaymentByRefId | lib/paxum/client.ts:54-96 | A token failure is rethrown with no request sent. Otherwise it sends one GET of the statements URL for the encoded ref id, and returns the normalised first payment, null for an empty list, or a throw on a non-OK reply. |
| PaxumClient.ListPaxosPayments | lib/paxum/client.ts:102-129 | A token failure is rethrown with no request sent. Otherwise it sends one GET with the `ref_ids[]` query, and returns the list or throws on a non-OK reply. |
| PaymentModel.ParseStatus | lib/models/payment.ts:6-12 | A parsed status prints back as the same name. |
| PaymentModel.StatusNamesRoundTrip | lib/models/payment.ts:6-12 | Printing then parsing a status gives it back. A name parses exactly when it is one of the six status names. |
| PaymentModel.ParseCurrency | lib/models/payment.ts:14 | A parsed currency prints back as the same code. |
| PaymentModel.CurrencyCodesRoundTrip | lib/models/payment.ts:14 | Printing then parsing a currency gives it back. A code parses exactly when it is one of the five codes. |
| CreatePaymentRoute.RefIdCarriesTimestamp | app/api/paxum/create-payment/route.ts:29-30 | The refId is `leadId-reportId-` followed by the decimal digits of the timestamp, which read back as that timestamp. |
| CreatePaymentRoute.RefIdsDistinct | app/api/paxum/create-payment/route.ts:29-30 | For the same lead and report, different timestamps give different refIds. |
| CreatePaymentRoute.Cents | app/api/paxum/create-payment/route.ts:34 | The amount in cents is the nearest integer to `100 * amount`. |
| CreatePaymentRoute.ToFixed2 | app/api/paxum/create-payment/route.ts:34 | `toFixed(2)` of a non-negative amount is digits, a point and exactly two digits exactly when the amount is below 1e21. From 1e21 on it is the exponent form. |
| CreatePaymentRoute.FixedPoint2 | app/api/paxum/create-payment/route.ts:34 | Below 1e21 the amount is written as digits, a point and exactly two digits. |
| CreatePaymentRoute.NatToStringMagnitude | app/api/paxum/create-payment/route.ts:34 | A positive number with k decimal digits lies in [10^(k-1), 10^k). |
| CreatePaymentRoute.Exponent | app/api/paxum/create-payment/route.ts:34 | The exponent e of an amount from 1e21 on satisfies 10^e <= its integer part < 10^(e+1). |
| CreatePaymentRoute.ExponentForm | app/api/paxum/create-payment/route.ts:34 | From 1e21 on the amount is written with a leading non-zero digit and an exponent, which is never the two-decimal form. |
| CreatePaymentRoute.ToFixed2Value | app/api/paxum/create-payment/route.ts:34 | Below 1e21 the two-decimal string denotes the amount rounded to cents, within half a cent of it. |
| CreatePaymentRoute.HandleCreatePayment | app/api/paxum/create-payment/route.ts:14-80 | A provider request is sent exactly when the body parsed, has every required field and a positive amount. The reply is 400 exactly when a parsed body sends no request. A 201 reply follows a sent request that the provider accepted. |
| CreatePaymentRoute.MissingFieldRejected | app/api/paxum/create-payment/route.ts:16-21 | A falsy amount (including 0), currency, description, reportId or leadId gives 400 with the missing-fields message. The provider is not called. |
| CreatePaymentRoute.NegativeAmountRejected | app/api/paxum/create-payment/route.ts:24-26 | A negative amount gives 400 "Amount must be greater than 0", and the provider is not called. |
| CreatePaymentRoute.ProviderRequestCarriesBody | app/api/paxum/create-payment/route.ts:33-38 | A valid body leads to one provider request. It carries the input currency and description, the composed refId, and the amount as `toFixed(2)` gives it: below 1e21 a two-decimal string within half a cent of the input, from 1e21 on the exponent form, which is not a two-decimal string. |
| CreatePaymentRoute.UnsupportedCurrencyReachesProvider | app/api/paxum/create-payment/route.ts:16 | The currency is only tested for truthiness, so "XYZ", which is not a supported currency, is sent to the provider. |
| CreatePaymentRoute.CreatedReply | app/api/paxum/create-payment/route.ts:53-60 | After a provider success the reply is 201. The session id is the provider id. The payment URL is the provider's when non-empty, else the pay-page base plus the id. The refId is the one sent, and the expiry is the second clock reading plus 86 400 000 ms. |
| CreatePaymentRoute.StatusClassification | app/api/paxum/create-payment/route.ts:14-80 | The reply is 201 exactly when a provider request was sent and succeeded. Any other reply is 400, 500 or 503 with an error body. |
| CreatePaymentRoute.ErrorMapping | app/api/paxum/create-payment/route.ts:61-79 | An Error mentioning missing Paxum credentials gives 503. Any other Error gives 500 with its message as details, and a non-Error throw gives 500 without details. |
| CreatePaymentRoute.MissingCredentialsIsServiceUnavailable | app/api/paxum/create-payment/route.ts:66-71 | The token cache's missing-credentials error is answered with 503. |
| PaymentStatusRoute.HandlePaymentStatus | app/api/paxum/payment-status/route.ts:10-62 | The lookup is made exactly for a present non-empty refId, and with that refId. The reply is 200 exactly when the lookup found a payment, and exactly when the body is a status view. |
| PaymentStatusRoute.MissingRefIdRejected | app/api/paxum/payment-status/route.ts:14-18 | A missing or empty refId gives 400 and no lookup. |
| PaymentStatusRoute.RefIdLookedUp | app/api/paxum/payment-status/route.ts:25 | A non-empty refId is looked up, and the status is 200, 404 or 500. |
| PaymentStatusRoute.UnknownPaymentNotFound | app/api/paxum/payment-status/route.ts:27-29 | A null lookup result gives 404 "Payment not found". |
| PaymentStatusRoute.FoundPaymentView | app/api/paxum/payment-status/route.ts:32-49 | A found payment gives 200 with the provider id, currency and creation time, the fixed report description, and the mapped status. `completedAt` is present exactly when the mapped status is "completed", and is then the clock reading. |
| PaymentStatusRoute.LookupFailureIs500 | app/api/paxum/payment-status/route.ts:50-61 | A throwing lookup gives 500. Details are present exactly for an Error and are its message. |
| PaymentStatusRoute.CompletedStatementShowsCompletion | app/api/paxum/payment-status/route.ts:27-49 | A provider statement whose first entry is `PAYMENT_STATUS_COMPLETED` is answered as completed, in USD, with its id and a completion time. |
| WebhookRoute.Dispatch | app/api/paxum/webhook/route.ts:42-61 | A selected handler is the one named by the event. No handler is selected only when no handler has that event name. |
| WebhookRoute.DispatchIsExact | app/api/paxum/webhook/route.ts:42-61 | Each of the four known events selects exactly its own handler. Every other event selects none. |
| WebhookRoute.HandleWebhook | app/api/paxum/webhook/route.ts:9-72 | A handler runs only for a parsed, well-formed payload, and it is the one named by its event. The status is 400 exactly when the body is the rejection. |
| WebhookRoute.MalformedPayloadRejected | app/api/paxum/webhook/route.ts:29-31 | A payload missing `event`, `data` or `data.ref_id` gives 400 "Invalid webhook payload", and no handler runs. |
| WebhookRoute.WellFormedPayloadAcknowledged | app/api/paxum/webhook/route.ts:42-64 | A well-formed payload is answered 200 `{received: true}`, whatever its event. A handler runs exactly when it is the event's own. |
| WebhookRoute.NeverAnErrorStatusFromTheCatch | app/api/paxum/webhook/route.ts:65-71 | An unparsable or null body is acknowledged with 200 and "Processing error". The only non-200 answer is the 400 for a malformed payload. |
| WebhookRoute.SignatureHasNoEffect | app/api/paxum/webhook/route.ts:12-21 | The signature header and the webhook secret do not change the outcome. |
| WebhookRoute.IntendedStatus | app/api/paxum/webhook/route.ts:92-128 | The intended status of a handler is never pending or expired, and the error is stored exactly for the failed event. |
| WebhookRoute.IntendedStatusProperties | app/api/paxum/webhook/route.ts:92-128 | The intended event-to-status mapping of the handler comments is injective. It never yields pending or expired, and stores the error only for the failed event. |
| PaymentSchema.CreatePaymentIssues | lib/validators/payment.schema.ts:22-28 | The create-payment schema reports no issue exactly when the amount is positive, the currency is one of the five codes, the description has 1..500 UTF-16 units, and the report and lead ids are non-empty. |
| PaymentSchema.SchemaValidBodyReachesProvider | lib/validators/payment.schema.ts:22-28 | Every body the schema accepts passes the route's own checks and reaches the provider. |
| PaymentSchema.UnsupportedCurrencyPassesRouteOnly | lib/validators/payment.schema.ts:24 | An unsupported currency is a schema issue on `currency`, yet the route still calls the provider. |
| PaymentSchema.OverlongDescriptionPassesRouteOnly | lib/validators/payment.schema.ts:25 | A description over 500 units is the "Description too long" issue, yet the route still calls the provider. |
| PaymentSchema.WebhookPayloadIssues | lib/validators/payment.schema.ts:36-46 | The webhook schema reports no issue exactly when the event, `ref_id` and status are non-empty and the amount is positive. The optional fields are unconstrained. |
| PaymentSchema.WebhookRouteAcceptsSchemaValid | lib/validators/payment.schema.ts:36-46 | The route acknowledges every schema-valid payload with 200. It also acknowledges a payload the schema rejects for a zero amount. |
| PaymentSchema.PaymentSessionIssues | lib/validators/payment.schema.ts:54-72 | The payment-session schema reports no issue exactly when every field meets its constraint: positive amount, status in the six-value enum, and currency, ids and formats. |
| PaymentSchema.MappedStatusFitsSessionSchema | lib/validators/payment.schema.ts:9-16 | Every status the client maps a provider status to lies in the schema's status enum. |
| SettingsSchema.PlatformIssues | lib/validators/settings.schema.ts:9-17 | Platform settings report no issue exactly when the name has 1..100 units, the currency is one of the five codes, there is at least one business vertical, the footer text is at most 500 units, and the formats hold. |
| SettingsSchema.AiTemplateIssues | lib/validators/settings.schema.ts:33-46 | An AI template reports no issue exactly when the prompt has at least 10 units, the temperature is in [0,2], `maxTokens` is an integer in [100,32000], and the other fields meet their bounds. |
| SettingsSchema.HexColorIgnoresCase | lib/validators/settings.schema.ts:72-73 | A colour is valid exactly when its upper-cased or lower-cased form is. |
| SettingsSchema.ReportConfigurationIssues | lib/validators/settings.schema.ts:54-79 | A report configuration reports no issue exactly when its sections and custom sections are valid and both PDF colours are "#" plus six hex digits. |
| SettingsSchema.PaymentSettingsIssues | lib/validators/settings.schema.ts:112-123 | Payment settings report no issue exactly when the tax and VAT rates lie in [0,100] and the other fields meet their constraints. |
| SettingsSchema.UpperKeepsUtf16Length | lib/validators/settings.schema.ts:128 | Upper-casing keeps the length, so the length check before the transform still holds after it. |
| SettingsSchema.UpperIdempotent | lib/validators/settings.schema.ts:128 | Upper-casing twice equals upper-casing once. |
| SettingsSchema.DiscountCodeIssues | lib/validators/settings.schema.ts:127-135 | A discount code reports no issue exactly when the code has 1..50 units, the type is percentage or fixed, the value is non-negative, `maxUses` is absent or a whole number of at least 1, and the dates are datetimes. |
| SettingsSchema.ParseDiscountCode | lib/validators/settings.schema.ts:127-135 | The code is accepted exactly when it is valid. The accepted code is upper-cased and every other field is kept. A rejection carries at least one issue. |
| SettingsSchema.DiscountCodeNormalised | lib/validators/settings.schema.ts:127-135 | An accepted discount code comes out upper-cased, with no lower-case letter, the same length and every other field unchanged. Validating the output again accepts it unchanged. |
| SettingsSchema.AutomationRuleIssues | lib/validators/settings.schema.ts:161-174 | An automation rule reports no issue exactly when its priority is an integer in [0,100], it has at least one action, and the other fields are valid. |
| SettingsSchema.ActionsExact | lib/validators/settings.schema.ts:161-164 | The action list reports no issue exactly when every action has a non-empty type. |
| AuditRoute.HandleAudit | app/api/audit/route.ts:9-58 | The body is the started reply exactly when the status is 200. The status is 200 exactly when the body parsed to an object with email, industry and business name all non-empty, and 400 exactly when it parsed to an object with one of them empty. |
| AuditRoute.AuditMissingFieldRejected | app/api/audit/route.ts:14-19 | An empty email, industry or business name gives 400 with the missing-fields message. |
| AuditRoute.AuditAccepted | app/api/audit/route.ts:43-50 | Otherwise the reply is 200 with success, "Audit generation started", and a report id "report_free_" plus the timestamp's digits. |
| AuditRoute.AuditReportIdsDistinct | app/api/audit/route.ts:47 | Different timestamps give different report ids. |
| AuditRoute.AuditFailures | app/api/audit/route.ts:51-57 | A body that does not parse to an object gives 500. The status is always 200, 400 or 500. |
| LeadModel.LeadStatusesDistinct | lib/models/lead.ts:1-6 | The five lead statuses are distinct. |
| LeadModel.LeadSourcesDistinct | lib/models/lead.ts:30 | The four lead sources are distinct, in declaration order. |
| LeadModel.NumberOr | app/admin/leads/page.tsx:118 | JavaScript's falsy fallback: a present non-zero value is kept, and a missing or zero one gives the fallback. |
| LeadModel.StatusCountsSumToTotal | lib/models/lead.ts:1-6 | With every status in the union, the five per-status counts sum to the number of leads. |
| LeadsBoard.FilterLeads | app/admin/leads/page.tsx:69-80 | A lead is kept exactly when all three hold: the query is empty or a lower-cased substring of the name, email or phone; the source filter is "all" or the lead's source; the priority filter is "all" or the lead's priority. |
| LeadsBoard.FilterLeadsKeepsOrder | app/admin/leads/page.tsx:69-80 | Filtering a concatenation is the concatenation of the filtered parts, so relative order is kept. |
| LeadsBoard.SortLeadsCorrect | app/admin/leads/page.tsx:83-98 | The sorted list is a permutation of its input. "newest" gives createdAt non-increasing and "oldest" non-decreasing. "value" gives estimatedValue non-increasing and "lastContacted" lastContactedAt non-increasing, missing counting as 0. Any other key keeps the order. The sort is stable: leads with equal keys keep their input order. |
| SeqUtil.SortByStable | app/admin/leads/page.tsx:83-98 | For every key value, the elements with that key appear in the sorted list in the same order as in the input. |
| LeadsBoard.VisibleLeadsAreFiltered | app/admin/leads/page.tsx:69-98 | The shown leads are exactly the leads that pass the filter. |
| LeadsBoard.GroupedLeads | app/admin/leads/page.tsx:104-109 | There is one group per lead status. |
| LeadsBoard.GroupsPartition | app/admin/leads/page.tsx:104-109 | A lead is in a status group exactly when it is a filtered lead with that status. Grouping distributes over concatenation, so order is kept. |
| LeadsBoard.GroupSizesSumToTotal | app/admin/leads/page.tsx:104-109 | The five group sizes sum to the number of filtered leads. |
| LeadsBoard.Analytics | app/admin/leads/page.tsx:112-131 | The total is the number of leads and bounds the converted count. There is one status count per lead status, in order, each at most the total. |
| LeadsBoard.AnalyticsRate | app/admin/leads/page.tsx:112-114 | The total is the number of leads, the converted count is at most the total, and the conversion rate lies in [0,100]. |
| LeadsBoard.AnalyticsByStatus | app/admin/leads/page.tsx:128-131 | There is one count per status, in order. The "converted" count is the converted total, and with known statuses the counts sum to the total. |
| LeadsBoard.AnalyticsRevenue | app/admin/leads/page.tsx:115-120 | With non-negative values both sums are non-negative. Realised revenue is at most the sum of actual value, else estimated value, else 0, over all leads, and potential revenue at most the sum of estimated values. |
| LeadsBoard.MoveLead | app/admin/leads/page.tsx:154-167 | The updated list has the length of the old one. |
| LeadsBoard.MoveLeadChangesOnlyDragged | app/admin/leads/page.tsx:154-167 | Leads with another id are unchanged. The dragged lead gets the target status and `updatedAt = now`, and gets `convertedAt = now` only when moved to "converted" without one before. Every other field of it (id, name, email, phone, industry, source, priority, the two values, the creation and last-contact times) is kept. |
| LeadsBoard.MoveLeadTouchesOneRecord | app/admin/leads/page.tsx:154-167 | With unique ids, every lead other than the dragged one is unchanged. |
| LeadsBoard.MoveLeadKeepsKnownStatuses | app/admin/leads/page.tsx:154-167 | Moving to a column status keeps every status in the union. |
| LeadsBoard.ResolveTarget | app/admin/leads/page.tsx:141-151 | A column id resolves to itself. Any resolved target is a lead status. |
| LeadsBoard.DropOnCardAsWritten | app/admin/leads/page.tsx:141-167 | As written, dropping onto another card writes that card's lead id into the dragged lead's status, which is then outside the status union. |
| LeadsBoard.DropOnCardResolved | app/admin/leads/page.tsx:141-151 | Dropping onto a card resolves to the status of the card's lead. |
| LeadsBoard.FindUnique | app/admin/leads/page.tsx:145 | With unique ids, finding by a lead's id gives that lead. |
| LeadsBoard.LeadBoard.constructor | app/admin/leads/page.tsx:49-54 | The board starts with the initial leads and no active card. |
| LeadsBoard.LeadBoard.DragStart | app/admin/leads/page.tsx:137-139 | The active card becomes the dragged id, and the leads are unchanged. |
| LeadsBoard.LeadBoard.DragEnd | app/admin/leads/page.tsx:141-189 | The active card is cleared. With no target, an unknown lead or the same status, nothing changes and no PATCH is sent. Otherwise the PATCH carries the resolved status and the list becomes the moved list, or the initial leads when the PATCH fails. |
| LeadsBoard.LeadBoard.OnUpdate | app/admin/leads/page.tsx:409-413 | The list becomes the old list with the lead of the same id replaced. |
| LeadsBoard.ReplaceById | app/admin/leads/page.tsx:409-413 | The length is kept, and known statuses stay known. |
| LeadsBoard.ReplaceByIdExact | app/admin/leads/page.tsx:409-413 | Exactly the lead with the matching id is replaced. Every other lead is unchanged, an unknown id changes nothing, and ids stay unique. |
| DealsPage.OrZero | app/admin/deals/page.tsx:9-11 | The falsy-to-zero fallback: a missing or zero number gives 0, and a present one is kept. |
| DealsPage.DealRevenue | app/admin/deals/page.tsx:7-14 | A percentage deal earns price times commission/100 times redemptions. A fixed deal earns commission times redemptions, with missing values as 0. Any other type, or zero redemptions, earns 0, and revenue is non-negative for non-negative inputs. |
| DealsPage.Stats | app/admin/deals/page.tsx:18-22 | The total is the number of deals, and the active, paused and archived counts are each at most the total. |
| DealsPage.StatsProperties | app/admin/deals/page.tsx:18-22 | Active, paused and archived counts sum to the total given the status union. The total revenue is non-negative for non-negative deals and is additive over concatenation, so it is the sum of the per-deal revenues. |
| PaymentsPage.FilterPayments | app/admin/payments/page.tsx:99-111 | A payment is kept exactly when the status filter is "all" or equal, and the query is empty or matches the payment id or the linked lead's name or email. |
| PaymentsPage.ReviewShowsFailed | app/admin/payments/page.tsx:257 | After "Review" sets the filter to "failed", only failed payments remain. With an empty query they are all the failed payments. |
| PaymentsPage.Analytics | app/admin/payments/page.tsx:115-148 | The completed, pending and failed counts are each at most the number of payments. |
| PaymentsPage.PaymentCountsSumToTotal | app/admin/payments/page.tsx:124-126 | Completed, pending and failed counts sum to the number of payments, given the status union. |
| PaymentsPage.MonthlyRevenueBounded | app/admin/payments/page.tsx:116-132 | For non-negative amounts the last-30-days revenue lies between 0 and the total completed revenue. |
| AuditsPage.FilterReports | app/admin/audits/page.tsx:51-61 | A report is kept exactly when the query matches the business name or industry (case-insensitive substring), and the status and type filters are "all" or equal. |
| AuditsPage.OpenFiltersShowAll | app/admin/audits/page.tsx:51-61 | With an empty query and both filters "all", every report is shown in order. |
| AuditsPage.Analytics | app/admin/audits/page.tsx:65-79 | Revenue is 500 per paid blueprint. The free-audit and blueprint counts are each at most the number of reports. |
| AuditsPage.AnalyticsProperties | app/admin/audits/page.tsx:64-70 | Revenue is 500 per blueprint. Pending plus delivered is at most the number of reports. Free audits plus blueprints equal the number of reports, given the type union. |
| ReportModel.Blueprints | lib/models/reports.ts:63 | The blueprint count is at most the number of reports. |
| ReportModel.KindCountsSumToTotal | lib/models/reports.ts:63 | Given the type union, snapshot and blueprint counts sum to the number of reports. |
| AnalyticsPage.Funnel | app/admin/analytics/page.tsx:24-42 | There are four stages. The first counts every lead and has no drop-off, and each later drop-off is the previous count minus its own. |
| AnalyticsPage.FunnelIsNested | app/admin/analytics/page.tsx:24-41 | Converted, qualified, contacted and total counts are nested. Every drop-off is non-negative, and the drop-offs sum to total minus converted. |
| AnalyticsPage.SourcePerformance | app/admin/analytics/page.tsx:43-61 | There is one row per source. |
| AnalyticsPage.SourceRowFacts | app/admin/analytics/page.tsx:45-59 | Row i is the i-th source. It counts that source's leads, has at most as many conversions as leads, and has revenue 500 per conversion. It is non-empty exactly when some lead has that source. |
| AnalyticsPage.SourceRowsCoverAllLeads | app/admin/analytics/page.tsx:43-61 | With every source in the union, the four row counts sum to the number of leads. |
| AnalyticsPage.ActiveSources | app/admin/analytics/page.tsx:165 | At most four sources are active. |
| AnalyticsPage.ActiveSourcesBounds | app/admin/analytics/page.tsx:165 | No leads means no active source. Any lead with a known source makes at least one active. |
| AnalyticsPage.Industries | app/admin/analytics/page.tsx:64 | The industry list is duplicate-free. It holds exactly the non-empty industries of the leads. |
| AnalyticsPage.FirstIndex | app/admin/analytics/page.tsx:64 | The position of the first lead naming an industry: that lead names it and no earlier one does, or the end of the list when no lead does. |
| AnalyticsPage.IndustriesFirstAppearanceOrder | app/admin/analytics/page.tsx:64 | The industries are listed in the insertion order of the `Set`: each one is first named by a lead before the next one is. |
| AnalyticsPage.UnsortedRows | app/admin/analytics/page.tsx:65-77 | There is one row per distinct industry. |
| AnalyticsPage.SameRows | app/admin/analytics/page.tsx:63-79 | The industry table is the unsorted rows sorted by lead count: a permutation of them, and sorted. The sort is stable: rows with equal lead counts keep their unsorted order. |
| AnalyticsPage.IndustryRowsOrdered | app/admin/analytics/page.tsx:78 | There is one row per industry, with lead counts non-increasing. |
| AnalyticsPage.IndustryRowsCorrect | app/admin/analytics/page.tsx:65-77 | Every row is the row computed for its industry, has at least one lead, and names a listed industry. |
| AnalyticsPage.IndustryRowsCoverIndustries | app/admin/analytics/page.tsx:63-79 | Every distinct industry has a row. |
| AnalyticsPage.RevenueAttribution | app/admin/analytics/page.tsx:98-110 | Total attributed revenue is 500 per blueprint report. Per-source revenue is 500 per converted lead of that source, for the four sources in order. |
| AdminDashboard.TopKpis | app/admin/page.tsx:32-51 | The total is the number of leads and bounds the converted count. Paid blueprints are at most the number of reports, and revenue is 500 per paid blueprint. |
| AdminDashboard.KpiBounds | app/admin/page.tsx:32-51 | New leads in 7 days are at most new leads in 30 days, which are at most the total. Converted leads are at most the total. Revenue is 500 per paid blueprint, and active audits are at most the number of reports. |
| AdminDashboard.PipelineStages | app/admin/page.tsx:56-62 | There are five pipeline stages. |
| AdminDashboard.PipelineSumsToTotal | app/admin/page.tsx:56-62 | With known statuses the stage counts sum to the number of leads. |
| AdminDashboard.StaleCharacterised | app/admin/page.tsx:67-72 | A lead never contacted is stale exactly when it is contacted or qualified. Otherwise it is stale exactly when the last contact is over 7 days old and the lead is neither converted nor lost. |
| AdminDashboard.HotLeads | app/admin/page.tsx:76 | Hot leads are exactly the leads with priority "hot" that are neither converted nor lost. |
| AdminDashboard.AllCaughtUpIff | app/admin/page.tsx:245 | "All caught up" shows exactly when there is no stale lead, no draft report and no hot open lead. |
| EmailRegex.ValidEmailIffRegex | app/wizard/page.tsx:92-95 | The structural reading of the email check (one '@', non-empty parts without whitespace, a dot with text on both sides in the domain) holds exactly when the regular expression matches. |
| EmailRegex.RegexImpliesValid | app/wizard/page.tsx:94 | A match of the pattern has the structure. |
| EmailRegex.ValidImpliesRegex | app/wizard/page.tsx:94 | The structure gives a match of the pattern. |
| EmailRegex.ValidEmailHasOneAt | app/wizard/page.tsx:94 | An accepted email has exactly one '@'. |
| EmailRegex.EmptyIsNotAnEmail | app/page.tsx:33-36 | The empty string is not an email. |
| Wizard.WithText | app/wizard/page.tsx:241-320 | Setting one text answer changes that answer only. |
| Wizard.Toggle | app/wizard/page.tsx:79-89 | A present value is removed (every occurrence) and an absent one appended at the end. No other value's membership changes. |
| Wizard.ToggleKeepsNoDuplicates | app/wizard/page.tsx:79-89 | Toggling keeps a duplicate-free list duplicate-free. |
| Wizard.ToggleTwiceRestores | app/wizard/page.tsx:83-88 | Toggling an absent value twice gives back the original list. |
| Wizard.ProgressMessage | app/wizard/page.tsx:111-119 | The message is non-empty exactly for steps 1..6. |
| Wizard.ProgressPercentage | app/wizard/page.tsx:73-74 | For steps 1..6 the progress lies in (0,100], and it is 100 exactly at step 6. |
| Wizard.EmailError | app/wizard/page.tsx:98-109 | No error exactly for a valid email. An empty input gives "Email is required", and any other invalid one "Please enter a valid email address". |
| Wizard.OkJson | app/wizard/page.tsx:152-156 | A JSON body is used exactly when the reply is 2xx and parsed to a value. |
| Wizard.Submit | app/wizard/page.tsx:121-201 | An error is shown exactly when no request is sent, and at most two requests are sent. Navigation excludes both the alert and the step advance, and the step advances only for a choice other than the full report. |
| Wizard.SubmitChecksEmailFirst | app/wizard/page.tsx:121-125 | An invalid email only sets the error: no request, no navigation, no alert, no step change. A valid one clears the error and sends at least one request. |
| Wizard.SubmitPaidFlow | app/wizard/page.tsx:131-176 | The full report first posts the lead with the entered email. If the lead reply is not usable, the user is alerted and nothing else is sent. Otherwise one payment of 500 USD is requested for a "report_blueprint_" plus clock report id and the returned lead id (or "lead_" plus clock). |
| Wizard.SubmitFreeFlow | app/wizard/page.tsx:186-200 | The free or later choice sends exactly the audit request and never navigates. It advances a step unless the request fails, in which case it alerts. |
| Wizard.SubmitNavigatesOnlyAfterPayment | app/wizard/page.tsx:177-185 | The browser navigates only for a full report after usable lead and payment replies. It goes to the payment URL when one is given, else to a "/payments/" path. |
| Wizard.SubmitOneOutcome | app/wizard/page.tsx:121-201 | With a valid email exactly one of navigate, advance or alert happens. |
| Wizard.WizardPage.constructor | app/wizard/page.tsx:55-71 | The wizard starts at step 1 with empty answers and no error. |
| Wizard.WizardPage.SetText | app/wizard/page.tsx:241-320 | An input on its own step sets that answer only. Typing the email clears the error. |
| Wizard.WizardPage.ToggleArrayValue | app/wizard/page.tsx:79-89 | The chosen list is toggled and the other list is unchanged. |
| Wizard.WizardPage.ChooseReportType | app/wizard/page.tsx:530-645 | The report type is set and nothing else changes. |
| Wizard.WizardPage.Continue | app/wizard/page.tsx:76 | The step advances by one exactly when Continue is enabled: step 1 needs industry and business name, and step 4 a report type other than "later". Otherwise nothing changes. |
| Wizard.WizardPage.Back | app/wizard/page.tsx:77 | The step goes back by one and the answers are kept. |
| Wizard.WizardPage.ValidateEmailWithError | app/wizard/page.tsx:98-109 | It returns true exactly for a valid email. The shown error is the one for that input, and nothing else changes. |
| Wizard.WizardPage.SubmitAudit | app/wizard/page.tsx:121-201 | The outcome is the submission function of the answers and replies. The shown error is its error, the answers are kept, and the step advances exactly when the submission advances. |
| LandingPage.EmailChangeError | app/page.tsx:38-47 | The error is cleared exactly for an empty or valid value, and is the invalid-address message otherwise. |
| LandingPage.SubmitLocation | app/page.tsx:54-71 | The page navigates exactly when the business name and email are non-empty and the email is valid. It then goes to a "/wizard?" URL. |
| LandingPage.FormEncodeHasNoDelimiters | app/page.tsx:64-69 | A form-encoded value holds neither '&' nor '='. |
| LandingPage.PairSplits | app/page.tsx:64-69 | One encoded pair splits on '=' back into its encoded name and value. |
| LandingPage.SearchParamsSplit | app/page.tsx:64-69 | A serialised parameter list splits on '&' into its pairs in order, and each pair splits into its encoded name and value. |
| LandingPage.WizardQueryCarriesAnswers | app/page.tsx:63-70 | The wizard query has four parameters carrying industry, business name, website and email under their own names. |
| LandingPage.Landing.constructor | app/page.tsx:25-30 | The page starts at step 1 with empty answers and no error or navigation. |
| LandingPage.Landing.HandleStart | app/page.tsx:49-52 | The chosen industry is stored and the page moves to step 2. |
| LandingPage.Landing.SetBusinessName | app/page.tsx:154 | The business name is stored and nothing else changes. |
| LandingPage.Landing.SetWebsite | app/page.tsx:164 | The website is stored and nothing else changes. |
| LandingPage.Landing.HandleEmailChange | app/page.tsx:38-47 | The email is stored. The error is set exactly when it is non-empty and invalid, and cleared otherwise. |
| LandingPage.Landing.HandleSubmit | app/page.tsx:54-71 | A missing name or email does nothing. An invalid email only shows the error, which is the one typing it had already shown. Otherwise the browser goes to the wizard URL with the answers. The error on screen is always the one the current email gives. |
| Middleware.RoleOf | middleware.ts:92 | The role is the profile's non-empty role, or "user" when the profile or its role is missing. |
| Middleware.Decide | middleware.ts:12-120 | Without Supabase settings every request passes. Without a session a request passes exactly when its path is public, and is otherwise redirected to /login with `redirect` = the path. A redirect without that parameter happens only with a session. |
| Middleware.Guard | middleware.ts:123-134 | Only a path the matcher admits can be redirected, and only with Supabase configured. On such a path without a session, a request passes exactly when the path is public. A path the matcher leaves out always passes. |
| Middleware.ImagePathSkipsAdminGuard | middleware.ts:123-134 | "/admin/x.png" is left out by the matcher and reaches the server without a session, although the middleware would send it to /login. |
| Middleware.PagePathsRunMiddleware | middleware.ts:123-134 | The matcher admits page paths such as /admin, /login and /partner/deals. |
| Middleware.RootRouteMatches | middleware.ts:61-74 | The route "/" matches only "/" and paths starting with "//". |
| Middleware.ProtectedAreasNotPublic | middleware.ts:61-74 | No path under /admin, /partner or /dashboard is public. |
| Middleware.AdminAreaGuard | middleware.ts:95-99 | The middleware lets a path with prefix "/admin" through exactly for a session with role admin or super_admin, and sends any other signed-in role to /unauthorized. A request meets that check exactly when the matcher admits its path. |
| Middleware.PartnerAreaGuard | middleware.ts:102-106 | The middleware lets a path with prefix "/partner" through exactly for a session with role partner, so administrators are also sent to /unauthorized. A request meets that check exactly when the matcher admits its path. |
| Middleware.SignedInAuthPages | middleware.ts:109-117 | A signed-in user on /login or /signup is sent to the home of their role. |
| Middleware.MissingProfileIsUser | middleware.ts:92-106 | With no profile row the role is "user", which reaches neither the admin nor the partner area. |
| AuthCallback.RoleHome | app/auth/callback/route.ts:74-81 | admin and super_admin go to /admin, partner to /partner, and any other role to /dashboard. |
| AuthCallback.HandleCallback | app/auth/callback/route.ts:5-89 | A profile is written exactly when a code was exchanged for a user, and it is an insert exactly when the profile is missing. After a write the redirect is the home of the profile role. Without one it is /login or the authentication-failed page. |
| AuthCallback.CallbackFailures | app/auth/callback/route.ts:9-40 | No code, or an exchange without a user, redirects to /login. A failed exchange redirects to the authentication-failed login page. None of these writes a profile. |
| AuthCallback.CallbackSignedIn | app/auth/callback/route.ts:40-83 | A missing profile is inserted with role "user" and status "active", and the user goes to /dashboard. An existing profile only gets its last login updated, and the redirect follows its role. |
| AuthCallback.CallbackRedirectTargets | app/auth/callback/route.ts:33-88 | The redirect is always one of five fixed paths. |
| UnauthorizedPage.GetRedirectPath | app/unauthorized/page.tsx:12-17 | The link always points to /admin, /partner or /dashboard. |
| UnauthorizedPage.SameMappingAsCallback | app/unauthorized/page.tsx:12-17 | The link follows the same role mapping as the OAuth callback and the middleware's login-page redirect, with a missing profile counted as "user". |
| UnauthorizedPage.LinkFollowsRoleChecks | app/unauthorized/page.tsx:13-15 | The link points to /admin exactly when `isAdmin` holds, and to /partner exactly when `isPartner` holds. |
| UseAuth.RoleList | hooks/use-auth.ts:51 | A single role is treated as a one-element list, and a list is used as is. |
| UseAuth.UserHasRole | hooks/use-auth.ts:49-53 | There is no role without a user or profile. Otherwise a role holds exactly when the profile role is in the list. |
| UseAuth.AuthState.constructor | hooks/use-auth.ts:14-15 | The hook starts with no user, loading. |
| UseAuth.AuthState.SetCurrentUser | hooks/use-auth.ts:18-36 | The user becomes what the auth service reports, and loading ends. |
| UseAuth.AuthState.SignOut | hooks/use-auth.ts:43-47 | When the auth service signs out, the user is cleared and the browser goes to /login. When it throws, the user is kept and the error propagates. Loading is unchanged. |
| UseAuth.AuthState.HasRole | hooks/use-auth.ts:49-53 | `hasRole` on the hook's user. |
| UseAuth.AuthState.IsAdmin | hooks/use-auth.ts:55-57 | True exactly when the profile role is admin or super_admin. |
| UseAuth.AuthState.IsPartner | hooks/use-auth.ts:59-61 | True exactly when the profile role is partner. |
| UseAuth.AuthState.IsAuthenticated | hooks/use-auth.ts:70 | True exactly when there is a user. |
| UseAuth.SignOutClearsRoles | hooks/use-auth.ts:43-70 | After a successful sign-out the user is not authenticated and no role check holds. After a failed one every role check answers as before. |
| UseAuth.RoleChecksAgree | hooks/use-auth.ts:49-61 | A single role and its one-element list give the same answer. No user is both an administrator and a partner. |

## Left out

- The CORS `OPTIONS` handlers of the three payment routes, `NextResponse` construction and JSON request parsing. A body is an input that either parsed or did not.
- `fetch`, the Supabase client (lib/supabase/server.ts, lib/auth/supabase-auth.ts), the middleware cookie adaptors (middleware.ts:23-48) and the profile queries are opaque calls. Their answers are parameters of the handlers and methods.
- Console logging, and the webhook handlers' bodies, which only log. Session persistence, report unlock, emails, signature verification and the status reconciliation exist only as comments. The intended event-to-status mapping is modelled separately as `WebhookRoute.IntendedStatus`.
- `AnalyticsPage` computes each industry row's lead and conversion counts but not its `conversionRate` and `avgValue` strings (app/admin/analytics/page.tsx:67-70), which are `toFixed` renderings of floating-point quotients.
- `Middleware.MiddlewareRuns` reads the `config.matcher` pattern as a regular expression on the pathname. How Next.js compiles matchers beyond that (locale prefixes, data routes) is not modelled.
- `LeadModel.Lead` holds only the fields the modelled pages read. `partnerId`, `dealId`, `company`, `website`, `message`, `nextFollowUpAt` and `notes` (lib/models/lead.ts:13-45) are left out; the updates copy them unchanged with a spread, as they do the modelled fields.
- `LeadsBoard` does not model the column totals `statusValue` (app/admin/leads/page.tsx:323-326), a display-only sum of estimated values per status column.
- Floating point: amounts are `real`. `toLocaleString`, `parseFloat` and the rendered percentage and conversion-rate strings are not modelled. `toFixed(2)` is modelled as rounding half up to cents, which can differ from binary floating point on ties.
- `LeadsBoard.AnalyticsRate` states the bounds of the conversion rate, not its rendered string.
- `DealsPage.DealRevenue`: a percentage deal without `commissionValue` evaluates to NaN in JavaScript. The model takes 0 there, and its contract states the percentage formula only when `commissionValue` is present.
- `JsText.Lower` and `JsText.Upper` map ASCII letters only. JavaScript's full Unicode case mapping, which can change a string's length, is not modelled.
- The zod string formats (email, url, uuid, datetime) are predicate parameters, not implementations. The industry-configuration schema, the integration schema and the custom-metric schema of lib/validators/settings.schema.ts are not part of this model.
- The `timeMetrics` of `AnalyticsPage` (app/admin/analytics/page.tsx:82-96: days between creation and conversion, a floating-point average), the mock data files, app/admin/reports/page.tsx (it reads fields the `Report` type does not have), app/api/leads/route.ts (a wrapper over a mock module not present here), and scripts/* (live network checks) are not part of this model.
- `LeadsBoard` sorts on values: the copy-then-sort-in-place of the page is modelled as a stable insertion sort on a sequence, matching the stability that `Array.prototype.sort` has had since ES2019. The in-place update of the copied array is not modelled.
- `CreatePaymentRoute.ExponentForm` writes the exact decimal digits of the amount's integer part. JavaScript writes the shortest digits that identify the double, which can differ; floating point is not modelled.
- `Wizard.Submit` takes a single clock reading for both `Date.now()` calls of the paid path (app/wizard/page.tsx:156-158). The two calls run within one synchronous block.
- `Wizard.WizardPage` and `LandingPage.Landing`: the `loading` flag is always false between handler calls, because handlers are modelled as completing before the next one starts. Concurrent submissions are not modelled. Each input handler requires the step on which the page renders it.
- The wizard does not read the landing page's query string: app/wizard/page.tsx starts from empty answers, and so does the model.
- `AuthCallback.HandleCallback` writes only the id, role and status of a new profile row. The email, name, avatar and login time it also stores come from the auth provider and are not modelled.
- `UseAuth.AuthState.SetCurrentUser` stands for both the initial `getCurrentUser()` and the auth-state subscription. The subscription and its clean-up are not modelled.
- The token cache is modelled sequentially. Concurrent refreshes are not modelled.

## Findings

| source | as written | input that shows it | evidently intended | confidence | as-written member | corrected member |
|---|---|---|---|---|---|---|
| lib/paxum/client.ts:135-145 | the status table lookup with a "pending" fallback looks the provider status up in a plain object literal, so inherited `Object.prototype` members are found too | provider status "toString" (or "constructor", "valueOf") yields a function instead of a status name | every status outside the five constants maps to "pending" | not executed | PaxumClient.MapPaxosStatusAsWrittenDiverges | PaxumClient.MapPaxosStatusIsTableLookup |
| app/admin/leads/page.tsx:141-167 | the drop target id `over.id` is written into the lead's `status`; cards are droppable too (`useSortable` in app/admin/leads/components/LeadCard.tsx:38), so the target can be another lead's id | drag lead A onto the card of lead B: A's status becomes B's id, outside the status union, and A disappears from every column | a drop on a card moves the lead to that card's column | not executed | LeadsBoard.DropOnCardAsWritten | LeadsBoard.DropOnCardResolved |
