/** The Paxos API client of lib/paxum/client.ts: the status lookup table, the
    normalisation of a statement list into a single payment, the `ref_ids[]`
    query string, and the three authenticated requests, each of which throws
    on a non-OK reply. */
module PaxumClient {
  import opened Outcomes
  import opened JsText
  import opened PaymentModel
  import opened PaxumToken

  const SandboxBaseUrl: string := "https://api.sandbox.paxos.com/v2"

  /** PAXUM_API_BASE_URL ("" for unset) with the sandbox fallback. */
  function ApiBaseUrl(configured: string): string {
    if configured == "" then SandboxBaseUrl else configured
  }

  lemma ApiBaseUrlDefault(configured: string)
    ensures configured == "" ==> ApiBaseUrl(configured) == SandboxBaseUrl
    ensures configured != "" ==> ApiBaseUrl(configured) == configured
  {
  }

  // ---------------------------------------------------------------------------
  // mapPaxosStatus
  // ---------------------------------------------------------------------------

  /** The provider's status constants and the internal names they stand for. */
  const PaxosStatusTable: map<string, string> := map[
    "PAYMENT_STATUS_PENDING" := "pending",
    "PAYMENT_STATUS_PROCESSING" := "processing",
    "PAYMENT_STATUS_COMPLETED" := "completed",
    "PAYMENT_STATUS_FAILED" := "failed",
    "PAYMENT_STATUS_CANCELLED" := "cancelled"]

  /** `mapPaxosStatus`, reading only the table's own five entries; anything
      else is "pending". The result is always an internal status other than
      "expired". */
  function MapPaxosStatus(paxosStatus: string): (status: string)
    ensures status in StatusNames && status != "expired"
  {
    if paxosStatus == "PAYMENT_STATUS_PENDING" then "pending"
    else if paxosStatus == "PAYMENT_STATUS_PROCESSING" then "processing"
    else if paxosStatus == "PAYMENT_STATUS_COMPLETED" then "completed"
    else if paxosStatus == "PAYMENT_STATUS_FAILED" then "failed"
    else if paxosStatus == "PAYMENT_STATUS_CANCELLED" then "cancelled"
    else "pending"
  }

  /** The mapping is exactly a lookup in the table with "pending" as default. */
  lemma MapPaxosStatusIsTableLookup(paxosStatus: string)
    ensures paxosStatus in PaxosStatusTable ==> MapPaxosStatus(paxosStatus) == PaxosStatusTable[paxosStatus]
    ensures paxosStatus !in PaxosStatusTable ==> MapPaxosStatus(paxosStatus) == "pending"
  {
  }

  /** The names inherited by every object literal from `Object.prototype`. */
  const PrototypeKeys: set<string> := {
    "constructor", "__proto__", "hasOwnProperty", "isPrototypeOf", "propertyIsEnumerable",
    "toString", "toLocaleString", "valueOf", "__defineGetter__", "__defineSetter__",
    "__lookupGetter__", "__lookupSetter__"}

  /** What `statusMap[k]` reads on a plain object literal: one of its own
      string values, or a member inherited from `Object.prototype` (a function,
      or the prototype itself for "__proto__"), all of them truthy. */
  datatype LookupValue = OwnString(text: string) | InheritedMember(key: string)

  /** `statusMap[paxosStatus] || "pending"` exactly as written. */
  function MapPaxosStatusAsWritten(paxosStatus: string): LookupValue {
    if paxosStatus in PaxosStatusTable then OwnString(PaxosStatusTable[paxosStatus])
    else if paxosStatus in PrototypeKeys then InheritedMember(paxosStatus)
    else OwnString("pending")
  }

  /** Off the prototype's names the code as written agrees with the intended
      mapping; a provider status "toString" instead yields a function where a
      status string is declared. */
  lemma MapPaxosStatusAsWrittenDiverges(paxosStatus: string)
    ensures paxosStatus !in PrototypeKeys ==> MapPaxosStatusAsWritten(paxosStatus) == OwnString(MapPaxosStatus(paxosStatus))
    ensures MapPaxosStatusAsWritten("toString") == InheritedMember("toString")
    ensures MapPaxosStatus("toString") == "pending"
  {
  }

  // ---------------------------------------------------------------------------
  // Normalisation of a statement list
  // ---------------------------------------------------------------------------

  /** One statement entry in the shape of a created payment. */
  function NormaliseEntry(e: PaxosStatementEntry): (p: PaxosPaymentResponse)
    ensures p.id == e.id && p.refId == e.refId && p.createdAt == e.createdAt
    ensures p.amount == e.paymentAmount && p.status == e.paymentStatus
    ensures p.currency == "USD" && p.paymentUrl.None?
  {
    PaxosPaymentResponse(e.id, e.refId, e.paymentAmount, "USD", e.paymentStatus, None, e.createdAt)
  }

  /** The payment `getPaxosPaymentByRefId` returns for a parsed list: none
      exactly when `payments` is absent or empty, else the first entry. */
  function FirstPayment(list: PaxosPaymentList): (r: Option<PaxosPaymentResponse>)
    ensures r.None? <==> (list.payments.None? || |list.payments.value| == 0)
  {
    if list.payments.Some? && |list.payments.value| > 0 then Some(NormaliseEntry(list.payments.value[0]))
    else None
  }

  /** The fields of the returned payment: identifiers, amount, status and
      creation time come from the first entry; the currency is always "USD"
      and there is no payment URL. */
  lemma FirstPaymentFields(list: PaxosPaymentList)
    requires list.payments.Some? && |list.payments.value| > 0
    ensures var e := list.payments.value[0];
            var p := FirstPayment(list).value;
            && p.id == e.id && p.refId == e.refId && p.createdAt == e.createdAt
            && p.amount == e.paymentAmount && p.status == e.paymentStatus
            && p.currency == "USD" && p.paymentUrl.None?
  {
  }

  // ---------------------------------------------------------------------------
  // Query strings
  // ---------------------------------------------------------------------------

  /** `ref_ids[]=<encoded id>`. */
  function RefIdParam(refId: string): string {
    "ref_ids[]=" + EncodeUriComponent(refId)
  }

  /** The query of `listPaxosPayments`: one parameter per id, in order, joined by '&'. */
  function RefIdsQuery(refIds: seq<string>): string {
    Join(seq(|refIds|, i requires 0 <= i < |refIds| => RefIdParam(refIds[i])), '&')
  }

  lemma NoAmpersandInParam(refId: string)
    ensures '&' !in RefIdParam(refId)
  {
    var p := RefIdParam(refId);
    var e := EncodeUriComponent(refId);
    assert p == "ref_ids[]=" + e;
    forall k | 0 <= k < |p|
      ensures p[k] != '&'
    {
      if k >= 10 {
        assert p[k] == e[k - 10];
      }
    }
  }

  /** Splitting the query at '&' gives back one parameter per id, in input
      order: encoding never produces a '&'. */
  lemma RefIdsQueryParams(refIds: seq<string>)
    requires |refIds| >= 1
    ensures Split(RefIdsQuery(refIds), '&') == seq(|refIds|, i requires 0 <= i < |refIds| => RefIdParam(refIds[i]))
  {
    var params := seq(|refIds|, i requires 0 <= i < |refIds| => RefIdParam(refIds[i]));
    forall k | 0 <= k < |params|
      ensures '&' !in params[k]
    {
      NoAmpersandInParam(refIds[k]);
    }
    SplitJoin(params, '&');
  }

  /** The single-id lookup URL and the list URL with that one id agree. */
  lemma SingleLookupMatchesList(baseUrl: string, refId: string)
    ensures StatementsUrl(baseUrl, RefIdParam(refId)) == StatementsUrl(baseUrl, RefIdsQuery([refId]))
  {
    assert seq(1, i requires 0 <= i < 1 => RefIdParam([refId][i])) == [RefIdParam(refId)];
  }

  function StatementsUrl(baseUrl: string, query: string): string {
    baseUrl + "/statements/payments?" + query
  }

  // ---------------------------------------------------------------------------
  // Replies
  // ---------------------------------------------------------------------------

  const CreateAction: string := "create Paxos payment"
  const GetAction: string := "get Paxos payment"
  const ListAction: string := "list Paxos payments"

  function FailureMessage(action: string, status: nat, text: string): string {
    "Failed to " + action + ": " + NatToString(status) + " " + text
  }

  /** What a request returns or throws once its reply is in: a non-OK status
      throws the failure message, an OK one yields the parsed JSON body. */
  function ReplyOutcome<T>(action: string, reply: HttpReply<T>): (r: Outcome<T>)
    ensures r.Ok? ==> reply.Reply? && IsOkStatus(reply.status) && reply.json == Parsed(r.value)
    ensures reply.Reply? && IsOkStatus(reply.status) && reply.json.Parsed? ==> r == Ok(reply.json.value)
  {
    match reply
    case NetworkFailure(m) => Threw(Error(m))
    case Reply(status, text, json) =>
      if !IsOkStatus(status) then Threw(Error(FailureMessage(action, status, text)))
      else match json
        case Parsed(v) => Ok(v)
        case Unparsable(m) => Threw(Error(m))
  }

  /** A non-OK reply throws an Error whose message carries the status code. */
  lemma NonOkReplyThrowsStatus<T>(action: string, status: nat, text: string, json: Parsed<T>)
    requires !IsOkStatus(status)
    ensures var r := ReplyOutcome(action, Reply(status, text, json));
            r.Threw? && r.thrown.Error? && Contains(r.thrown.message, NatToString(status))
  {
    ContainsInfix("Failed to " + action + ": ", NatToString(status), " " + text);
    assert FailureMessage(action, status, text)
        == ("Failed to " + action + ": ") + NatToString(status) + (" " + text);
  }

  /** The single-payment lookup once its reply is in. */
  function LookupOutcome(reply: HttpReply<PaxosPaymentList>): (r: Outcome<Option<PaxosPaymentResponse>>)
    ensures r.Ok? <==> reply.Reply? && IsOkStatus(reply.status) && reply.json.Parsed?
    ensures r.Ok? ==> r.value == FirstPayment(reply.json.value)
    ensures r.Threw? ==> ReplyOutcome(GetAction, reply).Threw? && r.thrown == ReplyOutcome(GetAction, reply).thrown
  {
    match ReplyOutcome(GetAction, reply)
    case Ok(list) => Ok(FirstPayment(list))
    case Threw(t) => Threw(t)
  }

  // ---------------------------------------------------------------------------
  // The three requests
  // ---------------------------------------------------------------------------

  /** PAXUM_API_BASE_URL next to the token settings. */
  datatype ClientConfig = ClientConfig(token: TokenConfig, baseUrl: string)

  /** The clock readings and endpoint reply of the `getPaxumToken` call made first. */
  datatype TokenExchange = TokenExchange(now: int, reply: HttpReply<TokenResponse>, receivedAt: int)

  /** An authenticated request to the API. */
  datatype ApiRequest = ApiRequest(verb: string, url: string, authorization: string, body: Option<PaxosPaymentRequest>)

  function TokenCall(cache: Option<CachedToken>, cfg: ClientConfig, x: TokenExchange): TokenStep {
    GetTokenStep(cache, x.now, cfg.token, x.reply, x.receivedAt)
  }

  /** `createPaxosPayment`: a token, then a POST to /payments; the provider's
      body is returned unchanged. */
  method CreatePaxosPayment(tm: TokenManager, cfg: ClientConfig, x: TokenExchange,
                            request: PaxosPaymentRequest, reply: HttpReply<PaxosPaymentResponse>)
    returns (r: Outcome<PaxosPaymentResponse>, sent: Option<ApiRequest>)
    modifies tm
    ensures var t := TokenCall(old(tm.cache), cfg, x);
            && tm.cache == t.cache
            && (t.result.Threw? ==> r == Threw(t.result.thrown) && sent.None?)
            && (t.result.Ok? ==>
                  && sent == Some(ApiRequest("POST", ApiBaseUrl(cfg.baseUrl) + "/payments",
                                             "Bearer " + t.result.value, Some(request)))
                  && r == ReplyOutcome(CreateAction, reply))
  {
    var token, _ := tm.GetToken(x.now, cfg.token, x.reply, x.receivedAt);
    if token.Threw? {
      return Threw(token.thrown), None;
    }
    var baseUrl := ApiBaseUrl(cfg.baseUrl);
    sent := Some(ApiRequest("POST", baseUrl + "/payments", "Bearer " + token.value, Some(request)));
    r := ReplyOutcome(CreateAction, reply);
  }

  /** `getPaxosPaymentByRefId`: a token, then a statement lookup for one id. */
  method GetPaxosPaymentByRefId(tm: TokenManager, cfg: ClientConfig, x: TokenExchange,
                                refId: string, reply: HttpReply<PaxosPaymentList>)
    returns (r: Outcome<Option<PaxosPaymentResponse>>, sent: Option<ApiRequest>)
    modifies tm
    ensures var t := TokenCall(old(tm.cache), cfg, x);
            && tm.cache == t.cache
            && (t.result.Threw? ==> r == Threw(t.result.thrown) && sent.None?)
            && (t.result.Ok? ==>
                  && sent == Some(ApiRequest("GET", StatementsUrl(ApiBaseUrl(cfg.baseUrl), RefIdParam(refId)),
                                             "Bearer " + t.result.value, None))
                  && r == LookupOutcome(reply))
  {
    var token, _ := tm.GetToken(x.now, cfg.token, x.reply, x.receivedAt);
    if token.Threw? {
      return Threw(token.thrown), None;
    }
    var url := StatementsUrl(ApiBaseUrl(cfg.baseUrl), RefIdParam(refId));
    sent := Some(ApiRequest("GET", url, "Bearer " + token.value, None));
    r := LookupOutcome(reply);
  }

  /** `listPaxosPayments`: a token, then a statement lookup for all ids. */
  method ListPaxosPayments(tm: TokenManager, cfg: ClientConfig, x: TokenExchange,
                           refIds: seq<string>, reply: HttpReply<PaxosPaymentList>)
    returns (r: Outcome<PaxosPaymentList>, sent: Option<ApiRequest>)
    modifies tm
    ensures var t := TokenCall(old(tm.cache), cfg, x);
            && tm.cache == t.cache
            && (t.result.Threw? ==> r == Threw(t.result.thrown) && sent.None?)
            && (t.result.Ok? ==>
                  && sent == Some(ApiRequest("GET", StatementsUrl(ApiBaseUrl(cfg.baseUrl), RefIdsQuery(refIds)),
                                             "Bearer " + t.result.value, None))
                  && r == ReplyOutcome(ListAction, reply))
  {
    var token, _ := tm.GetToken(x.now, cfg.token, x.reply, x.receivedAt);
    if token.Threw? {
      return Threw(token.thrown), None;
    }
    var query := RefIdsQuery(refIds);
    sent := Some(ApiRequest("GET", StatementsUrl(ApiBaseUrl(cfg.baseUrl), query), "Bearer " + token.value, None));
    r := ReplyOutcome(ListAction, reply);
  }
}
