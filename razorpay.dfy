/**
 * The subscription lifecycle handler (supabase/functions/razorpay/index.ts): one HTTP
 * invocation authenticates the caller, talks to the payment provider and reads or writes
 * the `subscriptions` table. This module holds the values the handler works on and, for
 * each step, a pure function giving the new store and the response. The class in
 * razorpay_service.dfy runs the same steps imperatively against its own fields.
 */
module Razorpay {
  import opened Wrappers
  import Js
  import Hex

  type UserId = string

  datatype Status = Pending | Active

  /** One row of `subscriptions`; the period columns stay empty until a payment is verified. */
  datatype Record = Record(
    subscriptionId: string,
    planId: string,
    status: Status,
    periodStart: Option<int>,
    periodEnd: Option<int>)

  /** A plan in the provider's catalogue: its id and its `item` name, amount (paise) and currency. */
  datatype Plan = Plan(id: string, name: string, amount: int, currency: string)

  /** What one invocation can see: the table, keyed on `user_id`, and the provider's plans. */
  datatype Store = Store(subscriptions: map<UserId, Record>, plans: seq<Plan>)

  const PlanName: string := "Meal Plan Pro"
  const PlanAmount: int := 100
  const PlanCurrency: string := "INR"

  /** Thirty days in milliseconds: the period a verified payment grants. */
  const PeriodMs: int := 30 * 24 * 60 * 60 * 1000

  /** An HMAC-SHA256 tag: 32 bytes. */
  type Digest = s: seq<Hex.byte> | |s| == 32 witness seq(32, _ => 0)

  /**
   * Process configuration: the provider's key id and key secret ("" when the variable is
   * unset) and HMAC-SHA256 (RFC 2104 over FIPS 180-4 SHA-256) of a key and a message,
   * both taken as UTF-8 text. The HMAC is a parameter: its internals are not modelled.
   */
  datatype Config = Config(keyId: string, keySecret: string, hmac: (string, string) -> Digest)

  /**
   * The fields of the JSON body. `userId` is whatever the client sends; the handler never
   * destructures it, and the lemmas show that it cannot influence anything.
   */
  datatype Body = Body(
    action: Option<string>,
    subscriptionId: Option<string>,
    paymentId: Option<string>,
    signature: Option<string>,
    userId: Option<string>)

  /** `req.json()`: a parsed body, or the parser's error message. */
  datatype Payload = Json(body: Body) | Malformed(message: string)

  datatype Request = Request(httpMethod: string, authorization: Option<string>, payload: Payload)

  /** The provider's answer to a POST that creates a plan or a subscription. */
  datatype Reply = Created(id: string) | Rejected(description: string)

  /**
   * What the external services answer during one invocation: the tokens the identity
   * service resolves, whether the plan listing carried `items`, the two creation replies,
   * whether the upsert or the update reports an error, and the message of a failed select.
   */
  datatype Env = Env(
    identity: map<string, UserId>,
    plansListed: bool,
    planCreation: Reply,
    subscriptionCreation: Reply,
    upsertFails: bool,
    updateFails: bool,
    selectError: Option<string>)

  datatype ResponseBody =
    | NoBody
    | ErrorBody(error: string)
    | PlanBody(plan: Plan)
    | SubscriptionBody(subscriptionId: string, keyId: string)
    | VerifiedBody
    | StatusBody(isSubscribed: bool, subscription: Option<Record>)

  datatype Response = Response(status: int, body: ResponseBody)

  /** What the top-level catch turns a thrown error into. */
  function ServerError(message: string): Response {
    Response(500, ErrorBody(message))
  }

  /** `data.error?.description || fallback`: the provider's words when it gave any. */
  function ProviderMessage(description: string, fallback: string): (m: string)
    ensures m == description || m == fallback
    ensures description != "" ==> m == description
    ensures m != "" <==> description != "" || fallback != ""
  {
    if description != "" then description else fallback
  }

  // ------------------------------------------------------------------ plans

  predicate IsCanonical(p: Plan) {
    p.name == PlanName && p.amount == PlanAmount
  }

  function CanonicalPlan(id: string): Plan {
    Plan(id, PlanName, PlanAmount, PlanCurrency)
  }

  predicate HasCanonical(plans: seq<Plan>) {
    exists k :: 0 <= k < |plans| && IsCanonical(plans[k])
  }

  predicate PlanExists(plans: seq<Plan>, id: string) {
    exists k :: 0 <= k < |plans| && plans[k].id == id
  }

  /** `items.find(p => p.item.name === "Meal Plan Pro" && p.item.amount === 100)`, as an index. */
  function FirstCanonical(plans: seq<Plan>): (k: Option<nat>)
    ensures k.Some? ==> k.value < |plans| && IsCanonical(plans[k.value])
    ensures k.Some? ==> forall j :: 0 <= j < k.value ==> !IsCanonical(plans[j])
    ensures k.None? <==> !HasCanonical(plans)
  {
    if plans == [] then None
    else if IsCanonical(plans[0]) then Some(0)
    else match FirstCanonical(plans[1..])
      case Some(j) => Some(j + 1)
      case None =>
        assert forall j :: 1 <= j < |plans| ==> plans[j] == plans[1..][j - 1];
        None
  }

  /**
   * Lines 97-131: reuse the first listed canonical plan, or create one. On success gives
   * the provider's plans afterwards and the plan id the subscription will use.
   */
  function ResolvePlan(plans: seq<Plan>, listed: bool, creation: Reply): (r: Result<(seq<Plan>, string), string>)
    ensures r.Success? ==> plans <= r.value.0 && PlanExists(r.value.0, r.value.1)
    ensures r.Success? && r.value.0 != plans ==> r.value.0 == plans + [CanonicalPlan(r.value.1)]
    ensures listed && HasCanonical(plans) ==>
      r == Success((plans, plans[FirstCanonical(plans).value].id))
    ensures !(listed && HasCanonical(plans)) ==>
      (r.Success? <==> creation.Created?) &&
      (creation.Created? ==> r.value == (plans + [CanonicalPlan(creation.id)], creation.id))
    ensures r.Failure? ==> r.error != ""
  {
    var found := if listed then FirstCanonical(plans) else None;
    if found.Some? then
      Success((plans, plans[found.value].id))
    else
      match creation
      case Created(id) =>
        var plans' := plans + [CanonicalPlan(id)];
        assert plans'[|plans|].id == id;
        Success((plans', id))
      case Rejected(d) => Failure(ProviderMessage(d, "Failed to create plan"))
  }

  // ------------------------------------------------------------ the table

  /**
   * `upsert({user_id, razorpay_subscription_id, razorpay_plan_id, status: "pending"},
   * { onConflict: "user_id" })`: the caller's row is replaced by a pending one; columns the
   * upsert does not write (the period) keep what the row had.
   */
  function Upsert(subs: map<UserId, Record>, user: UserId, subId: string, planId: string): (r: map<UserId, Record>)
    ensures r.Keys == subs.Keys + {user}
    ensures r[user].subscriptionId == subId && r[user].planId == planId && r[user].status == Pending
    ensures user in subs ==> r[user].periodStart == subs[user].periodStart && r[user].periodEnd == subs[user].periodEnd
    ensures user !in subs ==> r[user].periodStart.None? && r[user].periodEnd.None?
    ensures forall u :: u in subs && u != user ==> r[u] == subs[u]
  {
    var start := if user in subs then subs[user].periodStart else None;
    var end := if user in subs then subs[user].periodEnd else None;
    subs[user := Record(subId, planId, Pending, start, end)]
  }

  /** A row after a verified payment at time `now`. */
  function Activated(rec: Record, now: int): Record {
    rec.(status := Active, periodStart := Some(now), periodEnd := Some(now + PeriodMs))
  }

  /**
   * `update({status: "active", current_period_start, current_period_end})
   * .eq("razorpay_subscription_id", subId)`: every row with that provider id, and no other.
   */
  function Activate(subs: map<UserId, Record>, subId: string, now: int): (r: map<UserId, Record>)
    ensures r.Keys == subs.Keys
    ensures forall u :: u in subs && subs[u].subscriptionId == subId ==>
      r[u].status == Active && r[u].periodStart == Some(now) && r[u].periodEnd == Some(now + PeriodMs) &&
      r[u].subscriptionId == subs[u].subscriptionId && r[u].planId == subs[u].planId
    ensures forall u :: u in subs && subs[u].subscriptionId != subId ==> r[u] == subs[u]
  {
    map u | u in subs :: if subs[u].subscriptionId == subId then Activated(subs[u], now) else subs[u]
  }

  /** `.eq("user_id", user).maybeSingle()`: the caller's row or null. */
  function Lookup(subs: map<UserId, Record>, user: UserId): Option<Record> {
    if user in subs then Some(subs[user]) else None
  }

  /** `data?.status === "active"`. */
  predicate IsSubscribed(rec: Option<Record>) {
    rec.Some? && rec.value.status == Active
  }

  // -------------------------------------------------------------- signature

  /** `paymentId + "|" + subscriptionId`, where a missing field reads as "undefined". */
  function SignedMessage(body: Body): (m: string)
    ensures body.paymentId.Some? && body.subscriptionId.Some? ==>
      m == body.paymentId.value + "|" + body.subscriptionId.value
    ensures body.paymentId.None? ==> |m| >= 10 && m[..10] == "undefined|"
    ensures body.subscriptionId.None? ==> |m| >= 10 && m[|m| - 10..] == "|undefined"
  {
    Js.ToJsString(body.paymentId) + "|" + Js.ToJsString(body.subscriptionId)
  }

  /** The lower-case hex HMAC-SHA256 of the signed message under the key secret. */
  function ExpectedSignature(cfg: Config, body: Body): (sig: string)
    ensures |sig| == 64
    ensures forall i :: 0 <= i < |sig| ==> Hex.IsLowerHexDigit(sig[i])
  {
    Hex.Encode(cfg.hmac(cfg.keySecret, SignedMessage(body)))
  }

  /** `expectedSignature !== signature` is false: only a supplied, identical string matches. */
  predicate SignatureValid(cfg: Config, body: Body) {
    body.signature == Some(ExpectedSignature(cfg, body))
  }

  /** Only a supplied string of 64 lower-case hexadecimal digits can pass the check. */
  lemma ValidSignatureShape(cfg: Config, body: Body)
    requires SignatureValid(cfg, body)
    ensures body.signature.Some? && |body.signature.value| == 64
    ensures forall i :: 0 <= i < 64 ==> Hex.IsLowerHexDigit(body.signature.value[i])
  {
  }

  // ------------------------------------------------------------------ steps

  /** action "create-plan" (lines 56-85): always asks the provider for a new plan. */
  function CreatePlanStep(st: Store, creation: Reply): (r: (Store, Response))
    ensures r.0.subscriptions == st.subscriptions
    ensures r.1.status == 200 <==> creation.Created?
    ensures creation.Created? ==>
      r.0.plans == st.plans + [CanonicalPlan(creation.id)] && r.1.body == PlanBody(CanonicalPlan(creation.id))
    ensures creation.Rejected? ==> r.0 == st && r.1.status == 500 && r.1.body.ErrorBody? && r.1.body.error != ""
  {
    match creation
    case Created(id) => (st.(plans := st.plans + [CanonicalPlan(id)]), Response(200, PlanBody(CanonicalPlan(id))))
    case Rejected(d) => (st, ServerError(ProviderMessage(d, "Failed to create plan")))
  }

  /** action "create-subscription" (lines 87-177). */
  function CreateSubscriptionStep(st: Store, user: UserId, keyId: string, env: Env): (r: (Store, Response))
    ensures r.1.status == 200 || r.1.status == 500
    ensures r.1.status == 200 <==>
      ResolvePlan(st.plans, env.plansListed, env.planCreation).Success? && env.subscriptionCreation.Created?
    ensures r.1.status == 200 ==> r.1.body == SubscriptionBody(env.subscriptionCreation.id, keyId)
    ensures r.1.status == 200 && !env.upsertFails ==>
      r.0.subscriptions == Upsert(st.subscriptions, user, env.subscriptionCreation.id,
                                  ResolvePlan(st.plans, env.plansListed, env.planCreation).value.1)
    ensures r.1.status != 200 || env.upsertFails ==> r.0.subscriptions == st.subscriptions
    ensures forall u :: u != user ==> (u in r.0.subscriptions <==> u in st.subscriptions)
    ensures forall u :: u != user && u in st.subscriptions ==> r.0.subscriptions[u] == st.subscriptions[u]
    ensures st.plans <= r.0.plans
    ensures r.1.status == 200 ==> r.0.plans == ResolvePlan(st.plans, env.plansListed, env.planCreation).value.0
    ensures env.plansListed && HasCanonical(st.plans) ==> r.0.plans == st.plans
  {
    match ResolvePlan(st.plans, env.plansListed, env.planCreation)
    case Failure(message) => (st, ServerError(message))
    case Success((plans, planId)) =>
      match env.subscriptionCreation
      case Rejected(d) => (st.(plans := plans), ServerError(ProviderMessage(d, "Failed to create subscription")))
      case Created(subId) =>
        var subs := if env.upsertFails then st.subscriptions else Upsert(st.subscriptions, user, subId, planId);
        (Store(subs, plans), Response(200, SubscriptionBody(subId, keyId)))
  }

  /** action "verify-payment" (lines 179-221). */
  function VerifyPaymentStep(st: Store, cfg: Config, body: Body, env: Env, now: int): (r: (Store, Response))
    ensures r.0.plans == st.plans
    ensures r.1.status == 200 <==> SignatureValid(cfg, body) && !env.updateFails
    ensures r.1.status != 200 ==> r.0 == st && r.1.status == 500
    ensures !SignatureValid(cfg, body) ==> r.1 == ServerError("Invalid payment signature")
    ensures SignatureValid(cfg, body) && env.updateFails ==> r.1 == ServerError("Failed to update subscription status")
    ensures r.1.status == 200 ==>
      r.0.subscriptions == Activate(st.subscriptions, Js.ToJsString(body.subscriptionId), now) &&
      r.1.body == VerifiedBody
  {
    if !SignatureValid(cfg, body) then (st, ServerError("Invalid payment signature"))
    else if env.updateFails then (st, ServerError("Failed to update subscription status"))
    else (st.(subscriptions := Activate(st.subscriptions, Js.ToJsString(body.subscriptionId), now)), Response(200, VerifiedBody))
  }

  /** action "check-subscription" (lines 223-243): read-only. */
  function CheckSubscriptionStep(st: Store, user: UserId, env: Env): (r: (Store, Response))
    ensures r.0 == st
    ensures env.selectError.Some? ==> r.1 == ServerError(env.selectError.value)
    ensures env.selectError.None? ==>
              r.1.status == 200 && r.1.body.StatusBody? &&
              r.1.body.subscription == Lookup(st.subscriptions, user) &&
              (r.1.body.isSubscribed <==> user in st.subscriptions && st.subscriptions[user].status == Active)
  {
    match env.selectError
    case Some(message) => (st, ServerError(message))
    case None =>
      var rec := Lookup(st.subscriptions, user);
      (st, Response(200, StatusBody(IsSubscribed(rec), rec)))
  }

  /** `jwtHeader.replace("Bearer ", "")`. */
  function Token(header: string): (t: string)
    ensures |header| >= 7 && header[..7] == "Bearer " ==> t == header[7..]
    ensures t == header || |t| + 7 == |header|
  {
    Js.ReplaceFirst(header, "Bearer ", "")
  }

  /** The token is the header with its first "Bearer " deleted, or the header itself when it has none. */
  lemma TokenDeletesFirstBearer(header: string)
    ensures (forall i: nat :: i <= |header| ==> !Js.OccursAt(header, "Bearer ", i)) ==> Token(header) == header
    ensures forall i: nat ::
      Js.OccursAt(header, "Bearer ", i) && (forall j: nat :: j < i ==> !Js.OccursAt(header, "Bearer ", j)) ==>
      Token(header) == header[..i] + header[i + 7..]
  {
    if forall i: nat :: i <= |header| ==> !Js.OccursAt(header, "Bearer ", i) {
      Js.ReplaceFirstAbsent(header, "Bearer ", "");
    }
    forall i: nat | Js.OccursAt(header, "Bearer ", i) && (forall j: nat :: j < i ==> !Js.OccursAt(header, "Bearer ", j))
      ensures Token(header) == header[..i] + header[i + 7..]
    {
      Js.ReplaceFirstAt(header, "Bearer ", "", i);
      assert header[..i] + "" == header[..i];
    }
  }

  /** The identity the request authenticates as, if its header resolves (lines 23-39). */
  function Caller(req: Request, env: Env): (r: Option<UserId>)
    ensures r.Some? <==>
      req.authorization.Some? && req.authorization.value != "" && Token(req.authorization.value) in env.identity
    ensures r.Some? ==> r.value == env.identity[Token(req.authorization.value)]
  {
    if req.authorization.None? || req.authorization.value == "" then None
    else if Token(req.authorization.value) in env.identity then Some(env.identity[Token(req.authorization.value)])
    else None
  }

  /** Lines 56-248: dispatch on `action` for an authenticated caller. */
  function Dispatch(st: Store, cfg: Config, user: UserId, body: Body, env: Env, now: int): (r: (Store, Response))
    ensures r.1.status == 200 || r.1.status == 400 || r.1.status == 500
    ensures r.1.status == 400 <==>
      body.action !in {Some("create-plan"), Some("create-subscription"), Some("verify-payment"), Some("check-subscription")}
    ensures r.1.status == 400 ==> r.0 == st && r.1.body == ErrorBody("Invalid action")
    ensures r.1.status != 200 ==> r.0.subscriptions == st.subscriptions
    ensures st.plans <= r.0.plans
  {
    if body.action == Some("create-plan") then CreatePlanStep(st, env.planCreation)
    else if body.action == Some("create-subscription") then CreateSubscriptionStep(st, user, cfg.keyId, env)
    else if body.action == Some("verify-payment") then VerifyPaymentStep(st, cfg, body, env, now)
    else if body.action == Some("check-subscription") then CheckSubscriptionStep(st, user, env)
    else (st, Response(400, ErrorBody("Invalid action")))
  }

  /** The whole handler: the new store and the response for one request at time `now`. */
  function Handle(st: Store, cfg: Config, req: Request, env: Env, now: int): (r: (Store, Response))
    ensures r.1.status in {200, 400, 401, 500}
    ensures r.1.status == 401 ==> r.0 == st
    ensures r.1.status != 200 ==> r.0.subscriptions == st.subscriptions
    ensures r.0.subscriptions != st.subscriptions ==> Caller(req, env).Some? && req.payload.Json?
    ensures st.plans <= r.0.plans
  {
    if req.httpMethod == "OPTIONS" then (st, Response(200, NoBody))
    else if req.authorization.None? || req.authorization.value == "" then
      (st, Response(401, ErrorBody("Missing authorization header")))
    else if Caller(req, env).None? then (st, Response(401, ErrorBody("Invalid token")))
    else if cfg.keyId == "" || cfg.keySecret == "" then (st, ServerError("Razorpay credentials not configured"))
    else match req.payload
      case Malformed(message) => (st, ServerError(message))
      case Json(body) => Dispatch(st, cfg, Caller(req, env).value, body, env, now)
  }

  // ------------------------------------------------------------- invariant

  /** An active row carries a thirty-day period. */
  predicate RecordConsistent(rec: Record) {
    rec.status == Active ==> rec.periodStart.Some? && rec.periodEnd == Some(rec.periodStart.value + PeriodMs)
  }

  /** Every row is consistent and names a plan the provider has. */
  predicate Consistent(st: Store) {
    (forall u :: u in st.subscriptions ==> RecordConsistent(st.subscriptions[u])) &&
    (forall u :: u in st.subscriptions ==> PlanExists(st.plans, st.subscriptions[u].planId))
  }

  /** A plan listed before is still listed once more plans are appended. */
  lemma PlanExistsInExtension(plans: seq<Plan>, more: seq<Plan>, id: string)
    requires plans <= more && PlanExists(plans, id)
    ensures PlanExists(more, id)
  {
    var k :| 0 <= k < |plans| && plans[k].id == id;
    assert more[k] == plans[k];
  }

  /** Appending a plan keeps every plan id that was there and adds the new one. */
  lemma PlanExistsAfterAppend(plans: seq<Plan>, p: Plan)
    ensures forall id :: PlanExists(plans, id) ==> PlanExists(plans + [p], id)
    ensures PlanExists(plans + [p], p.id)
  {
    assert (plans + [p])[|plans|] == p;
    forall id | PlanExists(plans, id) ensures PlanExists(plans + [p], id) {
      var k :| 0 <= k < |plans| && plans[k].id == id;
      assert (plans + [p])[k] == plans[k];
    }
  }
}
