/**
 * What the subscription handler guarantees, stated over `Handle` and the step functions:
 * the preflight and authentication gates, that the client's `userId` is never used, plan
 * reuse, the signature check, the pending -> active transition and the read-only check.
 */
module RazorpayProperties {
  import opened Wrappers
  import opened Razorpay
  import Js
  import Hex

  /** The request reaches the `action` dispatch: not a preflight, a caller, keys configured, a JSON body. */
  predicate Admitted(cfg: Config, req: Request, env: Env) {
    req.httpMethod != "OPTIONS" && Caller(req, env).Some? &&
    cfg.keyId != "" && cfg.keySecret != "" && req.payload.Json?
  }

  predicate ActionIs(req: Request, name: string) {
    req.payload.Json? && req.payload.body.action == Some(name)
  }

  // ------------------------------------------------------------------ gates

  /** A preflight is answered at once with a null body, before any check, and touches nothing. */
  lemma PreflightShortCircuits(st: Store, cfg: Config, req: Request, env: Env, now: int)
    requires req.httpMethod == "OPTIONS"
    ensures Handle(st, cfg, req, env, now) == (st, Response(200, NoBody))
  {
  }

  /** An absent or empty Authorization header is a 401 with the missing-header message. */
  lemma MissingHeaderRejected(st: Store, cfg: Config, req: Request, env: Env, now: int)
    requires req.httpMethod != "OPTIONS"
    requires req.authorization.None? || req.authorization.value == ""
    ensures Handle(st, cfg, req, env, now) == (st, Response(401, ErrorBody("Missing authorization header")))
  {
  }

  /** A token the identity service does not resolve is a 401 "Invalid token". */
  lemma InvalidTokenRejected(st: Store, cfg: Config, req: Request, env: Env, now: int)
    requires req.httpMethod != "OPTIONS"
    requires req.authorization.Some? && req.authorization.value != ""
    requires Token(req.authorization.value) !in env.identity
    ensures Handle(st, cfg, req, env, now) == (st, Response(401, ErrorBody("Invalid token")))
  {
  }

  /** 401 is answered exactly when a non-preflight request has no caller, and then nothing changes. */
  lemma UnauthorizedExactly(st: Store, cfg: Config, req: Request, env: Env, now: int)
    ensures Handle(st, cfg, req, env, now).1.status == 401 <==> req.httpMethod != "OPTIONS" && Caller(req, env).None?
    ensures Handle(st, cfg, req, env, now).1.status == 401 ==> Handle(st, cfg, req, env, now).0 == st
  {
  }

  /** The header "Bearer <t>" presents the token t. */
  lemma BearerTokenRead(t: string)
    ensures Token("Bearer " + t) == t
  {
    assert ("Bearer " + t)[..|"Bearer "|] == "Bearer ";
    assert ("Bearer " + t)[|"Bearer "|..] == t;
  }

  /** With the keys unset, an authenticated request fails with 500 and changes nothing. */
  lemma MissingCredentialsFail(st: Store, cfg: Config, req: Request, env: Env, now: int)
    requires req.httpMethod != "OPTIONS" && Caller(req, env).Some?
    requires cfg.keyId == "" || cfg.keySecret == ""
    ensures Handle(st, cfg, req, env, now) == (st, ServerError("Razorpay credentials not configured"))
  {
  }

  /** An authenticated request with an action other than the four is a 400 that changes nothing. */
  lemma UnknownActionRejected(st: Store, cfg: Config, req: Request, env: Env, now: int)
    requires Admitted(cfg, req, env)
    requires !ActionIs(req, "create-plan") && !ActionIs(req, "create-subscription")
    requires !ActionIs(req, "verify-payment") && !ActionIs(req, "check-subscription")
    ensures Handle(st, cfg, req, env, now) == (st, Response(400, ErrorBody("Invalid action")))
  {
  }

  // -------------------------------------------------------------- identity

  /** Whatever `userId` the client puts in the body, the handler does exactly the same. */
  lemma ClientUserIdIgnored(st: Store, cfg: Config, req: Request, env: Env, now: int, forged: Option<string>)
    requires req.payload.Json?
    ensures Handle(st, cfg, req.(payload := Json(req.payload.body.(userId := forged))), env, now) ==
            Handle(st, cfg, req, env, now)
  {
    var body := req.payload.body;
    var body' := body.(userId := forged);
    assert SignatureValid(cfg, body') == SignatureValid(cfg, body) by {
      assert SignedMessage(body') == SignedMessage(body);
    }
    assert Js.ToJsString(body'.subscriptionId) == Js.ToJsString(body.subscriptionId);
    var req' := req.(payload := Json(body'));
    assert Caller(req', env) == Caller(req, env);
    if Admitted(cfg, req, env) {
      var user := Caller(req, env).value;
      assert VerifyPaymentStep(st, cfg, body', env, now) == VerifyPaymentStep(st, cfg, body, env, now);
      assert Dispatch(st, cfg, user, body', env, now) == Dispatch(st, cfg, user, body, env, now);
    }
  }

  /**
   * A row changes only in two ways: the verified caller's own row through
   * create-subscription, or a row whose provider id is the one verify-payment named,
   * after its signature checked out.
   */
  lemma RowChangesAccounted(st: Store, cfg: Config, req: Request, env: Env, now: int, u: UserId)
    requires var st' := Handle(st, cfg, req, env, now).0;
      (u in st.subscriptions) != (u in st'.subscriptions) ||
      (u in st.subscriptions && st'.subscriptions[u] != st.subscriptions[u])
    ensures Admitted(cfg, req, env)
    ensures (ActionIs(req, "create-subscription") && Caller(req, env) == Some(u)) ||
            (ActionIs(req, "verify-payment") && SignatureValid(cfg, req.payload.body) &&
             u in st.subscriptions &&
             st.subscriptions[u].subscriptionId == Js.ToJsString(req.payload.body.subscriptionId))
  {
  }

  // ------------------------------------------------------------------ plans

  /** When a canonical plan is listed, create-subscription subscribes to the first one and creates none. */
  lemma ReusesFirstCanonicalPlan(st: Store, user: UserId, keyId: string, env: Env)
    requires env.plansListed && HasCanonical(st.plans)
    requires env.subscriptionCreation.Created? && !env.upsertFails
    ensures var st' := CreateSubscriptionStep(st, user, keyId, env).0;
      st'.plans == st.plans &&
      st'.subscriptions[user].planId == st.plans[FirstCanonical(st.plans).value].id
  {
  }

  /** After a successful create-subscription the provider lists a canonical plan. */
  lemma SubscriptionLeavesCanonicalPlan(st: Store, user: UserId, keyId: string, env: Env)
    requires CreateSubscriptionStep(st, user, keyId, env).1.status == 200
    ensures HasCanonical(CreateSubscriptionStep(st, user, keyId, env).0.plans)
  {
    var plans' := CreateSubscriptionStep(st, user, keyId, env).0.plans;
    if plans' != st.plans {
      var id := ResolvePlan(st.plans, env.plansListed, env.planCreation).value.1;
      assert plans'[|st.plans|] == CanonicalPlan(id);
    }
  }

  /** Subscribing again, once the first call succeeded and the listing works, creates no new plan. */
  lemma RepeatedSubscriptionCreatesNoPlan(st: Store, user: UserId, user2: UserId, keyId: string, env1: Env, env2: Env)
    requires CreateSubscriptionStep(st, user, keyId, env1).1.status == 200
    requires env2.plansListed
    ensures var st1 := CreateSubscriptionStep(st, user, keyId, env1).0;
      CreateSubscriptionStep(st1, user2, keyId, env2).0.plans == st1.plans
  {
    SubscriptionLeavesCanonicalPlan(st, user, keyId, env1);
  }

  /** After a successful create-subscription the caller's single row is pending on the new subscription. */
  lemma SubscriptionRecordedPending(st: Store, cfg: Config, req: Request, env: Env, now: int)
    requires Admitted(cfg, req, env) && ActionIs(req, "create-subscription")
    requires Handle(st, cfg, req, env, now).1.status == 200 && !env.upsertFails
    ensures var st' := Handle(st, cfg, req, env, now).0;
      var user := Caller(req, env).value;
      user in st'.subscriptions &&
      st'.subscriptions[user].subscriptionId == env.subscriptionCreation.id &&
      st'.subscriptions[user].status == Pending &&
      PlanExists(st'.plans, st'.subscriptions[user].planId) &&
      (forall v :: v != user ==> (v in st'.subscriptions <==> v in st.subscriptions)) &&
      (forall v :: v != user && v in st.subscriptions ==> st'.subscriptions[v] == st.subscriptions[v])
  {
  }

  /** A failing upsert is swallowed: the caller still gets the subscription and the table is as it was. */
  lemma FailedUpsertSwallowed(st: Store, user: UserId, keyId: string, env: Env)
    requires ResolvePlan(st.plans, env.plansListed, env.planCreation).Success?
    requires env.subscriptionCreation.Created? && env.upsertFails
    ensures CreateSubscriptionStep(st, user, keyId, env).1 == Response(200, SubscriptionBody(env.subscriptionCreation.id, keyId))
    ensures CreateSubscriptionStep(st, user, keyId, env).0.subscriptions == st.subscriptions
  {
  }

  // ------------------------------------------------------------- signature

  /** verify-payment succeeds exactly when the signature matches and the update goes through. */
  lemma VerifiedExactlyWhenSignatureMatches(st: Store, cfg: Config, req: Request, env: Env, now: int)
    requires Admitted(cfg, req, env) && ActionIs(req, "verify-payment")
    ensures var (st', resp) := Handle(st, cfg, req, env, now);
      (resp.status == 200 <==> SignatureValid(cfg, req.payload.body) && !env.updateFails) &&
      (resp.status != 200 ==> st' == st)
  {
  }

  /** A signature that differs from the expected one in any character is refused and changes nothing. */
  lemma TamperedSignatureRejected(st: Store, cfg: Config, body: Body, env: Env, now: int, sig: string)
    requires body.signature == Some(sig) && sig != ExpectedSignature(cfg, body)
    ensures VerifyPaymentStep(st, cfg, body, env, now) == (st, ServerError("Invalid payment signature"))
  {
  }

  /**
   * A signature is bound to its message: if the HMAC tags of two messages differ, no
   * signature string is accepted for both.
   */
  lemma SignatureBindsMessage(cfg: Config, b1: Body, b2: Body)
    requires cfg.hmac(cfg.keySecret, SignedMessage(b1)) != cfg.hmac(cfg.keySecret, SignedMessage(b2))
    requires b1.signature == b2.signature
    ensures !(SignatureValid(cfg, b1) && SignatureValid(cfg, b2))
  {
    if SignatureValid(cfg, b1) && SignatureValid(cfg, b2) {
      Hex.EncodeInjective(cfg.hmac(cfg.keySecret, SignedMessage(b1)), cfg.hmac(cfg.keySecret, SignedMessage(b2)));
    }
  }

  /** The rows a verified payment activates are exactly those with the named provider id. */
  lemma ActivationExact(subs: map<UserId, Record>, subId: string, now: int, u: UserId)
    requires u in subs
    ensures Activate(subs, subId, now)[u].status == Active <==> subs[u].subscriptionId == subId || subs[u].status == Active
    ensures subs[u].subscriptionId == subId ==>
              Activate(subs, subId, now)[u].periodEnd.value - Activate(subs, subId, now)[u].periodStart.value == 2592000000
  {
  }

  /** A row becomes active only through verify-payment with a valid signature. */
  lemma ActivationRequiresValidSignature(st: Store, cfg: Config, req: Request, env: Env, now: int, u: UserId)
    requires var st' := Handle(st, cfg, req, env, now).0;
      u in st'.subscriptions && st'.subscriptions[u].status == Active
    requires u !in st.subscriptions || st.subscriptions[u].status != Active
    ensures Admitted(cfg, req, env) && ActionIs(req, "verify-payment") && SignatureValid(cfg, req.payload.body)
  {

  }

  // --------------------------------------------------------------- check

  /** check-subscription changes nothing and reports active exactly for an active row of the caller. */
  lemma CheckIsReadOnly(st: Store, cfg: Config, req: Request, env: Env, now: int)
    requires Admitted(cfg, req, env) && ActionIs(req, "check-subscription")
    requires env.selectError.None?
    ensures var (st', resp) := Handle(st, cfg, req, env, now);
      var user := Caller(req, env).value;
      st' == st && resp.status == 200 && resp.body.StatusBody? &&
      (resp.body.isSubscribed <==> user in st.subscriptions && st.subscriptions[user].status == Active)
  {
  }

  // ---------------------------------------------------------- invariant

  /** create-plan only appends a plan, so every row's plan stays listed. */
  lemma CreatePlanKeepsConsistency(st: Store, creation: Reply)
    requires Consistent(st)
    ensures Consistent(CreatePlanStep(st, creation).0)
  {
    var st' := CreatePlanStep(st, creation).0;
    forall u | u in st'.subscriptions
      ensures PlanExists(st'.plans, st'.subscriptions[u].planId)
    {
      PlanExistsInExtension(st.plans, st'.plans, st.subscriptions[u].planId);
    }
  }

  /** create-subscription writes a pending row whose plan is listed afterwards, and leaves the others. */
  lemma CreateSubscriptionKeepsConsistency(st: Store, user: UserId, keyId: string, env: Env)
    requires Consistent(st)
    ensures Consistent(CreateSubscriptionStep(st, user, keyId, env).0)
  {
    var st' := CreateSubscriptionStep(st, user, keyId, env).0;
    forall u | u in st'.subscriptions
      ensures RecordConsistent(st'.subscriptions[u]) && PlanExists(st'.plans, st'.subscriptions[u].planId)
    {
      if u != user || st'.subscriptions == st.subscriptions {
        PlanExistsInExtension(st.plans, st'.plans, st.subscriptions[u].planId);
      }
    }
  }

  /** verify-payment starts a full period on the rows it activates and changes no plan. */
  lemma VerifyPaymentKeepsConsistency(st: Store, cfg: Config, body: Body, env: Env, now: int)
    requires Consistent(st)
    ensures Consistent(VerifyPaymentStep(st, cfg, body, env, now).0)
  {
  }

  /** Every request keeps each row consistent and each row's plan listed. */
  lemma HandlePreservesConsistency(st: Store, cfg: Config, req: Request, env: Env, now: int)
    requires Consistent(st)
    ensures Consistent(Handle(st, cfg, req, env, now).0)
  {
    if Admitted(cfg, req, env) {
      var body := req.payload.body;
      var user := Caller(req, env).value;
      assert Handle(st, cfg, req, env, now) == Dispatch(st, cfg, user, body, env, now);
      if body.action == Some("create-plan") {
        CreatePlanKeepsConsistency(st, env.planCreation);
      } else if body.action == Some("create-subscription") {
        CreateSubscriptionKeepsConsistency(st, user, cfg.keyId, env);
      } else if body.action == Some("verify-payment") {
        VerifyPaymentKeepsConsistency(st, cfg, body, env, now);
      }
    }
  }

  // ------------------------------------------------------------ scenario

  /**
   * A caller subscribes, pays with the signature the provider computes, and checks: the row
   * goes from pending to active for thirty days and the check reports the subscription.
   */
  lemma SubscribePayCheck(st: Store, cfg: Config, header: string, env: Env, now: int,
                          subId: string, paymentId: string)
    requires cfg.keyId != "" && cfg.keySecret != ""
    requires header != "" && Token(header) in env.identity
    requires env.subscriptionCreation == Created(subId)
    requires env.planCreation.Created? || (env.plansListed && HasCanonical(st.plans))
    requires !env.upsertFails && !env.updateFails && env.selectError.None?
    ensures
      var user := env.identity[Token(header)];
      var create := Request("POST", Some(header), Json(Body(Some("create-subscription"), None, None, None, None)));
      var (st1, r1) := Handle(st, cfg, create, env, now);
      var sig := Hex.Encode(cfg.hmac(cfg.keySecret, paymentId + "|" + subId));
      var pay := Request("POST", Some(header), Json(Body(Some("verify-payment"), Some(subId), Some(paymentId), Some(sig), None)));
      var (st2, r2) := Handle(st1, cfg, pay, env, now);
      var check := Request("POST", Some(header), Json(Body(Some("check-subscription"), None, None, None, None)));
      var (st3, r3) := Handle(st2, cfg, check, env, now);
      r1 == Response(200, SubscriptionBody(subId, cfg.keyId)) &&
      user in st1.subscriptions && st1.subscriptions[user].status == Pending &&
      r2 == Response(200, VerifiedBody) &&
      user in st2.subscriptions && st2.subscriptions[user].status == Active &&
      st2.subscriptions[user].periodStart == Some(now) && st2.subscriptions[user].periodEnd == Some(now + PeriodMs) &&
      st3 == st2 && r3.status == 200 && r3.body.StatusBody? && r3.body.isSubscribed
  {
    var user := env.identity[Token(header)];
    var create := Request("POST", Some(header), Json(Body(Some("create-subscription"), None, None, None, None)));
    assert Caller(create, env) == Some(user);
    assert Handle(st, cfg, create, env, now) == CreateSubscriptionStep(st, user, cfg.keyId, env);
    var st1 := Handle(st, cfg, create, env, now).0;
    var sig := Hex.Encode(cfg.hmac(cfg.keySecret, paymentId + "|" + subId));
    var payBody := Body(Some("verify-payment"), Some(subId), Some(paymentId), Some(sig), None);
    var pay := Request("POST", Some(header), Json(payBody));
    assert SignatureValid(cfg, payBody) by {
      assert SignedMessage(payBody) == paymentId + "|" + subId;
    }
    assert Caller(pay, env) == Some(user);
    assert Handle(st1, cfg, pay, env, now) == VerifyPaymentStep(st1, cfg, payBody, env, now);
    var st2 := Handle(st1, cfg, pay, env, now).0;
    var check := Request("POST", Some(header), Json(Body(Some("check-subscription"), None, None, None, None)));
    assert Caller(check, env) == Some(user);
    assert Handle(st2, cfg, check, env, now) == CheckSubscriptionStep(st2, user, env);
  }

  /** The same caller paying with a tampered signature stays pending. */
  lemma TamperedPaymentStaysPending(st: Store, cfg: Config, header: string, env: Env, now: int,
                                    subId: string, paymentId: string, sig: string)
    requires cfg.keyId != "" && cfg.keySecret != ""
    requires header != "" && Token(header) in env.identity
    requires env.identity[Token(header)] in st.subscriptions
    requires st.subscriptions[env.identity[Token(header)]].status == Pending
    requires sig != Hex.Encode(cfg.hmac(cfg.keySecret, paymentId + "|" + subId))
    ensures
      var pay := Request("POST", Some(header), Json(Body(Some("verify-payment"), Some(subId), Some(paymentId), Some(sig), None)));
      Handle(st, cfg, pay, env, now) == (st, ServerError("Invalid payment signature"))
  {
  }
}
