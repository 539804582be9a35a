/**
 * The handler as it runs: sequential early-return steps over the `subscriptions` table
 * and the provider's plan list, both held as fields and updated in place. Each method is
 * proved to leave the fields, and to answer, as the step function of module Razorpay says.
 */
module RazorpayService {
  import opened Wrappers
  import opened Razorpay
  import Js
  import Hex

  class SubscriptionService {
    const config: Config
    var subscriptions: map<UserId, Record>
    var plans: seq<Plan>

    function State(): Store
      reads this
    {
      Store(subscriptions, plans)
    }

    ghost predicate Valid()
      reads this
    {
      Consistent(State())
    }

    constructor (config: Config, subscriptions: map<UserId, Record>, plans: seq<Plan>)
      requires Consistent(Store(subscriptions, plans))
      ensures Valid()
      ensures this.config == config && State() == Store(subscriptions, plans)
    {
      this.config := config;
      this.subscriptions := subscriptions;
      this.plans := plans;
    }

    /** The `serve` callback: one request, at time `now`, with the services answering as `env` says. */
    method Serve(req: Request, env: Env, now: int) returns (resp: Response)
      requires Valid()
      modifies this
      ensures Valid()
      ensures (State(), resp) == Handle(old(State()), config, req, env, now)
    {
      if req.httpMethod == "OPTIONS" {
        return Response(200, NoBody);
      }
      var header := req.authorization;
      if header.None? || header.value == "" {
        return Response(401, ErrorBody("Missing authorization header"));
      }
      var token := Js.ReplaceFirst(header.value, "Bearer ", "");
      if token !in env.identity {
        return Response(401, ErrorBody("Invalid token"));
      }
      var userId := env.identity[token];
      if config.keyId == "" || config.keySecret == "" {
        return ServerError("Razorpay credentials not configured");
      }
      match req.payload {
        case Malformed(message) =>
          return ServerError(message);
        case Json(body) =>
          if body.action == Some("create-plan") {
            resp := CreatePlan(env.planCreation);
          } else if body.action == Some("create-subscription") {
            resp := CreateSubscription(userId, env);
          } else if body.action == Some("verify-payment") {
            resp := VerifyPayment(body, env, now);
          } else if body.action == Some("check-subscription") {
            resp := CheckSubscription(userId, env);
          } else {
            resp := Response(400, ErrorBody("Invalid action"));
          }
      }
    }

    method CreatePlan(creation: Reply) returns (resp: Response)
      requires Valid()
      modifies this
      ensures Valid()
      ensures (State(), resp) == CreatePlanStep(old(State()), creation)
    {
      match creation {
        case Rejected(description) =>
          return ServerError(ProviderMessage(description, "Failed to create plan"));
        case Created(id) =>
          PlanExistsAfterAppend(plans, CanonicalPlan(id));
          plans := plans + [CanonicalPlan(id)];
          return Response(200, PlanBody(CanonicalPlan(id)));
      }
    }

    method CreateSubscription(userId: UserId, env: Env) returns (resp: Response)
      requires Valid()
      modifies this
      ensures Valid()
      ensures (State(), resp) == CreateSubscriptionStep(old(State()), userId, config.keyId, env)
    {
      var planId: string;
      var listed := if env.plansListed then plans else [];
      var existing := FirstCanonical(listed);
      if existing.Some? {
        planId := listed[existing.value].id;
      } else {
        match env.planCreation {
          case Rejected(description) =>
            return ServerError(ProviderMessage(description, "Failed to create plan"));
          case Created(id) =>
            PlanExistsAfterAppend(plans, CanonicalPlan(id));
            plans := plans + [CanonicalPlan(id)];
            planId := id;
        }
      }
      assert PlanExists(plans, planId) by {
        if existing.Some? { assert plans[existing.value].id == planId; }
        else { assert plans[|plans| - 1].id == planId; }
      }
      match env.subscriptionCreation {
        case Rejected(description) =>
          return ServerError(ProviderMessage(description, "Failed to create subscription"));
        case Created(subId) =>
          if !env.upsertFails {
            var start := if userId in subscriptions then subscriptions[userId].periodStart else None;
            var end := if userId in subscriptions then subscriptions[userId].periodEnd else None;
            subscriptions := subscriptions[userId := Record(subId, planId, Pending, start, end)];
          }
          return Response(200, SubscriptionBody(subId, config.keyId));
      }
    }

    method VerifyPayment(body: Body, env: Env, now: int) returns (resp: Response)
      requires Valid()
      modifies this
      ensures Valid()
      ensures (State(), resp) == VerifyPaymentStep(old(State()), config, body, env, now)
    {
      var message := Js.ToJsString(body.paymentId) + "|" + Js.ToJsString(body.subscriptionId);
      var expected := Hex.Encode(config.hmac(config.keySecret, message));
      if body.signature != Some(expected) {
        return ServerError("Invalid payment signature");
      }
      if env.updateFails {
        return ServerError("Failed to update subscription status");
      }
      var subId := Js.ToJsString(body.subscriptionId);
      subscriptions := map u | u in subscriptions ::
        if subscriptions[u].subscriptionId == subId then Activated(subscriptions[u], now) else subscriptions[u];
      return Response(200, VerifiedBody);
    }

    /** Reads the caller's row and changes nothing. */
    method CheckSubscription(userId: UserId, env: Env) returns (resp: Response)
      ensures resp == CheckSubscriptionStep(State(), userId, env).1
    {
      if env.selectError.Some? {
        return ServerError(env.selectError.value);
      }
      var data := if userId in subscriptions then Some(subscriptions[userId]) else None;
      var isActive := data.Some? && data.value.status == Active;
      return Response(200, StatusBody(isActive, data));
    }
  }
}
