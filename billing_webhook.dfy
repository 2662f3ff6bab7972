/// The payment provider's webhook: after the signature check, one event
/// updates the user's billing record. A completed checkout creates or
/// replaces the record with the plan's monthly credits; a paid invoice
/// resets the credits to the plan's amount; a deleted subscription marks
/// the record canceled; any other event is acknowledged and ignored.
module BillingWebhook {
  import opened Js
  import opened Tables

  /** A row of `user_billing`. `renewDate` is in milliseconds since the epoch. */
  datatype UserBilling = UserBilling(
    userId: string,
    planId: Option<string>,
    customerId: Option<string>,
    subscriptionId: Option<string>,
    credits: int,
    renewDate: Option<int>,
    status: string)

  /** A row of `billing_plans`; `monthlyCredits` may be null. */
  datatype Plan = Plan(id: string, monthlyCredits: Num)

  /** The verified event, by type. */
  datatype Event =
    | CheckoutCompleted(userId: Option<string>, planId: Option<string>, sessionCustomer: Option<string>, subscription: Option<string>)
    | PaymentSucceeded(customer: string)
    | SubscriptionDeleted(customer: string)
    | Other(eventType: string)

  /** What the provider's signature check made of the request body. */
  datatype Verification = Verified(event: Event) | Invalid(message: string)

  datatype Response = NoSignature | SignatureError(message: string) | Received

  function HttpStatus(r: Response): nat {
    match r
    case NoSignature => 400
    case SignatureError(_) => 400
    case Received => 200
  }

  /** Thirty days in milliseconds: the renewal period. */
  const RenewPeriod := 30 * 24 * 60 * 60 * 1000

  function IsPlan(id: string): Plan -> bool {
    (p: Plan) => p.id == id
  }

  function IsUser(userId: string): UserBilling -> bool {
    (b: UserBilling) => b.userId == userId
  }

  function IsCustomer(customer: string): UserBilling -> bool {
    (b: UserBilling) => b.customerId == Some(customer)
  }

  /** A plan's monthly credits, or 0 when the plan is not found or its
      credits are null or zero. */
  function PlanCredits(plans: seq<Plan>, planId: Option<string>): (credits: int)
    ensures planId.None? ==> credits == 0
    ensures credits != 0 ==> planId.Some? && exists k :: 0 <= k < |plans| && plans[k].id == planId.value && plans[k].monthlyCredits == Int(credits)
  {
    if planId.None? then 0
    else match Single(plans, IsPlan(planId.value))
      case None => 0
      case Some(plan) => NumOr(plan.monthlyCredits, 0)
  }

  /** The one plan with that id gives its monthly credits, or 0 when they
      are null or zero. */
  lemma FoundPlanCredits(plans: seq<Plan>, planId: string, k: nat)
    requires k < |plans| && plans[k].id == planId
    requires forall j :: 0 <= j < |plans| && j != k ==> plans[j].id != planId
    ensures PlanCredits(plans, Some(planId)) == NumOr(plans[k].monthlyCredits, 0)
  {
    WhereOne(plans, IsPlan(planId), k);
  }

  /** An unknown plan gives no credits. */
  lemma UnknownPlanNoCredits(plans: seq<Plan>, planId: string)
    requires forall j :: 0 <= j < |plans| ==> plans[j].id != planId
    ensures PlanCredits(plans, Some(planId)) == 0
  {
    WhereNone(plans, IsPlan(planId));
  }

  /** `upsert` keyed by the user: the user's record is replaced, or added
      when the user has none. */
  function Upsert(billing: seq<UserBilling>, row: UserBilling): (r: seq<UserBilling>)
    ensures forall j :: 0 <= j < |billing| && billing[j].userId != row.userId ==> j < |r| && r[j] == billing[j]
    ensures exists j :: 0 <= j < |r| && r[j] == row
    ensures forall j :: 0 <= j < |r| && r[j].userId == row.userId ==> r[j] == row
  {
    if exists j :: 0 <= j < |billing| && billing[j].userId == row.userId then
      var r := Update(billing, IsUser(row.userId), (b: UserBilling) => row);
      assert exists j :: 0 <= j < |r| && r[j] == row by {
        var j :| 0 <= j < |billing| && billing[j].userId == row.userId;
        assert r[j] == row;
      }
      r
    else
      var r := billing + [row];
      assert r[|billing|] == row;
      r
  }

  /** The billing table after one verified event. */
  function Apply(billing: seq<UserBilling>, plans: seq<Plan>, e: Event, now: int): seq<UserBilling> {
    match e
    case CheckoutCompleted(userId, planId, customer, subscription) =>
      if !Truthy(userId) || !Truthy(planId) then billing
      else Upsert(billing, UserBilling(userId.value, planId, customer, subscription,
                                       PlanCredits(plans, planId), Some(now + RenewPeriod), "active"))
    case PaymentSucceeded(customer) =>
      (match Single(billing, IsCustomer(customer))
       case None => billing
       case Some(record) =>
         var credits := PlanCredits(plans, record.planId);
         Update(billing, IsCustomer(customer),
                (b: UserBilling) => b.(credits := credits, renewDate := Some(now + RenewPeriod), status := "active")))
    case SubscriptionDeleted(customer) =>
      Update(billing, IsCustomer(customer), (b: UserBilling) => b.(status := "canceled"))
    case Other(_) => billing
  }

  /** The whole route. */
  function Route(billing: seq<UserBilling>, plans: seq<Plan>, signature: Option<string>, check: Verification, now: int)
    : (Response, seq<UserBilling>)
  {
    if !Truthy(signature) then (NoSignature, billing)
    else match check
      case Invalid(m) => (SignatureError("Webhook Error: " + m), billing)
      case Verified(e) => (Received, Apply(billing, plans, e, now))
  }

  /** A missing signature, or one that fails the check, is a 400 with no write. */
  lemma UnsignedWritesNothing(billing: seq<UserBilling>, plans: seq<Plan>, signature: Option<string>, check: Verification, now: int)
    ensures var (resp, billing') := Route(billing, plans, signature, check, now);
      && (resp != Received ==> billing' == billing)
      && (resp == Received <==> Truthy(signature) && check.Verified?)
  {
  }

  /** A checkout without both a user and a plan in its metadata writes nothing. */
  lemma CheckoutNeedsMetadata(billing: seq<UserBilling>, plans: seq<Plan>, userId: Option<string>, planId: Option<string>,
                              customer: Option<string>, subscription: Option<string>, now: int)
    requires !Truthy(userId) || !Truthy(planId)
    ensures Apply(billing, plans, CheckoutCompleted(userId, planId, customer, subscription), now) == billing
  {
  }

  /** A completed checkout leaves the user with an active record for the
      plan, the customer and the subscription, holding the plan's monthly
      credits and renewing thirty days on; other users' records are kept. */
  lemma CheckoutUpserts(billing: seq<UserBilling>, plans: seq<Plan>, userId: string, planId: string,
                        customer: Option<string>, subscription: Option<string>, now: int)
    requires userId != "" && planId != ""
    ensures var r := Apply(billing, plans, CheckoutCompleted(Some(userId), Some(planId), customer, subscription), now);
      && (forall j :: 0 <= j < |r| && r[j].userId == userId ==>
            r[j] == UserBilling(userId, Some(planId), customer, subscription, PlanCredits(plans, Some(planId)),
                                Some(now + 2592000000), "active"))
      && (exists j :: 0 <= j < |r| && r[j].userId == userId)
      && (forall j :: 0 <= j < |billing| && billing[j].userId != userId ==> j < |r| && r[j] == billing[j])
  {
    var row := UserBilling(userId, Some(planId), customer, subscription, PlanCredits(plans, Some(planId)),
                           Some(now + RenewPeriod), "active");
    var r := Upsert(billing, row);
    if !exists j :: 0 <= j < |billing| && billing[j].userId == userId {
      assert r == billing + [row];
    }
  }

  /** A paid invoice from an unknown customer writes nothing. */
  lemma UnknownCustomerPaymentWritesNothing(billing: seq<UserBilling>, plans: seq<Plan>, customer: string, now: int)
    requires forall j :: 0 <= j < |billing| ==> billing[j].customerId != Some(customer)
    ensures Apply(billing, plans, PaymentSucceeded(customer), now) == billing
  {
    WhereNone(billing, IsCustomer(customer));
  }

  /** A paid invoice resets the customer's credits to the plan's monthly
      amount, whatever the balance was, and reactivates the record for
      thirty more days; no other record changes. */
  lemma PaymentResetsCredits(billing: seq<UserBilling>, plans: seq<Plan>, customer: string, now: int, k: nat)
    requires k < |billing| && billing[k].customerId == Some(customer)
    requires forall j :: 0 <= j < |billing| && j != k ==> billing[j].customerId != Some(customer)
    ensures Apply(billing, plans, PaymentSucceeded(customer), now) ==
      billing[k := billing[k].(credits := PlanCredits(plans, billing[k].planId),
                               renewDate := Some(now + RenewPeriod), status := "active")]
  {
    WhereOne(billing, IsCustomer(customer), k);
  }

  /** A deleted subscription cancels the customer's records and changes
      nothing else about them, nor about any other record. */
  lemma DeletionOnlyCancels(billing: seq<UserBilling>, plans: seq<Plan>, customer: string, now: int)
    ensures var r := Apply(billing, plans, SubscriptionDeleted(customer), now);
      && |r| == |billing|
      && forall j :: 0 <= j < |billing| ==>
           r[j] == if billing[j].customerId == Some(customer) then billing[j].(status := "canceled") else billing[j]
  {
  }

  /** Any other event type is acknowledged and writes nothing. */
  lemma OtherEventsIgnored(billing: seq<UserBilling>, plans: seq<Plan>, signature: string, eventType: string, now: int)
    requires signature != ""
    ensures Route(billing, plans, Some(signature), Verified(Other(eventType)), now) == (Received, billing)
  {
  }

  class BillingLedger {
    var billing: seq<UserBilling>

    constructor(billing: seq<UserBilling>)
      ensures this.billing == billing
    {
      this.billing := billing;
    }

    method Post(plans: seq<Plan>, signature: Option<string>, check: Verification, now: int) returns (resp: Response)
      modifies this
      ensures (resp, billing) == Route(old(billing), plans, signature, check, now)
    {
      if !Truthy(signature) {
        return NoSignature;
      }
      if check.Invalid? {
        return SignatureError("Webhook Error: " + check.message);
      }
      match check.event {
        case CheckoutCompleted(userId, planId, customer, subscription) =>
          if Truthy(userId) && Truthy(planId) {
            var credits := PlanCredits(plans, planId);
            billing := Upsert(billing, UserBilling(userId.value, planId, customer, subscription, credits,
                                                   Some(now + RenewPeriod), "active"));
          }
        case PaymentSucceeded(customer) =>
          var record := Single(billing, IsCustomer(customer));
          if record.Some? {
            var credits := PlanCredits(plans, record.value.planId);
            billing := Update(billing, IsCustomer(customer),
                              (b: UserBilling) => b.(credits := credits, renewDate := Some(now + RenewPeriod), status := "active"));
          }
        case SubscriptionDeleted(customer) =>
          billing := Update(billing, IsCustomer(customer), (b: UserBilling) => b.(status := "canceled"));
        case Other(_) =>
      }
      resp := Received;
    }
  }
}
