/**
 * The creation of a payment session for a plan. The request names a plan, a service mode and
 * possibly a guest email; a signed-in user's own email takes precedence. Without an email, or
 * for a plan with no configured price, the request fails; the free plan needs no payment; any
 * other plan gets a session with the plan's price, a one-time file fee for some plans, and the
 * plan recorded in its metadata. The identity lookup and the payment provider's customer lookup
 * are inputs.
 */
module CreateCheckout {
  import opened Wrappers
  import opened Tunnel

  datatype CheckoutMode = Payment | SubscriptionMode

  /** A configured price: the provider's price id and whether it is paid once or recurring. */
  datatype PriceConfig = PriceConfig(priceId: string, mode: CheckoutMode)

  const FraisDossier := "frais_dossier"

  const PriceMap: map<string, PriceConfig> := map[
    "pack_8" := PriceConfig("price_1ShUudFsDZcbsdOtjsdMr18A", Payment),
    "mensuel_30" := PriceConfig("price_1SmBmZFsDZcbsdOtiyaYTwQJ", SubscriptionMode),
    "pack_15" := PriceConfig("price_1ShUvMFsDZcbsdOtG90oFTm6", Payment),
    "premium_mensuel" := PriceConfig("price_1SmBmxFsDZcbsdOtF1HZBzmZ", SubscriptionMode),
    "premium_trimestriel" := PriceConfig("price_1SmBmxFsDZcbsdOtF1HZBzmZ", SubscriptionMode),
    FraisDossier := PriceConfig("price_1ShUwMFsDZcbsdOtBw3SLZJd", Payment)]

  /** The plans that pay the file fee with their first purchase. */
  const FeePlans: seq<string> := ["pack_8", "pack_15", "premium_mensuel", "premium_trimestriel"]

  const DefaultOrigin := "https://soynrumbnpkplefhwsbg.lovableproject.com"

  /** The signed-in user the request's token names, if any: their id and their email, if any. */
  datatype AuthUser = AuthUser(id: string, email: Option<string>)

  datatype LineItem = LineItem(price: string, quantity: nat)

  datatype Metadata = Metadata(userId: string, planType: string, modeService: string)

  datatype SessionParams = SessionParams(
    customer: Option<string>,
    customerEmail: Option<string>,
    lineItems: seq<LineItem>,
    mode: CheckoutMode,
    successUrl: string,
    cancelUrl: string,
    metadata: Metadata)

  /** What a request that does not fail returns. */
  datatype Response = FreePlan(message: string) | Checkout(params: SessionParams)

  /** The email the checkout is for: the signed-in user's own when they have one, else the guest's. */
  function EffectiveEmail(guestEmail: string, user: Option<AuthUser>): (e: string)
    ensures user.Some? && user.value.email.Some? && user.value.email.value != "" ==>
      e == user.value.email.value
    ensures !(user.Some? && user.value.email.Some? && user.value.email.value != "") ==> e == guestEmail
  {
    if user.Some? && user.value.email.Some? && user.value.email.value != "" then user.value.email.value
    else guestEmail
  }

  /** The line items of a configured plan: its price once, then the file fee once for the fee plans. */
  function LineItems(planType: string): (items: seq<LineItem>)
    requires planType in PriceMap
    ensures 1 <= |items| <= 2
    ensures items[0] == LineItem(PriceMap[planType].priceId, 1)
    ensures |items| == 2 <==> planType in FeePlans
    ensures |items| == 2 ==> items[1] == LineItem(PriceMap[FraisDossier].priceId, 1)
  {
    [LineItem(PriceMap[planType].priceId, 1)]
      + (if planType in FeePlans then [LineItem(PriceMap[FraisDossier].priceId, 1)] else [])
  }

  /**
   * The request's handling. `stripeConfigured` says whether the provider's key is set,
   * `customerId` is the provider's customer with the effective email, if any, and `origin` the
   * request's origin header ("" when absent).
   */
  method CreateCheckoutSession(planType: string, mode: string, guestEmail: string,
                               user: Option<AuthUser>, stripeConfigured: bool,
                               customerId: Option<string>, origin: string)
    returns (r: Result<Response>)
    ensures EffectiveEmail(guestEmail, user) == "" ==> r == Failure("Email requis pour le checkout")
    ensures EffectiveEmail(guestEmail, user) != "" && !stripeConfigured ==>
      r == Failure("STRIPE_SECRET_KEY non configuré")
    ensures EffectiveEmail(guestEmail, user) != "" && stripeConfigured ==>
      && (planType !in PriceMap && planType != "gratuit" ==> r == Failure("Plan non reconnu: " + planType))
      && (planType == "gratuit" ==> r == Success(FreePlan("Plan gratuit activé")))
      && (planType in PriceMap ==> r.Success? && r.value.Checkout?)
    ensures r.Success? && r.value.Checkout? ==>
      var p := r.value.params;
      && planType in PriceMap
      && p.lineItems == LineItems(planType)
      && p.mode == PriceMap[planType].mode
      && p.customer == customerId
      && p.customerEmail == (if customerId.Some? then None else Some(EffectiveEmail(guestEmail, user)))
      && p.metadata.planType == planType && p.metadata.modeService == mode
      && p.successUrl == (if origin == "" then DefaultOrigin else origin)
                         + "/app/candidat?checkout=success&plan=" + planType
  {
    var userEmail := guestEmail;
    var userId: Option<string> := None;
    if user.Some? && user.value.email.Some? && user.value.email.value != "" {
      userEmail := user.value.email.value;
      userId := Some(user.value.id);
    }
    if userEmail == "" {
      return Failure("Email requis pour le checkout");
    }
    if !stripeConfigured {
      return Failure("STRIPE_SECRET_KEY non configuré");
    }
    if planType !in PriceMap && planType != "gratuit" {
      return Failure("Plan non reconnu: " + planType);
    }
    if planType == "gratuit" {
      return Success(FreePlan("Plan gratuit activé"));
    }
    var priceConfig := PriceMap[planType];
    var lineItems := [LineItem(priceConfig.priceId, 1)];
    if planType in FeePlans {
      lineItems := lineItems + [LineItem(PriceMap[FraisDossier].priceId, 1)];
    }
    var base := if origin == "" then DefaultOrigin else origin;
    var params := SessionParams(
      customerId,
      if customerId.Some? then None else Some(userEmail),
      lineItems,
      priceConfig.mode,
      base + "/app/candidat?checkout=success&plan=" + planType,
      base + "/inscription?checkout=cancelled",
      Metadata(if userId.Some? then userId.value else "", planType, mode));
    r := Success(Checkout(params));
  }

  /**
   * Every paid plan of the tunnel has a price; the packs are paid once and the others recur,
   * and every one of them but the monthly assisted plan also pays the file fee.
   */
  lemma TunnelPlansPriced(p: PlanType)
    requires p != Gratuit
    ensures PlanId(p) in PriceMap
    ensures PriceMap[PlanId(p)].mode == Payment <==> p == Pack8 || p == Pack15
    ensures |LineItems(PlanId(p))| == 2 <==> p != Mensuel30
  {
  }
}
