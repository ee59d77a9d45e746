/**
 * The subscription check: from what the payment provider knows of a user (their customer
 * record, an active subscription, their recent checkout sessions), whether they are subscribed,
 * to which plan, and which service mode that plan gives. The provider's answers are inputs.
 */
module CheckSubscription {
  import opened Wrappers
  import opened Text
  import opened Tunnel

  /** The plan each subscription product stands for. */
  const ProductPlanMap: map<string, string> := map[
    "prod_Tjf6ghgtcKmsjg" := "mensuel_30",
    "prod_Tjf7LnvQRBPwuf" := "premium_mensuel",
    "prod_Tjf8n9Y3Cb4dvx" := "recruteur_200",
    "prod_Tjf8RYa0KqnrKf" := "recruteur_500"]

  /** The active subscription: its first item's product, if any, and the end of its period. */
  datatype Subscription = Subscription(product: Option<string>, currentPeriodEnd: int)

  /** A checkout session: whether it was paid, and the plan its metadata names. */
  datatype Session = Session(paid: bool, planType: Option<string>)

  /** The answer; the customer id and the end of the period are absent without a customer. */
  datatype Status = Status(subscribed: bool, planType: string, modeService: ServiceMode,
                           subscriptionEnd: Option<int>, customerId: Option<string>)

  /** The plan of a product, `'unknown'` for a product not in the table. */
  function PlanOfProduct(product: Option<string>): (plan: string)
    ensures product.Some? && product.value in ProductPlanMap ==> plan == ProductPlanMap[product.value]
    ensures !(product.Some? && product.value in ProductPlanMap) ==> plan == "unknown"
  {
    if product.Some? && product.value in ProductPlanMap then ProductPlanMap[product.value]
    else "unknown"
  }

  /** The mode a plan gives: premium or delegation first, then monthly or pack, else autonomous. */
  function ModeForPlan(plan: string): (m: ServiceMode)
    ensures m == Delegation <==> Contains(plan, "premium") || Contains(plan, "delegation")
    ensures m == Assiste <==>
      !(Contains(plan, "premium") || Contains(plan, "delegation"))
      && (Contains(plan, "mensuel") || Contains(plan, "pack"))
  {
    if Contains(plan, "premium") || Contains(plan, "delegation") then Delegation
    else if Contains(plan, "mensuel") || Contains(plan, "pack") then Assiste
    else Autonome
  }

  /** A session that buys a pack: paid, for `pack_8` or `pack_15`. */
  predicate BuysPack(s: Session) {
    s.paid && s.planType.Some? && s.planType.value in ["pack_8", "pack_15"]
  }

  /** The position of the first session that buys a pack, if any. */
  function FirstPack(sessions: seq<Session>): (r: Option<nat>)
    ensures r.Some? ==> r.value < |sessions| && BuysPack(sessions[r.value])
    ensures r.Some? ==> forall j :: 0 <= j < r.value ==> !BuysPack(sessions[j])
    ensures r.None? ==> forall j :: 0 <= j < |sessions| ==> !BuysPack(sessions[j])
  {
    if sessions == [] then None
    else if BuysPack(sessions[0]) then Some(0)
    else
      var rest := FirstPack(sessions[1..]);
      if rest.Some? then Some(rest.value + 1) else None
  }

  /**
   * The check. Without a customer the user is on the free plan; with an active subscription the
   * plan comes from its product; otherwise the sessions are scanned in order and the first pack
   * purchase, if any, counts as a subscription to that pack.
   */
  method Check(customerId: Option<string>, subscription: Option<Subscription>, sessions: seq<Session>)
    returns (r: Status)
    ensures customerId.None? ==> r == Status(false, "gratuit", Autonome, None, None)
    ensures customerId.Some? ==> r.customerId == customerId
    ensures customerId.Some? && subscription.Some? ==>
      && r.subscribed
      && r.planType == PlanOfProduct(subscription.value.product)
      && r.modeService == ModeForPlan(r.planType)
      && r.subscriptionEnd == Some(subscription.value.currentPeriodEnd)
    ensures customerId.Some? && subscription.None? ==>
      r.subscriptionEnd == None &&
      match FirstPack(sessions)
      case Some(i) => r.subscribed && r.planType == sessions[i].planType.value && r.modeService == Assiste
      case None => !r.subscribed && r.planType == "gratuit" && r.modeService == Autonome
  {
    if customerId.None? {
      return Status(false, "gratuit", Autonome, None, None);
    }
    var subscribed := false;
    var planType := "gratuit";
    var subscriptionEnd: Option<int> := None;
    var modeService := Autonome;
    if subscription.Some? {
      subscribed := true;
      subscriptionEnd := Some(subscription.value.currentPeriodEnd);
      planType := PlanOfProduct(subscription.value.product);
      if Contains(planType, "premium") || Contains(planType, "delegation") {
        modeService := Delegation;
      } else if Contains(planType, "mensuel") || Contains(planType, "pack") {
        modeService := Assiste;
      }
    }
    if !subscribed {
      var i := 0;
      while i < |sessions|
        invariant 0 <= i <= |sessions|
        invariant forall j :: 0 <= j < i ==> !BuysPack(sessions[j])
        invariant !subscribed && planType == "gratuit" && modeService == Autonome
      {
        var session := sessions[i];
        if session.paid && session.planType.Some? {
          var sessionPlan := session.planType.value;
          if sessionPlan in ["pack_8", "pack_15"] {
            planType := sessionPlan;
            modeService := Assiste;
            subscribed := true;
            break;
          }
        }
        i := i + 1;
      }
      assert subscribed ==> FirstPack(sessions) == Some(i);
    }
    r := Status(subscribed, planType, modeService, subscriptionEnd, customerId);
  }

  /** The tunnel's plans give the modes they are sold under. */
  lemma TunnelPlanModes()
    ensures ModeForPlan(PlanId(Gratuit)) == Autonome
    ensures ModeForPlan(PlanId(Pack8)) == Assiste
    ensures ModeForPlan(PlanId(Mensuel30)) == Assiste
    ensures ModeForPlan(PlanId(Pack15)) == Assiste
    ensures ModeForPlan(PlanId(PremiumMensuel)) == Delegation
    ensures ModeForPlan(PlanId(PremiumTrimestriel)) == Delegation
  {
    FreePlanMode();
    PackModes();
    MonthlyMode();
    assert StartsWith("premium_mensuel", "premium");
    assert StartsWith("premium_trimestriel", "premium");
  }

  lemma FreePlanMode()
    ensures ModeForPlan("gratuit") == Autonome
  {
    Absent("gratuit");
  }

  lemma PackModes()
    ensures ModeForPlan("pack_8") == Assiste && ModeForPlan("pack_15") == Assiste
  {
    FirstAbsent("pack_8", "delegation");
    FirstAbsent("pack_15", "delegation");
    assert "pack_15"[1] != "premium"[1];
    assert StartsWith("pack_8", "pack") && StartsWith("pack_15", "pack");
  }

  lemma MonthlyMode()
    ensures ModeForPlan("mensuel_30") == Assiste
  {
    FirstAbsent("mensuel_30", "premium");
    FirstAbsent("mensuel_30", "delegation");
    assert StartsWith("mensuel_30", "mensuel");
  }

  /** The recruiter products and unknown products leave the user autonomous. */
  lemma OtherPlanModes()
    ensures ModeForPlan("recruteur_200") == Autonome
    ensures ModeForPlan("recruteur_500") == Autonome
    ensures ModeForPlan("unknown") == Autonome
  {
    RecruiterMode("recruteur_200");
    RecruiterMode("recruteur_500");
    RecruiterMode("unknown");
  }

  /** The recruiter plans, and a product the map does not know, give autonome. */
  lemma RecruiterMode(plan: string)
    requires plan == "recruteur_200" || plan == "recruteur_500" || plan == "unknown"
    ensures ModeForPlan(plan) == Autonome
  {
    if plan != "unknown" {
      assert plan[..10] == "recruteur_";
      assert forall k :: 0 <= k < |plan| ==> plan[k] in "recruteur_0125";
    }
    Absent(plan);
  }

  /** A plan holding none of `p`, `d`, `m` matches none of the four words. */
  lemma Absent(plan: string)
    requires 'p' !in plan && 'd' !in plan && 'm' !in plan
    ensures ModeForPlan(plan) == Autonome
  {
    FirstAbsent(plan, "premium");
    FirstAbsent(plan, "delegation");
    FirstAbsent(plan, "mensuel");
    FirstAbsent(plan, "pack");
  }

  /** A text not holding the first character of another does not contain it. */
  lemma FirstAbsent(s: string, t: string)
    requires t != "" && t[0] !in s
    ensures !Contains(s, t)
  {
    if Contains(s, t) {
      ContainsNecessary(s, t);
    }
  }
}
