/**
 * Step 2 of the tunnel: choosing a plan. A candidate in the free mode is shown the free plan
 * and the one-shot extra services; the other modes are shown the plan cards of their mode, at
 * most one of which is marked selected.
 */
module Step2Pricing {
  import opened Wrappers
  import opened Lists
  import opened Tunnel

  /** A one-shot extra service and its price in euros. */
  datatype Service = Service(id: string, price: nat)

  const ServicesOneShot: seq<Service> := [
    Service("revision_cv", 10),
    Service("lettre_motivation", 8),
    Service("simulation_entretien", 15)]

  const PlansAssiste: seq<PlanType> := [Pack8, Mensuel30, Pack15]

  const PlansDelegation: seq<PlanType> := [PremiumMensuel, PremiumTrimestriel]

  /** What the step shows: the free screen with the extra services, or a set of plan cards. */
  datatype Screen = FreeScreen(services: seq<Service>) | PlanCards(plans: seq<PlanType>)

  /**
   * The free mode gets the free screen; the assisted mode its packs and subscription; any other
   * mode, an unset one included, the two premium subscriptions.
   */
  function ScreenFor(mode: Option<ServiceMode>): (r: Screen)
    ensures r.FreeScreen? <==> mode == Some(Autonome)
    ensures r.PlanCards? ==> Distinct(r.plans) && Gratuit !in r.plans
  {
    if mode == Some(Autonome) then FreeScreen(ServicesOneShot)
    else if mode == Some(Assiste) then PlanCards(PlansAssiste)
    else PlanCards(PlansDelegation)
  }

  /** The cards per mode, in their order on screen. */
  lemma ScreenForModes()
    ensures ScreenFor(Some(Assiste)).plans == [Pack8, Mensuel30, Pack15]
    ensures ScreenFor(Some(Delegation)).plans == [PremiumMensuel, PremiumTrimestriel]
    ensures ScreenFor(None).plans == [PremiumMensuel, PremiumTrimestriel]
  {
  }

  /**
   * Ticking or unticking an extra service: an id already chosen is removed (every occurrence),
   * any other id is appended.
   */
  function ToggleService(selected: seq<string>, id: string): (r: seq<string>)
    ensures id in selected ==> id !in r && |r| <= |selected|
    ensures id !in selected ==> r == selected + [id]
    ensures forall y :: y != id ==> (y in r <==> y in selected)
  {
    Toggle(selected, id)
  }

  /** Ticking a service and unticking it again gives back the original list. */
  lemma ToggleServiceTwice(selected: seq<string>, id: string)
    requires id !in selected
    ensures ToggleService(ToggleService(selected, id), id) == selected
  {
    ToggleTwice(selected, id);
  }

  /** A card is marked selected when it carries the selected plan. */
  predicate IsSelected(selectedPlan: Option<PlanType>, plan: PlanType) {
    selectedPlan == Some(plan)
  }

  /** Whatever the mode and the selected plan, at most one card on screen is marked selected. */
  lemma AtMostOneSelected(mode: Option<ServiceMode>, selectedPlan: Option<PlanType>, i: int, j: int)
    requires ScreenFor(mode).PlanCards?
    requires 0 <= i < |ScreenFor(mode).plans| && 0 <= j < |ScreenFor(mode).plans|
    requires IsSelected(selectedPlan, ScreenFor(mode).plans[i])
    requires IsSelected(selectedPlan, ScreenFor(mode).plans[j])
    ensures i == j
  {
  }
}
