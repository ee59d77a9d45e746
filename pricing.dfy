/**
 * The pricing section of the landing page: four plans, three of which carry a quantity that the
 * visitor steps up and down. A quantity never goes below 1.
 */
module Pricing {
  import opened Wrappers

  /** The plans whose quantity the section keeps. */
  datatype QuantityKey = Piece | Boost | Fond

  datatype Quantities = Quantities(piece: int, boost: int, fond: int) {
    function Get(k: QuantityKey): int {
      match k
      case Piece => piece
      case Boost => boost
      case Fond => fond
    }

    /** `{ ...prev, [k]: v }`. */
    function With(k: QuantityKey, v: int): (r: Quantities)
      ensures r.Get(k) == v
      ensures forall j :: j != k ==> r.Get(j) == Get(j)
    {
      match k
      case Piece => this.(piece := v)
      case Boost => this.(boost := v)
      case Fond => this.(fond := v)
    }
  }

  const InitialQuantities := Quantities(5, 1, 1)

  function Max(a: int, b: int): int {
    if a >= b then a else b
  }

  /** `updateQuantity(k, delta)`: the quantity moved by `delta`, but never below 1. */
  function UpdateQuantity(q: Quantities, k: QuantityKey, delta: int): (r: Quantities)
    ensures r.Get(k) >= 1 && r.Get(k) >= q.Get(k) + delta
    ensures q.Get(k) + delta >= 1 ==> r.Get(k) == q.Get(k) + delta
    ensures forall j :: j != k ==> r.Get(j) == q.Get(j)
  {
    q.With(k, Max(1, q.Get(k) + delta))
  }

  /** Every quantity is at least 1. */
  predicate AllPositive(q: Quantities) {
    forall k :: q.Get(k) >= 1
  }

  /** The initial quantities are positive, and every step keeps them so. */
  lemma QuantitiesStayPositive(q: Quantities, k: QuantityKey, delta: int)
    ensures AllPositive(InitialQuantities)
    ensures AllPositive(q) ==> AllPositive(UpdateQuantity(q, k, delta))
  {
    var r := UpdateQuantity(q, k, delta);
    if AllPositive(q) {
      forall j ensures r.Get(j) >= 1 {
        if j != k {
          assert r.Get(j) == q.Get(j);
        }
      }
    }
    assert forall j :: InitialQuantities.Get(j) >= 1;
  }

  /** The plus button undoes the minus button, and the reverse, on a positive quantity. */
  lemma PlusMinusUndo(q: Quantities, k: QuantityKey)
    requires q.Get(k) >= 1
    ensures UpdateQuantity(UpdateQuantity(q, k, 1), k, -1) == q
    ensures q.Get(k) >= 2 ==> UpdateQuantity(UpdateQuantity(q, k, -1), k, 1) == q
  {
  }

  /** The minimum the piece plan declares, which the stepper does not use. */
  const PieceMinQuantity := 5

  /** From its initial 5, one click on the piece plan's minus button gives 4. */
  lemma PieceBelowDeclaredMinimum()
    ensures InitialQuantities.Get(Piece) == PieceMinQuantity
    ensures UpdateQuantity(InitialQuantities, Piece, -1).Get(Piece) == 4 < PieceMinQuantity
  {
  }

  /** The least quantity of each plan, the piece plan's declared minimum included. */
  function MinQuantity(k: QuantityKey): int {
    if k == Piece then PieceMinQuantity else 1
  }

  /** The stepper as the declared minimum calls for: never below the plan's least quantity. */
  function UpdateQuantityWithMinimum(q: Quantities, k: QuantityKey, delta: int): (r: Quantities)
    ensures r.Get(k) >= MinQuantity(k) && r.Get(k) >= q.Get(k) + delta
    ensures q.Get(k) + delta >= MinQuantity(k) ==> r.Get(k) == q.Get(k) + delta
    ensures forall j :: j != k ==> r.Get(j) == q.Get(j)
  {
    q.With(k, Max(MinQuantity(k), q.Get(k) + delta))
  }

  /** With the minimum applied, the piece quantity never drops below 5, whatever is clicked. */
  lemma MinimumKept(q: Quantities, k: QuantityKey, delta: int)
    requires forall j :: q.Get(j) >= MinQuantity(j)
    ensures forall j :: UpdateQuantityWithMinimum(q, k, delta).Get(j) >= MinQuantity(j)
    ensures UpdateQuantityWithMinimum(q, k, delta).Get(Piece) >= PieceMinQuantity
  {
    var r := UpdateQuantityWithMinimum(q, k, delta);
    forall j ensures r.Get(j) >= MinQuantity(j) {
      if j != k {
        assert r.Get(j) == q.Get(j);
      }
    }
    assert r.Get(Piece) >= MinQuantity(Piece);
  }

  /** The four plans shown. */
  datatype PlanKey = PiecePlan | BoostPlan | FondPlan | MensuelPlan

  datatype PricingPlan = PricingPlan(key: PlanKey, hasQuantity: bool, featured: bool)

  const Plans: seq<PricingPlan> := [
    PricingPlan(PiecePlan, true, false),
    PricingPlan(BoostPlan, true, true),
    PricingPlan(FondPlan, true, false),
    PricingPlan(MensuelPlan, false, false)]

  /** A plan shows a quantity selector when it has a quantity and is not the monthly plan. */
  predicate ShowsSelector(p: PricingPlan) {
    p.hasQuantity && p.key != MensuelPlan
  }

  /** The quantity a plan's selector steps, when it has one. */
  function SelectorKey(p: PricingPlan): (k: Option<QuantityKey>)
    ensures k.Some? <==> ShowsSelector(p)
  {
    if !ShowsSelector(p) then None
    else match p.key
      case PiecePlan => Some(Piece)
      case BoostPlan => Some(Boost)
      case FondPlan => Some(Fond)
  }

  /** The first three plans show a selector, each over its own quantity; the monthly one shows none. */
  lemma SelectorsShown(i: int, j: int)
    requires 0 <= i < |Plans| && 0 <= j < |Plans|
    ensures ShowsSelector(Plans[i]) <==> i < 3
    ensures SelectorKey(Plans[i]).Some? && SelectorKey(Plans[i]) == SelectorKey(Plans[j]) ==> i == j
  {
  }
}
