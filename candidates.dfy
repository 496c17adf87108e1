/**
 * autonomous_logic.py, the candidate lists: the food test, the comprehensions
 * that pick the techs and buildings worth considering (they keep the
 * managers' table order) and `min`, which takes the first of least cost.
 */
module Candidates {
  import opened Wrappers
  import opened Text
  import opened GameState
  import TechTree
  import Buildings

  // --- thresholds (autonomous_logic.py:20, 57, 63, 75) ---

  const FoodCyclesFloor := 5.0
  const FoodFloor := 20.0
  const StabilityConcern := 30.0
  const KnowledgeSurplus := 20.0
  const ProductionSurplus := 30.0

  // --- list helpers ---

  /** A comprehension with a condition: the kept elements, in order. */
  function Filter<T(!new)>(xs: seq<T>, keep: T -> bool): (r: seq<T>)
    ensures forall x :: x in r <==> x in xs && keep(x)
    ensures |r| <= |xs|
  {
    if xs == [] then []
    else (if keep(xs[0]) then [xs[0]] else []) + Filter(xs[1..], keep)
  }

  /** `min(xs, key=key)`: the position of the first element of least key. */
  function MinIndex<T>(xs: seq<T>, key: T -> real): (i: nat)
    requires xs != []
    ensures i < |xs|
    ensures forall j :: 0 <= j < |xs| ==> key(xs[i]) <= key(xs[j])
    ensures forall j :: 0 <= j < i ==> key(xs[i]) < key(xs[j])
    decreases |xs|
  {
    if |xs| == 1 then 0
    else
      var i := MinIndex(xs[..|xs| - 1], key);
      if key(xs[|xs| - 1]) < key(xs[i]) then |xs| - 1 else i
  }

  // --- the food test ---

  /** Lines 15-16: consumption at 1.0 per head, replaced by 1 when not positive. */
  function EstimatedConsumption(population: real): (c: real)
    ensures c > 0.0
    ensures population * FoodConsumptionPerCapita > 0.0 ==> c == population * FoodConsumptionPerCapita
  {
    var c := population * FoodConsumptionPerCapita;
    if c <= 0.0 then 1.0 else c
  }

  /** Lines 18-20: fewer than five cycles of food left, or less than 20 Food. */
  predicate FoodCrisis(res: Resources)
  {
    res.food / EstimatedConsumption(res.population) < FoodCyclesFloor || res.food < FoodFloor
  }

  // --- candidates ---

  /**
   * Line 26: the description mentions "Food" or "food". Of the seventeen
   * descriptions in the tech table, these five do.
   */
  predicate MentionsFood(t: TechTree.TechId)
  {
    t in {TechTree.BasicFarming, TechTree.BasicGranaries, TechTree.AnimalHusbandry,
          TechTree.Calendrics, TechTree.CropRotation}
  }

  /** Lines 24-27: available techs about food that the Knowledge stock pays for. */
  function FoodTechs(available: seq<TechTree.TechId>, knowledge: real): (r: seq<TechTree.TechId>)
    ensures forall t :: t in r <==> t in available && MentionsFood(t) && TechTree.Cost(t) <= knowledge
  {
    Filter(available, t => MentionsFood(t) && TechTree.Cost(t) <= knowledge)
  }

  /** Line 66: available techs the Knowledge stock pays for. */
  function AffordableTechs(available: seq<TechTree.TechId>, knowledge: real): (r: seq<TechTree.TechId>)
    ensures forall t :: t in r <==> t in available && TechTree.Cost(t) <= knowledge
  {
    Filter(available, t => TechTree.Cost(t) <= knowledge)
  }

  /**
   * Line 38: "Food" in the description, or "food" in the lower-cased effect
   * text. Of the ten buildings, these three qualify (the Improved Granary by
   * its effect text).
   */
  predicate FoodBuilding(b: Buildings.BuildingId)
  {
    b in {Buildings.Granary, Buildings.CommunalFields, Buildings.ImprovedGranary}
  }

  /** Lines 39 and 79: Production covers one cycle's cost, or the building is instant. */
  predicate BuildAffordable(b: Buildings.BuildingId, production: real)
  {
    production >= Buildings.CostPerCycle(Buildings.CostTotal(b), Buildings.BuildTime(b)) as real
    || Buildings.BuildTime(b) == 0
  }

  /**
   * Line 45: the lower-cased description mentions both "provides" and
   * "food"; only the Granary's does.
   */
  predicate Provides(b: Buildings.BuildingId)
  {
    b == Buildings.Granary
  }

  /** Lines 36-40. */
  function FoodBuildings(constructible: seq<Buildings.BuildingId>, production: real): (r: seq<Buildings.BuildingId>)
    ensures forall b :: b in r <==> b in constructible && FoodBuilding(b) && BuildAffordable(b, production)
  {
    Filter(constructible, b => FoodBuilding(b) && BuildAffordable(b, production))
  }

  /** Lines 77-80. */
  function AffordableBuildings(constructible: seq<Buildings.BuildingId>, production: real): (r: seq<Buildings.BuildingId>)
    ensures forall b :: b in r <==> b in constructible && BuildAffordable(b, production)
  {
    Filter(constructible, b => BuildAffordable(b, production))
  }

  /** Lines 29 and 68: `min` by cost, the first of least cost in listing order. */
  function CheapestTech(ts: seq<TechTree.TechId>): (c: TechTree.TechId)
    requires ts != []
    ensures c in ts && forall u :: u in ts ==> TechTree.Cost(c) <= TechTree.Cost(u)
    ensures exists i :: 0 <= i < |ts| && ts[i] == c && forall j :: 0 <= j < i ==> TechTree.Cost(ts[j]) > TechTree.Cost(c)
  {
    var i := MinIndex(ts, t => TechTree.Cost(t));
    assert forall j :: 0 <= j < i ==> TechTree.Cost(ts[j]) > TechTree.Cost(ts[i]);
    ts[i]
  }

  /** Lines 49 and 82: `min` by total cost, the first of least cost in listing order. */
  function CheapestBuilding(bs: seq<Buildings.BuildingId>): (c: Buildings.BuildingId)
    requires bs != []
    ensures c in bs && forall u :: u in bs ==> Buildings.CostTotal(c) <= Buildings.CostTotal(u)
    ensures exists i :: 0 <= i < |bs| && bs[i] == c && forall j :: 0 <= j < i ==> Buildings.CostTotal(bs[j]) > Buildings.CostTotal(c)
  {
    var i := MinIndex(bs, b => Buildings.CostTotal(b) as real);
    assert forall j :: 0 <= j < i ==> Buildings.CostTotal(bs[j]) > Buildings.CostTotal(bs[i]);
    bs[i]
  }

  /** Lines 44-47: the first candidate whose description offers food outright. */
  function FirstProviding(bs: seq<Buildings.BuildingId>): (r: Option<Buildings.BuildingId>)
    ensures r.None? <==> forall b :: b in bs ==> !Provides(b)
    ensures r.Some? ==> r.value in bs && Provides(r.value)
  {
    if bs == [] then None
    else if Provides(bs[0]) then Some(bs[0])
    else FirstProviding(bs[1..])
  }

  /** The building found provides food and every candidate before it does not. */
  lemma {:induction false} FirstProvidingIsFirst(bs: seq<Buildings.BuildingId>)
    requires FirstProviding(bs).Some?
    ensures exists i :: 0 <= i < |bs| && bs[i] == FirstProviding(bs).value && Provides(bs[i]) &&
                        forall j :: 0 <= j < i ==> !Provides(bs[j])
  {
    if !Provides(bs[0]) {
      var tail := bs[1..];
      var r := FirstProviding(tail);
      assert FirstProviding(bs) == r;
      FirstProvidingIsFirst(tail);
      hide FirstProviding;
      var i :| 0 <= i < |tail| && tail[i] == r.value && Provides(tail[i]) &&
               forall j :: 0 <= j < i ==> !Provides(tail[j]);
      assert bs[i + 1] == r.value;
      forall j | 0 <= j < i + 1
        ensures !Provides(bs[j])
      {
        if j > 0 {
          assert bs[j] == tail[j - 1];
        }
      }
    }
  }

  /** Lines 42-49: the first providing building, else the cheapest by total cost. */
  function FoodBuildingChoice(bs: seq<Buildings.BuildingId>): (b: Buildings.BuildingId)
    requires bs != []
    ensures b in bs
    ensures Provides(b) <==> exists p :: p in bs && Provides(p)
  {
    match FirstProviding(bs)
    case Some(b) => b
    case None => CheapestBuilding(bs)
  }

  /** Lines 44-47: the scan with `break`. */
  method FirstProvider(bs: seq<Buildings.BuildingId>) returns (best: Option<Buildings.BuildingId>)
    ensures best == FirstProviding(bs)
  {
    best := None;
    var i := 0;
    while i < |bs|
      invariant 0 <= i <= |bs|
      invariant FirstProviding(bs[i..]) == FirstProviding(bs)
    {
      if Provides(bs[i]) {
        best := Some(bs[i]);
        return;
      }
      assert bs[i..][1..] == bs[i + 1..];
      i := i + 1;
    }
  }
}
