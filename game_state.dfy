/**
 * The engine's shared state (text_epoch/game_state.py): the resource ledger,
 * the cycle counters, the three modifier pools, the generation constants, and
 * the per-cycle resource and stability updates.
 */
module GameState {
  import opened Numbers

  datatype Res = Population | Food | Production | Knowledge | Culture | Stability

  /** `core_resources`. Every quantity is a real; Population only ever holds whole numbers. */
  datatype Resources = Resources(population: real, food: real, production: real,
                                 knowledge: real, culture: real, stability: real)
  {
    /** `core_resources[name]`. */
    function Get(k: Res): real
    {
      match k
      case Population => population
      case Food => food
      case Production => production
      case Knowledge => knowledge
      case Culture => culture
      case Stability => stability
    }

    /** `core_resources[name] = v`. */
    function Set(k: Res, v: real): (r: Resources)
      ensures r.Get(k) == v
      ensures forall k' :: k' != k ==> r.Get(k') == Get(k')
    {
      match k
      case Population => this.(population := v)
      case Food => this.(food := v)
      case Production => this.(production := v)
      case Knowledge => this.(knowledge := v)
      case Culture => this.(culture := v)
      case Stability => this.(stability := v)
    }
  }

  function ResName(k: Res): string
  {
    match k
    case Population => "Population"
    case Food => "Food"
    case Production => "Production"
    case Knowledge => "Knowledge"
    case Culture => "Culture"
    case Stability => "Stability"
  }

  /**
   * The channel names of the three modifier pools (`tech_modifiers`,
   * `building_modifiers`, `policy_modifiers`); each constructor stands for the
   * snake_case key it spells.
   */
  datatype Channel =
    // tech_modifiers
    | FoodProductionBonusFactor | ProductionBonusFactor | KnowledgeGenerationBonusFactor
    | CultureGenerationBonusFactor | StabilityPerCycleBonus | PopulationGrowthModifier
    | BuildingCostModifierProduction | ResearchSpeedModifier
    // building_modifiers (besides the shared factor and stability keys)
    | FoodPerCycleBonus | ProductionPerCycleBonus | KnowledgePerCycleBonus | CulturePerCycleBonus
    | KnowledgeBonusFactor | CultureBonusFactor | MaxPopulationBonus | HousingQualityModifier
    // policy_modifiers
    | CulturePerCyclePolicyBonus | ProductionBonusFactorPolicy | PopulationGrowthModifierPolicy
    | KnowledgeGenerationBonusFactorPolicy | CulturePerCyclePolicyCost | StabilityPolicyBonus
    | FoodPerCyclePolicyBonus | ProductionPerCyclePolicyBonus | KnowledgePerCyclePolicyBonus

  /** A modifier pool: channel to number, read with a per-use default. */
  type Pool = map<Channel, real>

  /** `pool.get(key, dflt)`. */
  function Get(p: Pool, key: Channel, dflt: real): real
  {
    if key in p then p[key] else dflt
  }

  /** One update of a pool entry, as the source's effect lambdas write them. */
  datatype PoolOp =
    | Add(key: Channel, x: real)   // pool[key] = pool.get(key, 0) + x
    | Mul(key: Channel, f: real)   // pool[key] = pool.get(key, 1.0) * f
    | Div(key: Channel, f: real)   // pool[key] = pool.get(key, 1.0) / f

  predicate OpOk(op: PoolOp)
  {
    op.Div? ==> op.f != 0.0
  }

  predicate OpsOk(ops: seq<PoolOp>)
  {
    forall i :: 0 <= i < |ops| ==> OpOk(ops[i])
  }

  function ApplyOp(p: Pool, op: PoolOp): (q: Pool)
    requires OpOk(op)
    ensures q.Keys == p.Keys + {op.key}
  {
    match op
    case Add(k, x) => p[k := Get(p, k, 0.0) + x]
    case Mul(k, f) => p[k := Get(p, k, 1.0) * f]
    case Div(k, f) => p[k := Get(p, k, 1.0) / f]
  }

  /** An op changes only the channel it names. */
  lemma ApplyOpKeepsOthers(p: Pool, op: PoolOp)
    requires OpOk(op)
    ensures forall k :: k in p && k != op.key ==> ApplyOp(p, op)[k] == p[k]
  {
  }

  /** The value one pool op writes under its key. */
  function OpValue(p: Pool, op: PoolOp): real
    requires OpOk(op)
  {
    match op
    case Add(k, x) => Get(p, k, 0.0) + x
    case Mul(k, f) => Get(p, k, 1.0) * f
    case Div(k, f) => Get(p, k, 1.0) / f
  }

  lemma OpIsUpdate(p: Pool, op: PoolOp)
    requires OpOk(op)
    ensures ApplyOp(p, op) == p[op.key := OpValue(p, op)]
  {
  }

  /** The ops of one effect, applied left to right. */
  function ApplyOps(p: Pool, ops: seq<PoolOp>): (q: Pool)
    requires OpsOk(ops)
    ensures p.Keys <= q.Keys
    ensures forall k :: k in p && (forall i :: 0 <= i < |ops| ==> ops[i].key != k) ==> k in q && q[k] == p[k]
    decreases |ops|
  {
    if ops == [] then p else ApplyOpKeepsOthers(p, ops[0]); ApplyOps(ApplyOp(p, ops[0]), ops[1..])
  }

  // --- initial ledger and pools ---

  const InitialResources := Resources(100.0, 100.0, 50.0, 0.0, 0.0, 75.0)

  const InitialTechModifiers: Pool := map[
    FoodProductionBonusFactor := 1.0,
    ProductionBonusFactor := 1.0,
    KnowledgeGenerationBonusFactor := 1.0,
    CultureGenerationBonusFactor := 1.0,
    StabilityPerCycleBonus := 0.0,
    PopulationGrowthModifier := 1.0,
    BuildingCostModifierProduction := 1.0,
    ResearchSpeedModifier := 1.0]

  const InitialBuildingModifiers: Pool := map[
    FoodPerCycleBonus := 0.0,
    ProductionPerCycleBonus := 0.0,
    KnowledgePerCycleBonus := 0.0,
    CulturePerCycleBonus := 0.0,
    FoodProductionBonusFactor := 1.0,
    ProductionBonusFactor := 1.0,
    KnowledgeBonusFactor := 1.0,
    CultureBonusFactor := 1.0,
    StabilityPerCycleBonus := 0.0,
    MaxPopulationBonus := 0.0,
    HousingQualityModifier := 1.0]

  const InitialPolicyModifiers: Pool := map[
    CulturePerCyclePolicyBonus := 0.0,
    ProductionBonusFactorPolicy := 1.0,
    PopulationGrowthModifierPolicy := 1.0,
    KnowledgeGenerationBonusFactorPolicy := 1.0,
    CulturePerCyclePolicyCost := 0.0,
    StabilityPolicyBonus := 0.0,
    FoodPerCyclePolicyBonus := 0.0,
    ProductionPerCyclePolicyBonus := 0.0,
    KnowledgePerCyclePolicyBonus := 0.0]

  // --- constants ---

  const FoodPerCapita := 1.1
  const ProductionPerCapita := 0.5
  const KnowledgePerCapita := 0.1
  const CulturePerCapita := 0.05
  const GrowthRateBase := 0.01
  const FoodConsumptionPerCapita := 1.0
  const StarvationPenaltyRatio := 0.1
  const MinPopulation := 2.0
  const StarvationStabilityPenalty := 5.0
  const LowThreshold := 40.0
  const LowDrain := 2.0
  const HighThreshold := 80.0
  const HighBoost := 1.0
  const FoodShortagePenalty := 2.0

  // --- update_stability ---

  /** The food part of the stability rules: starvation costs 5, otherwise an empty store costs 2; never both. */
  function FoodPenalty(foodIsZero: bool, starvation: bool): (p: real)
    ensures (p == StarvationStabilityPenalty) <==> starvation
    ensures (p == FoodShortagePenalty) <==> !starvation && foodIsZero
    ensures (p == 0.0) <==> !starvation && !foodIsZero
  {
    if starvation then StarvationStabilityPenalty
    else if foodIsZero then FoodShortagePenalty
    else 0.0
  }

  /** The trend part: both thresholds compare the Stability read on entry. */
  function Trend(prev: real): (t: real)
    ensures prev < LowThreshold ==> t == -LowDrain
    ensures prev > HighThreshold ==> t == HighBoost
    ensures LowThreshold <= prev <= HighThreshold ==> t == 0.0
  {
    (if prev < LowThreshold then -LowDrain else 0.0) + (if prev > HighThreshold then HighBoost else 0.0)
  }

  /** Stability after `update_stability`: entry value plus both parts, clamped to [0,100]. */
  function StabilityRules(prev: real, foodIsZero: bool, starvation: bool): (s: real)
    ensures 0.0 <= s <= 100.0
    ensures s <= Max(0.0, prev + HighBoost)
    ensures starvation && 0.0 <= prev <= 100.0 ==> s <= Max(0.0, prev - 4.0)
    ensures !starvation && !foodIsZero && LowThreshold <= prev <= HighThreshold ==> s == prev
  {
    Clamp(0.0, 100.0, prev - FoodPenalty(foodIsZero, starvation) + Trend(prev))
  }

  // --- update_resources, step by step ---

  /** Step 1 (lines 134-137): building plus policy flat bonuses onto the four stocks. */
  function AddFlatBonuses(r: Resources, bm: Pool, pm: Pool): (o: Resources)
    ensures o.population == r.population && o.stability == r.stability
    ensures o.food - r.food == Get(bm, FoodPerCycleBonus, 0.0) + Get(pm, FoodPerCyclePolicyBonus, 0.0)
    ensures o.production - r.production == Get(bm, ProductionPerCycleBonus, 0.0) + Get(pm, ProductionPerCyclePolicyBonus, 0.0)
    ensures o.knowledge - r.knowledge == Get(bm, KnowledgePerCycleBonus, 0.0) + Get(pm, KnowledgePerCyclePolicyBonus, 0.0)
    ensures o.culture - r.culture == Get(bm, CulturePerCycleBonus, 0.0) + Get(pm, CulturePerCyclePolicyBonus, 0.0)
  {
    r.(food := r.food + (Get(bm, FoodPerCycleBonus, 0.0) + Get(pm, FoodPerCyclePolicyBonus, 0.0)),
       production := r.production + (Get(bm, ProductionPerCycleBonus, 0.0) + Get(pm, ProductionPerCyclePolicyBonus, 0.0)),
       knowledge := r.knowledge + (Get(bm, KnowledgePerCycleBonus, 0.0) + Get(pm, KnowledgePerCyclePolicyBonus, 0.0)),
       culture := r.culture + (Get(bm, CulturePerCycleBonus, 0.0) + Get(pm, CulturePerCyclePolicyBonus, 0.0)))
  }

  /** Step 2 (lines 140-142): the policy culture upkeep, then Culture clamped at 0. */
  function PayCultureUpkeep(r: Resources, pm: Pool): (o: Resources)
    ensures o.culture >= 0.0
    ensures o == r.(culture := o.culture)
    ensures r.culture - Get(pm, CulturePerCyclePolicyCost, 0.0) >= 0.0 ==>
              o.culture == r.culture - Get(pm, CulturePerCyclePolicyCost, 0.0)
    ensures r.culture - Get(pm, CulturePerCyclePolicyCost, 0.0) < 0.0 ==> o.culture == 0.0
  {
    var c := r.culture - Get(pm, CulturePerCyclePolicyCost, 0.0);
    r.(culture := if c < 0.0 then 0.0 else c)
  }

  /** Starvation loss (lines 155-157) for a Food stock that went negative after consumption. */
  function StarvationLoss(pop: real, foodAfterConsumption: real, consumed: real): (loss: int)
    requires foodAfterConsumption < 0.0
    ensures pop >= 0.0 ==> 0 <= loss && loss as real <= pop * StarvationPenaltyRatio
  {
    var deficitRatio := -foodAfterConsumption / (if consumed > 0.0 then consumed else 1.0);
    var penalty := Min(StarvationPenaltyRatio, StarvationPenaltyRatio * deficitRatio * 2.0);
    assert deficitRatio > 0.0 && 0.0 <= penalty <= StarvationPenaltyRatio;
    assert pop >= 0.0 ==> 0.0 <= pop * penalty <= pop * StarvationPenaltyRatio;
    Trunc(pop * penalty)
  }

  /** The modified growth rate (lines 164-167): 0.01 times the three growth factors. */
  function GrowthRate(tm: Pool, bm: Pool, pm: Pool): real
  {
    GrowthRateBase * Get(tm, PopulationGrowthModifier, 1.0) *
    Get(bm, HousingQualityModifier, 1.0) * Get(pm, PopulationGrowthModifierPolicy, 1.0)
  }

  /** Growth (lines 169-171) when Food stayed non-negative: the surplus multiplier is capped at 2. */
  function GrowthGain(pop: real, food: real, rate: real): (gain: int)
    requires food >= 0.0 && pop != -1.0
    ensures pop >= 0.0 && rate >= 0.0 ==> 0 <= gain && gain as real <= pop * rate * 2.0
  {
    var surplus := 1.0 + food / (pop * FoodConsumptionPerCapita + 1.0);
    var effective := Min(rate * surplus, rate * 2.0);
    assert pop >= 0.0 && rate >= 0.0 ==> pop * effective <= pop * (rate * 2.0);
    Trunc(pop * effective)
  }

  /**
   * The floor clamp (lines 174-177): a population that falls below 2 is put back
   * to 2 only when it was at least 2 before the cycle.
   */
  function FloorClamp(prevPop: real, pop: real): (p: real)
    ensures prevPop >= MinPopulation ==> p >= MinPopulation
    ensures prevPop >= MinPopulation && pop < MinPopulation ==> p == MinPopulation
    ensures prevPop < MinPopulation ==> p == pop
    ensures pop >= MinPopulation ==> p == pop
  {
    if pop < MinPopulation && prevPop >= MinPopulation then MinPopulation else pop
  }

  datatype PopulationOutcome = PopulationOutcome(res: Resources, starvation: bool)

  /** Steps 3-4 (lines 150-177): consumption, starvation or growth, and the floor clamp. */
  function PopulationStep(r: Resources, tm: Pool, bm: Pool, pm: Pool): (o: PopulationOutcome)
    requires r.population != -1.0
    ensures o.res.production == r.production && o.res.knowledge == r.knowledge
    ensures o.res.culture == r.culture && o.res.stability == r.stability
    ensures o.res.food >= 0.0
    ensures o.starvation ==> r.food - r.population * FoodConsumptionPerCapita < 0.0 && o.res.food == 0.0
    ensures r.food - r.population * FoodConsumptionPerCapita >= 0.0 ==>
              !o.starvation && o.res.food == r.food - r.population * FoodConsumptionPerCapita
    ensures o.starvation && r.population >= 0.0 ==> o.res.population < r.population || o.res.population == MinPopulation
  {
    var consumed := r.population * FoodConsumptionPerCapita;
    var food := r.food - consumed;
    if food < 0.0 then
      var loss := StarvationLoss(r.population, food, consumed);
      var pop := FloorClamp(r.population, r.population - loss as real);
      PopulationOutcome(r.(food := 0.0, population := pop), loss > 0)
    else
      var gain := GrowthGain(r.population, food, GrowthRate(tm, bm, pm));
      var pop := FloorClamp(r.population, r.population + gain as real);
      PopulationOutcome(r.(food := food, population := pop), false)
  }

  /** The three factor products of step 5; Food and Culture take no policy factor. */
  function FoodFactor(tm: Pool, bm: Pool): real
  {
    Get(tm, FoodProductionBonusFactor, 1.0) * Get(bm, FoodProductionBonusFactor, 1.0)
  }

  function ProductionFactor(tm: Pool, bm: Pool, pm: Pool): real
  {
    Get(tm, ProductionBonusFactor, 1.0) * Get(bm, ProductionBonusFactor, 1.0) *
    Get(pm, ProductionBonusFactorPolicy, 1.0)
  }

  function KnowledgeFactor(tm: Pool, bm: Pool, pm: Pool): real
  {
    Get(tm, KnowledgeGenerationBonusFactor, 1.0) * Get(bm, KnowledgeBonusFactor, 1.0) *
    Get(pm, KnowledgeGenerationBonusFactorPolicy, 1.0)
  }

  function CultureFactor(tm: Pool, bm: Pool): real
  {
    Get(tm, CultureGenerationBonusFactor, 1.0) * Get(bm, CultureBonusFactor, 1.0)
  }

  /** The per-cycle yields of step 5: Population times the per-capita rate times the factor product. */
  function FoodYield(pop: real, tm: Pool, bm: Pool): real
  {
    pop * (FoodPerCapita * FoodFactor(tm, bm))
  }

  function ProductionYield(pop: real, tm: Pool, bm: Pool, pm: Pool): real
  {
    pop * (ProductionPerCapita * ProductionFactor(tm, bm, pm))
  }

  function KnowledgeYield(pop: real, tm: Pool, bm: Pool, pm: Pool): real
  {
    pop * (KnowledgePerCapita * KnowledgeFactor(tm, bm, pm))
  }

  function CultureYield(pop: real, tm: Pool, bm: Pool): real
  {
    pop * (CulturePerCapita * CultureFactor(tm, bm))
  }

  /** Step 5 (lines 179-207): each stock gains its yield, then is clamped at 0. */
  function AddPopulationYields(r: Resources, tm: Pool, bm: Pool, pm: Pool): (o: Resources)
    ensures o.population == r.population && o.stability == r.stability
    ensures o.food >= 0.0 && o.production >= 0.0 && o.knowledge >= 0.0 && o.culture >= 0.0
    ensures o.food == Max(0.0, r.food + FoodYield(r.population, tm, bm))
    ensures o.production == Max(0.0, r.production + ProductionYield(r.population, tm, bm, pm))
    ensures o.knowledge == Max(0.0, r.knowledge + KnowledgeYield(r.population, tm, bm, pm))
    ensures o.culture == Max(0.0, r.culture + CultureYield(r.population, tm, bm))
  {
    r.(food := Max(0.0, r.food + FoodYield(r.population, tm, bm)),
       production := Max(0.0, r.production + ProductionYield(r.population, tm, bm, pm)),
       knowledge := Max(0.0, r.knowledge + KnowledgeYield(r.population, tm, bm, pm)),
       culture := Max(0.0, r.culture + CultureYield(r.population, tm, bm)))
  }

  /** The summed stability flats of step 6 (lines 212-214). */
  function StabilityFlats(tm: Pool, bm: Pool, pm: Pool): real
  {
    Get(pm, StabilityPolicyBonus, 0.0) + Get(tm, StabilityPerCycleBonus, 0.0) +
    Get(bm, StabilityPerCycleBonus, 0.0)
  }

  /** Step 6 (lines 212-217): flats added and clamped, then the rules with the food flags. */
  function StabilityStep(r: Resources, tm: Pool, bm: Pool, pm: Pool, starvation: bool): (o: Resources)
    ensures o == r.(stability := o.stability)
    ensures 0.0 <= o.stability <= 100.0
    ensures o.stability == StabilityRules(Clamp(0.0, 100.0, r.stability + StabilityFlats(tm, bm, pm)),
                                         r.food == 0.0, starvation)
  {
    var s := Clamp(0.0, 100.0, r.stability + StabilityFlats(tm, bm, pm));
    r.(stability := StabilityRules(s, r.food == 0.0, starvation))
  }

  /** The ledger after one `update_resources` call (through line 217). */
  function CycleResources(r: Resources, tm: Pool, bm: Pool, pm: Pool): (o: Resources)
    requires r.population != -1.0
    ensures 0.0 <= o.stability <= 100.0
    ensures o.food >= 0.0 && o.production >= 0.0 && o.knowledge >= 0.0 && o.culture >= 0.0
    ensures r.population >= MinPopulation ==> o.population >= MinPopulation
  {
    var a := PayCultureUpkeep(AddFlatBonuses(r, bm, pm), pm);
    var p := PopulationStep(a, tm, bm, pm);
    var y := AddPopulationYields(p.res, tm, bm, pm);
    StabilityStep(y, tm, bm, pm, p.starvation)
  }

  /** Whether `update_resources` flagged starvation this cycle. */
  function CycleStarvation(r: Resources, tm: Pool, bm: Pool, pm: Pool): bool
    requires r.population != -1.0
  {
    PopulationStep(PayCultureUpkeep(AddFlatBonuses(r, bm, pm), pm), tm, bm, pm).starvation
  }

  /** The module-level globals of game_state.py, updated in place. */
  class State {
    var res: Resources
    var currentCycle: int
    var idleCycles: int
    var techMods: Pool
    var buildingMods: Pool
    var policyMods: Pool

    constructor ()
      ensures res == InitialResources && currentCycle == 0 && idleCycles == 0
      ensures techMods == InitialTechModifiers && buildingMods == InitialBuildingModifiers
      ensures policyMods == InitialPolicyModifiers
    {
      res := InitialResources;
      currentCycle := 0;
      idleCycles := 0;
      techMods := InitialTechModifiers;
      buildingMods := InitialBuildingModifiers;
      policyMods := InitialPolicyModifiers;
    }

    /** `update_stability`: returns final minus entry Stability. */
    method UpdateStability(foodIsZero: bool, starvation: bool) returns (change: real)
      modifies this`res
      ensures res == old(res).(stability := StabilityRules(old(res.stability), foodIsZero, starvation))
      ensures change == res.stability - old(res.stability)
    {
      var prev := res.stability;
      var delta := 0.0;
      if starvation {
        delta := delta - StarvationStabilityPenalty;
      } else if foodIsZero {
        delta := delta - FoodShortagePenalty;
      }
      if prev < LowThreshold {
        delta := delta - LowDrain;
      }
      if prev > HighThreshold {
        delta := delta + HighBoost;
      }
      res := res.(stability := res.stability + delta);
      res := res.(stability := Max(0.0, Min(100.0, res.stability)));
      change := res.stability - prev;
    }

    /** `update_resources` through line 217 (the reporting block after it is output only). */
    method UpdateResources()
      requires res.population != -1.0
      modifies this`res
      ensures res == CycleResources(old(res), techMods, buildingMods, policyMods)
    {
      AddFlatsAndUpkeep();
      var starvation := ConsumeAndGrow();
      AddYields();
      res := res.(stability := res.stability + StabilityFlats(techMods, buildingMods, policyMods));
      res := res.(stability := Max(0.0, Min(100.0, res.stability)));
      var _ := UpdateStability(res.food == 0.0, starvation);
    }

    /** Lines 134-142 of `update_resources`: flat bonuses, then the culture upkeep. */
    method AddFlatsAndUpkeep()
      modifies this`res
      ensures res == PayCultureUpkeep(AddFlatBonuses(old(res), buildingMods, policyMods), policyMods)
    {
      res := res.(food := res.food + (Get(buildingMods, FoodPerCycleBonus, 0.0) + Get(policyMods, FoodPerCyclePolicyBonus, 0.0)));
      res := res.(production := res.production + (Get(buildingMods, ProductionPerCycleBonus, 0.0) + Get(policyMods, ProductionPerCyclePolicyBonus, 0.0)));
      res := res.(knowledge := res.knowledge + (Get(buildingMods, KnowledgePerCycleBonus, 0.0) + Get(policyMods, KnowledgePerCyclePolicyBonus, 0.0)));
      res := res.(culture := res.culture + (Get(buildingMods, CulturePerCycleBonus, 0.0) + Get(policyMods, CulturePerCyclePolicyBonus, 0.0)));
      res := res.(culture := res.culture - Get(policyMods, CulturePerCyclePolicyCost, 0.0));
      if res.culture < 0.0 {
        res := res.(culture := 0.0);
      }
    }

    /** Lines 150-177 of `update_resources`: consumption, starvation or growth, floor clamp. */
    method ConsumeAndGrow() returns (starvation: bool)
      requires res.population != -1.0
      modifies this`res
      ensures PopulationOutcome(res, starvation) == PopulationStep(old(res), techMods, buildingMods, policyMods)
    {
      var prevPop := res.population;
      starvation := false;
      var consumed := res.population * FoodConsumptionPerCapita;
      res := res.(food := res.food - consumed);
      var change := 0;
      if res.food < 0.0 {
        var loss := StarvationLoss(res.population, res.food, consumed);
        change := -loss;
        if loss > 0 {
          starvation := true;
        }
        res := res.(food := 0.0);
      } else {
        change := GrowthGain(res.population, res.food, GrowthRate(techMods, buildingMods, policyMods));
      }
      res := res.(population := res.population + change as real);
      if res.population < MinPopulation {
        if prevPop >= MinPopulation {
          res := res.(population := MinPopulation);
        }
      }
    }

    /** Lines 179-207 of `update_resources`: the per-capita yields, each stock clamped at 0. */
    method AddYields()
      modifies this`res
      ensures res == AddPopulationYields(old(res), techMods, buildingMods, policyMods)
    {
      var pop := res.population;
      res := res.(food := res.food + FoodYield(pop, techMods, buildingMods));
      res := res.(food := Max(0.0, res.food));
      res := res.(production := res.production + ProductionYield(pop, techMods, buildingMods, policyMods));
      res := res.(production := Max(0.0, res.production));
      res := res.(knowledge := res.knowledge + KnowledgeYield(pop, techMods, buildingMods, policyMods));
      res := res.(knowledge := Max(0.0, res.knowledge));
      res := res.(culture := res.culture + CultureYield(pop, techMods, buildingMods));
      res := res.(culture := Max(0.0, res.culture));
    }
  }
}
