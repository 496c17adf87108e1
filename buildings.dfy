/**
 * Construction (text_epoch/building_manager.py): ten building kinds with
 * costs, build times, tech prerequisites, limits and count-dependent effects;
 * projects funded from Production each cycle; completed counts; and the
 * building modifier pool rebuilt from the completed counts.
 */
module Buildings {
  import opened Wrappers
  import opened Numbers
  import opened Dict
  import opened GameState
  import opened Text
  import opened Lists
  import TechTree

  datatype BuildingId =
    | Granary | Workshop | CommunalFields | ImprovedGranary | Shrine
    | TrainingGround | StoneWalls | Library | MarketSquare | BasicHousing

  /** The dictionary's iteration order. */
  const Order: seq<BuildingId> := [
    Granary, Workshop, CommunalFields, ImprovedGranary, Shrine,
    TrainingGround, StoneWalls, Library, MarketSquare, BasicHousing]

  function Key(b: BuildingId): string
  {
    match b
    case Granary => "granary"
    case Workshop => "workshop"
    case CommunalFields => "communal_fields"
    case ImprovedGranary => "improved_granary"
    case Shrine => "shrine"
    case TrainingGround => "training_ground"
    case StoneWalls => "stone_walls"
    case Library => "library"
    case MarketSquare => "market_square"
    case BasicHousing => "basic_housing"
  }

  /** `id in buildings_data`, giving the entry. */
  function Parse(s: string): (r: Option<BuildingId>)
    ensures r.Some? ==> Key(r.value) == s
    ensures r.None? ==> forall b :: Key(b) != s
  {
    if s == "granary" then Some(Granary)
    else if s == "workshop" then Some(Workshop)
    else if s == "communal_fields" then Some(CommunalFields)
    else if s == "improved_granary" then Some(ImprovedGranary)
    else if s == "shrine" then Some(Shrine)
    else if s == "training_ground" then Some(TrainingGround)
    else if s == "stone_walls" then Some(StoneWalls)
    else if s == "library" then Some(Library)
    else if s == "market_square" then Some(MarketSquare)
    else if s == "basic_housing" then Some(BasicHousing)
    else None
  }

  /** Distinct buildings have distinct keys, so `Parse` inverts `Key`. */
  lemma ParseKey(b: BuildingId)
    ensures Parse(Key(b)) == Some(b)
  {
  }

  function Name(b: BuildingId): string
  {
    match b
    case Granary => "Granary"
    case Workshop => "Workshop"
    case CommunalFields => "Communal Fields"
    case ImprovedGranary => "Improved Granary"
    case Shrine => "Shrine"
    case TrainingGround => "Training Ground"
    case StoneWalls => "Stone Walls"
    case Library => "Library"
    case MarketSquare => "Market Square"
    case BasicHousing => "Basic Housing"
  }

  function Description(b: BuildingId): string
  {
    match b
    case Granary => "Provides a steady supply of Food per cycle."
    case Workshop => "Generates Production points per cycle."
    case CommunalFields => "Increases Food production efficiency from population by 10%."
    case ImprovedGranary => "Advanced storage reducing spoilage and increasing capacity."
    case Shrine => "A dedicated space for rituals, bolstering cultural identity and societal stability."
    case TrainingGround => "Basic military training improves discipline and offers a small stability boost."
    case StoneWalls => "Defensive walls providing security and a significant stability boost."
    case Library => "A collection of scrolls and tablets, boosting Knowledge generation and research speed."
    case MarketSquare => "A central place for trade, boosting Production from population slightly."
    case BasicHousing => "Organized construction of simple dwellings. Increases max population and slightly improves growth."
  }

  function EffectDescription(b: BuildingId): string
  {
    match b
    case Granary => "+10 Food/cycle per Granary"
    case Workshop => "+5 Production/cycle per Workshop"
    case CommunalFields => "+10% Food production efficiency from population"
    case ImprovedGranary => "+20 Food/cycle, +5% Food Production Factor (per building)"
    case Shrine => "+3 Culture/cycle, +0.2 Stability/cycle (per shrine)"
    case TrainingGround => "+0.5 Stability/cycle. (Future: unlocks basic military units)"
    case StoneWalls => "+2 Stability/cycle. (Future: defense modifier)"
    case Library => "+10 Knowledge/cycle, +5% Knowledge Factor, +5% Research Speed Factor"
    case MarketSquare => "+5% Production Factor from population."
    case BasicHousing => "+10 Max Population, +2% Housing Quality (per unit)"
  }

  function CostTotal(b: BuildingId): nat
  {
    match b
    case Granary => 50
    case Workshop => 80
    case CommunalFields => 100
    case ImprovedGranary => 120
    case Shrine => 70
    case TrainingGround => 90
    case StoneWalls => 200
    case Library => 150
    case MarketSquare => 130
    case BasicHousing => 60
  }

  function BuildTime(b: BuildingId): nat
  {
    match b
    case Granary => 5
    case Workshop => 8
    case CommunalFields => 10
    case ImprovedGranary => 8
    case Shrine => 6
    case TrainingGround => 7
    case StoneWalls => 15
    case Library => 10
    case MarketSquare => 9
    case BasicHousing => 5
  }

  function Prerequisites(b: BuildingId): seq<TechTree.TechId>
  {
    match b
    case CommunalFields => [TechTree.BasicFarming]
    case ImprovedGranary => [TechTree.BasicGranaries]
    case Shrine => [TechTree.Storytelling]
    case StoneWalls => [TechTree.Masonry]
    case Library => [TechTree.AdvancedWriting]
    case MarketSquare => [TechTree.TradeRoutes]
    case _ => []
  }

  /** `max_allowed`: a count, or `float('inf')`. */
  datatype Limit = Finite(n: nat) | Unbounded

  function MaxAllowed(b: BuildingId): Limit
  {
    match b
    case Granary => Finite(2)
    case Workshop => Unbounded
    case CommunalFields => Finite(1)
    case ImprovedGranary => Finite(2)
    case Shrine => Finite(3)
    case TrainingGround => Finite(1)
    case StoneWalls => Finite(1)
    case Library => Finite(1)
    case MarketSquare => Finite(1)
    case BasicHousing => Unbounded
  }

  /** `count < max_allowed`. */
  predicate Below(count: nat, lim: Limit)
  {
    lim.Unbounded? || count < lim.n
  }

  /** One update of the building pool, parameterised by the completed count. */
  datatype CountOp =
    | AddPer(key: Channel, x: real)    // pool[key] = pool.get(key, 0) + x * count
    | MulPow(key: Channel, f: real)    // pool[key] = pool.get(key, 1.0) * f ** count
    | MulIfAny(key: Channel, f: real)  // pool[key] = pool.get(key, 1.0) * (f if count > 0 else 1.0)

  function Instantiate(op: CountOp, count: nat): (r: PoolOp)
    ensures r.key == op.key && OpOk(r)
  {
    match op
    case AddPer(k, x) => Add(k, x * count as real)
    case MulPow(k, f) => Mul(k, Pow(f, count))
    case MulIfAny(k, f) => Mul(k, if count > 0 then f else 1.0)
  }

  /** `apply_effect(bm, count)`. */
  function Effect(b: BuildingId): seq<CountOp>
  {
    match b
    case Granary => [AddPer(FoodPerCycleBonus, 10.0)]
    case Workshop => [AddPer(ProductionPerCycleBonus, 5.0)]
    case CommunalFields => [MulIfAny(FoodProductionBonusFactor, 1.1)]
    case ImprovedGranary => [AddPer(FoodPerCycleBonus, 20.0), MulPow(FoodProductionBonusFactor, 1.05)]
    case Shrine => [AddPer(CulturePerCycleBonus, 3.0), AddPer(StabilityPerCycleBonus, 0.2)]
    case TrainingGround => [AddPer(StabilityPerCycleBonus, 0.5)]
    case StoneWalls => [AddPer(StabilityPerCycleBonus, 2.0)]
    case Library => [AddPer(KnowledgePerCycleBonus, 10.0), MulPow(KnowledgeBonusFactor, 1.05)]
    case MarketSquare => [MulPow(ProductionBonusFactor, 1.05)]
    case BasicHousing => [AddPer(MaxPopulationBonus, 10.0), MulPow(HousingQualityModifier, 1.02)]
  }

  function EffectOps(ops: seq<CountOp>, count: nat): (r: seq<PoolOp>)
    ensures |r| == |ops| && OpsOk(r)
    ensures forall i :: 0 <= i < |ops| ==> r[i].key == ops[i].key
  {
    if ops == [] then [] else [Instantiate(ops[0], count)] + EffectOps(ops[1..], count)
  }

  /** `production_cost_per_cycle`: the total spread over the build time, rounded half to even. */
  function CostPerCycle(total: nat, time: nat): (c: int)
    ensures time > 0 ==> total as real - time as real / 2.0 <= c as real * time as real <= total as real + time as real / 2.0
    ensures time > 0 && c as real * time as real == total as real - time as real / 2.0 ==> c % 2 == 0
    ensures time > 0 && c as real * time as real == total as real + time as real / 2.0 ==> c % 2 == 0
    ensures time == 0 ==> c == total
    ensures c >= 0
  {
    if time > 0 then
      var t := time as real;
      var q := total as real / t;
      var c := RoundHalfEven(q);
      assert q * t == total as real;
      SpreadBound(total as real, t, q, c as real);
      TieIsHalf(total as real, t, q, c as real);
      c
    else total
  }

  /** A value within one half of `total / t` times `t` is within `t / 2` of `total`. */
  lemma SpreadBound(total: real, t: real, q: real, c: real)
    requires t > 0.0 && q * t == total && q - 0.5 <= c <= q + 0.5
    ensures total - t / 2.0 <= c * t <= total + t / 2.0
  {
    var above := c - q + 0.5;
    var below := q + 0.5 - c;
    NonnegProduct(above, t);
    NonnegProduct(below, t);
    assert above * t == c * t - q * t + 0.5 * t;
    assert below * t == q * t + 0.5 * t - c * t;
  }

  /** A product exactly half a build time off the total comes from a quotient exactly half off the cost. */
  lemma TieIsHalf(total: real, t: real, q: real, c: real)
    requires t > 0.0 && q * t == total
    ensures c * t == total - t / 2.0 ==> c == q - 0.5
    ensures c * t == total + t / 2.0 ==> c == q + 0.5
  {
    if c * t == total - t / 2.0 {
      assert (c - q + 0.5) * t == c * t - q * t + 0.5 * t;
      ZeroFactor(c - q + 0.5, t);
    }
    if c * t == total + t / 2.0 {
      assert (c - q - 0.5) * t == c * t - q * t - 0.5 * t;
      ZeroFactor(c - q - 0.5, t);
    }
  }

  lemma ZeroFactor(x: real, t: real)
    requires t > 0.0 && x * t == 0.0
    ensures x == 0.0
  {
  }

  lemma NonnegProduct(a: real, b: real)
    requires a >= 0.0 && b >= 0.0
    ensures a * b >= 0.0
  {
  }

  /** The per-cycle costs the table yields (Shrine 70/6 rounds up, Market Square 130/9 rounds down). */
  lemma CostPerCycleTable()
    ensures CostPerCycle(CostTotal(Granary), BuildTime(Granary)) == 10
    ensures CostPerCycle(CostTotal(Shrine), BuildTime(Shrine)) == 12
    ensures CostPerCycle(CostTotal(TrainingGround), BuildTime(TrainingGround)) == 13
    ensures CostPerCycle(CostTotal(MarketSquare), BuildTime(MarketSquare)) == 14
  {
  }

  /** An entry of `active_projects`. */
  datatype Project = Project(id: BuildingId, name: string, remaining: int, costPerCycle: int)

  function NewProject(b: BuildingId): Project
  {
    Project(b, Name(b), BuildTime(b), CostPerCycle(CostTotal(b), BuildTime(b)))
  }

  /** Completed counts, in the order the kinds were first completed. */
  type Completed = Dict<BuildingId, nat>

  function CountOf(completed: Completed, b: BuildingId): nat
  {
    GetOr(completed, b, 0)
  }

  /** A completion: a kind seen for the first time is entered with count 0, then its count goes up by one. */
  function Bump(completed: Completed, b: BuildingId): Completed
  {
    var n: nat := CountOf(completed, b) + 1;
    Put(completed, b, n)
  }

  predicate CanConstruct(b: BuildingId, completed: Completed, researched: set<TechTree.TechId>)
  {
    Below(CountOf(completed, b), MaxAllowed(b)) && forall t :: t in Prerequisites(b) ==> t in researched
  }

  /** `get_constructible_buildings`: below the limit and every tech prerequisite researched, in `order`. */
  function ConstructibleIds(order: seq<BuildingId>, completed: Completed, researched: set<TechTree.TechId>): (r: seq<BuildingId>)
    ensures forall b :: b in r <==> b in order && CanConstruct(b, completed, researched)
    ensures |r| <= |order|
  {
    if order == [] then []
    else (if CanConstruct(order[0], completed, researched) then [order[0]] else []) +
         ConstructibleIds(order[1..], completed, researched)
  }

  /** What `start_project` returns. */
  datatype StartOutcome =
    | Started(name: string, buildTime: nat, costPerCycle: int)
    | UnknownBuilding(key: string)
    | MaxReached(name: string, max: Limit)
    | MissingTechs(name: string, missing: seq<string>)
    | ReasonUnknown(key: string)
  {
    predicate IsError() { !Started? }
  }

  /** The message of a successful `start_project`. */
  function StartedMessage(name: string, buildTime: nat, costPerCycle: int): (m: string)
    ensures !StartsWith(m, "Error:")
  {
    var m := "Construction of " + name + " started. It will take " + Decimal(buildTime) + " cycles and cost " +
             IntText(costPerCycle) + " Production per cycle.";
    assert m[..6] == "Constr";
    m
  }

  function StartMessage(r: StartOutcome): (m: string)
    ensures r.IsError() <==> StartsWith(m, "Error:")
  {
    match r
    case Started(name, buildTime, costPerCycle) => StartedMessage(name, buildTime, costPerCycle)
    case UnknownBuilding(key) => ErrorMessage("Building ID '" + key + "' is unknown.")
    case MaxReached(name, max) =>
      ErrorMessage("Cannot start " + name + ". Maximum number (" + (if max.Finite? then Decimal(max.n) else "inf") + ") already built.")
    case MissingTechs(name, missing) =>
      ErrorMessage("Cannot start " + name + ". Missing technology prerequisites: " + Join(", ", missing) + ".")
    case ReasonUnknown(key) => ErrorMessage("Building '" + key + "' cannot be constructed (Reason unknown).")
  }

  function StartVerdict(key: string, completed: Completed, researched: set<TechTree.TechId>): (r: StartOutcome)
    ensures r.Started? <==> Parse(key).Some? && CanConstruct(Parse(key).value, completed, researched)
    ensures Parse(key).None? ==> r == UnknownBuilding(key)
    ensures r.MaxReached? <==> Parse(key).Some? && !Below(CountOf(completed, Parse(key).value), MaxAllowed(Parse(key).value))
    ensures r.MissingTechs? ==> r.missing != []
    ensures !r.ReasonUnknown?
  {
    match Parse(key)
    case None => UnknownBuilding(key)
    case Some(b) =>
      if CanConstruct(b, completed, researched) then
        Started(Name(b), BuildTime(b), CostPerCycle(CostTotal(b), BuildTime(b)))
      else if !Below(CountOf(completed, b), MaxAllowed(b)) then MaxReached(Name(b), MaxAllowed(b))
      else
        var missing := TechTree.MissingPrerequisiteNames(Prerequisites(b), researched);
        if missing != [] then MissingTechs(Name(b), missing)
        else ReasonUnknown(key)
  }

  // --- update_construction ---

  datatype Funding = Funding(projects: seq<Project>, production: real, newly: seq<Project>)

  /**
   * The funding pass of `update_construction` over the projects in order: a
   * project whose per-cycle cost the remaining Production covers pays it and
   * advances one cycle, and joins `newly` once its remaining cycles reach 0;
   * any other project waits.
   */
  function Fund(projects: seq<Project>, production: real): (f: Funding)
    ensures |f.projects| == |projects|
    decreases |projects|
  {
    if projects == [] then Funding([], production, [])
    else
      var before := Fund(projects[..|projects| - 1], production);
      var p := projects[|projects| - 1];
      if before.production >= p.costPerCycle as real then
        var q := p.(remaining := p.remaining - 1);
        Funding(before.projects + [q], before.production - p.costPerCycle as real,
                before.newly + (if q.remaining <= 0 then [q] else []))
      else
        Funding(before.projects + [p], before.production, before.newly)
  }

  /** The funding pass only spends Production, and never below zero. */
  lemma {:induction false} FundSpends(projects: seq<Project>, production: real)
    ensures (forall i :: 0 <= i < |projects| ==> projects[i].costPerCycle >= 0) ==>
              Fund(projects, production).production <= production
    ensures production >= 0.0 ==> Fund(projects, production).production >= 0.0
    decreases |projects|
  {
    if projects != [] {
      var init := projects[..|projects| - 1];
      FundSpends(init, production);
      assert forall i :: 0 <= i < |init| ==> init[i] == projects[i];
    }
  }

  /** Funding the list one project longer leaves the earlier projects as they were funded. */
  lemma FundSnoc(projects: seq<Project>, production: real)
    requires projects != []
    ensures var init := projects[..|projects| - 1];
      var f, g := Fund(projects, production), Fund(init, production);
      var p := projects[|projects| - 1];
      (forall i :: 0 <= i < |init| ==> f.projects[i] == g.projects[i]) &&
      f.projects[|init|] == if g.production >= p.costPerCycle as real then p.(remaining := p.remaining - 1) else p
  {
  }

  /**
   * The funding rule of lines 221-232: a project advances by exactly one cycle
   * when the Production left by the projects before it covers its per-cycle
   * cost, and is left untouched otherwise.
   */
  lemma {:induction false} FundRule(projects: seq<Project>, production: real)
    ensures forall i :: 0 <= i < |projects| ==>
      Fund(projects, production).projects[i] ==
        if Fund(projects[..i], production).production >= projects[i].costPerCycle as real
        then projects[i].(remaining := projects[i].remaining - 1)
        else projects[i]
    decreases |projects|
  {
    if projects != [] {
      var init := projects[..|projects| - 1];
      FundRule(init, production);
      FundSnoc(projects, production);
      hide Fund;
      forall i | 0 <= i < |projects|
        ensures Fund(projects, production).projects[i] ==
          if Fund(projects[..i], production).production >= projects[i].costPerCycle as real
          then projects[i].(remaining := projects[i].remaining - 1)
          else projects[i]
      {
        if i < |init| {
          assert init[..i] == projects[..i] && init[i] == projects[i];
        } else {
          assert projects[..i] == init;
        }
      }
    }
  }

  /**
   * Every project keeps its kind and cost and advances by at most one cycle:
   * exactly one when the Production left by the projects before it covers its
   * per-cycle cost, and none otherwise.
   */
  lemma FundAdvances(projects: seq<Project>, production: real)
    ensures var f := Fund(projects, production);
      forall i :: 0 <= i < |projects| ==>
        f.projects[i].id == projects[i].id && f.projects[i].costPerCycle == projects[i].costPerCycle &&
        (f.projects[i].remaining == projects[i].remaining || f.projects[i].remaining == projects[i].remaining - 1)
    ensures forall i :: 0 <= i < |projects| ==>
      Fund(projects, production).projects[i] ==
        if Fund(projects[..i], production).production >= projects[i].costPerCycle as real
        then projects[i].(remaining := projects[i].remaining - 1)
        else projects[i]
  {
    FundRule(projects, production);
  }

  /** The projects reported finished are funded projects with no cycles left. */
  lemma {:induction false} FundNewly(projects: seq<Project>, production: real)
    ensures var f := Fund(projects, production);
      forall p :: p in f.newly ==> p in f.projects && p.remaining <= 0
    decreases |projects|
  {
    if projects != [] {
      FundNewly(projects[..|projects| - 1], production);
    }
  }

  /** The eleven keys `recalculate_all_building_effects` resets, with their base values. */
  const BuildingChannels: set<Channel> := {
    FoodPerCycleBonus, ProductionPerCycleBonus, KnowledgePerCycleBonus, CulturePerCycleBonus,
    StabilityPerCycleBonus, FoodProductionBonusFactor, ProductionBonusFactor,
    KnowledgeBonusFactor, CultureBonusFactor, MaxPopulationBonus, HousingQualityModifier}

  /** 1.0 for the multiplicative factors, 0 for the additive bonuses. */
  function BaseValue(k: Channel): real
  {
    if k in {FoodProductionBonusFactor, ProductionBonusFactor, KnowledgeBonusFactor,
             CultureBonusFactor, HousingQualityModifier} then 1.0 else 0.0
  }

  const BuildingPoolBase: Pool := map k | k in BuildingChannels :: BaseValue(k)

  /** Every key a building effect writes is one of the reset keys. */
  lemma EffectKeysReset(b: BuildingId, i: nat)
    requires i < |Effect(b)|
    ensures Effect(b)[i].key in BuildingChannels
  {
  }

  /** The effects of the completed buildings applied in dictionary order. */
  function ApplyCompleted(p: Pool, completed: Completed): Pool
    decreases |completed|
  {
    if completed == [] then p
    else
      var last := completed[|completed| - 1];
      ApplyOps(ApplyCompleted(p, completed[..|completed| - 1]), EffectOps(Effect(last.0), last.1))
  }

  /** Rebuilding one entry further applies that entry's ops to what came before. */
  lemma ApplyCompletedSnoc(p: Pool, completed: Completed, i: nat)
    requires i < |completed|
    ensures ApplyCompleted(p, completed[..i + 1]) == ApplyOps(ApplyCompleted(p, completed[..i]), EffectOps(Effect(completed[i].0), completed[i].1))
  {
    assert completed[..i + 1][..i] == completed[..i];
  }

  /** `recalculate_all_building_effects`: reset the eleven keys, then apply every completed building. */
  function Recalc(p: Pool, completed: Completed): Pool
  {
    ApplyCompleted(p + BuildingPoolBase, completed)
  }

  datatype Completion = Completion(active: seq<Project>, completed: Completed, pool: Pool)

  /** The completion pass: each newly finished project leaves the list, bumps its count, and the pool is rebuilt. */
  function CompleteAll(c: Completion, newly: seq<Project>): (r: Completion)
    decreases |newly|
  {
    if newly == [] then c
    else
      var before := CompleteAll(c, newly[..|newly| - 1]);
      var p := newly[|newly| - 1];
      var completed := Bump(before.completed, p.id);
      Completion(RemoveFirst(before.active, p), completed, Recalc(before.pool, completed))
  }

  /** One more finished project in the completion pass. */
  lemma CompleteAllSnoc(c: Completion, newly: seq<Project>, j: nat)
    requires j < |newly|
    ensures var before := CompleteAll(c, newly[..j]);
            var completed := Bump(before.completed, newly[j].id);
            CompleteAll(c, newly[..j + 1]) == Completion(RemoveFirst(before.active, newly[j]), completed, Recalc(before.pool, completed))
  {
    assert newly[..j + 1][..j] == newly[..j];
  }

  // --- properties of the recalculation ---

  /** Ops leave every key outside their own keys untouched, and add no other key. */
  lemma {:induction false} ApplyOpsOutside(p: Pool, ops: seq<PoolOp>, ks: set<Channel>)
    requires OpsOk(ops)
    requires forall i :: 0 <= i < |ops| ==> ops[i].key in ks
    ensures forall k :: k !in ks ==> (k in ApplyOps(p, ops) <==> k in p) && (k in p ==> ApplyOps(p, ops)[k] == p[k])
    decreases |ops|
  {
    if ops != [] {
      ApplyOpKeepsOthers(p, ops[0]);
      ApplyOpsOutside(ApplyOp(p, ops[0]), ops[1..], ks);
    }
  }

  lemma CompletedOpsReset(e: (BuildingId, nat))
    ensures forall i :: 0 <= i < |EffectOps(Effect(e.0), e.1)| ==> EffectOps(Effect(e.0), e.1)[i].key in BuildingChannels
  {
    forall i | 0 <= i < |EffectOps(Effect(e.0), e.1)|
      ensures EffectOps(Effect(e.0), e.1)[i].key in BuildingChannels
    {
      EffectKeysReset(e.0, i);
    }
  }

  /** Keys outside the reset set pass through the completed buildings untouched. */
  lemma {:induction false} ApplyCompletedOutside(p: Pool, completed: Completed)
    ensures forall k :: k !in BuildingChannels ==>
              (k in ApplyCompleted(p, completed) <==> k in p) && (k in p ==> ApplyCompleted(p, completed)[k] == p[k])
    decreases |completed|
  {
    if completed != [] {
      var init := completed[..|completed| - 1];
      var last := completed[|completed| - 1];
      ApplyCompletedOutside(p, init);
      CompletedOpsReset(last);
      ApplyOpsOutside(ApplyCompleted(p, init), EffectOps(Effect(last.0), last.1), BuildingChannels);
    }
  }

  /**
   * Recalculation forgets every earlier building effect: rebuilding from a
   * pool that was itself rebuilt gives what rebuilding the original gives.
   */
  lemma RecalcForgets(p: Pool, c1: Completed, c2: Completed)
    ensures Recalc(Recalc(p, c1), c2) == Recalc(p, c2)
  {
    var r := Recalc(p, c1);
    ApplyCompletedOutside(p + BuildingPoolBase, c1);
    assert forall k :: k in r + BuildingPoolBase <==> k in p + BuildingPoolBase;
    assert r + BuildingPoolBase == p + BuildingPoolBase;
  }

  /** After the completion pass, the pool is the rebuild of the entry pool from the final counts. */
  lemma {:induction false} CompleteAllPool(c: Completion, newly: seq<Project>)
    requires newly != []
    ensures CompleteAll(c, newly).pool == Recalc(c.pool, CompleteAll(c, newly).completed)
    decreases |newly|
  {
    var init := newly[..|newly| - 1];
    var before := CompleteAll(c, init);
    var r := CompleteAll(c, newly);
    if init != [] {
      CompleteAllPool(c, init);
      RecalcForgets(c.pool, before.completed, r.completed);
    }
  }

  /** How many of `ps` are projects of kind `b`. */
  function KindCount(ps: seq<Project>, b: BuildingId): nat
  {
    if ps == [] then 0
    else KindCount(ps[..|ps| - 1], b) + (if ps[|ps| - 1].id == b then 1 else 0)
  }

  /** Each completion adds one to its kind's count and leaves every other count alone. */
  lemma {:induction false} CompleteAllCounts(c: Completion, newly: seq<Project>, b: BuildingId)
    ensures CountOf(CompleteAll(c, newly).completed, b) == CountOf(c.completed, b) + KindCount(newly, b)
    decreases |newly|
  {
    if newly != [] {
      var init := newly[..|newly| - 1];
      CompleteAllCounts(c, init, b);
      var before := CompleteAll(c, init).completed;
      var p := newly[|newly| - 1];
      BumpCount(before, p.id, b);
    }
  }

  /** A completion raises the count of its own kind by one and no other. */
  lemma BumpCount(completed: Completed, a: BuildingId, b: BuildingId)
    ensures CountOf(Bump(completed, a), b) == CountOf(completed, b) + (if a == b then 1 else 0)
  {
    var n: nat := CountOf(completed, a) + 1;
    assert CountOf(Bump(completed, a), b) == GetOr(Put(completed, a, n), b, 0);
    assert CountOf(completed, b) == GetOr(completed, b, 0);
    hide Put, GetOr;
    PutGetOr(completed, a, n, b, 0);
  }

  /** A list of projects all of one kind counts its full length. */
  lemma {:induction false} KindCountAll(ps: seq<Project>, b: BuildingId)
    requires forall i :: 0 <= i < |ps| ==> ps[i].id == b
    ensures KindCount(ps, b) == |ps|
  {
    if ps != [] {
      KindCountAll(ps[..|ps| - 1], b);
    }
  }

  /**
   * The limit is checked against completed counts only, so projects started
   * while fewer than the limit are complete all count: with no Granary
   * complete a Granary can be started any number of times, and three that
   * finish make a count of three against a limit of two.
   */
  lemma LimitNotEnforcedOnProjects(c: Completion, newly: seq<Project>)
    requires c.completed == [] && |newly| == 3
    requires forall i :: 0 <= i < |newly| ==> newly[i].id == Granary
    ensures StartVerdict(Key(Granary), [], {}).Started?
    ensures CountOf(CompleteAll(c, newly).completed, Granary) == 3 > MaxAllowed(Granary).n
  {
    ParseKey(Granary);
    CompleteAllCounts(c, newly, Granary);
    KindCountAll(newly, Granary);
  }

  /**
   * With Improved Granaries the only completed kind, the rebuilt food factor
   * is exactly 1.05 to the count and the food bonus 20 per granary, whatever
   * the pool held before.
   */
  lemma ImprovedGranaryFactor(p: Pool, n: nat)
    ensures var q := Recalc(p, [(ImprovedGranary, n)]);
      && FoodProductionBonusFactor in q && q[FoodProductionBonusFactor] == Pow(1.05, n)
      && FoodPerCycleBonus in q && q[FoodPerCycleBonus] == 20.0 * n as real
  {
    var base := p + BuildingPoolBase;
    ImprovedGranaryOps(n);
    RecalcSingle(p, (ImprovedGranary, n));
    BaseReads(p);
    assert Get(base, FoodPerCycleBonus, 0.0) == 0.0 && Get(base, FoodProductionBonusFactor, 1.0) == 1.0;
    hide *;
    ApplyOpsPair(base, Add(FoodPerCycleBonus, 20.0 * n as real), Mul(FoodProductionBonusFactor, Pow(1.05, n)));
  }

  /** An Improved Granary count `n` adds 20 per granary to the food bonus and multiplies the food factor by 1.05 to the `n`. */
  lemma ImprovedGranaryOps(n: nat)
    ensures EffectOps(Effect(ImprovedGranary), n) == [Add(FoodPerCycleBonus, 20.0 * n as real), Mul(FoodProductionBonusFactor, Pow(1.05, n))]
  {
    var e := Effect(ImprovedGranary);
    assert e[1..] == [e[1]] && e[1..][1..] == [];
    assert EffectOps(e[1..], n) == [Instantiate(e[1], n)] + EffectOps([], n);
    assert EffectOps(e, n) == [Instantiate(e[0], n)] + EffectOps(e[1..], n);
  }

  /** Rebuilding from one completed kind applies that kind's ops to the reset pool. */
  lemma RecalcSingle(p: Pool, e: (BuildingId, nat))
    ensures Recalc(p, [e]) == ApplyOps(p + BuildingPoolBase, EffectOps(Effect(e.0), e.1))
  {
    hide ApplyOps, EffectOps, Effect;
    var base := p + BuildingPoolBase;
    assert [e][..0] == [];
    assert ApplyCompleted(base, [e][..0]) == base;
    assert ApplyCompleted(base, [e]) == ApplyOps(base, EffectOps(Effect(e.0), e.1));
  }

  /** The reset pool reads 0 for the additive bonuses and 1 for the factors. */
  lemma BaseReads(p: Pool)
    ensures var base := p + BuildingPoolBase;
      && FoodPerCycleBonus in base && base[FoodPerCycleBonus] == 0.0
      && FoodProductionBonusFactor in base && base[FoodProductionBonusFactor] == 1.0
  {
  }

  /** Two ops on different keys: each key holds what its own op wrote. */
  lemma ApplyOpsPair(p: Pool, a: PoolOp, b: PoolOp)
    requires a.Add? && b.Mul? && a.key != b.key
    ensures var q := ApplyOps(p, [a, b]);
      && a.key in q && q[a.key] == Get(p, a.key, 0.0) + a.x
      && b.key in q && q[b.key] == Get(p, b.key, 1.0) * b.f
  {
    var p1 := ApplyOp(p, a);
    ApplyOpsTwo(p, a, b);
    hide ApplyOps;
    assert p1 == p[a.key := Get(p, a.key, 0.0) + a.x];
    assert Get(p1, b.key, 1.0) == Get(p, b.key, 1.0);
  }

  /** Two ops applied in order are one op after the other. */
  lemma ApplyOpsTwo(p: Pool, a: PoolOp, b: PoolOp)
    requires OpOk(a) && OpOk(b)
    ensures ApplyOps(p, [a, b]) == ApplyOp(ApplyOp(p, a), b)
  {
    var p1 := ApplyOp(p, a);
    assert [a, b][1..] == [b];
    assert [b][1..] == [];
    assert ApplyOps(p, [a, b]) == ApplyOps(p1, [b]);
    assert ApplyOps(p1, [b]) == ApplyOps(ApplyOp(p1, b), []);
  }

  /** One `update_construction` call on the projects, the counts and the pool, given the Production on hand. */
  function Pass(c: Completion, production: real): (r: Completion)
  {
    var f := Fund(c.active, production);
    CompleteAll(Completion(f.projects, c.completed, c.pool), f.newly)
  }

  /** A funded project with more than one cycle left only advances. */
  lemma GranaryPassWaits(g: Project, pool: Pool, k: int, production: real)
    requires g.costPerCycle == 10 && k > 1 && production >= 10.0
    ensures Pass(Completion([g.(remaining := k)], [], pool), production) == Completion([g.(remaining := k - 1)], [], pool)
  {
    var p := g.(remaining := k);
    assert [p][..0] == [];
    assert Fund([p], production) == Funding([p.(remaining := k - 1)], production - 10.0, []);
  }

  /**
   * A Granary started from nothing, with at least 10 Production on every
   * call: four calls leave it in progress; the fifth completes it, empties
   * the project list and rebuilds the food bonus to 10.
   */
  lemma FifthPassCompletesGranary(pool: Pool, production: seq<real>)
    requires |production| == 5 && forall i :: 0 <= i < 5 ==> production[i] >= 10.0
    ensures var c4 := Pass(Pass(Pass(Pass(Completion([NewProject(Granary)], [], pool), production[0]),
                                          production[1]), production[2]), production[3]);
      var c5 := Pass(c4, production[4]);
      && CountOf(c4.completed, Granary) == 0 && |c4.active| == 1
      && CountOf(c5.completed, Granary) == 1 && c5.active == []
      && FoodPerCycleBonus in c5.pool && c5.pool[FoodPerCycleBonus] == 10.0
  {
    CostPerCycleTable();
    var g := NewProject(Granary);
    assert g.costPerCycle == 10 && g.remaining == 5 && g.(remaining := 5) == g;
    GranaryPassWaits(g, pool, 5, production[0]);
    GranaryPassWaits(g, pool, 4, production[1]);
    GranaryPassWaits(g, pool, 3, production[2]);
    GranaryPassWaits(g, pool, 2, production[3]);
    LastGranaryPass(g, pool, production[4]);
    GranaryRecalc(pool);
    assert CountOf([(Granary, 1)], Granary) == 1;
  }

  /** The pass that takes a funded project's last cycle completes it. */
  lemma LastGranaryPass(g: Project, pool: Pool, production: real)
    requires g.id == Granary && g.costPerCycle == 10 && production >= 10.0
    ensures Pass(Completion([g.(remaining := 1)], [], pool), production) ==
            Completion([], [(Granary, 1)], Recalc(pool, [(Granary, 1)]))
  {
    var last := g.(remaining := 0);
    var c := Completion([g.(remaining := 1)], [], pool);
    assert [g.(remaining := 1)][..0] == [];
    assert Fund(c.active, production) == Funding([last], production - 10.0, [last]);
    assert Pass(c, production) == CompleteAll(Completion([last], [], pool), [last]);
    CompleteOnlyProject(last, pool);
  }

  /** Completing the only project of a kind with none complete. */
  lemma CompleteOnlyProject(last: Project, pool: Pool)
    ensures CompleteAll(Completion([last], [], pool), [last]) == Completion([], [(last.id, 1)], Recalc(pool, [(last.id, 1)]))
  {
    var entry := Completion([last], [], pool);
    BumpFirst(last.id);
    assert RemoveFirst([last], last) == [];
    hide Recalc, Bump, RemoveFirst;
    CompleteAllSnoc(entry, [last], 0);
    assert [last][..1] == [last];
    assert [last][..0] == [] && CompleteAll(entry, []) == entry;
  }

  /** The first completion of a kind enters it with count 1. */
  lemma BumpFirst(b: BuildingId)
    ensures Bump([], b) == [(b, 1)]
  {
    assert GetOr([], b, 0) == 0;
  }

  /** One Granary complete: the rebuilt food bonus is 10. */
  lemma GranaryRecalc(pool: Pool)
    ensures var q := Recalc(pool, [(Granary, 1)]);
      FoodPerCycleBonus in q && q[FoodPerCycleBonus] == 10.0
  {
    RecalcSingle(pool, (Granary, 1));
    var ops := EffectOps(Effect(Granary), 1);
    assert ops == [Add(FoodPerCycleBonus, 10.0)];
    BaseReads(pool);
    hide Recalc, EffectOps, ApplyOps;
    ApplySingleOp(pool + BuildingPoolBase, ops[0]);
  }

  /** A single op: its key holds what the op wrote. */
  lemma ApplySingleOp(p: Pool, a: PoolOp)
    requires a.Add?
    ensures var q := ApplyOps(p, [a]);
      a.key in q && q[a.key] == Get(p, a.key, 0.0) + a.x
  {
    assert [a][1..] == [];
  }

  /** The construction system; it spends Production and rebuilds the building pool of `gs`. */
  class BuildingManager {
    const gs: State
    const tree: TechTree.TechTree
    /** The table's iteration order, as given to the constructor. */
    const order: seq<BuildingId>
    var activeProjects: seq<Project>
    var completed: Completed

    constructor (gs: State, tree: TechTree.TechTree, order: seq<BuildingId>)
      ensures this.gs == gs && this.tree == tree && this.order == order
      ensures activeProjects == [] && completed == []
    {
      this.gs := gs;
      this.tree := tree;
      this.order := order;
      activeProjects := [];
      completed := [];
    }

    /** `recalculate_all_building_effects`. */
    method RecalculateAllBuildingEffects()
      modifies gs`buildingMods
      ensures gs.buildingMods == Recalc(old(gs.buildingMods), completed)
    {
      gs.buildingMods := gs.buildingMods + BuildingPoolBase;
      var i := 0;
      while i < |completed|
        invariant 0 <= i <= |completed|
        invariant gs.buildingMods == ApplyCompleted(old(gs.buildingMods) + BuildingPoolBase, completed[..i])
      {
        var entry := completed[i];
        ApplyCompletedSnoc(old(gs.buildingMods) + BuildingPoolBase, completed, i);
        hide ApplyCompleted, ApplyOps;
        gs.buildingMods := ApplyOps(gs.buildingMods, EffectOps(Effect(entry.0), entry.1));
        i := i + 1;
      }
      assert completed[..i] == completed;
    }

    /** `get_constructible_buildings`: a scan of the table in order. */
    method GetConstructibleBuildings() returns (constructible: seq<BuildingId>)
      ensures constructible == ConstructibleIds(order, completed, tree.researched)
    {
      constructible := [];
      var i := |order|;
      while i > 0
        invariant 0 <= i <= |order|
        invariant constructible == ConstructibleIds(order[i..], completed, tree.researched)
      {
        i := i - 1;
        var b := order[i];
        assert order[i..][1..] == order[i + 1..];
        if Below(CountOf(completed, b), MaxAllowed(b)) {
          var met := tree.AllResearched(Prerequisites(b));
          if met {
            constructible := [b] + constructible;
          }
        }
      }
    }

    /** `start_project`: a started project joins the end of the list with its full build time; errors change nothing. */
    method StartProject(key: string) returns (r: StartOutcome)
      modifies this`activeProjects
      ensures r == StartVerdict(key, completed, tree.researched)
      ensures r.Started? ==> activeProjects == old(activeProjects) + [NewProject(Parse(key).value)]
      ensures !r.Started? ==> activeProjects == old(activeProjects)
    {
      r := StartVerdict(key, completed, tree.researched);
      if r.Started? {
        activeProjects := activeProjects + [NewProject(Parse(key).value)];
      }
    }

    /**
     * `update_construction`: the funding pass over the projects in order,
     * then, for each project that finished, its removal, its count, and a
     * rebuild of the building pool.
     */
    method UpdateConstruction()
      modifies this`activeProjects, this`completed, gs`res, gs`buildingMods
      ensures var f := Fund(old(activeProjects), old(gs.res.production));
              var c := CompleteAll(Completion(f.projects, old(completed), old(gs.buildingMods)), f.newly);
              gs.res == old(gs.res).(production := f.production) &&
              activeProjects == c.active && completed == c.completed && gs.buildingMods == c.pool
      ensures Completion(activeProjects, completed, gs.buildingMods) ==
              Pass(Completion(old(activeProjects), old(completed), old(gs.buildingMods)), old(gs.res.production))
    {
      var newly := FundProjects();
      CompleteProjects(newly);
    }

    /** The first loop of `update_construction`. */
    method FundProjects() returns (newly: seq<Project>)
      modifies this`activeProjects, gs`res
      ensures Fund(old(activeProjects), old(gs.res.production)) == Funding(activeProjects, gs.res.production, newly)
      ensures gs.res == old(gs.res).(production := gs.res.production)
    {
      var projects := activeProjects;
      var production := gs.res.production;
      var updated: seq<Project> := [];
      newly := [];
      var i := 0;
      while i < |projects|
        invariant 0 <= i <= |projects|
        invariant Fund(projects[..i], gs.res.production) == Funding(updated, production, newly)
      {
        var p := projects[i];
        assert projects[..i + 1][..i] == projects[..i];
        if production >= p.costPerCycle as real {
          production := production - p.costPerCycle as real;
          p := p.(remaining := p.remaining - 1);
          if p.remaining <= 0 {
            newly := newly + [p];
          }
        }
        updated := updated + [p];
        i := i + 1;
      }
      assert projects[..i] == projects;
      activeProjects := updated;
      gs.res := gs.res.(production := production);
    }

    /** The second loop of `update_construction`. */
    method CompleteProjects(newly: seq<Project>)
      modifies this`activeProjects, this`completed, gs`buildingMods
      ensures CompleteAll(Completion(old(activeProjects), old(completed), old(gs.buildingMods)), newly) ==
                Completion(activeProjects, completed, gs.buildingMods)
    {
      ghost var start := Completion(activeProjects, completed, gs.buildingMods);
      hide CompleteAll;
      var j := 0;
      while j < |newly|
        invariant 0 <= j <= |newly|
        invariant CompleteAll(start, newly[..j]) == Completion(activeProjects, completed, gs.buildingMods)
      {
        var p := newly[j];
        CompleteAllSnoc(start, newly, j);
        activeProjects := RemoveFirst(activeProjects, p);
        completed := Bump(completed, p.id);
        RecalculateAllBuildingEffects();
        j := j + 1;
      }
      assert newly[..j] == newly;
    }
  }
}
