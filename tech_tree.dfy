/**
 * The research tree (text_epoch/tech_tree.py): seventeen technologies with
 * costs, prerequisites and modifier effects, the researched flags, the
 * availability query and the research operation.
 *
 * The dictionary's string keys are the constructors of `TechId`; `Key` gives
 * the string and `Parse` reads one back, so a command or a save file that
 * names an unknown id is still handled.
 */
module TechTree {
  import opened Wrappers
  import opened GameState
  import opened Text

  datatype TechId =
    | StoneTools | BasicFarming | OralTradition | EarlyWriting | BasicGranaries
    | Masonry | AnimalHusbandry | Storytelling | BasicHerbalism | SpecializedTools
    | Calendrics | TradeRoutes | EarlyGovernance | AdvancedWriting | CropRotation
    | ConstructionTechniques | CommunityEthics

  /** The dictionary's iteration order. */
  const Order: seq<TechId> := [
    StoneTools, BasicFarming, OralTradition, EarlyWriting, BasicGranaries,
    Masonry, AnimalHusbandry, Storytelling, BasicHerbalism, SpecializedTools,
    Calendrics, TradeRoutes, EarlyGovernance, AdvancedWriting, CropRotation,
    ConstructionTechniques, CommunityEthics]

  lemma OrderComplete(t: TechId)
    ensures t in Order
  {
  }

  function Key(t: TechId): string
  {
    match t
    case StoneTools => "stone_tools"
    case BasicFarming => "basic_farming"
    case OralTradition => "oral_tradition"
    case EarlyWriting => "early_writing"
    case BasicGranaries => "basic_granaries"
    case Masonry => "masonry"
    case AnimalHusbandry => "animal_husbandry"
    case Storytelling => "storytelling"
    case BasicHerbalism => "basic_herbalism"
    case SpecializedTools => "specialized_tools"
    case Calendrics => "calendrics"
    case TradeRoutes => "trade_routes"
    case EarlyGovernance => "early_governance"
    case AdvancedWriting => "advanced_writing"
    case CropRotation => "crop_rotation"
    case ConstructionTechniques => "construction_techniques"
    case CommunityEthics => "community_ethics"
  }

  /** `id in technologies`, giving the entry. */
  function Parse(s: string): (r: Option<TechId>)
    ensures r.Some? ==> Key(r.value) == s
    ensures r.None? ==> forall t :: Key(t) != s
  {
    if s == "stone_tools" then Some(StoneTools)
    else if s == "basic_farming" then Some(BasicFarming)
    else if s == "oral_tradition" then Some(OralTradition)
    else if s == "early_writing" then Some(EarlyWriting)
    else if s == "basic_granaries" then Some(BasicGranaries)
    else if s == "masonry" then Some(Masonry)
    else if s == "animal_husbandry" then Some(AnimalHusbandry)
    else if s == "storytelling" then Some(Storytelling)
    else if s == "basic_herbalism" then Some(BasicHerbalism)
    else if s == "specialized_tools" then Some(SpecializedTools)
    else if s == "calendrics" then Some(Calendrics)
    else if s == "trade_routes" then Some(TradeRoutes)
    else if s == "early_governance" then Some(EarlyGovernance)
    else if s == "advanced_writing" then Some(AdvancedWriting)
    else if s == "crop_rotation" then Some(CropRotation)
    else if s == "construction_techniques" then Some(ConstructionTechniques)
    else if s == "community_ethics" then Some(CommunityEthics)
    else None
  }

  /** Distinct techs have distinct keys, so `Parse` inverts `Key`. */
  lemma ParseKey(t: TechId)
    ensures Parse(Key(t)) == Some(t)
  {
  }

  function Name(t: TechId): string
  {
    match t
    case StoneTools => "Improved Stone Tools"
    case BasicFarming => "Basic Farming Techniques"
    case OralTradition => "Oral Tradition"
    case EarlyWriting => "Early Writing"
    case BasicGranaries => "Basic Granaries"
    case Masonry => "Masonry"
    case AnimalHusbandry => "Animal Husbandry"
    case Storytelling => "Storytelling & Folklore"
    case BasicHerbalism => "Basic Herbalism"
    case SpecializedTools => "Specialized Tools"
    case Calendrics => "Calendrics"
    case TradeRoutes => "Basic Trade Routes"
    case EarlyGovernance => "Early Governance"
    case AdvancedWriting => "Advanced Writing Systems"
    case CropRotation => "Crop Rotation"
    case ConstructionTechniques => "Construction Techniques"
    case CommunityEthics => "Community Ethics"
  }

  function Description(t: TechId): string
  {
    match t
    case StoneTools => "Increases Production efficiency by 20%."
    case BasicFarming => "Increases Food production efficiency by 20%."
    case OralTradition => "Increases Knowledge generation by 10%."
    case EarlyWriting => "Increases Knowledge generation by another 20% and Culture by 10%."
    case BasicGranaries => "Learn to store food more effectively, reducing spoilage. Unlocks 'Improved Granary' building."
    case Masonry => "Understanding stone working allows for more durable constructions and 5% cheaper buildings. Unlocks 'Stone Walls'."
    case AnimalHusbandry => "Domesticating animals provides a steady source of food and +10% to overall food production."
    case Storytelling => "Developing traditions of storytelling increases Cultural generation by 15% and adds +1 Stability per cycle."
    case BasicHerbalism => "Understanding medicinal properties of plants slightly improves population growth (+5%) and stability (+0.5/cycle)."
    case SpecializedTools => "Developing tools for specific tasks increases Production efficiency by an additional 15%."
    case Calendrics => "Observing celestial cycles allows for better planning of agricultural activities, boosting food production by 10%. Improves research speed by 5%."
    case TradeRoutes => "Establishing rudimentary trade with nearby settlements slightly boosts Production (+5%) and Culture (+5%)."
    case EarlyGovernance => "Basic forms of leadership and dispute resolution improve stability (+1/cycle). Unlocks 'Tribal Council' building."
    case AdvancedWriting => "More complex writing systems improve research speed by 10% and knowledge generation by 15%."
    case CropRotation => "Improves soil fertility and food production by another 15%."
    case ConstructionTechniques => "Improved methods make all future building projects 5% faster (effectively cheaper in total prod)."
    case CommunityEthics => "Shared values and ethics lead to a more harmonious society, increasing base stability by +1.5 per cycle."
  }

  function Cost(t: TechId): (c: real)
    ensures c > 0.0
  {
    match t
    case StoneTools => 20.0
    case BasicFarming => 30.0
    case OralTradition => 15.0
    case EarlyWriting => 50.0
    case BasicGranaries => 40.0
    case Masonry => 70.0
    case AnimalHusbandry => 60.0
    case Storytelling => 50.0
    case BasicHerbalism => 45.0
    case SpecializedTools => 100.0
    case Calendrics => 80.0
    case TradeRoutes => 90.0
    case EarlyGovernance => 120.0
    case AdvancedWriting => 150.0
    case CropRotation => 130.0
    case ConstructionTechniques => 110.0
    case CommunityEthics => 75.0
  }

  function Prerequisites(t: TechId): seq<TechId>
  {
    match t
    case EarlyWriting => [OralTradition]
    case BasicGranaries => [BasicFarming]
    case Masonry => [StoneTools]
    case AnimalHusbandry => [BasicFarming]
    case Storytelling => [OralTradition]
    case SpecializedTools => [StoneTools, Masonry]
    case Calendrics => [BasicFarming, OralTradition]
    case TradeRoutes => [AnimalHusbandry]
    case EarlyGovernance => [Storytelling, EarlyWriting]
    case AdvancedWriting => [EarlyWriting, Calendrics]
    case CropRotation => [BasicFarming, Calendrics]
    case ConstructionTechniques => [Masonry, SpecializedTools]
    case CommunityEthics => [Storytelling]
    case _ => []
  }

  /** The effect on the tech modifier pool. */
  function Effect(t: TechId): (ops: seq<PoolOp>)
    ensures OpsOk(ops)
  {
    match t
    case StoneTools => [Mul(ProductionBonusFactor, 1.2)]
    case BasicFarming => [Mul(FoodProductionBonusFactor, 1.2)]
    case OralTradition => [Mul(KnowledgeGenerationBonusFactor, 1.1)]
    case EarlyWriting => [Mul(KnowledgeGenerationBonusFactor, 1.2), Mul(CultureGenerationBonusFactor, 1.1)]
    case BasicGranaries => [Mul(FoodProductionBonusFactor, 1.05)]
    case Masonry => [Mul(BuildingCostModifierProduction, 0.95)]
    case AnimalHusbandry => [Mul(FoodProductionBonusFactor, 1.10)]
    case Storytelling => [Mul(CultureGenerationBonusFactor, 1.15), Add(StabilityPerCycleBonus, 0.5)]
    case BasicHerbalism => [Mul(PopulationGrowthModifier, 1.05), Add(StabilityPerCycleBonus, 0.5)]
    case SpecializedTools => [Mul(ProductionBonusFactor, 1.15)]
    case Calendrics => [Mul(FoodProductionBonusFactor, 1.10), Mul(ResearchSpeedModifier, 1.05)]
    case TradeRoutes => [Mul(ProductionBonusFactor, 1.05), Mul(CultureGenerationBonusFactor, 1.05)]
    case EarlyGovernance => [Add(StabilityPerCycleBonus, 1.0)]
    case AdvancedWriting => [Mul(ResearchSpeedModifier, 1.10), Mul(KnowledgeGenerationBonusFactor, 1.15)]
    case CropRotation => [Mul(FoodProductionBonusFactor, 1.15)]
    case ConstructionTechniques => [Mul(BuildingCostModifierProduction, 0.95)]
    case CommunityEthics => [Add(StabilityPerCycleBonus, 1.5)]
  }

  /** Every prerequisite comes earlier in the table order, so the tree has no cycle. */
  lemma PrerequisitesEarlier(t: TechId, i: nat, j: nat)
    requires i < |Order| && Order[i] == t && j < |Order| && Order[j] in Prerequisites(t)
    ensures j < i
  {
  }

  /** `get_researched_techs`: the researched ids, in table order. */
  function ResearchedIds(order: seq<TechId>, researched: set<TechId>): (r: seq<TechId>)
    ensures forall t :: t in r <==> t in order && t in researched
  {
    if order == [] then []
    else (if order[0] in researched then [order[0]] else []) + ResearchedIds(order[1..], researched)
  }

  predicate PrerequisitesMet(t: TechId, researched: set<TechId>)
  {
    forall p :: p in Prerequisites(t) ==> p in researched
  }

  predicate IsAvailable(t: TechId, researched: set<TechId>)
  {
    t !in researched && PrerequisitesMet(t, researched)
  }

  /** `get_available_research`: unresearched techs whose prerequisites are all researched, in `order`. */
  function AvailableIds(order: seq<TechId>, researched: set<TechId>): (r: seq<TechId>)
    ensures forall t :: t in r <==> t in order && IsAvailable(t, researched)
    ensures |r| <= |order|
  {
    if order == [] then []
    else (if IsAvailable(order[0], researched) then [order[0]] else []) + AvailableIds(order[1..], researched)
  }

  /** The names of the prerequisites not yet researched, in listed order. */
  function MissingPrerequisiteNames(prereqs: seq<TechId>, researched: set<TechId>): (r: seq<string>)
    ensures |r| <= |prereqs|
    ensures r == [] <==> forall p :: p in prereqs ==> p in researched
  {
    if prereqs == [] then []
    else if prereqs[0] in researched then MissingPrerequisiteNames(prereqs[1..], researched)
    else [Name(prereqs[0])] + MissingPrerequisiteNames(prereqs[1..], researched)
  }

  /** What `research_tech` returns. */
  datatype ResearchOutcome =
    | Researched(name: string)
    | MissingPrerequisites(name: string, missing: seq<string>)
    | AlreadyResearched(name: string)
    | NotAvailable(name: string)
    | NotEnoughKnowledge(name: string, cost: real, have: real)
  {
    /** The message starts with "Error:". */
    predicate IsError() { !Researched? }
  }

  /** The message of a successful `research_tech`. */
  function ResearchedMessage(name: string): (m: string)
    ensures !StartsWith(m, "Error:")
  {
    var m := "Successfully researched " + name + ".";
    assert m[..6] == "Succes";
    m
  }

  function ResearchMessage(r: ResearchOutcome): (m: string)
    ensures r.IsError() <==> StartsWith(m, "Error:")
  {
    match r
    case Researched(name) => ResearchedMessage(name)
    case MissingPrerequisites(name, missing) =>
      ErrorMessage("Cannot research '" + name + "'. Missing prerequisites: " + Join(", ", missing) + ".")
    case AlreadyResearched(name) => ErrorMessage("Technology '" + name + "' has already been researched.")
    case NotAvailable(name) => ErrorMessage("Technology '" + name + "' is not available or does not exist.")
    case NotEnoughKnowledge(name, cost, have) =>
      ErrorMessage("Not enough Knowledge to research " + name + ". Need " + IntText(cost.Floor) + ", have " + FixedZero(have) + ".")
  }

  /** The verdict of `research_tech`, as a function of the researched set and the Knowledge stock. */
  function ResearchVerdict(researched: set<TechId>, knowledge: real, key: string): (r: ResearchOutcome)
    ensures r.Researched? <==> Parse(key).Some? && IsAvailable(Parse(key).value, researched) && Cost(Parse(key).value) <= knowledge
    ensures r.NotEnoughKnowledge? <==> Parse(key).Some? && IsAvailable(Parse(key).value, researched) && knowledge < Cost(Parse(key).value)
    ensures Parse(key).None? ==> r == NotAvailable(key)
    ensures r.AlreadyResearched? <==> Parse(key).Some? && Parse(key).value in researched && PrerequisitesMet(Parse(key).value, researched)
    ensures r.MissingPrerequisites? <==> Parse(key).Some? && !PrerequisitesMet(Parse(key).value, researched)
    ensures r.MissingPrerequisites? ==> r.missing != []
  {
    match Parse(key)
    case None => NotAvailable(key)
    case Some(t) =>
      if !IsAvailable(t, researched) then
        var missing := MissingPrerequisiteNames(Prerequisites(t), researched);
        if missing != [] then MissingPrerequisites(Name(t), missing)
        else if t in researched then AlreadyResearched(Name(t))
        else NotAvailable(Name(t))
      else if knowledge < Cost(t) then NotEnoughKnowledge(Name(t), Cost(t), knowledge)
      else Researched(Name(t))
  }

  /** A researched tech can never be researched again. */
  lemma ResearchOnce(researched: set<TechId>, knowledge: real, t: TechId)
    requires t in researched
    ensures ResearchVerdict(researched, knowledge, Key(t)).IsError()
  {
    ParseKey(t);
  }

  /** At the start a tech is available exactly when it has no prerequisites. */
  lemma InitiallyAvailable(order: seq<TechId>, t: TechId)
    requires t in order
    ensures t in AvailableIds(order, {}) <==> Prerequisites(t) == []
  {
    if Prerequisites(t) != [] {
      assert Prerequisites(t)[0] in Prerequisites(t);
    }
  }

  /**
   * Researching techs in table order, starting from nothing, always finds the
   * next one available: the table order is a valid research order.
   */
  lemma OrderIsResearchable(i: nat)
    requires i < |Order|
    ensures IsAvailable(Order[i], set j | 0 <= j < i :: Order[j])
  {
    var done := set j | 0 <= j < i :: Order[j];
    forall p | p in Prerequisites(Order[i])
      ensures p in done
    {
      OrderComplete(p);
      var j :| 0 <= j < |Order| && Order[j] == p;
      PrerequisitesEarlier(Order[i], i, j);
    }
  }

  /** The research tree, holding the researched flags; it spends Knowledge and updates the tech modifiers of `gs`. */
  class TechTree {
    const gs: State
    /** The table's iteration order, as given to the constructor. */
    const order: seq<TechId>
    var researched: set<TechId>

    constructor (gs: State, order: seq<TechId>)
      ensures this.gs == gs && this.order == order && researched == {}
    {
      this.gs := gs;
      this.order := order;
      researched := {};
    }

    /** `get_available_research`: a scan of the table in order. */
    method GetAvailableResearch() returns (available: seq<TechId>)
      ensures available == AvailableIds(order, researched)
    {
      available := [];
      var i := |order|;
      while i > 0
        invariant 0 <= i <= |order|
        invariant available == AvailableIds(order[i..], researched)
      {
        i := i - 1;
        var t := order[i];
        var met := AllResearched(Prerequisites(t));
        assert order[i..][1..] == order[i + 1..];
        if t !in researched && met {
          available := [t] + available;
        }
      }
    }

    /** The `all(...)` over a tech's prerequisites in `get_available_research`. */
    method AllResearched(prereqs: seq<TechId>) returns (met: bool)
      ensures met <==> forall p :: p in prereqs ==> p in researched
    {
      met := true;
      var j := 0;
      while j < |prereqs|
        invariant 0 <= j <= |prereqs|
        invariant met <==> forall p :: p in prereqs[..j] ==> p in researched
      {
        if prereqs[j] !in researched {
          met := false;
        }
        assert prereqs[..j + 1] == prereqs[..j] + [prereqs[j]];
        j := j + 1;
      }
      assert prereqs[..j] == prereqs;
    }

    /**
     * `research_tech`: on success Knowledge drops by the cost, the tech is
     * flagged researched and its effect is applied to the tech modifiers;
     * on every error nothing changes.
     */
    method ResearchTech(key: string) returns (r: ResearchOutcome)
      modifies this, gs`res, gs`techMods
      ensures r == ResearchVerdict(old(researched), old(gs.res.knowledge), key)
      ensures r.Researched? ==>
                var t := Parse(key).value;
                researched == old(researched) + {t} &&
                gs.res == old(gs.res).(knowledge := old(gs.res.knowledge) - Cost(t)) &&
                gs.techMods == ApplyOps(old(gs.techMods), Effect(t))
      ensures !r.Researched? ==>
                researched == old(researched) && gs.res == old(gs.res) && gs.techMods == old(gs.techMods)
    {
      r := ResearchVerdict(researched, gs.res.knowledge, key);
      if r.Researched? {
        var t := Parse(key).value;
        gs.res := gs.res.(knowledge := gs.res.knowledge - Cost(t));
        researched := researched + {t};
        gs.techMods := ApplyOps(gs.techMods, Effect(t));
      }
    }
  }
}
