/**
 * autonomous_logic.py: the decision the civilisation takes by itself when the
 * player has been idle. Candidate lists are dictionary comprehensions over the
 * managers' listings (so they keep table order) and `min` picks the first of
 * least cost; the chosen action goes through `research_tech` / `start_project`
 * and is logged.
 */
module Autonomous {
  import opened Wrappers
  import opened Text
  import opened GameState
  import TechTree
  import Buildings
  import Events
  import opened Candidates

  // --- what the decision logs ---

  /** The source's `reason` variable, which the closing line quotes. */
  datatype Reason = NoReason | FoodReason | StabilityReason | KnowledgeReason | ProductionReason

  function ReasonText(r: Reason): string
  {
    match r
    case NoReason => "No specific crisis or opportunity identified."
    case FoodReason => "Low food reserves."
    case StabilityReason => "Low societal stability."
    case KnowledgeReason => "Surplus knowledge and available research."
    case ProductionReason => "Surplus production and available construction projects."
  }

  /** The lines the decision logs, each as a normal event. */
  datatype Line =
    | CrisisResearch(t: TechTree.TechId)
    | CrisisBuild(b: Buildings.BuildingId)
    | Concern
    | SurplusResearch(t: TechTree.TechId)
    | SurplusBuild(b: Buildings.BuildingId)
    | Fallback(reason: Reason)

  // The fixed parts of the log lines (lines 31, 53, 59, 70, 84 and 89).
  const FocusLead: string := "Autonomous Focus: "
  const ResearchingLead: string := " Researching '"
  const CheapestTechLead: string := " Researching cheapest tech '"
  const ConstructingLead: string := " Constructing '"
  const CheapestBuildingLead: string := " Constructing cheapest building '"
  const OutcomeLead: string := "'. Outcome: "
  const ConcernLead: string := "Autonomous Concern: "
  const ConcernTail: string := ". No direct AI action defined to improve stability yet."
  const FallbackLead: string := "Autonomous Focus: Civilization is stable or lacks immediate actions. Last reason checked: "

  /** Lines 31 and 70, with the message `research_tech` returned. */
  function CrisisResearchText(t: TechTree.TechId, outcome: string): string
  {
    FocusLead + ReasonText(FoodReason) + ResearchingLead + TechTree.Name(t) + OutcomeLead + outcome
  }

  function SurplusResearchText(t: TechTree.TechId, outcome: string): string
  {
    FocusLead + ReasonText(KnowledgeReason) + CheapestTechLead + TechTree.Name(t) + OutcomeLead + outcome
  }

  /** Lines 53 and 84, with the message `start_project` returned. */
  function CrisisBuildText(b: Buildings.BuildingId, outcome: string): string
  {
    FocusLead + ReasonText(FoodReason) + ConstructingLead + Buildings.Name(b) + OutcomeLead + outcome
  }

  function SurplusBuildText(b: Buildings.BuildingId, outcome: string): string
  {
    FocusLead + ReasonText(ProductionReason) + CheapestBuildingLead + Buildings.Name(b) + OutcomeLead + outcome
  }

  /** Line 59. */
  function ConcernText(): string
  {
    ConcernLead + ReasonText(StabilityReason) + ConcernTail
  }

  /** Line 89. */
  function FallbackText(r: Reason): string
  {
    FallbackLead + ReasonText(r)
  }

  /** The success texts of `research_tech` and `start_project`. */
  function ResearchedText(t: TechTree.TechId): string
  {
    TechTree.ResearchedMessage(TechTree.Name(t))
  }

  function StartedText(b: Buildings.BuildingId): string
  {
    Buildings.StartedMessage(Buildings.Name(b), Buildings.BuildTime(b),
                             Buildings.CostPerCycle(Buildings.CostTotal(b), Buildings.BuildTime(b)))
  }

  function LineText(l: Line): string
  {
    match l
    case CrisisResearch(t) => CrisisResearchText(t, ResearchedText(t))
    case CrisisBuild(b) => CrisisBuildText(b, StartedText(b))
    case Concern => ConcernText()
    case SurplusResearch(t) => SurplusResearchText(t, ResearchedText(t))
    case SurplusBuild(b) => SurplusBuildText(b, StartedText(b))
    case Fallback(r) => FallbackText(r)
  }

  // --- the decision as a function of the state ---

  datatype Action = Research(t: TechTree.TechId) | Build(b: Buildings.BuildingId) | Wait

  /** What `make_autonomous_decision` does and the lines it logs, in order. */
  datatype Decision = Decision(action: Action, lines: seq<Line>)

  /** The action a closing line reports. */
  function ActionOf(l: Line): Action
  {
    match l
    case CrisisResearch(t) => Research(t)
    case SurplusResearch(t) => Research(t)
    case CrisisBuild(b) => Build(b)
    case SurplusBuild(b) => Build(b)
    case Concern => Wait
    case Fallback(_) => Wait
  }

  /** Lines 20-55: the response to a food crisis, when it finds something to do. */
  function CrisisLine(res: Resources, available: seq<TechTree.TechId>,
                      constructible: seq<Buildings.BuildingId>): Option<Line>
  {
    var foodTechs := FoodTechs(available, res.knowledge);
    var foodBuildings := FoodBuildings(constructible, res.production);
    if !FoodCrisis(res) then None
    else if foodTechs != [] then Some(CrisisResearch(CheapestTech(foodTechs)))
    else if foodBuildings != [] then Some(CrisisBuild(FoodBuildingChoice(foodBuildings)))
    else None
  }

  /** The `reason` once the stability test of line 57 has run. */
  function ConcernReason(res: Resources): Reason
  {
    if res.stability < StabilityConcern then StabilityReason
    else if FoodCrisis(res) then FoodReason
    else NoReason
  }

  /** The `reason` once the knowledge test of line 63 has run. */
  function KnowledgeStepReason(res: Resources, available: seq<TechTree.TechId>): Reason
  {
    if res.knowledge > KnowledgeSurplus && available != [] then KnowledgeReason else ConcernReason(res)
  }

  /** The `reason` once the production test of line 75 has run: the one line 89 quotes. */
  function LastReason(res: Resources, available: seq<TechTree.TechId>,
                      constructible: seq<Buildings.BuildingId>): Reason
  {
    if res.production > ProductionSurplus && constructible != [] then ProductionReason
    else KnowledgeStepReason(res, available)
  }

  /** Lines 74-89: the production surplus, or the closing line. */
  function BuildStep(res: Resources, available: seq<TechTree.TechId>,
                     constructible: seq<Buildings.BuildingId>): Line
  {
    var buildings := AffordableBuildings(constructible, res.production);
    if res.production > ProductionSurplus && buildings != [] then SurplusBuild(CheapestBuilding(buildings))
    else Fallback(LastReason(res, available, constructible))
  }

  /** Lines 62-89: the knowledge surplus, then the production surplus, or the closing line. */
  function SurplusStep(res: Resources, available: seq<TechTree.TechId>,
                       constructible: seq<Buildings.BuildingId>): Line
  {
    var techs := AffordableTechs(available, res.knowledge);
    if res.knowledge > KnowledgeSurplus && techs != [] then SurplusResearch(CheapestTech(techs))
    else BuildStep(res, available, constructible)
  }

  /** Lines 57-91: the stability concern, then the surplus step. */
  function RoutineDecision(res: Resources, available: seq<TechTree.TechId>,
                           constructible: seq<Buildings.BuildingId>): Decision
  {
    var concern := if res.stability < StabilityConcern then [Concern] else [];
    var step := SurplusStep(res, available, constructible);
    Decision(ActionOf(step), concern + [step])
  }

  function Decide(res: Resources, techOrder: seq<TechTree.TechId>, researched: set<TechTree.TechId>,
                  buildingOrder: seq<Buildings.BuildingId>, completed: Buildings.Completed): Decision
  {
    var available := TechTree.AvailableIds(techOrder, researched);
    var constructible := Buildings.ConstructibleIds(buildingOrder, completed, researched);
    match CrisisLine(res, available, constructible)
    case Some(line) => Decision(ActionOf(line), [line])
    case None => RoutineDecision(res, available, constructible)
  }

  /** The log entries of some lines, in order. */
  function Entries(lines: seq<Line>): (r: seq<string>)
    ensures |r| == |lines|
  {
    if lines == [] then [] else Entries(lines[..|lines| - 1]) + [Events.Entry(LineText(lines[|lines| - 1]), false)]
  }

  /** The part of the game an autonomous action changes. */
  datatype World = World(researched: set<TechTree.TechId>, res: Resources, techMods: Pool,
                         projects: seq<Buildings.Project>)

  /** What carrying out an action does to the world: the effects of `research_tech` and `start_project` on success. */
  function Act(a: Action, w: World): World
  {
    match a
    case Research(t) =>
      w.(researched := w.researched + {t},
         res := w.res.(knowledge := w.res.knowledge - TechTree.Cost(t)),
         techMods := ApplyOps(w.techMods, TechTree.Effect(t)))
    case Build(b) => w.(projects := w.projects + [Buildings.NewProject(b)])
    case Wait => w
  }

  function Observe(gs: State, tree: TechTree.TechTree, bm: Buildings.BuildingManager): World
    reads gs, tree, bm
  {
    World(tree.researched, gs.res, gs.techMods, bm.activeProjects)
  }

  /** Whether carrying out a line's action succeeds: the tech is available and paid for, the building constructible. */
  predicate Succeeds(l: Line, knowledge: real, researched: set<TechTree.TechId>, completed: Buildings.Completed)
  {
    match l
    case CrisisResearch(t) => TechTree.IsAvailable(t, researched) && TechTree.Cost(t) <= knowledge
    case SurplusResearch(t) => TechTree.IsAvailable(t, researched) && TechTree.Cost(t) <= knowledge
    case CrisisBuild(b) => Buildings.CanConstruct(b, completed, researched)
    case SurplusBuild(b) => Buildings.CanConstruct(b, completed, researched)
    case Concern => true
    case Fallback(_) => true
  }

  /**
   * The shape of a decision: one line, or the stability concern and then one
   * line; the last line reports the action, and that action succeeds.
   */
  predicate Carriable(d: Decision, knowledge: real, researched: set<TechTree.TechId>, completed: Buildings.Completed)
  {
    && 1 <= |d.lines| <= 2
    && (|d.lines| == 2 ==> d.lines[0] == Concern)
    && d.action == ActionOf(d.lines[|d.lines| - 1])
    && Succeeds(d.lines[|d.lines| - 1], knowledge, researched, completed)
  }

  /**
   * Every decision has that shape, so the source's `"Error:" not in msg`
   * tests never send it on to a later rule; the concern line appears exactly
   * when stability is below 30.
   */
  lemma DecisionCarriable(res: Resources, techOrder: seq<TechTree.TechId>, researched: set<TechTree.TechId>,
                          buildingOrder: seq<Buildings.BuildingId>, completed: Buildings.Completed)
    ensures var d := Decide(res, techOrder, researched, buildingOrder, completed);
      && Carriable(d, res.knowledge, researched, completed)
      && (|d.lines| == 2 ==> res.stability < StabilityConcern)
  {
  }

  /**
   * The decision acts exactly when there is a candidate: a food tech or food
   * building in a crisis, an affordable tech when Knowledge is above 20, or an
   * affordable building when Production is above 30.
   */
  lemma ActsIffCandidate(res: Resources, techOrder: seq<TechTree.TechId>, researched: set<TechTree.TechId>,
                         buildingOrder: seq<Buildings.BuildingId>, completed: Buildings.Completed)
    ensures var available := TechTree.AvailableIds(techOrder, researched);
      var constructible := Buildings.ConstructibleIds(buildingOrder, completed, researched);
      !Decide(res, techOrder, researched, buildingOrder, completed).action.Wait? <==>
        || (FoodCrisis(res) && (FoodTechs(available, res.knowledge) != [] || FoodBuildings(constructible, res.production) != []))
        || (res.knowledge > KnowledgeSurplus && AffordableTechs(available, res.knowledge) != [])
        || (res.production > ProductionSurplus && AffordableBuildings(constructible, res.production) != [])
  {
    var available := TechTree.AvailableIds(techOrder, researched);
    var constructible := Buildings.ConstructibleIds(buildingOrder, completed, researched);
    CrisisActsIff(res, available, constructible);
    SurplusActsIff(res, available, constructible);
  }

  lemma CrisisActsIff(res: Resources, available: seq<TechTree.TechId>, constructible: seq<Buildings.BuildingId>)
    ensures CrisisLine(res, available, constructible).Some? <==>
      FoodCrisis(res) && (FoodTechs(available, res.knowledge) != [] || FoodBuildings(constructible, res.production) != [])
    ensures CrisisLine(res, available, constructible).Some? ==> !ActionOf(CrisisLine(res, available, constructible).value).Wait?
  {
  }

  lemma SurplusActsIff(res: Resources, available: seq<TechTree.TechId>, constructible: seq<Buildings.BuildingId>)
    ensures !ActionOf(SurplusStep(res, available, constructible)).Wait? <==>
      || (res.knowledge > KnowledgeSurplus && AffordableTechs(available, res.knowledge) != [])
      || (res.production > ProductionSurplus && AffordableBuildings(constructible, res.production) != [])
  {
  }

  /**
   * In a food crisis with an affordable food tech, the decision researches
   * the cheapest of them (the first in table order among equals) and logs
   * only that.
   */
  lemma CrisisResearchesCheapestFoodTech(res: Resources, techOrder: seq<TechTree.TechId>, researched: set<TechTree.TechId>,
                                         buildingOrder: seq<Buildings.BuildingId>, completed: Buildings.Completed)
    requires FoodCrisis(res) && FoodTechs(TechTree.AvailableIds(techOrder, researched), res.knowledge) != []
    ensures var d := Decide(res, techOrder, researched, buildingOrder, completed);
      && d.action.Research?
      && d.lines == [CrisisResearch(d.action.t)]
      && MentionsFood(d.action.t) && TechTree.IsAvailable(d.action.t, researched) && TechTree.Cost(d.action.t) <= res.knowledge
      && forall u :: MentionsFood(u) && TechTree.IsAvailable(u, researched) && TechTree.Cost(u) <= res.knowledge && u in techOrder
           ==> TechTree.Cost(d.action.t) <= TechTree.Cost(u)
  {
  }

  /**
   * Low stability only adds the concern line: what is done never depends on
   * the Stability stock.
   */
  lemma StabilityNeverActs(res: Resources, techOrder: seq<TechTree.TechId>, researched: set<TechTree.TechId>,
                           buildingOrder: seq<Buildings.BuildingId>, completed: Buildings.Completed, s: real)
    ensures Decide(res.(stability := s), techOrder, researched, buildingOrder, completed).action
         == Decide(res, techOrder, researched, buildingOrder, completed).action
  {
  }

  /** When nothing is done, the one line that is not the concern is the fallback quoting the last reason checked. */
  lemma WaitQuotesLastReason(res: Resources, techOrder: seq<TechTree.TechId>, researched: set<TechTree.TechId>,
                             buildingOrder: seq<Buildings.BuildingId>, completed: Buildings.Completed)
    requires Decide(res, techOrder, researched, buildingOrder, completed).action.Wait?
    ensures var d := Decide(res, techOrder, researched, buildingOrder, completed);
      d.lines[|d.lines| - 1] == Fallback(LastReason(res, TechTree.AvailableIds(techOrder, researched),
                                                    Buildings.ConstructibleIds(buildingOrder, completed, researched)))
  {
  }

  /** The entry for each line is at that line's place. */
  lemma {:induction false} EntriesAt(lines: seq<Line>, k: nat)
    requires k < |lines|
    ensures Entries(lines)[k] == Events.Entry(LineText(lines[k]), false)
  {
    if k < |lines| - 1 {
      EntriesAt(lines[..|lines| - 1], k);
    }
  }

  // --- the decision as the source takes it ---

  /**
   * `make_autonomous_decision`; `acted` is its return value. The tests read
   * only the resources and the managers' listings, which nothing changes
   * before the one action, so the decision is taken first and then carried out.
   */
  method MakeAutonomousDecision(gs: State, tree: TechTree.TechTree, bm: Buildings.BuildingManager, em: Events.EventManager)
    returns (acted: bool)
    requires tree.gs == gs && bm.gs == gs && bm.tree == tree
    modifies tree, gs`res, gs`techMods, bm`activeProjects, em`log
    ensures var d := Decide(old(gs.res), tree.order, old(tree.researched), bm.order, bm.completed);
      && acted == !d.action.Wait?
      && Observe(gs, tree, bm) == Act(d.action, old(Observe(gs, tree, bm)))
      && em.log == Events.LoggedAll(old(em.log), Entries(d.lines))
  {
    var d := Decide(gs.res, tree.order, tree.researched, bm.order, bm.completed);
    DecisionCarriable(gs.res, tree.order, tree.researched, bm.order, bm.completed);
    acted := CarryOut(gs, tree, bm, em, d);
  }

  /** Logs the stability concern when there is one, then carries out the closing line. */
  method CarryOut(gs: State, tree: TechTree.TechTree, bm: Buildings.BuildingManager, em: Events.EventManager, d: Decision)
    returns (acted: bool)
    requires tree.gs == gs && bm.gs == gs && bm.tree == tree
    requires Carriable(d, gs.res.knowledge, tree.researched, bm.completed)
    modifies tree, gs`res, gs`techMods, bm`activeProjects, em`log
    ensures acted == !d.action.Wait?
    ensures Observe(gs, tree, bm) == Act(d.action, old(Observe(gs, tree, bm)))
    ensures em.log == Events.LoggedAll(old(em.log), Entries(d.lines))
  {
    Events.LoggedOneOrTwo(em.log, Entries(d.lines));
    EntriesAt(d.lines, 0);
    EntriesAt(d.lines, |d.lines| - 1);
    if |d.lines| == 2 {
      var _ := PerformLine(gs, tree, bm, em, Concern);
    }
    acted := PerformLine(gs, tree, bm, em, d.lines[|d.lines| - 1]);
  }

  /** Carries out the action a closing line reports and logs the line with the action's outcome. */
  method PerformLine(gs: State, tree: TechTree.TechTree, bm: Buildings.BuildingManager, em: Events.EventManager, line: Line)
    returns (acted: bool)
    requires tree.gs == gs && bm.gs == gs && bm.tree == tree
    requires Succeeds(line, gs.res.knowledge, tree.researched, bm.completed)
    modifies tree, gs`res, gs`techMods, bm`activeProjects, em`log
    ensures acted == !ActionOf(line).Wait?
    ensures Observe(gs, tree, bm) == Act(ActionOf(line), old(Observe(gs, tree, bm)))
    ensures em.log == Events.Logged(old(em.log), Events.Entry(LineText(line), false))
  {
    match line {
      case CrisisResearch(t) =>
        var msg;
        msg, acted := ResearchCandidate(gs, tree, bm, t);
        em.LogEvent(CrisisResearchText(t, msg), false);
      case SurplusResearch(t) =>
        var msg;
        msg, acted := ResearchCandidate(gs, tree, bm, t);
        em.LogEvent(SurplusResearchText(t, msg), false);
      case CrisisBuild(b) =>
        var msg;
        msg, acted := BuildCandidate(gs, tree, bm, b);
        em.LogEvent(CrisisBuildText(b, msg), false);
      case SurplusBuild(b) =>
        var msg;
        msg, acted := BuildCandidate(gs, tree, bm, b);
        em.LogEvent(SurplusBuildText(b, msg), false);
      case Concern =>
        em.LogEvent(ConcernText(), false);
        acted := false;
      case Fallback(r) =>
        em.LogEvent(FallbackText(r), false);
        acted := false;
    }
  }

  /**
   * `research_tech` on a candidate and the source's `"Error:" not in msg`:
   * a candidate is available and affordable, so the outcome is never an
   * error and the source's `if action_taken: return True` always returns.
   */
  method ResearchCandidate(gs: State, tree: TechTree.TechTree, bm: Buildings.BuildingManager, t: TechTree.TechId)
    returns (msg: string, acted: bool)
    requires tree.gs == gs
    requires TechTree.IsAvailable(t, tree.researched) && TechTree.Cost(t) <= gs.res.knowledge
    modifies tree, gs`res, gs`techMods
    ensures acted && msg == ResearchedText(t)
    ensures Observe(gs, tree, bm) == Act(Research(t), old(Observe(gs, tree, bm)))
  {
    TechTree.ParseKey(t);
    var r := tree.ResearchTech(TechTree.Key(t));
    msg := TechTree.ResearchMessage(r);
    acted := !r.IsError();
  }

  /** `start_project` on a candidate and the same test: a constructible building always starts. */
  method BuildCandidate(gs: State, tree: TechTree.TechTree, bm: Buildings.BuildingManager, b: Buildings.BuildingId)
    returns (msg: string, acted: bool)
    requires bm.tree == tree
    requires Buildings.CanConstruct(b, bm.completed, tree.researched)
    modifies bm`activeProjects
    ensures acted && msg == StartedText(b)
    ensures Observe(gs, tree, bm) == Act(Build(b), old(Observe(gs, tree, bm)))
  {
    Buildings.ParseKey(b);
    var r := bm.StartProject(Buildings.Key(b));
    msg := Buildings.StartMessage(r);
    acted := !r.IsError();
  }
}
