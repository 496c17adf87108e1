# Text Epoch and the map-automation scripts, modelled in Dafny

This project models two parts of one repository.

**Text Epoch** (`text_epoch/` and `main.py`) is a turn-based civilisation game played at a console. Each cycle the game:

- funds construction projects from Production;
- ticks the enacted policies;
- generates resources from the population;
- rolls for random events.

The player then types one line. It can research a technology, start a building, answer a pending decision, save or load. A player who stays idle long enough lets the civilisation decide by itself.

The model covers:

- the resource ledger and its per-cycle update (`GameState`);
- the technology tree (`TechTree`);
- the building manager (`Buildings`);
- the event manager (`Events`);
- the policy manager (`Policies`);
- the snapshot and restore (`SaveLoad`);
- the autonomous decision rules (`Candidates`, `Autonomous`);
- the main loop (`MainLoop`).

Where the source updates objects in place, the model uses classes:

- `GameState.State` holds the ledger and the three modifier pools;
- `TechTree.TechTree`, `Buildings.BuildingManager`, `Events.EventManager` and `Policies.PolicyManager` are the managers.

Each mutating method is proved against a pure specification function. The properties are then proved about those functions.

**The automation scripts** drive a game client through the screen. Only their self-contained logic is modelled:

- the greedy nearest-neighbour tour and the location lookup of the map site (`Website`);
- the map/world coordinate conversion, the nearest teleport search and the turn-step bucketing (`MoveAction`);
- command parameter preprocessing, condition checks and fail-fast task execution (`Plan`);
- mission-file merging, depth-first mission scheduling and the retry outcome of one mission (`Missions`).

Modelling conventions:

- Quantities are `real`. Python's `int()` is `Numbers.Trunc`, which rounds toward zero, and `round()` is `Numbers.RoundHalfEven`.
- Python dictionaries whose iteration order matters are association lists (`Dict`).
- Random draws, choice rolls, screen checks and device calls are parameters.
- The helper modules `Numbers`, `Dict`, `Lists`, `Text` and `Wrappers` carry the arithmetic, dictionary, list, string and option plumbing.

## Model

| member | source | states |
|---|---|---|
| GameState.FoodPenalty | text_epoch/game_state.py:93-98 | starvation costs exactly 5 stability; otherwise an empty food store costs 2; the two never apply together, and neither applies without its cause |
| GameState.Trend | text_epoch/game_state.py:100-106 | the low and high rules compare the stability read on entry: below 40 it drains 2 more, above 80 it gains 1, in between nothing |
| GameState.StabilityRules | text_epoch/game_state.py:84-116 | the result lies in [0, 100]; it never exceeds the entry value plus the high boost; starvation lowers it by at least 4; without food trouble and between the thresholds it is unchanged |
| GameState.State.UpdateStability | text_epoch/game_state.py:84-116 | only Stability changes, to the rules' value, and the return value is the final stability minus the entry stability |
| GameState.AddFlatBonuses | text_epoch/game_state.py:134-137 | each stock gains exactly its building flat plus its policy flat; Population and Stability are untouched |
| GameState.PayCultureUpkeep | text_epoch/game_state.py:140-142 | only Culture changes; it drops by exactly the upkeep when the upkeep is affordable and is set to exactly 0 when it is not |
| GameState.StarvationLoss | text_epoch/game_state.py:154-158 | for a non-negative population the loss is a whole number between 0 and a tenth of the population |
| GameState.GrowthGain | text_epoch/game_state.py:163-172 | the gain is a whole number between 0 and twice the rate times the population (the surplus multiplier is capped at 2) |
| GameState.FloorClamp | text_epoch/game_state.py:174-177 | a population of at least 2 before the cycle that falls below 2 is set to exactly 2; one already below 2 is not clamped; one that stays at 2 or more is unchanged |
| GameState.PopulationStep | text_epoch/game_state.py:150-177 | only Food and Population change; Food ends non-negative; starvation is flagged only after a deficit and empties the store; without a deficit, Food drops by exactly the consumption; a starving population shrinks or sits at the floor |
| GameState.AddPopulationYields | text_epoch/game_state.py:179-207 | each stock becomes exactly the larger of 0 and its old value plus population times rate times its factor product, so it ends non-negative; Population and Stability are untouched |
| GameState.StabilityStep | text_epoch/game_state.py:212-217 | only Stability changes: the flats are added and clamped, then the stability rules run with the food flags |
| GameState.CycleResources | text_epoch/game_state.py:118-217 | after a cycle every stock is non-negative, Stability lies in [0, 100], and a population of at least 2 stays at 2 or more |
| GameState.State.UpdateResources | text_epoch/game_state.py:118-217 | the ledger becomes the cycle function of the old ledger and the three pools |
| GameState.State.AddFlatsAndUpkeep | text_epoch/game_state.py:134-142 | the ledger after the flat bonuses and the culture upkeep |
| GameState.State.ConsumeAndGrow | text_epoch/game_state.py:150-177 | the ledger and starvation flag of the population step |
| GameState.State.AddYields | text_epoch/game_state.py:179-207 | the ledger after the population yields |
| GameState.State.constructor | text_epoch/game_state.py:1-58 | the initial ledger, cycle and idle counters, and the three initial pools |
| GameState.ApplyOps | text_epoch/tech_tree.py:12-150 | an effect never removes a pool key, and it leaves every key it does not name unchanged |
| GameState.ApplyOpKeepsOthers | text_epoch/tech_tree.py:12-150 | one effect step changes only the key it names |
| TechTree.Parse | text_epoch/tech_tree.py:5-153 | a key is found exactly when some tech carries it, and the tech found carries that key |
| TechTree.ParseKey | text_epoch/tech_tree.py:5-153 | the table keys are distinct, so looking up a tech's key finds that tech |
| TechTree.PrerequisitesEarlier | text_epoch/tech_tree.py:5-153 | every prerequisite comes earlier in the table, so the tree has no cycle |
| TechTree.ResearchedIds | text_epoch/tech_tree.py:159-160 | exactly the table techs flagged researched |
| TechTree.AvailableIds | text_epoch/tech_tree.py:162-173 | exactly the unresearched table techs whose prerequisites are all researched |
| TechTree.TechTree.GetAvailableResearch | text_epoch/tech_tree.py:162-173 | the scan returns exactly the available techs, in table order |
| TechTree.TechTree.AllResearched | text_epoch/tech_tree.py:166-170 | true iff every listed prerequisite is researched |
| TechTree.InitiallyAvailable | text_epoch/tech_tree.py:162-173 | at the start a tech is available iff it has no prerequisites |
| TechTree.OrderIsResearchable | text_epoch/tech_tree.py:5-153 | researching in table order from nothing always finds the next tech available |
| TechTree.MissingPrerequisiteNames | text_epoch/tech_tree.py:185-187 | the list of missing names is empty iff every prerequisite is researched |
| TechTree.ResearchMessage | text_epoch/tech_tree.py:179-206 | the message starts with "Error:" iff the outcome is an error |
| TechTree.ResearchVerdict | text_epoch/tech_tree.py:175-206 | success iff the tech exists, is available and is affordable; an unknown id is unavailable; missing prerequisites take precedence over "already researched"; a shortfall of Knowledge is reported exactly when the tech is available but too dear |
| TechTree.ResearchOnce | text_epoch/tech_tree.py:179-191 | a researched tech can never be researched again |
| TechTree.TechTree.ResearchTech | text_epoch/tech_tree.py:175-206 | on success Knowledge drops by exactly the cost, the tech joins the researched set and its effect is applied once to the tech pool; on every error nothing changes |
| TechTree.TechTree.constructor | text_epoch/tech_tree.py:155-157 | nothing researched |
| Buildings.Parse | text_epoch/building_manager.py:3-129 | a key is found exactly when some building carries it |
| Buildings.CostPerCycle | text_epoch/building_manager.py:133-137 | the per-cycle cost times the build time is within half a build time of the total, and when it is exactly half a build time off (a tie) the cost is even, as Python's `round` does; the total itself when the build time is 0 |
| Buildings.CostPerCycleTable | text_epoch/building_manager.py:133-137 | the rounded per-cycle costs of four table entries: Granary 10 (exact), Shrine 12 and Training Ground 13 (rounded up), Market Square 14 (rounded down) |
| Buildings.ConstructibleIds | text_epoch/building_manager.py:170-189 | exactly the buildings below their limit whose tech prerequisites are all researched |
| Buildings.BuildingManager.GetConstructibleBuildings | text_epoch/building_manager.py:170-189 | the scan returns exactly the constructible buildings, in table order |
| Buildings.StartVerdict | text_epoch/building_manager.py:191-206 | a start succeeds iff the building exists and is constructible; an unknown id, a reached limit and missing techs are told apart; the "reason unknown" branch is never taken |
| Buildings.StartMessage | text_epoch/building_manager.py:191-217 | the message starts with "Error:" iff the outcome is an error |
| Buildings.BuildingManager.StartProject | text_epoch/building_manager.py:191-217 | a start appends exactly one project with the full build time and the per-cycle cost snapshotted; errors change nothing |
| Buildings.LimitNotEnforcedOnProjects | text_epoch/building_manager.py:191-198 | with no Granary complete, Granaries can be started again and again; three that finish make a count of 3 against a limit of 2 |
| Buildings.Fund | text_epoch/building_manager.py:219-232 | the funding pass keeps one entry per project |
| Buildings.FundSpends | text_epoch/building_manager.py:221-232 | the funding pass only spends Production and never drives it below zero |
| Buildings.FundRule | text_epoch/building_manager.py:221-232 | a project advances by exactly one cycle when the Production left by the projects before it covers its per-cycle cost, and is left untouched otherwise |
| Buildings.FundAdvances | text_epoch/building_manager.py:221-232 | each project keeps its kind and cost and advances by at most one cycle: by one exactly when the Production left at its turn covers its cost, otherwise not at all |
| Buildings.FundNewly | text_epoch/building_manager.py:228-229 | each project reported finished is a funded project with no cycles left |
| Buildings.BuildingManager.FundProjects | text_epoch/building_manager.py:219-232 | the first loop computes the funding pass: projects, Production and the finished list |
| Buildings.CompleteAllCounts | text_epoch/building_manager.py:234-243 | each completion adds exactly one to its own kind's count and none to any other |
| Buildings.BumpCount | text_epoch/building_manager.py:238-241 | one completion raises the count of its kind by one and no other |
| Buildings.BuildingManager.CompleteProjects | text_epoch/building_manager.py:234-243 | the second loop removes each finished project, bumps its count and rebuilds the pool |
| Buildings.BuildingManager.UpdateConstruction | text_epoch/building_manager.py:219-249 | Production, projects, counts and pool are those of the funding pass followed by the completion pass |
| Buildings.RecalcForgets | text_epoch/building_manager.py:147-165 | a rebuild forgets every earlier building effect: rebuilding a rebuilt pool equals rebuilding the original |
| Buildings.CompleteAllPool | text_epoch/building_manager.py:234-243 | after the completion pass the pool is the rebuild of the entry pool from the final counts |
| Buildings.ApplyCompletedOutside | text_epoch/building_manager.py:147-165 | keys outside the eleven reset keys pass through the rebuild unchanged |
| Buildings.BuildingManager.RecalculateAllBuildingEffects | text_epoch/building_manager.py:147-165 | the pool becomes the reset-then-reapply of the completed counts |
| Buildings.ImprovedGranaryFactor | text_epoch/building_manager.py:147-165 | with Improved Granaries the only completed kind, the rebuilt food factor is exactly 1.05 to the count and the food bonus is 20 per granary |
| Buildings.FifthPassCompletesGranary | text_epoch/building_manager.py:219-243 | a Granary started from nothing, with at least 10 Production on every call, is still in progress after four calls; the fifth completes it (count 1, no project left, food bonus 10) |
| Buildings.BuildingManager.constructor | text_epoch/building_manager.py:140-145 | no projects and no completed buildings |
| Events.Logged | text_epoch/event_manager.py:411-421 | the entry is appended last; below thirty entries nothing is lost; at capacity the oldest is evicted and the length stays |
| Events.LogWindow | text_epoch/event_manager.py:411-421 | whatever was logged, the log is the newest thirty entries of everything appended |
| Events.LoggedOneOrTwo | text_epoch/event_manager.py:411-421 | logging a list of one or two entries is logging them one after the other |
| Events.ApplyLedgerOp | text_epoch/event_manager.py:13-77 | an event update changes only the resource it names |
| Events.LedgerOpsKeepStability | text_epoch/event_manager.py:13-77 | updates that cap or floor Stability keep it in [0, 100] |
| Events.CatalogueKeepsStability | text_epoch/event_manager.py:13-77 | the catalogued effects and choices never push Stability out of [0, 100] |
| Events.Trigger | text_epoch/event_manager.py:457-472 | a trigger records the event as fired and flags a one-time event; a decision becomes the pending decision, with its id, title, description and choices, and leaves the ledger alone; a random event applies its effect at once |
| Events.ScanExtends | text_epoch/event_manager.py:427-454 | the scan only appends fired ids and uses at most one draw per event, and at least one per event fired |
| Events.ScanFiresTableEvents | text_epoch/event_manager.py:427-454 | every fired id is an event of the table at or after the scan position |
| Events.SpentNeverFires | text_epoch/event_manager.py:434-435 | a one-time event already triggered never fires again |
| Events.DecisionEndsScan | text_epoch/event_manager.py:447-450 | a decision that fires is the last event fired and the one left pending |
| Events.FiresIffDrawBelow | text_epoch/event_manager.py:433-446 | at any position of the table, the event fires iff it is eligible and its draw is below its probability, and its id is then the next one fired; an ineligible event uses no draw, an eligible one that does not fire uses one, and either way the scan goes on with the next event |
| Events.FiredEventContinues | text_epoch/event_manager.py:445-450 | after an event fires, the scan ends with it when a decision is pending or the event stops further events, and otherwise goes on with the next event; a random event without the stop flag, fired with nothing pending, lets the scan go on with the next event |
| Events.ResolveVerdict | text_epoch/event_manager.py:474-492 | a choice is taken iff a decision is pending and the input parses to a number in 1..N; the index taken is that number minus one; no pending decision and a non-number are reported as such |
| Events.ResolveMessage | text_epoch/event_manager.py:474-492 | the message starts with "Error:" iff the resolution failed |
| Events.ErrorMessagesFlagged | text_epoch/event_manager.py:474-492 | failures contain "Error:"; a decision's message starts "Decision '" |
| Events.EventManager.LogEvent | text_epoch/event_manager.py:411-421 | the log becomes the old log with the entry logged |
| Events.EventManager.ApplyEffect | text_epoch/event_manager.py:423-425 | the ledger and log after the effect's updates and its outcome message |
| Events.EventManager.TriggerEvent | text_epoch/event_manager.py:457-472 | the ledger, log, pending decision and flags after the trigger |
| Events.EventManager.CheckForEvents | text_epoch/event_manager.py:427-454 | nothing happens while a decision is pending; otherwise the state becomes the scan over the table with the draws |
| Events.EventManager.ResolveDecisionEvent | text_epoch/event_manager.py:474-492 | errors change nothing; a valid choice logs it, applies its effect once and clears the pending decision |
| Events.EventManager.constructor | text_epoch/event_manager.py:403-409 | empty log, no flags, nothing pending |
| Policies.Parse | text_epoch/policies.py:17-107 | a key is found exactly when some policy carries it |
| Policies.EnactableIds | text_epoch/policies.py:128-171 | exactly the table policies that are neither active nor cooling down and whose tech, building, population, stability and cost requirements are all met |
| Policies.PolicyManager.GetEnactablePolicies | text_epoch/policies.py:128-171 | the scan returns exactly the enactable policies, in table order |
| Policies.EnactVerdict | text_epoch/policies.py:173-207 | enactment succeeds iff the policy exists and is enactable; failures are reported in the source's order (unknown, already active, on cooldown until the recorded cycle, generic) |
| Policies.DeductCostsExact | text_epoch/policies.py:186-189 | with each resource named once, each cost is deducted exactly once and every other resource is unchanged |
| Policies.EnactedCostsAffordable | text_epoch/policies.py:141-170 | a policy that passed the checks can pay: no cost drives its resource below zero |
| Policies.PolicyManager.EnactPolicy | text_epoch/policies.py:173-207 | on success the costs are deducted, the effect runs once, the policy is appended to the active map with its duration, the current cycle and its type, and a major entry is logged; on any error nothing changes |
| Policies.PolicyManager.Enact | text_epoch/policies.py:186-207 | the success path: costs, effect, active entry and log entry |
| Policies.PolicyManager.EnactState | text_epoch/policies.py:186-204 | costs deducted, effect applied once, active entry appended |
| Policies.PolicyManager.RunEffect | text_epoch/policies.py:191-197 | the two pools after one call of an effect |
| Policies.PolicyManager.DeductCostsOf | text_epoch/policies.py:186-189 | the ledger after the cost loop |
| Policies.RevokeVerdict | text_epoch/policies.py:209-218 | revocation succeeds iff the policy is active and was enacted as toggleable; an unknown or inactive policy is reported as not active |
| Policies.PolicyManager.RevokePolicy | text_epoch/policies.py:209-233 | on success the remove-effects run once, the entry is deleted, the cooldown starts when it is nonzero, and a major entry is logged; errors change nothing |
| Policies.PolicyManager.EndPolicyStep | text_epoch/policies.py:219-233 | remove-effects once, entry deleted, cooldown set |
| Policies.TickAll | text_epoch/policies.py:240-244 | each timed policy's remaining duration drops by one and nothing else changes; the expired list holds exactly the policies that just reached 0 or below |
| Policies.PolicyManager.TickDurations | text_epoch/policies.py:240-244 | the first loop computes the tick |
| Policies.PolicyManager.ExpirePolicies | text_epoch/policies.py:247-260 | the second loop ends each expired policy in order |
| Policies.EndedIds | text_epoch/policies.py:263-266 | exactly the policies whose cooldown has ended by the current cycle |
| Policies.ClearAllEntries | text_epoch/policies.py:263-266 | deleting a list of keys keeps exactly the entries under other keys |
| Policies.ClearedAreExactlyFuture | text_epoch/policies.py:259-266 | after the clearing loop exactly the cooldowns ending after the current cycle remain |
| Policies.ExpirySetsCooldown | text_epoch/policies.py:247-260 | every policy the expiry loop ends with a nonzero cooldown holds the current cycle plus its cooldown afterwards |
| Policies.ExpiredCooldownSurvives | text_epoch/policies.py:247-266 | a policy that expires in a call with a nonzero cooldown keeps its cooldown entry through the clearing loop of the same call |
| Policies.PolicyManager.ClearEndedCooldowns | text_epoch/policies.py:263-266 | the third loop removes the ended cooldowns and logs each; every remaining cooldown ends in the future |
| Policies.PolicyManager.UpdateActivePolicies | text_epoch/policies.py:235-266 | tick, expire, then clear; afterwards every cooldown ends after the current cycle |
| Policies.RemoveCancelsEnact | text_epoch/policies.py:37-107 | for every policy with remove-effects except the festival, removal exactly undoes enactment whatever the population at either moment |
| Policies.ForcedLaborCancels | text_epoch/policies.py:37-54 | forced labour's removal restores both pools |
| Policies.KnowledgeSharingCancels | text_epoch/policies.py:55-73 | the knowledge initiative's removal restores both pools |
| Policies.ElderCouncilCancels | text_epoch/policies.py:90-107 | the elder council's removal restores both pools |
| Policies.FestivalRoundTrip | text_epoch/policies.py:18-36 | the festival's stability bonus cancels; its culture bonus is added from the population at enactment and removed from the population at removal |
| Policies.FestivalCancelsIff | text_epoch/policies.py:27-33 | the pools come back exactly iff int(Population × 0.05) is the same at both moments |
| Policies.FestivalDrift | text_epoch/policies.py:27-33 | enacted at Population 100 and removed at 60, the festival leaves 2 culture per cycle behind |
| Policies.OpsCommute | text_epoch/policies.py:26-101 | pool updates on different keys commute |
| Policies.PolicyManager.constructor | text_epoch/policies.py:110-126 | no active policies and no cooldowns |
| SaveLoad.SaveGame | text_epoch/save_load_manager.py:17-66 | the document is written iff no decision is pending (JSON cannot encode the choice effects); it carries the active projects and the log as they are |
| SaveLoad.ResearchedFlagsGet | text_epoch/save_load_manager.py:30-33 | the snapshot has a flag for exactly the table's techs, and each flag is that tech's researched status |
| SaveLoad.TriggeredFlagsGet | text_epoch/save_load_manager.py:50-54 | triggered flags are saved for exactly the one-time events, with their status |
| SaveLoad.CountsRoundTrip | text_epoch/save_load_manager.py:36-41 | saving then loading the completed counts gives them back exactly, in order |
| SaveLoad.KeptCountsGet | text_epoch/save_load_manager.py:106-114 | a loaded count is the one saved under the building's id, 0 when absent; unknown ids are dropped |
| SaveLoad.LoadResearchedIff | text_epoch/save_load_manager.py:101-103 | after loading, a table tech is researched iff its flag says so (missing means false); other techs keep their status |
| SaveLoad.ResearchedRoundTrip | text_epoch/save_load_manager.py:30-33 | saving then loading restores every table tech's researched status |
| SaveLoad.LoadTriggeredIff | text_epoch/save_load_manager.py:126-129 | after loading, a one-time event is triggered iff its flag says so; other ids keep the loading session's status |
| SaveLoad.TriggeredRoundTrip | text_epoch/save_load_manager.py:50-54 | saving then loading restores the one-time events' flags |
| SaveLoad.LoadGame | text_epoch/save_load_manager.py:68-167 | a missing file changes nothing and returns false; a read file overwrites every saved field and resets the building pool, and the return value is true only when no building has a positive count |
| SaveLoad.LoadGameAsIntended | text_epoch/save_load_manager.py:68-167 | the corrected loader: a read file always loads, and the building effects are re-applied with their counts |
| SaveLoad.RestoreSnapshot | text_epoch/save_load_manager.py:83-150 | every saved field back in place, the tech pool rebuilt, the building pool reset |
| SaveLoad.RestoreResearched | text_epoch/save_load_manager.py:101-103 | the researched set becomes the loaded flags |
| SaveLoad.RestoreCompleted | text_epoch/save_load_manager.py:106-114 | the completed counts become the saved counts of known buildings |
| SaveLoad.RestoreTriggered | text_epoch/save_load_manager.py:126-129 | the triggered set becomes the loaded flags |
| SaveLoad.ReapplyTechEffects | text_epoch/save_load_manager.py:135-150 | the tech pool gains each researched tech's effect once, in table order |
| SaveLoad.ReapplyBuildingEffects | text_epoch/save_load_manager.py:153-160 | as written, the loop gets through only when no building has a positive count |
| SaveLoad.ReapplyBuildingEffectsAsIntended | text_epoch/save_load_manager.py:153-160 | each building's effect applied once with its count |
| SaveLoad.SavedBuildingFailsLoad | text_epoch/save_load_manager.py:153-167 | reloading a save in which any building has a positive count reports failure |
| SaveLoad.OneGranaryFailsLoad | text_epoch/save_load_manager.py:153-167 | a save with one Granary does not load |
| SaveLoad.ReloadedTechAgrees | text_epoch/save_load_manager.py:135-150 | the reset keeps only four tech keys, yet the rebuilt pool reads like the researched effects applied to the initial pool |
| SaveLoad.ReappliedBuildingsAgree | text_epoch/save_load_manager.py:153-160 | the intended re-application reads, on the eleven building keys, like the manager's own rebuild over the same counts |
| SaveLoad.DefaultMatchesBase | text_epoch/save_load_manager.py:88-93 | the five building defaults read like the base values of the manager's reset |
| Candidates.EstimatedConsumption | text_epoch/autonomous_logic.py:15-16 | consumption is always positive: Population × 1.0, or 1 when that is not positive |
| Candidates.FoodTechs | text_epoch/autonomous_logic.py:24-27 | exactly the available techs about food that Knowledge pays for |
| Candidates.AffordableTechs | text_epoch/autonomous_logic.py:66 | exactly the available techs that Knowledge pays for |
| Candidates.FoodBuildings | text_epoch/autonomous_logic.py:36-40 | exactly the constructible food buildings that Production covers for one cycle (or that build instantly) |
| Candidates.AffordableBuildings | text_epoch/autonomous_logic.py:77-80 | exactly the constructible buildings that Production covers for one cycle (or that build instantly) |
| Candidates.CheapestTech | text_epoch/autonomous_logic.py:29 | a candidate of least cost, and among equally cheap ones the first listed, as `min` takes it (Early Writing and Storytelling both cost 50) |
| Candidates.CheapestBuilding | text_epoch/autonomous_logic.py:49 | a candidate of least total cost, and among equally cheap ones the first listed |
| Candidates.FirstProviding | text_epoch/autonomous_logic.py:44-47 | a providing candidate when one exists, nothing otherwise |
| Candidates.FirstProvidingIsFirst | text_epoch/autonomous_logic.py:44-47 | the building found provides food and no candidate before it does |
| Candidates.FirstProvider | text_epoch/autonomous_logic.py:44-47 | the scan with `break` finds the first providing candidate |
| Candidates.FoodBuildingChoice | text_epoch/autonomous_logic.py:42-49 | the choice is a candidate, and a providing one whenever any candidate provides |
| Autonomous.DecisionCarriable | text_epoch/autonomous_logic.py:18-91 | every decision is one line, or the stability concern and then one line; the closing action always succeeds; the concern appears only below stability 30 |
| Autonomous.ActsIffCandidate | text_epoch/autonomous_logic.py:18-91 | the decision acts iff there is a food tech or food building in a crisis, an affordable tech with Knowledge above 20, or an affordable building with Production above 30 |
| Autonomous.CrisisActsIff | text_epoch/autonomous_logic.py:18-55 | the crisis branch acts iff food is short and it has a food tech or a food building |
| Autonomous.SurplusActsIff | text_epoch/autonomous_logic.py:62-89 | the surplus branches act iff Knowledge above 20 has an affordable tech or Production above 30 has an affordable building |
| Autonomous.CrisisResearchesCheapestFoodTech | text_epoch/autonomous_logic.py:22-33 | in a crisis with an affordable food tech, the decision researches a cheapest one and logs only that |
| Autonomous.StabilityNeverActs | text_epoch/autonomous_logic.py:57-59 | the action never depends on Stability: low stability only adds the concern line |
| Autonomous.WaitQuotesLastReason | text_epoch/autonomous_logic.py:88-91 | when nothing is done, the last line is the fallback quoting the last reason checked |
| Autonomous.MakeAutonomousDecision | text_epoch/autonomous_logic.py:5-91 | returns true iff the decision acts; the world changes by exactly that action, and the log gains exactly the decision's lines |
| Autonomous.CarryOut | text_epoch/autonomous_logic.py:57-91 | logs the concern when present, then performs the closing line |
| Autonomous.PerformLine | text_epoch/autonomous_logic.py:29-91 | performs the line's action and logs the line with its outcome |
| Autonomous.ResearchCandidate | text_epoch/autonomous_logic.py:29-33 | research on a candidate always succeeds, so the "Error:" test never fails |
| Autonomous.BuildCandidate | text_epoch/autonomous_logic.py:49-55 | a constructible candidate always starts |
| MainLoop.ParseResearch | main.py:142-147 | `research <id>` reaches the research branch with the id stripped |
| MainLoop.ParseBuild | main.py:154-159 | `build <id>` reaches the build branch with the id stripped |
| MainLoop.IdleLines | main.py:122-174 | only `next` and the empty line count as an idle pass; every line except those and `quit` is an action |
| MainLoop.CycleAdvances | main.py:80 | every pass advances the cycle count by exactly one, unless it loads a saved game |
| MainLoop.PrepareCycle | main.py:80-90 | the phases before generation advance the cycle by one |
| MainLoop.RespondCycle | main.py:112-189 | answering a line leaves the cycle count alone unless it loads a game |
| MainLoop.FirstCycleBuildsNothing | main.py:85-87 | on the first pass construction does not run |
| MainLoop.PendingSkipsEvents | main.py:97-99 | while a decision is pending, the event scan is skipped and only the resources are generated |
| MainLoop.ResolvingKeepsIdle | main.py:112-118 | a pending decision takes the line, the idle count is untouched, and nothing autonomous happens |
| MainLoop.ActingResetsIdle | main.py:166-174 | any line but `next`, the empty line and `quit` ends the pass with idle count 0 and nothing autonomous |
| MainLoop.IdleTurn | main.py:166-189 | `next` adds one idle pass; at the threshold the civilisation decides by itself, and the count restarts only when it acts |
| MainLoop.QuitStops | main.py:122-125 | `quit` ends the loop at once on the state the phases left |
| MainLoop.SaveInLoopWrites | main.py:126-130 | `save` in the loop always writes the file and resets the idle count |
| MainLoop.SaveThenLoad | main.py:126-139 | a load of what save wrote restores resources, cycle, projects, building counts, log, decision and the researched status of every table tech; the building pool holds the five defaults, and the load branch's own idle reset (main.py:138) happens only when no building was built; played as a command, the command branch of main.py:173-174 then resets the idle count after any load (`MainLoop.ActingResetsIdle`) |
| MainLoop.PlayAppend | main.py:79-194 | playing two runs of lines one after the other is playing them together, unless the first stopped the game |
| MainLoop.NextCycle | main.py:80-81 | only the cycle count changes, by one |
| MainLoop.ConstructionPhase | main.py:85-88 | construction runs only from the second cycle on |
| MainLoop.PolicyPhase | main.py:90 | the policy update |
| MainLoop.GenerationPhase | main.py:94-99 | resource generation, then the event scan unless a decision is pending |
| MainLoop.PreparePhases | main.py:80-91 | the cycle count, construction and policy update in that order |
| MainLoop.AdvancePhases | main.py:80-99 | the four phases in order; a crash is reported exactly when text_epoch/game_state.py:118-217 would raise (a Population of -1) |
| MainLoop.ResolvePhase | main.py:112-120 | the pending decision takes the line |
| MainLoop.LoadPhase | main.py:130-139 | `load_game` as written replaces the world and leaves the building pool at its defaults; the load branch resets the idle count only when it returns True (no building built); the reset that follows every load command, failed or not (main.py:173-174), is the command branch's; without a file nothing changes |
| MainLoop.RunCommand | main.py:125-174 | one command's branch (with `load_game` as written) and the idle update; only `save` writes the file |
| MainLoop.AutonomousPhase | main.py:177-189 | the autonomous decision, and the idle count reset when it acts |
| MainLoop.TakeLine | main.py:112-189 | the line, then the autonomous phase when it is due |
| MainLoop.PlayTurn | main.py:79-189 | one pass of the loop |
| MainLoop.RunGame | main.py:79-194 | the loop over the typed lines, stopping at `quit`, when text_epoch/game_state.py:118-217 would raise (a Population of -1), or when the lines run out |
| Website.FirstNamed | resource/function/website.py:33-42 | nothing iff no entry has the name; otherwise the locations of the first entry that does |
| Website.ObjectLocations | resource/function/website.py:33-42 | an empty name gives no locations; otherwise the first match, or nothing |
| Website.Nearest | resource/function/website.py:66 | an index of least distance from the current point, with every earlier point strictly farther |
| Lists.RemoveFirst | resource/function/website.py:68 | `list.remove`: removing a present element drops exactly one copy of it (one shorter, the same multiset less that element); an absent element changes nothing (also text_epoch/building_manager.py:235) |
| Lists.RemoveFirstAt | resource/function/website.py:68 | when nothing earlier equals the element at i, removing it drops exactly index i |
| Website.FirstWithId | resource/function/website.py:59 | nothing iff no point carries the id; otherwise the first point that carries it |
| Website.Others | resource/function/website.py:60 | the points whose id differs from the start id, every copy of each kept, and none with the start id |
| Website.GreedyTsp | resource/function/website.py:58-72 | the loop builds the start point, the greedy tour and the start point again, or fails without a start point |
| Website.VisitAll | resource/function/website.py:62-69 | the loop's path is the start point followed by the greedy tour of the unvisited points (each step appends the nearest one and removes it) |
| Website.TourVisitsAll | resource/function/website.py:65-69 | the tour visits every unvisited point exactly once |
| Website.FirstStepIsNearest | resource/function/website.py:66 | the first step goes to a point no farther than any point of the tour |
| Website.LaterStepIsNearest | resource/function/website.py:65-69 | every later step goes to a point no farther from the current point than any point still unvisited |
| Website.GreedyTourShape | resource/function/website.py:58-72 | the path fails iff no point has the start id; otherwise it starts and ends at the first such point, has length equal to the number of other points plus 2, and holds each other point once |
| MoveAction.TransformLoc | resource/function/move_action.py:217-229 | nothing for a missing type, a missing location or an unknown type; "ttm" shifts, scales by 1.25, subtracts the offset and truncates; "mtt" adds the offset, scales by 0.8, truncates and shifts back |
| MoveAction.RoundTripOnAxis | resource/function/move_action.py:221-226 | world to map and back loses at most one unit, and is exact iff the shifted coordinate is a multiple of four |
| MoveAction.ClosestIsFirstNearest | resource/function/move_action.py:63-77 | the scan finds the first point of least distance, and reports no id, the starting distance 114514 (as its square) and (0, 0) iff no point is nearer than 114514 |
| MoveAction.TransportToNest | resource/function/move_action.py:63-77 | the nested loop computes the scan over all groups' points in order |
| MoveAction.Wrap | resource/function/move_action.py:113-116 | the offset moves by at most one full turn, and an offset in [-540, 540] lands within a half turn |
| MoveAction.Steps | resource/function/move_action.py:117-138 | one step below 40 degrees, two in [40, 55), four in [55, 70), six from 70 on |
| MoveAction.StepsGrow | resource/function/move_action.py:117-138 | the step count never falls as the offset grows |
| MoveAction.TurnFor | resource/function/move_action.py:107-140 | holds iff the wrapped offset is within 10 degrees; moves right iff it is above 10, by the steps of the wrapped offset; otherwise left by the steps of its magnitude |
| MoveAction.TurnMirrors | resource/function/move_action.py:117-138 | the opposite offset gives the same steps the other way |
| MoveAction.TurnToward | resource/function/move_action.py:103-140 | a move for each heading read before the first one within 10 degrees; aligned iff such a heading is read |
| Plan.ConvertRelative | resource/function/plan.py:54-61 | a coordinate list or pixel pair becomes the truncated screen pixel, a list too short raises, and a scalar passes unchanged |
| Plan.RelativeStaysOnScreen | resource/function/plan.py:54-61 | relative coordinates in [0, 1) land on a pixel of the screen |
| Plan.PreprocessParams | resource/function/plan.py:43-52 | the loop computes the processed dictionary |
| Plan.PreprocessRaises | resource/function/plan.py:43-52 | preprocessing raises iff some `_rel` entry cannot be converted |
| Plan.PreprocessHas | resource/function/plan.py:46-51 | a key is present afterwards iff some entry is stored under it |
| Plan.PreprocessLastWins | resource/function/plan.py:46-51 | a key holds the converted value of the last entry stored under it |
| Plan.PlainKeyKept | resource/function/plan.py:47-51 | every key that does not end in `_rel` (even `a_rel_b`) keeps its name and value |
| Plan.ConditionsHoldIffAllPass | resource/function/plan.py:63-74 | true iff every condition passes, in particular for none |
| Plan.ConditionsFailAtFirstRefusal | resource/function/plan.py:63-74 | false exactly at a first refusing condition after passing ones |
| Plan.CheckConditions | resource/function/plan.py:63-74 | the loop with early return computes the condition check |
| Plan.ExecuteCommand | resource/function/plan.py:14-41 | true iff preprocessing succeeds, the conditions hold, the action is known and the executor returns true |
| Plan.ExecuteTask | resource/function/plan.py:138-145 | true iff every step succeeds or may fail; otherwise it stops right after the first step that fails and may not |
| Missions.MergeFirstWins | exp_mission.py:42-48 | after merging, a name is present iff it was before or some entry carries it; it keeps its earlier value, or else the value of its first entry |
| Missions.MergeListsEntries | exp_mission.py:43-46 | a name is an entry mission iff it was before, or it was newly added with type 1 |
| Missions.MergeAppend | exp_mission.py:36-48 | merging two runs of entries in turn is merging them together, so the files can be read one by one |
| Missions.MissionRelated.MergeFile | exp_mission.py:42-48 | one file's entries merged in order into the catalogue, the first definition of a name winning |
| Missions.MissionRelated.ReadMissionJson | exp_mission.py:32-48 | an empty directory refuses and changes nothing; otherwise every `.json` file's entries are merged into the catalogue |
| Missions.MissionRelated.RunMission | exp_mission.py:76-164 | the attempt loop returns the mission's outcome: nothing for an unknown mission; `next` when a negative retry count runs no attempt; otherwise nothing for an unknown action, `error_next` after the last failed check, and `next` |
| Missions.Reverse | exp_mission.py:70-72 | the successors reversed, element by element |
| Missions.DepthFirst | exp_mission.py:65-72 | the mission on top runs first; then its first successor, or the mission below it when it pushed none |
| Missions.ScheduleRunsAll | exp_mission.py:65-72 | a run that finishes has run every mission it started with |
| Missions.MissionRelated.RunMissionList | exp_mission.py:53-74 | returns false iff the device cannot be connected; otherwise the run is the depth-first schedule from the start mission |
| Missions.InitialDir | exp_mission.py:16-22 | only a missing or empty argument sets the directory, to the default path; a given directory is never stored, so reading the files raises |
| Missions.MissionRelated.constructor | exp_mission.py:16-22 | the call without a directory: the default path, then every `.json` file of its listing merged into an empty catalogue |
| Missions.MissionRelated.SetMissionDir | exp_mission.py:26-27 | only the directory changes |

## Left out

- resource/function/control.py, game_action.py, action.py, show_mouse_loc.py, temp.py and test.py are not part of this model. They hold only input injection, window capture, OCR, template matching, process checks and YAML loading.
- text_epoch/ui_console.py is not part of this model. It only renders the console and reads input.
- `ui_console.print_message` is called with a `no_pause` argument it does not accept, which would raise. The model treats all console output as a no-op.
- The HTTP fetch and file write of `web_update_object_loc` (resource/function/website.py:19-31) are network and file I/O.
- The vision and movement code of move_action.py (lines 35-61, 79-101, 150-215 and 231-283) is left out. It is feature detection, trigonometry and key presses.
- The reporting block of `update_resources` (text_epoch/game_state.py:219-253) is left out. It only prints, and its first line reads an undefined `prev_stability`, which raises after the state updates. The model stops at line 217.
- File and JSON I/O are left out. A save file is the `SaveLoad.Snapshot` datatype; a missing or unreadable file is `None`.
- The `sys.path` and package setup of main.py (lines 8-25 and 201-207) is left out.
- Only the three events at text_epoch/event_manager.py:13-77 are catalogued. The later events declare four- and five-argument lambdas, but the engine calls them with one or two arguments, so they would raise.
- The techs at text_epoch/tech_tree.py:42-151 have no `researched` key, so reading it would raise. The model keeps a researched status for every tech.
- The random numbers drawn inside choice effects are an injected `roll`.
- `AUTONOMOUS_DECISION_THRESHOLD` is defined outside the modelled files. It is a natural-number parameter.
- Distances are compared through their squares, so the square root is left out. This does not change which point is nearer.
- Screen checks, OCR, executor actions and device connection are oracle parameters of `Plan` and `Missions`.
- Sub-missions are left out, as is anything `_run_mission` does beyond choosing its outcome.
- Missions.MissionRelated.constructor: models only the call without a directory. With a directory the source never stores it, and exp_mission.py:22 raises `AttributeError`; `Missions.InitialDir` states this case, and the device connection of exp_mission.py:21 is left out.
- `run_mission_list` is bounded by a `fuel` count, because a mission graph with a cycle never ends.
- Floating-point rounding is left out: quantities are exact reals.
- MoveAction.TurnToward: the source loops until a heading is within 10 degrees; the model reads a finite list of headings and stops when it runs out.
- Text.Strip: strips ASCII whitespace only, while `str.strip()` also strips the separators `\x1c`-`\x1f` and Unicode spaces.
- MainLoop.Crashes: counts every Population of -1 as raising. The source divides only when Food is left after consumption, so a Population of -1 with Food below -1 would starve instead; every cycle leaves Food at 0 or more.
- GameState.PopulationStep: requires a population other than -1. At -1 the growth formula divides by zero, which raises. The main loop models that raise as `MainLoop.Crashes`.
- Policies.PolicyManager: the policy state is not saved or loaded, as in the source.
- MainLoop.AdvancePhases: models the cycle as if `update_resources` returned after text_epoch/game_state.py:217 and the event scan stopped after the third event. As written, line 219 reads the undefined name `prev_stability` and raises `NameError` on every call, so main.py:94 ends the real loop in cycle 1; and `check_for_events` calls the four-argument condition of the fourth event (text_epoch/event_manager.py:85) with two arguments (line 440), which raises `TypeError`.
- MainLoop.RunGame: plays the loop under the same assumptions as `MainLoop.AdvancePhases`; the source, as written, raises `NameError` at text_epoch/game_state.py:219 in its first cycle.

## Findings

| source | as written | input that shows it | evidently intended | confidence | as-written member | corrected member |
|---|---|---|---|---|---|---|
| text_epoch/save_load_manager.py:159-160 | the building loop calls `apply_effect()` with no arguments. Each effect takes the modifier pool and a count, so the call raises. `load_game` then returns False after the ledger, pools, flags and counts were already overwritten | a save holding one completed Granary | each completed building's effect re-applied with its count, as `recalculate_all_building_effects` does, so the load succeeds | not executed | SaveLoad.LoadGame / SaveLoad.OneGranaryFailsLoad | SaveLoad.LoadGameAsIntended / SaveLoad.ReappliedBuildingsAgree |
