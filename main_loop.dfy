/**
 * main.py, `run_game`: the `while running` loop. Each pass advances the
 * cycle, runs the construction, policy, resource and event phases in that
 * order, hands the player's line either to the pending decision or to the
 * command branches, and lets the civilisation act by itself after enough idle
 * passes.
 *
 * The line typed is what `get_player_input` returns (stripped and lower-cased);
 * `random.random()` and `random.randint` values are inputs; the save file is a
 * value threaded through the loop (`None` when there is none).
 */
module MainLoop {
  import opened Wrappers
  import opened Dict
  import opened Text
  import opened GameState
  import TechTree
  import Buildings
  import Events
  import Policies
  import SaveLoad
  import Autonomous

  // --- the state one pass works on ---

  /** Everything a pass of the loop reads or changes. */
  datatype World = World(
    res: Resources, cycle: int, idle: int,
    techMods: Pool, buildingMods: Pool, policyMods: Pool,
    researched: set<TechTree.TechId>,
    projects: seq<Buildings.Project>, completed: Buildings.Completed,
    log: seq<string>, pending: Option<Events.Pending>, triggered: set<string>,
    active: Dict<Policies.PolicyId, Policies.ActiveInfo>, cooldowns: Dict<Policies.PolicyId, int>)

  /** The managers `run_game` creates, wired to each other and to the globals. */
  predicate Wired(gs: State, tree: TechTree.TechTree, bm: Buildings.BuildingManager, em: Events.EventManager,
                  pm: Policies.PolicyManager)
  {
    && tree.gs == gs && bm.gs == gs && bm.tree == tree && em.gs == gs
    && pm.gs == gs && pm.tree == tree && pm.bm == bm && pm.em == em
  }

  function Observe(gs: State, tree: TechTree.TechTree, bm: Buildings.BuildingManager, em: Events.EventManager,
                   pm: Policies.PolicyManager): World
    reads gs, tree, bm, em, pm
  {
    World(gs.res, gs.currentCycle, gs.idleCycles, gs.techMods, gs.buildingMods, gs.policyMods,
          tree.researched, bm.activeProjects, bm.completed, em.log, em.pending, em.triggered,
          pm.active, pm.cooldowns)
  }

  // --- lines 80-99: the phases ---

  /** `update_construction`. */
  function Construct(w: World): World
  {
    var f := Buildings.Fund(w.projects, w.res.production);
    var c := Buildings.CompleteAll(Buildings.Completion(f.projects, w.completed, w.buildingMods), f.newly);
    w.(res := w.res.(production := f.production), projects := c.active, completed := c.completed, buildingMods := c.pool)
  }

  /** `update_active_policies`. */
  function UpdatePolicies(w: World): World
  {
    var (ticked, expired) := Policies.TickAll(w.active);
    var st := Policies.ExpireAll(Policies.PolicyState(ticked, w.cooldowns, Policies.Pools(w.techMods, w.policyMods), w.log),
                                 expired, w.res.population, w.cycle);
    var (cooldowns, log) := Policies.ClearAll(st.cooldowns, st.log, Policies.EndedIds(st.cooldowns, w.cycle));
    w.(active := st.active, cooldowns := cooldowns, log := log, techMods := st.pools.tech, policyMods := st.pools.policy)
  }

  /** Lines 80-90: the cycle count, construction from the second cycle on, then the policy update. */
  function Prepare(w: World): World
  {
    var next := w.(cycle := w.cycle + 1);
    UpdatePolicies(if next.cycle > 1 then Construct(next) else next)
  }

  /**
   * `update_resources` divides by Population + 1 when Food is left after
   * consumption, so a Population of -1 raises there. The source only divides
   * in that branch: with Population -1 and Food below -1 it starves instead.
   * The model counts every Population of -1 as raising; play never reaches
   * the other case, since every cycle leaves Food at 0 or more. This is the
   * only raise in lines 118-217; the reporting block after line 217, which
   * raises on every call, is not modelled.
   */
  predicate Crashes(w: World)
  {
    w.res.population == -1.0
  }

  /** Lines 94-99: resource generation, then the event scan unless a decision is pending. */
  function Generate(w: World, events: seq<Events.EventDef>, draws: seq<real>, roll: nat): World
    requires !Crashes(w) && |events| <= |draws|
  {
    var produced := w.(res := CycleResources(w.res, w.techMods, w.buildingMods, w.policyMods));
    if produced.pending.Some? then produced
    else
      var s := Events.ScanFrom(events, 0, Events.ScanState(produced.res, produced.log, None, produced.triggered, 0, []), draws, roll);
      produced.(res := s.res, log := s.log, pending := s.pending, triggered := s.triggered)
  }

  // --- lines 112-174: the player's line ---

  /** The branches of lines 122-171. */
  datatype Command = Quit | SaveCmd | LoadCmd | ResearchCmd(key: string) | BuildCmd(key: string) | ShowLog | Next | Unknown(text: string)

  /** Which branch a line takes; the argument of `research` and `build` is the rest after the first space, stripped. */
  function ParseCommand(line: string): Command
  {
    if line == "quit" then Quit
    else if line == "save" then SaveCmd
    else if line == "load" then LoadCmd
    else if StartsWith(line, "research ") then ResearchCmd(Strip(line[9..]))
    else if StartsWith(line, "build ") then BuildCmd(Strip(line[6..]))
    else if line == "log" then ShowLog
    else if line == "next" || line == "" then Next
    else Unknown(line)
  }

  /** Lines 127-171: every command but `next`, the empty line and `quit` counts as the player acting. */
  predicate PlayerActs(c: Command)
  {
    !(c.Quit? || c.Next?)
  }

  /** `resolve_decision_event` on the world. */
  function Resolve(w: World, line: string, roll: nat): World
  {
    var r := Events.ResolveVerdict(w.pending, line);
    if r.IsError() then w
    else
      var p := w.pending.value;
      var c := p.choices[r.index];
      var (res, log) := Events.Affect(w.res, Events.Logged(w.log, Events.ChoiceEntry(p, c)), c.effect, roll);
      w.(res := res, log := log, pending := None)
  }

  /** `research_tech` on the world: applied on success, nothing otherwise. */
  function Research(w: World, key: string): World
  {
    if TechTree.ResearchVerdict(w.researched, w.res.knowledge, key).Researched? then
      var t := TechTree.Parse(key).value;
      w.(researched := w.researched + {t}, res := w.res.(knowledge := w.res.knowledge - TechTree.Cost(t)),
         techMods := ApplyOps(w.techMods, TechTree.Effect(t)))
    else w
  }

  /** `start_project` on the world. */
  function Build(w: World, key: string): World
  {
    if Buildings.StartVerdict(key, w.completed, w.researched).Started? then
      w.(projects := w.projects + [Buildings.NewProject(Buildings.Parse(key).value)])
    else w
  }

  /**
   * `load_game` on the world: every saved field back and the tech pool
   * rebuilt from the loaded researched set. Its building loop raises on the
   * first positive count, so the building pool keeps the five defaults it was
   * reset to. The policy state is not part of the file and stays.
   */
  function Load(w: World, s: SaveLoad.Snapshot, techOrder: seq<TechTree.TechId>, events: seq<Events.EventDef>): World
  {
    var researched := SaveLoad.LoadResearched(techOrder, w.researched, s.researched);
    var completed := SaveLoad.KeptCounts(s.completed);
    w.(res := s.res, cycle := s.currentCycle, idle := s.idleCycles,
       techMods := SaveLoad.ApplyResearched(SaveLoad.TechIdentity, techOrder, researched),
       buildingMods := SaveLoad.BuildingDefaults,
       researched := researched, projects := s.projects, completed := completed,
       log := s.log, pending := s.pending,
       triggered := SaveLoad.LoadTriggered(events, w.triggered, s.triggered))
  }

  /**
   * Lines 135-138: the load branch itself sets the idle count to 0 only when
   * `load_game` returns `True`, that is when no building was built. A `load`
   * typed at the prompt is still an action, so the command branch then resets
   * the count after any load, failed or not (lines 173-174, `IdleAfter`).
   */
  function Loaded(w: World, s: SaveLoad.Snapshot, techOrder: seq<TechTree.TechId>, events: seq<Events.EventDef>): World
  {
    var l := Load(w, s, techOrder, events);
    if SaveLoad.NoneBuilt(l.completed) then l.(idle := 0) else l
  }

  /** Lines 122-171 on the world, before the idle counter is touched. */
  function Perform(w: World, c: Command, file: Option<SaveLoad.Snapshot>, techOrder: seq<TechTree.TechId>,
                   events: seq<Events.EventDef>): World
  {
    match c
    case LoadCmd => if file.Some? then Loaded(w, file.value, techOrder, events) else w
    case ResearchCmd(key) => Research(w, key)
    case BuildCmd(key) => Build(w, key)
    case _ => w
  }

  /** Lines 166-174 (and 117-118 with 138): `next` or an empty line counts one idle pass; acting resets the count. */
  function IdleAfter(idle: int, acted: bool, next: bool): int
  {
    if next then idle + 1 else if acted then 0 else idle
  }

  // --- lines 177-189: the autonomous phase ---

  /** Whether the civilisation decides by itself on this pass. */
  predicate AutonomousDue(acted: bool, pendingShown: bool, idle: int, threshold: nat)
  {
    !acted && !pendingShown && idle >= threshold
  }

  /** The decision of `make_autonomous_decision` on the world. */
  function Decision(w: World, techOrder: seq<TechTree.TechId>, buildingOrder: seq<Buildings.BuildingId>): Autonomous.Decision
  {
    Autonomous.Decide(w.res, techOrder, w.researched, buildingOrder, w.completed)
  }

  /** A decision carried out on the world: its action, its log lines, and the idle count back to 0 when it acts. */
  function Adopt(w: World, d: Autonomous.Decision): World
  {
    var a := Autonomous.Act(d.action, Autonomous.World(w.researched, w.res, w.techMods, w.projects));
    w.(researched := a.researched, res := a.res, techMods := a.techMods, projects := a.projects,
       log := Events.LoggedAll(w.log, Autonomous.Entries(d.lines)),
       idle := if d.action.Wait? then w.idle else 0)
  }

  /** `make_autonomous_decision` on the world, and the reset of the idle count when it acts. */
  function ActAutonomously(w: World, techOrder: seq<TechTree.TechId>, buildingOrder: seq<Buildings.BuildingId>): World
  {
    Adopt(w, Decision(w, techOrder, buildingOrder))
  }

  // --- one pass ---

  /** What a pass reads besides the state: the line typed and the random values. */
  datatype TurnInput = TurnInput(line: string, draws: seq<real>, eventRoll: nat, choiceRoll: nat)

  /** How a pass ends: on to the next, `quit` (line 124), or the exception of `update_resources`. */
  datatype Outcome = Continue | Quitting | Crashed

  datatype Pass = Pass(world: World, file: Option<SaveLoad.Snapshot>, outcome: Outcome)

  /** `save_game` on the world. */
  function SaveOf(w: World, techOrder: seq<TechTree.TechId>, events: seq<Events.EventDef>): Option<SaveLoad.Snapshot>
  {
    SaveLoad.Document(w.res, w.cycle, w.idle, w.techMods, w.buildingMods, techOrder, w.researched,
                      w.projects, w.completed, w.log, w.pending, events, w.triggered)
  }

  /** Lines 122-174 for a command other than `quit`: its branch, then the idle count. */
  function Handle(w: World, c: Command, file: Option<SaveLoad.Snapshot>, techOrder: seq<TechTree.TechId>,
                  events: seq<Events.EventDef>): World
  {
    var done := Perform(w, c, file, techOrder, events);
    done.(idle := IdleAfter(done.idle, PlayerActs(c), c.Next?))
  }

  /** Lines 112-189 once the phases have run: the decision or the command, then the autonomous phase. */
  function Respond(g: World, input: TurnInput, file: Option<SaveLoad.Snapshot>, threshold: nat,
                   techOrder: seq<TechTree.TechId>, buildingOrder: seq<Buildings.BuildingId>,
                   events: seq<Events.EventDef>): Pass
  {
    if g.pending.Some? then
      Pass(Resolve(g, input.line, input.choiceRoll), file, Continue)
    else
      var c := ParseCommand(input.line);
      if c.Quit? then Pass(g, file, Quitting)
      else
        var saved := if c.SaveCmd? then SaveOf(g, techOrder, events) else file;
        var h := Handle(g, c, file, techOrder, events);
        var after := if AutonomousDue(PlayerActs(c), false, h.idle, threshold) then ActAutonomously(h, techOrder, buildingOrder) else h;
        Pass(after, saved, Continue)
  }

  /** One pass of the `while running` loop (lines 80-189). */
  function Turn(w: World, input: TurnInput, file: Option<SaveLoad.Snapshot>, threshold: nat,
                techOrder: seq<TechTree.TechId>, buildingOrder: seq<Buildings.BuildingId>,
                events: seq<Events.EventDef>): Pass
    requires |events| <= |input.draws|
  {
    hide Prepare, Generate, Respond;
    var p := Prepare(w);
    if Crashes(p) then Pass(p, file, Crashed)
    else Respond(Generate(p, events, input.draws, input.eventRoll), input, file, threshold, techOrder, buildingOrder, events)
  }

  /** Every pass has a `random.random()` value for each event it may check. */
  predicate EnoughDraws(inputs: seq<TurnInput>, events: seq<Events.EventDef>)
  {
    forall i :: 0 <= i < |inputs| ==> |events| <= |inputs[i].draws|
  }

  /** The loop over the lines typed, until `quit`, the exception, or the end of the input. */
  function Play(w: World, inputs: seq<TurnInput>, file: Option<SaveLoad.Snapshot>, threshold: nat,
                techOrder: seq<TechTree.TechId>, buildingOrder: seq<Buildings.BuildingId>,
                events: seq<Events.EventDef>): Pass
    requires EnoughDraws(inputs, events)
    decreases |inputs|
  {
    hide Turn;
    if inputs == [] then Pass(w, file, Continue)
    else
      var p := Turn(w, inputs[0], file, threshold, techOrder, buildingOrder, events);
      if p.outcome.Continue? then Play(p.world, inputs[1..], p.file, threshold, techOrder, buildingOrder, events)
      else p
  }

  // --- what the loop promises ---

  /** `research <id>` reaches the research branch with the id stripped. */
  lemma ParseResearch(key: string)
    ensures ParseCommand("research " + key) == ResearchCmd(Strip(key))
  {
    var line := "research " + key;
    assert line[..9] == "research ";
    assert line[9..] == key;
    assert line != "quit" && line != "save" && line != "load" by { assert |line| >= 9; }
  }

  /** `build <id>` reaches the build branch with the id stripped. */
  lemma ParseBuild(key: string)
    ensures ParseCommand("build " + key) == BuildCmd(Strip(key))
  {
    var line := "build " + key;
    assert line[..6] == "build ";
    assert line[6..] == key;
    assert !StartsWith(line, "research ") by {
      if |line| >= 9 { assert line[..9][0] == 'b'; }
    }
    assert line != "quit" && line != "save" && line != "load" by { assert line[0] == 'b'; }
  }

  /** Only `next` and the empty line count as an idle pass; `quit` is the only other line that is not an action. */
  lemma IdleLines(line: string)
    ensures ParseCommand(line).Next? <==> line == "next" || line == ""
    ensures !PlayerActs(ParseCommand(line)) <==> line in {"next", "", "quit"}
  {
    if StartsWith(line, "research ") || StartsWith(line, "build ") {
      assert |line| >= 6;
    }
  }

  /** Every pass advances the cycle count by one, unless it loads a saved game. */
  lemma CycleAdvances(w: World, input: TurnInput, file: Option<SaveLoad.Snapshot>, threshold: nat,
                      techOrder: seq<TechTree.TechId>, buildingOrder: seq<Buildings.BuildingId>,
                      events: seq<Events.EventDef>)
    requires |events| <= |input.draws| && !(ParseCommand(input.line).LoadCmd? && file.Some?)
    ensures Turn(w, input, file, threshold, techOrder, buildingOrder, events).world.cycle == w.cycle + 1
  {
    hide Prepare, Generate, Respond;
    PrepareCycle(w);
    var p := Prepare(w);
    if !Crashes(p) {
      GenerateCycle(p, events, input.draws, input.eventRoll);
      RespondCycle(Generate(p, events, input.draws, input.eventRoll), input, file, threshold, techOrder, buildingOrder, events);
    }
  }

  lemma PrepareCycle(w: World)
    ensures Prepare(w).cycle == w.cycle + 1
  {
  }

  lemma GenerateCycle(w: World, events: seq<Events.EventDef>, draws: seq<real>, roll: nat)
    requires !Crashes(w) && |events| <= |draws|
    ensures Generate(w, events, draws, roll).cycle == w.cycle
  {
  }

  /** The answer to a line leaves the cycle count alone unless it loads a saved game. */
  lemma RespondCycle(g: World, input: TurnInput, file: Option<SaveLoad.Snapshot>, threshold: nat,
                     techOrder: seq<TechTree.TechId>, buildingOrder: seq<Buildings.BuildingId>,
                     events: seq<Events.EventDef>)
    requires !(ParseCommand(input.line).LoadCmd? && file.Some?)
    ensures Respond(g, input, file, threshold, techOrder, buildingOrder, events).world.cycle == g.cycle
  {
    hide Autonomous.Decide, Autonomous.Act, Autonomous.Entries, Events.LoggedAll, Events.Affect, Events.ResolveVerdict;
    hide SaveOf, TechTree.ResearchVerdict, Buildings.StartVerdict;
  }

  /** On the first pass construction does not run: no project is funded or finished. */
  lemma FirstCycleBuildsNothing(w: World)
    requires w.cycle <= 0
    ensures Prepare(w).projects == w.projects && Prepare(w).completed == w.completed
    ensures Prepare(w).res == w.res && Prepare(w).buildingMods == w.buildingMods
  {
  }

  /** While a decision is pending the event scan is skipped: no event fires, nothing is logged. */
  lemma PendingSkipsEvents(w: World, events: seq<Events.EventDef>, draws: seq<real>, roll: nat)
    requires !Crashes(w) && |events| <= |draws| && w.pending.Some?
    ensures var g := Generate(w, events, draws, roll);
      && g.pending == w.pending && g.triggered == w.triggered && g.log == w.log
      && g.res == CycleResources(w.res, w.techMods, w.buildingMods, w.policyMods)
  {
  }

  /** Answering a pending decision leaves the idle count alone and the civilisation does not act by itself. */
  lemma ResolvingKeepsIdle(g: World, input: TurnInput, file: Option<SaveLoad.Snapshot>, threshold: nat,
                           techOrder: seq<TechTree.TechId>, buildingOrder: seq<Buildings.BuildingId>,
                           events: seq<Events.EventDef>)
    requires g.pending.Some?
    ensures var p := Respond(g, input, file, threshold, techOrder, buildingOrder, events);
      && p == Pass(Resolve(g, input.line, input.choiceRoll), file, Continue)
      && p.world.idle == g.idle && p.world.researched == g.researched && p.world.projects == g.projects
  {
  }

  /** Any line but `next`, the empty line and `quit` is an action: the idle count ends at 0 and nothing autonomous happens. */
  lemma ActingResetsIdle(g: World, input: TurnInput, file: Option<SaveLoad.Snapshot>, threshold: nat,
                         techOrder: seq<TechTree.TechId>, buildingOrder: seq<Buildings.BuildingId>,
                         events: seq<Events.EventDef>)
    requires g.pending.None? && PlayerActs(ParseCommand(input.line))
    ensures var p := Respond(g, input, file, threshold, techOrder, buildingOrder, events);
      && p.outcome.Continue? && p.world.idle == 0
      && p.world == Handle(g, ParseCommand(input.line), file, techOrder, events)
  {
    hide Perform;
  }

  /**
   * `next` counts one idle pass; once the count reaches the threshold the
   * civilisation decides by itself, and the count restarts only when it acts.
   */
  lemma IdleTurn(g: World, input: TurnInput, file: Option<SaveLoad.Snapshot>, threshold: nat,
                 techOrder: seq<TechTree.TechId>, buildingOrder: seq<Buildings.BuildingId>,
                 events: seq<Events.EventDef>)
    requires g.pending.None? && ParseCommand(input.line).Next?
    ensures var p := Respond(g, input, file, threshold, techOrder, buildingOrder, events);
      var h := g.(idle := g.idle + 1);
      && p.outcome.Continue? && p.file == file
      && (g.idle + 1 < threshold ==> p.world == h)
      && (g.idle + 1 >= threshold ==>
            && p.world == ActAutonomously(h, techOrder, buildingOrder)
            && p.world.idle == if Decision(h, techOrder, buildingOrder).action.Wait? then g.idle + 1 else 0)
  {
    hide Autonomous.Decide;
  }

  /** `quit` ends the loop at once, on the state the phases left. */
  lemma QuitStops(w: World, inputs: seq<TurnInput>, file: Option<SaveLoad.Snapshot>, threshold: nat,
                  techOrder: seq<TechTree.TechId>, buildingOrder: seq<Buildings.BuildingId>,
                  events: seq<Events.EventDef>)
    requires EnoughDraws(inputs, events) && inputs != [] && inputs[0].line == "quit"
    requires !Crashes(Prepare(w)) && Generate(Prepare(w), events, inputs[0].draws, inputs[0].eventRoll).pending.None?
    ensures Play(w, inputs, file, threshold, techOrder, buildingOrder, events) ==
            Pass(Generate(Prepare(w), events, inputs[0].draws, inputs[0].eventRoll), file, Quitting)
  {
    hide Prepare, Generate;
  }

  /** `save` in the loop always writes the file: no decision is pending when the command branch runs. */
  lemma SaveInLoopWrites(g: World, input: TurnInput, file: Option<SaveLoad.Snapshot>, threshold: nat,
                         techOrder: seq<TechTree.TechId>, buildingOrder: seq<Buildings.BuildingId>,
                         events: seq<Events.EventDef>)
    requires g.pending.None? && input.line == "save"
    ensures var p := Respond(g, input, file, threshold, techOrder, buildingOrder, events);
      && p.file == SaveOf(g, techOrder, events) && p.file.Some?
      && p.world == g.(idle := 0)
  {
    hide ActAutonomously;
  }

  /**
   * A `load` of what `save` wrote brings the game back: resources, cycle,
   * projects, buildings, log and decision as saved, and every tech of the
   * table researched exactly when it was. The building bonuses do not come
   * back: the pool holds the five defaults, and the load branch's own idle
   * reset happens only when no building was built. Played as a command, the
   * load is followed by the command branch's reset of lines 173-174, whatever
   * `load_game` returned (`ActingResetsIdle`).
   */
  lemma SaveThenLoad(w: World, v: World, techOrder: seq<TechTree.TechId>, events: seq<Events.EventDef>)
    requires w.pending.None? && UniqueKeys(w.completed)
    ensures SaveOf(w, techOrder, events).Some?
    ensures var l := Loaded(v, SaveOf(w, techOrder, events).value, techOrder, events);
      && l.res == w.res && l.cycle == w.cycle && l.projects == w.projects && l.completed == w.completed
      && l.log == w.log && l.pending == None
      && (forall t :: t in techOrder ==> (t in l.researched <==> t in w.researched))
      && l.buildingMods == SaveLoad.BuildingDefaults
      && l.idle == if SaveLoad.NoneBuilt(w.completed) then 0 else w.idle
  {
    var s := SaveOf(w, techOrder, events).value;
    SaveLoad.CountsRoundTrip(w.completed);
    forall t | t in techOrder
      ensures t in Loaded(v, s, techOrder, events).researched <==> t in w.researched
    {
      SaveLoad.ResearchedRoundTrip(techOrder, v.researched, w.researched, t);
    }
  }

  /** Playing two runs of lines one after the other is playing them together, unless the first stopped the game. */
  lemma {:induction false} PlayAppend(w: World, a: seq<TurnInput>, b: seq<TurnInput>, file: Option<SaveLoad.Snapshot>,
                                      threshold: nat, techOrder: seq<TechTree.TechId>,
                                      buildingOrder: seq<Buildings.BuildingId>, events: seq<Events.EventDef>)
    requires EnoughDraws(a, events) && EnoughDraws(b, events)
    ensures EnoughDraws(a + b, events)
    ensures var p := Play(w, a, file, threshold, techOrder, buildingOrder, events);
      Play(w, a + b, file, threshold, techOrder, buildingOrder, events) ==
      if p.outcome.Continue? then Play(p.world, b, p.file, threshold, techOrder, buildingOrder, events) else p
    decreases |a|
  {
    hide Turn;
    assert EnoughDraws(a + b, events) by {
      forall i | 0 <= i < |a + b| ensures |events| <= |(a + b)[i].draws| {
        if i >= |a| { assert (a + b)[i] == b[i - |a|]; }
      }
    }
    if a != [] {
      assert (a + b)[0] == a[0] && (a + b)[1..] == a[1..] + b;
      var p := Turn(w, a[0], file, threshold, techOrder, buildingOrder, events);
      if p.outcome.Continue? {
        PlayAppend(p.world, a[1..], b, p.file, threshold, techOrder, buildingOrder, events);
      }
    } else {
      assert a + b == b;
    }
  }

  // --- the loop on the managers ---

  /** Line 81: the cycle count. */
  method NextCycle(gs: State, tree: TechTree.TechTree, bm: Buildings.BuildingManager, em: Events.EventManager,
                   pm: Policies.PolicyManager)
    modifies gs`currentCycle
    ensures Observe(gs, tree, bm, em, pm) == old(Observe(gs, tree, bm, em, pm)).(cycle := old(gs.currentCycle) + 1)
  {
    gs.currentCycle := gs.currentCycle + 1;
  }

  /** Lines 86-88: construction, from the second cycle on. */
  method ConstructionPhase(gs: State, tree: TechTree.TechTree, bm: Buildings.BuildingManager, em: Events.EventManager,
                           pm: Policies.PolicyManager)
    requires bm.gs == gs
    modifies bm`activeProjects, bm`completed, gs`res, gs`buildingMods
    ensures Observe(gs, tree, bm, em, pm) ==
              var w := old(Observe(gs, tree, bm, em, pm)); if w.cycle > 1 then Construct(w) else w
  {
    if gs.currentCycle > 1 {
      bm.UpdateConstruction();
    }
  }

  /** Line 91: the policy update. */
  method PolicyPhase(gs: State, tree: TechTree.TechTree, bm: Buildings.BuildingManager, em: Events.EventManager,
                     pm: Policies.PolicyManager)
    requires pm.gs == gs && pm.em == em && pm.Valid()
    modifies pm`active, pm`cooldowns, gs`techMods, gs`policyMods, em`log
    ensures pm.Valid()
    ensures Observe(gs, tree, bm, em, pm) == UpdatePolicies(old(Observe(gs, tree, bm, em, pm)))
  {
    pm.UpdateActivePolicies();
  }

  /** Lines 95-99: resource generation, then the event scan unless a decision is pending. */
  method GenerationPhase(gs: State, tree: TechTree.TechTree, bm: Buildings.BuildingManager, em: Events.EventManager,
                         pm: Policies.PolicyManager, draws: seq<real>, roll: nat)
    requires em.gs == gs && |em.events| <= |draws| && !Crashes(Observe(gs, tree, bm, em, pm))
    modifies gs`res, em`log, em`triggered, em`pending
    ensures Observe(gs, tree, bm, em, pm) == Generate(old(Observe(gs, tree, bm, em, pm)), em.events, draws, roll)
  {
    gs.UpdateResources();
    if em.pending.None? {
      var _, _ := em.CheckForEvents(draws, roll);
    }
  }

  /** Lines 80-91: the cycle count, construction and the policy update. */
  method PreparePhases(gs: State, tree: TechTree.TechTree, bm: Buildings.BuildingManager, em: Events.EventManager,
                       pm: Policies.PolicyManager)
    requires Wired(gs, tree, bm, em, pm) && pm.Valid()
    modifies gs`currentCycle, gs`res, gs`techMods, gs`buildingMods, gs`policyMods
    modifies bm`activeProjects, bm`completed, em`log, pm`active, pm`cooldowns
    ensures pm.Valid()
    ensures Observe(gs, tree, bm, em, pm) == Prepare(old(Observe(gs, tree, bm, em, pm)))
  {
    NextCycle(gs, tree, bm, em, pm);
    ConstructionPhase(gs, tree, bm, em, pm);
    PolicyPhase(gs, tree, bm, em, pm);
  }

  /** Lines 80-99: the phases before the player's line; `crashed` when lines 118-217 of `update_resources` would raise (a Population of -1). */
  method AdvancePhases(gs: State, tree: TechTree.TechTree, bm: Buildings.BuildingManager, em: Events.EventManager,
                       pm: Policies.PolicyManager, draws: seq<real>, roll: nat)
    returns (crashed: bool)
    requires Wired(gs, tree, bm, em, pm) && pm.Valid() && |em.events| <= |draws|
    modifies gs`currentCycle, gs`res, gs`techMods, gs`buildingMods, gs`policyMods
    modifies bm`activeProjects, bm`completed, em`log, em`triggered, em`pending, pm`active, pm`cooldowns
    ensures pm.Valid()
    ensures var p := Prepare(old(Observe(gs, tree, bm, em, pm)));
      && crashed == Crashes(p)
      && Observe(gs, tree, bm, em, pm) == if crashed then p else Generate(p, em.events, draws, roll)
  {
    PreparePhases(gs, tree, bm, em, pm);
    crashed := gs.res.population == -1.0;
    if !crashed {
      GenerationPhase(gs, tree, bm, em, pm, draws, roll);
    }
  }

  /** Lines 114-120: the pending decision takes the line. */
  method ResolvePhase(gs: State, tree: TechTree.TechTree, bm: Buildings.BuildingManager, em: Events.EventManager,
                      pm: Policies.PolicyManager, line: string, roll: nat)
    requires em.gs == gs
    modifies em`log, em`pending, gs`res
    ensures Observe(gs, tree, bm, em, pm) == Resolve(old(Observe(gs, tree, bm, em, pm)), line, roll)
  {
    var _ := em.ResolveDecisionEvent(line, roll);
  }

  /** Lines 130-139: `load`; the idle count is reset only when `load_game` returns `True`. */
  method LoadPhase(gs: State, tree: TechTree.TechTree, bm: Buildings.BuildingManager, em: Events.EventManager,
                   pm: Policies.PolicyManager, file: Option<SaveLoad.Snapshot>)
    requires Wired(gs, tree, bm, em, pm)
    modifies gs`res, gs`currentCycle, gs`idleCycles, gs`techMods, gs`buildingMods
    modifies tree`researched, bm`activeProjects, bm`completed, em`log, em`pending, em`triggered
    ensures Observe(gs, tree, bm, em, pm) ==
              var w := old(Observe(gs, tree, bm, em, pm));
              if file.Some? then Loaded(w, file.value, tree.order, em.events) else w
  {
    var ok := SaveLoad.LoadGame(file, gs, tree, bm, em);
    if ok {
      gs.idleCycles := 0;
    }
  }

  /** Lines 125-174: one command other than `quit`; `saved` is the save file afterwards. */
  method RunCommand(gs: State, tree: TechTree.TechTree, bm: Buildings.BuildingManager, em: Events.EventManager,
                    pm: Policies.PolicyManager, c: Command, file: Option<SaveLoad.Snapshot>)
    returns (saved: Option<SaveLoad.Snapshot>)
    requires Wired(gs, tree, bm, em, pm) && !c.Quit?
    modifies gs`res, gs`currentCycle, gs`idleCycles, gs`techMods, gs`buildingMods
    modifies tree, bm`activeProjects, bm`completed, em`log, em`pending, em`triggered
    ensures saved == if c.SaveCmd? then SaveOf(old(Observe(gs, tree, bm, em, pm)), tree.order, em.events) else file
    ensures Observe(gs, tree, bm, em, pm) == Handle(old(Observe(gs, tree, bm, em, pm)), c, file, tree.order, em.events)
  {
    hide Loaded, SaveLoad.Document, TechTree.ResearchVerdict, Buildings.StartVerdict;
    saved := file;
    var acted := true;
    match c {
      case SaveCmd =>
        saved := SaveLoad.SaveGame(gs, tree, bm, em);
      case LoadCmd =>
        LoadPhase(gs, tree, bm, em, pm, file);
      case ResearchCmd(key) =>
        var _ := tree.ResearchTech(key);
      case BuildCmd(key) =>
        var _ := bm.StartProject(key);
      case ShowLog =>
      case Next =>
        acted := false;
        gs.idleCycles := gs.idleCycles + 1;
      case Unknown(_) =>
    }
    if acted {
      gs.idleCycles := 0;
    }
  }

  /** Lines 177-189 once they are due: `make_autonomous_decision`, and the idle count back to 0 when it acts. */
  method AutonomousPhase(gs: State, tree: TechTree.TechTree, bm: Buildings.BuildingManager, em: Events.EventManager,
                         pm: Policies.PolicyManager)
    requires Wired(gs, tree, bm, em, pm)
    modifies tree, gs`res, gs`techMods, gs`idleCycles, bm`activeProjects, em`log
    ensures Observe(gs, tree, bm, em, pm) == ActAutonomously(old(Observe(gs, tree, bm, em, pm)), tree.order, bm.order)
  {
    hide Autonomous.Decide, Autonomous.Act, Autonomous.Entries, Events.LoggedAll;
    var acted := Autonomous.MakeAutonomousDecision(gs, tree, bm, em);
    if acted {
      gs.idleCycles := 0;
    }
  }

  /** Lines 112-189: the player's line, then the autonomous phase when it is due. */
  method TakeLine(gs: State, tree: TechTree.TechTree, bm: Buildings.BuildingManager, em: Events.EventManager,
                  pm: Policies.PolicyManager, input: TurnInput, file: Option<SaveLoad.Snapshot>, threshold: nat)
    returns (saved: Option<SaveLoad.Snapshot>, outcome: Outcome)
    requires Wired(gs, tree, bm, em, pm)
    modifies tree, gs`res, gs`currentCycle, gs`idleCycles, gs`techMods, gs`buildingMods
    modifies bm`activeProjects, bm`completed, em`log, em`pending, em`triggered
    ensures Pass(Observe(gs, tree, bm, em, pm), saved, outcome) ==
              Respond(old(Observe(gs, tree, bm, em, pm)), input, file, threshold, tree.order, bm.order, em.events)
  {
    hide Resolve, Handle, SaveOf, ActAutonomously;
    saved, outcome := file, Continue;
    if em.pending.Some? {
      ResolvePhase(gs, tree, bm, em, pm, input.line, input.choiceRoll);
      return;
    }
    var c := ParseCommand(input.line);
    if c.Quit? {
      outcome := Quitting;
      return;
    }
    saved := RunCommand(gs, tree, bm, em, pm, c, file);
    if AutonomousDue(PlayerActs(c), false, gs.idleCycles, threshold) {
      AutonomousPhase(gs, tree, bm, em, pm);
    }
  }

  /** One pass of the `while running` loop. */
  method PlayTurn(gs: State, tree: TechTree.TechTree, bm: Buildings.BuildingManager, em: Events.EventManager,
                  pm: Policies.PolicyManager, input: TurnInput, file: Option<SaveLoad.Snapshot>, threshold: nat)
    returns (saved: Option<SaveLoad.Snapshot>, outcome: Outcome)
    requires Wired(gs, tree, bm, em, pm) && pm.Valid() && |em.events| <= |input.draws|
    modifies tree, gs`res, gs`currentCycle, gs`idleCycles, gs`techMods, gs`buildingMods, gs`policyMods
    modifies bm`activeProjects, bm`completed, em`log, em`pending, em`triggered, pm`active, pm`cooldowns
    ensures pm.Valid()
    ensures Pass(Observe(gs, tree, bm, em, pm), saved, outcome) ==
              Turn(old(Observe(gs, tree, bm, em, pm)), input, file, threshold, tree.order, bm.order, em.events)
  {
    hide Prepare, Generate, Respond;
    var crashed := AdvancePhases(gs, tree, bm, em, pm, input.draws, input.eventRoll);
    if crashed {
      return file, Crashed;
    }
    saved, outcome := TakeLine(gs, tree, bm, em, pm, input, file, threshold);
  }

  /**
   * `run_game`'s loop over the lines typed: it stops at `quit`, at the
   * exception of `update_resources`, or when the lines run out.
   */
  method RunGame(gs: State, tree: TechTree.TechTree, bm: Buildings.BuildingManager, em: Events.EventManager,
                 pm: Policies.PolicyManager, inputs: seq<TurnInput>, file: Option<SaveLoad.Snapshot>, threshold: nat)
    returns (saved: Option<SaveLoad.Snapshot>, outcome: Outcome)
    requires Wired(gs, tree, bm, em, pm) && pm.Valid() && EnoughDraws(inputs, em.events)
    modifies tree, gs`res, gs`currentCycle, gs`idleCycles, gs`techMods, gs`buildingMods, gs`policyMods
    modifies bm`activeProjects, bm`completed, em`log, em`pending, em`triggered, pm`active, pm`cooldowns
    ensures Pass(Observe(gs, tree, bm, em, pm), saved, outcome) ==
              Play(old(Observe(gs, tree, bm, em, pm)), inputs, file, threshold, tree.order, bm.order, em.events)
  {
    hide Turn;
    ghost var goal := Play(Observe(gs, tree, bm, em, pm), inputs, file, threshold, tree.order, bm.order, em.events);
    saved, outcome := file, Continue;
    var i := 0;
    while i < |inputs| && outcome.Continue?
      invariant 0 <= i <= |inputs| && pm.Valid()
      invariant outcome.Continue? ==>
                  Play(Observe(gs, tree, bm, em, pm), inputs[i..], saved, threshold, tree.order, bm.order, em.events) == goal
      invariant !outcome.Continue? ==> Pass(Observe(gs, tree, bm, em, pm), saved, outcome) == goal
      decreases |inputs| - i, if outcome.Continue? then 1 else 0
    {
      assert inputs[i..][0] == inputs[i] && inputs[i..][1..] == inputs[i + 1..];
      saved, outcome := PlayTurn(gs, tree, bm, em, pm, inputs[i], saved, threshold);
      i := i + 1;
    }
  }
}
