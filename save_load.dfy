/**
 * save_load_manager.py: the save document is a snapshot of the globals and of
 * the managers' live state; loading overwrites that state field by field, then
 * rebuilds the tech and building modifier pools from defaults.
 *
 * The JSON file itself is an `Option<Snapshot>`: `None` is a missing file.
 */
module SaveLoad {
  import opened Wrappers
  import opened Dict
  import opened GameState
  import TechTree
  import Buildings
  import Events

  /** The JSON document `save_game` writes; dictionary keys are the string ids. */
  datatype Snapshot = Snapshot(
    res: Resources, currentCycle: int, idleCycles: int,
    techMods: Pool, buildingMods: Pool,
    researched: Dict<string, bool>,
    projects: seq<Buildings.Project>,
    completed: Dict<string, nat>,
    log: seq<string>,
    pending: Option<Events.Pending>,
    triggered: Dict<string, bool>)

  // --- saving ---

  /** `technologies_researched_state`: one flag per tech of the manager's table. */
  function ResearchedFlags(order: seq<TechTree.TechId>, researched: set<TechTree.TechId>): Dict<string, bool>
  {
    if order == [] then []
    else
      var t := order[|order| - 1];
      ResearchedFlags(order[..|order| - 1], researched) + [(TechTree.Key(t), t in researched)]
  }

  /** `building_manager_completed_buildings`: the counts under the string ids. */
  function SaveCounts(completed: Buildings.Completed): Dict<string, nat>
  {
    if completed == [] then []
    else
      var e := completed[|completed| - 1];
      SaveCounts(completed[..|completed| - 1]) + [(Buildings.Key(e.0), e.1)]
  }

  /** `events_triggered_state`: a flag for each one-time event only. */
  function TriggeredFlags(events: seq<Events.EventDef>, triggered: set<string>): Dict<string, bool>
  {
    if events == [] then []
    else
      var e := events[|events| - 1];
      var init := TriggeredFlags(events[..|events| - 1], triggered);
      if e.oneTime then init + [(e.id, e.id in triggered)] else init
  }

  /**
   * The pending decision holds its choices' effect callables, which JSON cannot
   * encode: `json.dump` raises and `save_game` returns False.
   */
  predicate Encodable(pending: Option<Events.Pending>)
  {
    pending.None? || pending.value.choices == []
  }

  /** `save_game`: the document written, or `None` when serialisation raises. */
  function SaveGame(gs: State, tree: TechTree.TechTree, bm: Buildings.BuildingManager, em: Events.EventManager): (file: Option<Snapshot>)
    reads gs, tree, bm, em
    ensures file.Some? <==> Encodable(em.pending)
    ensures file.Some? ==> file.value.projects == bm.activeProjects && file.value.log == em.log
  {
    Document(gs.res, gs.currentCycle, gs.idleCycles, gs.techMods, gs.buildingMods, tree.order, tree.researched,
             bm.activeProjects, bm.completed, em.log, em.pending, em.events, em.triggered)
  }

  /** Lines 23-55 on the values they read; `json.dump` raises on the choice lambdas of a pending decision. */
  function Document(res: Resources, currentCycle: int, idleCycles: int, techMods: Pool, buildingMods: Pool,
                    techOrder: seq<TechTree.TechId>, researched: set<TechTree.TechId>,
                    projects: seq<Buildings.Project>, completed: Buildings.Completed,
                    log: seq<string>, pending: Option<Events.Pending>,
                    events: seq<Events.EventDef>, triggered: set<string>): Option<Snapshot>
  {
    if !Encodable(pending) then None
    else Some(Snapshot(res, currentCycle, idleCycles, techMods, buildingMods,
                       ResearchedFlags(techOrder, researched),
                       projects, SaveCounts(completed),
                       log, pending, TriggeredFlags(events, triggered)))
  }

  // --- loading, as specification functions ---

  /** Lines 101-103: every tech of the table takes the saved flag, `False` when absent. */
  function LoadResearched(order: seq<TechTree.TechId>, researched: set<TechTree.TechId>, flags: Dict<string, bool>): set<TechTree.TechId>
  {
    if order == [] then researched
    else
      var t := order[|order| - 1];
      var r := LoadResearched(order[..|order| - 1], researched, flags);
      if GetOr(flags, TechTree.Key(t), false) then r + {t} else r - {t}
  }

  /** Lines 107-114: the saved counts under known building ids, in file order. */
  function KeptCounts(counts: Dict<string, nat>): Buildings.Completed
  {
    if counts == [] then []
    else
      var e := counts[|counts| - 1];
      var r := KeptCounts(counts[..|counts| - 1]);
      match Buildings.Parse(e.0)
      case Some(b) => Put(r, b, e.1)
      case None => r
  }

  /** Lines 126-129: every one-time event takes the saved flag, `False` when absent. */
  function LoadTriggered(events: seq<Events.EventDef>, triggered: set<string>, flags: Dict<string, bool>): set<string>
  {
    if events == [] then triggered
    else
      var e := events[|events| - 1];
      var r := LoadTriggered(events[..|events| - 1], triggered, flags);
      if !e.oneTime then r
      else if GetOr(flags, e.id, false) then r + {e.id} else r - {e.id}
  }

  /** Lines 136-139: the tech pool is reset to the four factors only. */
  const TechIdentity: Pool := map[
    FoodProductionBonusFactor := 1.0,
    ProductionBonusFactor := 1.0,
    KnowledgeGenerationBonusFactor := 1.0,
    CultureGenerationBonusFactor := 1.0]

  /** Lines 141-145: the building pool is reset to five keys. */
  const BuildingDefaults: Pool := map[
    FoodPerCycleBonus := 0.0,
    ProductionPerCycleBonus := 0.0,
    KnowledgePerCycleBonus := 0.0,
    CulturePerCycleBonus := 0.0,
    FoodProductionBonusFactor := 1.0]

  /** Lines 148-150: the effects of the researched techs, in table order. */
  function ApplyResearched(p: Pool, order: seq<TechTree.TechId>, researched: set<TechTree.TechId>): Pool
  {
    if order == [] then p
    else
      var t := order[|order| - 1];
      var q := ApplyResearched(p, order[..|order| - 1], researched);
      if t in researched then ApplyOps(q, TechTree.Effect(t)) else q
  }

  /**
   * Lines 153-160 call `apply_effect()` with no arguments while the lambdas
   * take two, so the first building with a positive count raises; the loop gets
   * through only when every count is zero.
   */
  predicate NoneBuilt(completed: Buildings.Completed)
  {
    forall i :: 0 <= i < |completed| ==> completed[i].1 == 0
  }

  // --- the loader ---

  /** `load_game` as written: `ok` is its return value; on failure after the file was read, the state is already overwritten. */
  method LoadGame(file: Option<Snapshot>, gs: State, tree: TechTree.TechTree, bm: Buildings.BuildingManager, em: Events.EventManager)
    returns (ok: bool)
    modifies gs`res, gs`currentCycle, gs`idleCycles, gs`techMods, gs`buildingMods
    modifies tree`researched, bm`activeProjects, bm`completed, em`log, em`pending, em`triggered
    ensures file.None? ==> !ok && unchanged(gs) && unchanged(tree) && unchanged(bm) && unchanged(em)
    ensures file.Some? ==> Restored(file.value, old(tree.researched), old(em.triggered), gs, tree, bm, em)
    ensures file.Some? ==> gs.buildingMods == BuildingDefaults && ok == NoneBuilt(bm.completed)
  {
    if file.None? {
      return false;
    }
    RestoreSnapshot(file.value, gs, tree, bm, em);
    ok := ReapplyBuildingEffects(bm);
  }

  /** `load_game` as intended: the building effects are re-applied with their counts and a read file always loads. */
  method LoadGameAsIntended(file: Option<Snapshot>, gs: State, tree: TechTree.TechTree, bm: Buildings.BuildingManager,
                            em: Events.EventManager)
    returns (ok: bool)
    modifies gs`res, gs`currentCycle, gs`idleCycles, gs`techMods, gs`buildingMods
    modifies tree`researched, bm`activeProjects, bm`completed, em`log, em`pending, em`triggered
    ensures ok == file.Some?
    ensures file.None? ==> unchanged(gs) && unchanged(tree) && unchanged(bm) && unchanged(em)
    ensures file.Some? ==> Restored(file.value, old(tree.researched), old(em.triggered), gs, tree, bm, em)
    ensures file.Some? ==> gs.buildingMods == Buildings.ApplyCompleted(BuildingDefaults, bm.completed)
  {
    if file.None? {
      return false;
    }
    RestoreSnapshot(file.value, gs, tree, bm, em);
    ReapplyBuildingEffectsAsIntended(gs, bm);
    ok := true;
  }

  /** What a read save file restores, apart from the building modifiers. */
  ghost predicate Restored(s: Snapshot, researched: set<TechTree.TechId>, triggered: set<string>,
                           gs: State, tree: TechTree.TechTree, bm: Buildings.BuildingManager, em: Events.EventManager)
    reads gs, tree, bm, em
  {
    && gs.res == s.res && gs.currentCycle == s.currentCycle && gs.idleCycles == s.idleCycles
    && tree.researched == LoadResearched(tree.order, researched, s.researched)
    && bm.activeProjects == s.projects
    && bm.completed == KeptCounts(s.completed)
    && em.log == s.log && em.pending == s.pending
    && em.triggered == LoadTriggered(em.events, triggered, s.triggered)
    && gs.techMods == ApplyResearched(TechIdentity, tree.order, tree.researched)
  }

  /** Lines 110-150 and 161: every saved field back in place, the tech pool rebuilt, the building pool reset. */
  method RestoreSnapshot(s: Snapshot, gs: State, tree: TechTree.TechTree, bm: Buildings.BuildingManager, em: Events.EventManager)
    modifies gs`res, gs`currentCycle, gs`idleCycles, gs`techMods, gs`buildingMods
    modifies tree`researched, bm`activeProjects, bm`completed, em`log, em`pending, em`triggered
    ensures Restored(s, old(tree.researched), old(em.triggered), gs, tree, bm, em)
    ensures gs.buildingMods == BuildingDefaults
  {
    gs.res := s.res;
    gs.currentCycle := s.currentCycle;
    gs.idleCycles := s.idleCycles;
    gs.techMods := s.techMods;
    gs.buildingMods := s.buildingMods;
    RestoreResearched(tree, s.researched);
    bm.activeProjects := s.projects;
    RestoreCompleted(bm, s.completed);
    em.log := s.log;
    em.pending := s.pending;
    RestoreTriggered(em, s.triggered);
    gs.techMods := TechIdentity;
    gs.buildingMods := BuildingDefaults;
    ReapplyTechEffects(gs, tree);
  }

  method RestoreResearched(tree: TechTree.TechTree, flags: Dict<string, bool>)
    modifies tree`researched
    ensures tree.researched == LoadResearched(tree.order, old(tree.researched), flags)
  {
    var i := 0;
    while i < |tree.order|
      invariant 0 <= i <= |tree.order|
      invariant tree.researched == LoadResearched(tree.order[..i], old(tree.researched), flags)
    {
      assert tree.order[..i + 1][..i] == tree.order[..i];
      var t := tree.order[i];
      if GetOr(flags, TechTree.Key(t), false) {
        tree.researched := tree.researched + {t};
      } else {
        tree.researched := tree.researched - {t};
      }
      i := i + 1;
    }
    assert tree.order[..i] == tree.order;
  }

  method RestoreCompleted(bm: Buildings.BuildingManager, counts: Dict<string, nat>)
    modifies bm`completed
    ensures bm.completed == KeptCounts(counts)
  {
    bm.completed := [];
    var i := 0;
    while i < |counts|
      invariant 0 <= i <= |counts|
      invariant bm.completed == KeptCounts(counts[..i])
    {
      assert counts[..i + 1][..i] == counts[..i];
      var (k, n) := counts[i];
      var b := Buildings.Parse(k);
      if b.Some? {
        bm.completed := Put(bm.completed, b.value, n);
      }
      i := i + 1;
    }
    assert counts[..i] == counts;
  }

  method RestoreTriggered(em: Events.EventManager, flags: Dict<string, bool>)
    modifies em`triggered
    ensures em.triggered == LoadTriggered(em.events, old(em.triggered), flags)
  {
    var i := 0;
    while i < |em.events|
      invariant 0 <= i <= |em.events|
      invariant em.triggered == LoadTriggered(em.events[..i], old(em.triggered), flags)
    {
      assert em.events[..i + 1][..i] == em.events[..i];
      var e := em.events[i];
      if e.oneTime {
        if GetOr(flags, e.id, false) {
          em.triggered := em.triggered + {e.id};
        } else {
          em.triggered := em.triggered - {e.id};
        }
      }
      i := i + 1;
    }
    assert em.events[..i] == em.events;
  }

  method ReapplyTechEffects(gs: State, tree: TechTree.TechTree)
    modifies gs`techMods
    ensures gs.techMods == ApplyResearched(old(gs.techMods), tree.order, tree.researched)
  {
    var i := 0;
    while i < |tree.order|
      invariant 0 <= i <= |tree.order|
      invariant gs.techMods == ApplyResearched(old(gs.techMods), tree.order[..i], tree.researched)
    {
      assert tree.order[..i + 1][..i] == tree.order[..i];
      var t := tree.order[i];
      if t in tree.researched {
        gs.techMods := ApplyOps(gs.techMods, TechTree.Effect(t));
      }
      i := i + 1;
    }
    assert tree.order[..i] == tree.order;
  }

  /** Lines 153-160 as written: `ok` is false as soon as a positive count reaches the zero-argument call. */
  method ReapplyBuildingEffects(bm: Buildings.BuildingManager) returns (ok: bool)
    ensures ok == NoneBuilt(bm.completed)
  {
    var i := 0;
    while i < |bm.completed|
      invariant 0 <= i <= |bm.completed|
      invariant NoneBuilt(bm.completed[..i])
    {
      if bm.completed[i].1 > 0 {
        return false;
      }
      assert bm.completed[..i + 1] == bm.completed[..i] + [bm.completed[i]];
      i := i + 1;
    }
    assert bm.completed[..i] == bm.completed;
    return true;
  }

  /** Lines 153-160 as intended: each building's effect applied once with its count, as the manager's own rebuild does. */
  method ReapplyBuildingEffectsAsIntended(gs: State, bm: Buildings.BuildingManager)
    modifies gs`buildingMods
    ensures gs.buildingMods == Buildings.ApplyCompleted(old(gs.buildingMods), bm.completed)
  {
    var i := 0;
    while i < |bm.completed|
      invariant 0 <= i <= |bm.completed|
      invariant gs.buildingMods == Buildings.ApplyCompleted(old(gs.buildingMods), bm.completed[..i])
    {
      var entry := bm.completed[i];
      gs.buildingMods := ApplyOps(gs.buildingMods, Buildings.EffectOps(Buildings.Effect(entry.0), entry.1));
      assert bm.completed[..i + 1][..i] == bm.completed[..i];
      i := i + 1;
    }
    assert bm.completed[..i] == bm.completed;
  }

  // --- what a save followed by a load restores ---

  /** Each table tech's saved flag is its researched status; techs outside the table have no flag. */
  lemma {:induction false} ResearchedFlagsGet(order: seq<TechTree.TechId>, researched: set<TechTree.TechId>, t: TechTree.TechId)
    ensures Has(ResearchedFlags(order, researched), TechTree.Key(t)) <==> t in order
    ensures GetOr(ResearchedFlags(order, researched), TechTree.Key(t), false) == (t in order && t in researched)
  {
    if order != [] {
      var u := order[|order| - 1];
      var init := order[..|order| - 1];
      assert order == init + [u];
      ResearchedFlagsGet(init, researched, t);
      TechTree.ParseKey(t);
      TechTree.ParseKey(u);
      HasSnoc(ResearchedFlags(init, researched), (TechTree.Key(u), u in researched), TechTree.Key(t));
      GetOrSnoc(ResearchedFlags(init, researched), (TechTree.Key(u), u in researched), TechTree.Key(t), false);
    }
  }

  /** After the restore loop a table tech is researched iff its flag says so; other techs keep their status. */
  lemma {:induction false} LoadResearchedIff(order: seq<TechTree.TechId>, researched: set<TechTree.TechId>, flags: Dict<string, bool>, t: TechTree.TechId)
    ensures t in LoadResearched(order, researched, flags) <==>
            if t in order then GetOr(flags, TechTree.Key(t), false) else t in researched
  {
    if order != [] {
      var init := order[..|order| - 1];
      assert order == init + [order[|order| - 1]];
      LoadResearchedIff(init, researched, flags, t);
    }
  }

  /** Saving then loading restores the researched status of every table tech. */
  lemma ResearchedRoundTrip(order: seq<TechTree.TechId>, before: set<TechTree.TechId>, saved: set<TechTree.TechId>, t: TechTree.TechId)
    ensures t in LoadResearched(order, before, ResearchedFlags(order, saved)) <==>
            if t in order then t in saved else t in before
  {
    LoadResearchedIff(order, before, ResearchedFlags(order, saved), t);
    ResearchedFlagsGet(order, saved, t);
  }

  /** Saving then loading restores the completed counts exactly, order included. */
  lemma {:induction false} CountsRoundTrip(completed: Buildings.Completed)
    requires UniqueKeys(completed)
    ensures KeptCounts(SaveCounts(completed)) == completed
  {
    if completed != [] {
      var e := completed[|completed| - 1];
      var init := completed[..|completed| - 1];
      assert completed == init + [e];
      assert UniqueKeys(init);
      CountsRoundTrip(init);
      var saved := SaveCounts(completed);
      assert saved[..|saved| - 1] == SaveCounts(init);
      Buildings.ParseKey(e.0);
      HasIndex(init, e.0);
    }
  }

  /** A loaded count is the one saved under the building's id, 0 when absent; unknown ids are dropped. */
  lemma {:induction false} KeptCountsGet(counts: Dict<string, nat>, b: Buildings.BuildingId)
    requires UniqueKeys(counts)
    ensures Buildings.CountOf(KeptCounts(counts), b) == GetOr(counts, Buildings.Key(b), 0)
  {
    if counts != [] {
      var e := counts[|counts| - 1];
      var init := counts[..|counts| - 1];
      assert counts == init + [e];
      assert UniqueKeys(init);
      KeptCountsGet(init, b);
      GetOrSnoc(init, e, Buildings.Key(b), 0);
      Buildings.ParseKey(b);
      match Buildings.Parse(e.0)
      case Some(b') =>
        PutGetOr(KeptCounts(init), b', e.1, b, 0);
        Buildings.ParseKey(b');
        HasIndex(init, e.0);
      case None =>
    }
  }

  /** The ids of the one-time events of a table. */
  function OneTimeIds(events: seq<Events.EventDef>): set<string>
  {
    if events == [] then {}
    else
      var e := events[|events| - 1];
      OneTimeIds(events[..|events| - 1]) + (if e.oneTime then {e.id} else {})
  }

  /** Only one-time events get a saved flag, and it is their triggered status. */
  lemma {:induction false} TriggeredFlagsGet(events: seq<Events.EventDef>, triggered: set<string>, x: string)
    ensures Has(TriggeredFlags(events, triggered), x) <==> x in OneTimeIds(events)
    ensures GetOr(TriggeredFlags(events, triggered), x, false) == (x in OneTimeIds(events) && x in triggered)
  {
    if events != [] {
      var e := events[|events| - 1];
      var init := events[..|events| - 1];
      TriggeredFlagsGet(init, triggered, x);
      if e.oneTime {
        HasSnoc(TriggeredFlags(init, triggered), (e.id, e.id in triggered), x);
        GetOrSnoc(TriggeredFlags(init, triggered), (e.id, e.id in triggered), x, false);
      }
    }
  }

  /** After the restore loop a one-time event is triggered iff its flag says so; other ids keep their status. */
  lemma {:induction false} LoadTriggeredIff(events: seq<Events.EventDef>, triggered: set<string>, flags: Dict<string, bool>, x: string)
    ensures x in LoadTriggered(events, triggered, flags) <==>
            if x in OneTimeIds(events) then GetOr(flags, x, false) else x in triggered
  {
    if events != [] {
      LoadTriggeredIff(events[..|events| - 1], triggered, flags, x);
    }
  }

  /** Saving then loading restores the one-time events' flags; the others' flags are those of the session that loads. */
  lemma TriggeredRoundTrip(events: seq<Events.EventDef>, before: set<string>, saved: set<string>, x: string)
    ensures x in LoadTriggered(events, before, TriggeredFlags(events, saved)) <==>
            if x in OneTimeIds(events) then x in saved else x in before
  {
    LoadTriggeredIff(events, before, TriggeredFlags(events, saved), x);
    TriggeredFlagsGet(events, saved, x);
  }

  /** As written, reloading a save in which any building was ever completed reports failure. */
  lemma SavedBuildingFailsLoad(completed: Buildings.Completed, i: nat)
    requires UniqueKeys(completed)
    requires i < |completed| && completed[i].1 > 0
    ensures !NoneBuilt(KeptCounts(SaveCounts(completed)))
  {
    CountsRoundTrip(completed);
  }

  /** The smallest instance: one granary. */
  lemma OneGranaryFailsLoad()
    ensures !NoneBuilt(KeptCounts(SaveCounts([(Buildings.Granary, 1)])))
  {
    SavedBuildingFailsLoad([(Buildings.Granary, 1)], 0);
  }

  // --- the pools rebuilt by a load, as every reader sees them ---

  /** The default every reader of the pools uses for a missing key: 0 for additive bonuses, 1 for factors. */
  function Neutral(k: Channel): real
  {
    match k
    case StabilityPerCycleBonus | FoodPerCycleBonus | ProductionPerCycleBonus | KnowledgePerCycleBonus
       | CulturePerCycleBonus | MaxPopulationBonus | CulturePerCyclePolicyBonus | CulturePerCyclePolicyCost
       | StabilityPolicyBonus | FoodPerCyclePolicyBonus | ProductionPerCyclePolicyBonus
       | KnowledgePerCyclePolicyBonus => 0.0
    case _ => 1.0
  }

  /** Two pools no `.get(key, neutral default)` on the keys `ks` can tell apart. */
  predicate AgreeOn(p: Pool, q: Pool, ks: set<Channel>)
  {
    forall k :: k in ks ==> Get(p, k, Neutral(k)) == Get(q, k, Neutral(k))
  }

  /** The op reads its key with that key's neutral default. */
  predicate ReadsNeutral(op: PoolOp)
  {
    (if op.Add? then 0.0 else 1.0) == Neutral(op.key)
  }

  lemma AgreeApplyOp(p: Pool, q: Pool, ks: set<Channel>, op: PoolOp)
    requires OpOk(op) && ReadsNeutral(op) && AgreeOn(p, q, ks)
    ensures AgreeOn(ApplyOp(p, op), ApplyOp(q, op), ks)
  {
    OpIsUpdate(p, op);
    OpIsUpdate(q, op);
    if op.key in ks {
      assert Get(p, op.key, Neutral(op.key)) == Get(q, op.key, Neutral(op.key));
      assert OpValue(p, op) == OpValue(q, op);
    }
  }

  lemma {:induction false} AgreeApplyOps(p: Pool, q: Pool, ks: set<Channel>, ops: seq<PoolOp>)
    requires OpsOk(ops) && AgreeOn(p, q, ks)
    requires forall i :: 0 <= i < |ops| ==> ReadsNeutral(ops[i])
    ensures AgreeOn(ApplyOps(p, ops), ApplyOps(q, ops), ks)
    decreases |ops|
  {
    if ops != [] {
      AgreeApplyOp(p, q, ks, ops[0]);
      AgreeApplyOps(ApplyOp(p, ops[0]), ApplyOp(q, ops[0]), ks, ops[1..]);
    }
  }

  lemma TechEffectReadsNeutral(t: TechTree.TechId)
    ensures forall i :: 0 <= i < |TechTree.Effect(t)| ==> ReadsNeutral(TechTree.Effect(t)[i])
  {
  }

  lemma BuildingEffectReadsNeutral(b: Buildings.BuildingId, n: nat)
    ensures forall i :: 0 <= i < |Buildings.EffectOps(Buildings.Effect(b), n)| ==>
              ReadsNeutral(Buildings.EffectOps(Buildings.Effect(b), n)[i])
  {
  }

  lemma {:induction false} AgreeApplyResearched(p: Pool, q: Pool, ks: set<Channel>, order: seq<TechTree.TechId>, researched: set<TechTree.TechId>)
    requires AgreeOn(p, q, ks)
    ensures AgreeOn(ApplyResearched(p, order, researched), ApplyResearched(q, order, researched), ks)
  {
    if order != [] {
      var t := order[|order| - 1];
      AgreeApplyResearched(p, q, ks, order[..|order| - 1], researched);
      TechEffectReadsNeutral(t);
      AgreeApplyOps(ApplyResearched(p, order[..|order| - 1], researched),
                    ApplyResearched(q, order[..|order| - 1], researched), ks, TechTree.Effect(t));
    }
  }

  lemma {:induction false} AgreeApplyCompleted(p: Pool, q: Pool, ks: set<Channel>, completed: Buildings.Completed)
    requires AgreeOn(p, q, ks)
    ensures AgreeOn(Buildings.ApplyCompleted(p, completed), Buildings.ApplyCompleted(q, completed), ks)
  {
    if completed != [] {
      var e := completed[|completed| - 1];
      var init := completed[..|completed| - 1];
      AgreeApplyCompleted(p, q, ks, init);
      BuildingEffectReadsNeutral(e.0, e.1);
      AgreeApplyOps(Buildings.ApplyCompleted(p, init), Buildings.ApplyCompleted(q, init), ks,
                    Buildings.EffectOps(Buildings.Effect(e.0), e.1));
    }
  }

  /**
   * The reset drops four of the eight tech keys, yet the rebuilt pool reads,
   * key for key, like the researched effects applied to the initial pool.
   */
  lemma ReloadedTechAgrees(order: seq<TechTree.TechId>, researched: set<TechTree.TechId>)
    ensures AgreeOn(ApplyResearched(TechIdentity, order, researched),
                    ApplyResearched(InitialTechModifiers, order, researched), InitialTechModifiers.Keys)
  {
    assert AgreeOn(TechIdentity, InitialTechModifiers, InitialTechModifiers.Keys);
    AgreeApplyResearched(TechIdentity, InitialTechModifiers, InitialTechModifiers.Keys, order, researched);
  }

  /** On the eleven building keys, the five defaults read like the base values of the manager's reset. */
  lemma DefaultsAgreeWithBase(p: Pool)
    ensures AgreeOn(BuildingDefaults, p + Buildings.BuildingPoolBase, Buildings.BuildingChannels)
  {
    forall k | k in Buildings.BuildingChannels
      ensures Get(BuildingDefaults, k, Neutral(k)) == Get(p + Buildings.BuildingPoolBase, k, Neutral(k))
    {
      assert (p + Buildings.BuildingPoolBase)[k] == Buildings.BaseValue(k);
      DefaultMatchesBase(k);
    }
  }

  lemma DefaultMatchesBase(k: Channel)
    requires k in Buildings.BuildingChannels
    ensures Get(BuildingDefaults, k, Neutral(k)) == Buildings.BaseValue(k)
  {
    match k
    case FoodPerCycleBonus =>
    case ProductionPerCycleBonus =>
    case KnowledgePerCycleBonus =>
    case CulturePerCycleBonus =>
    case FoodProductionBonusFactor =>
    case StabilityPerCycleBonus =>
    case ProductionBonusFactor =>
    case KnowledgeBonusFactor =>
    case CultureBonusFactor =>
    case MaxPopulationBonus =>
    case HousingQualityModifier =>
  }

  /**
   * The intended reapplication from the five defaults reads, on the eleven
   * building keys, like `recalculate_all_building_effects` over the same counts.
   */
  lemma ReappliedBuildingsAgree(p: Pool, completed: Buildings.Completed)
    ensures AgreeOn(Buildings.ApplyCompleted(BuildingDefaults, completed), Buildings.Recalc(p, completed),
                    Buildings.BuildingChannels)
  {
    DefaultsAgreeWithBase(p);
    AgreeApplyCompleted(BuildingDefaults, p + Buildings.BuildingPoolBase, Buildings.BuildingChannels, completed);
  }
}
