/**
 * The policy manager (text_epoch/policies.py): five policies with enactment
 * costs and prerequisites, Timed, Toggleable and Permanent lifecycles, an
 * ordered map of active policies, an ordered map of cooldown end cycles, and
 * effect/remove-effect pairs applied to the policy (and once the tech)
 * modifier pool.
 */
module Policies {
  import opened Wrappers
  import opened Numbers
  import opened Dict
  import opened GameState
  import TechTree
  import Buildings
  import Events

  datatype PolicyId =
    | FestivalAbundance | ForcedLaborQuotas | KnowledgeSharingInitiative
    | WaterManagementEdict | ElderCouncilSupport

  /** The dictionary's iteration order. */
  const Order: seq<PolicyId> := [FestivalAbundance, ForcedLaborQuotas, KnowledgeSharingInitiative,
                                 WaterManagementEdict, ElderCouncilSupport]

  lemma OrderComplete(p: PolicyId)
    ensures p in Order
  {
  }

  function Key(p: PolicyId): string
  {
    match p
    case FestivalAbundance => "festival_abundance"
    case ForcedLaborQuotas => "forced_labor_quotas"
    case KnowledgeSharingInitiative => "knowledge_sharing_initiative"
    case WaterManagementEdict => "water_management_edict"
    case ElderCouncilSupport => "elder_council_support"
  }

  /** The id a table key names, if any. */
  function Parse(s: string): (r: Option<PolicyId>)
    ensures r.Some? ==> Key(r.value) == s
    ensures r.None? ==> forall p :: Key(p) != s
  {
    if s == "festival_abundance" then Some(FestivalAbundance)
    else if s == "forced_labor_quotas" then Some(ForcedLaborQuotas)
    else if s == "knowledge_sharing_initiative" then Some(KnowledgeSharingInitiative)
    else if s == "water_management_edict" then Some(WaterManagementEdict)
    else if s == "elder_council_support" then Some(ElderCouncilSupport)
    else None
  }

  lemma ParseKey(p: PolicyId)
    ensures Parse(Key(p)) == Some(p)
  {
  }

  function Name(p: PolicyId): string
  {
    match p
    case FestivalAbundance => "Festival of Abundance"
    case ForcedLaborQuotas => "Forced Labor Quotas"
    case KnowledgeSharingInitiative => "Knowledge Sharing Initiative"
    case WaterManagementEdict => "Water Management Edict"
    case ElderCouncilSupport => "Elder Council Support"
  }

  function Description(p: PolicyId): string
  {
    match p
    case FestivalAbundance => "Host a grand festival to celebrate recent successes, boosting morale and cultural cohesion for a time."
    case ForcedLaborQuotas => "Implement strict work quotas to maximize production output, at the cost of public happiness and growth."
    case KnowledgeSharingInitiative => "Promote the open exchange of ideas and learning, boosting research at a small cultural cost."
    case WaterManagementEdict => "Invest in irrigation and water distribution, boosting food production from farms."
    case ElderCouncilSupport => "Provide additional resources and recognition to the council of elders, improving stability."
  }

  /** "timed_active", "toggleable_active", "one_time_enactment". */
  datatype PolicyType = TimedActive | ToggleableActive | OneTimeEnactment

  function Type(p: PolicyId): PolicyType
  {
    match p
    case FestivalAbundance => TimedActive
    case ForcedLaborQuotas => TimedActive
    case KnowledgeSharingInitiative => ToggleableActive
    case WaterManagementEdict => OneTimeEnactment
    case ElderCouncilSupport => TimedActive
  }

  /** `cost_to_enact`, in dictionary order. */
  function Cost(p: PolicyId): seq<(Res, real)>
  {
    match p
    case FestivalAbundance => [(Food, 50.0), (Culture, 20.0)]
    case ForcedLaborQuotas => [(Stability, 5.0)]
    case KnowledgeSharingInitiative => []
    case WaterManagementEdict => [(Production, 75.0)]
    case ElderCouncilSupport => [(Culture, 25.0), (Production, 25.0)]
  }

  function TechPrerequisites(p: PolicyId): seq<TechTree.TechId>
  {
    match p
    case FestivalAbundance => []
    case ForcedLaborQuotas => [TechTree.SpecializedTools]
    case KnowledgeSharingInitiative => [TechTree.AdvancedWriting]
    case WaterManagementEdict => [TechTree.BasicFarming]
    case ElderCouncilSupport => [TechTree.EarlyGovernance]
  }

  /** `min_population` and `min_stability`, 0 when absent. */
  function MinPopulation(p: PolicyId): real
  {
    if p == FestivalAbundance then 50.0 else 0.0
  }

  function MinStability(p: PolicyId): real
  {
    if p == FestivalAbundance then 40.0 else 0.0
  }

  /** `buildings_completed`. */
  function BuildingPrerequisites(p: PolicyId): seq<(Buildings.BuildingId, nat)>
  {
    if p == WaterManagementEdict then [(Buildings.CommunalFields, 1)] else []
  }

  /** `duration`: `None` for the toggleable and the permanent policy. */
  function Duration(p: PolicyId): Option<int>
  {
    match p
    case FestivalAbundance => Some(5)
    case ForcedLaborQuotas => Some(10)
    case KnowledgeSharingInitiative => None
    case WaterManagementEdict => None
    case ElderCouncilSupport => Some(10)
  }

  /** `cooldown`; the permanent policy's `None` is falsy like 0. */
  function Cooldown(p: PolicyId): nat
  {
    match p
    case FestivalAbundance => 15
    case ForcedLaborQuotas => 20
    case KnowledgeSharingInitiative => 5
    case WaterManagementEdict => 0
    case ElderCouncilSupport => 15
  }

  // --- effects ---

  /** One update made by an effect lambda. */
  datatype PolicyOp =
    | OnPolicy(op: PoolOp)                  // an update of `policy_modifiers`
    | OnTech(op: PoolOp)                    // an update of `tech_modifiers`
    | AddPopShare(key: Channel, f: real)    // policy[key] = policy.get(key, 0) + int(Population * f)
    | SubPopShare(key: Channel, f: real)    // policy[key] = policy.get(key, 0) - int(Population * f)

  predicate PolicyOpOk(o: PolicyOp)
  {
    (o.OnPolicy? || o.OnTech?) ==> OpOk(o.op)
  }

  /** `effects`. */
  function Effect(p: PolicyId): (ops: seq<PolicyOp>)
    ensures forall i :: 0 <= i < |ops| ==> PolicyOpOk(ops[i])
  {
    match p
    case FestivalAbundance => [OnPolicy(Add(StabilityPolicyBonus, 10.0)), AddPopShare(CulturePerCyclePolicyBonus, 0.05)]
    case ForcedLaborQuotas => [OnPolicy(Mul(ProductionBonusFactorPolicy, 1.15)), OnPolicy(Mul(PopulationGrowthModifierPolicy, 0.95))]
    case KnowledgeSharingInitiative => [OnPolicy(Mul(KnowledgeGenerationBonusFactorPolicy, 1.10)), OnPolicy(Add(CulturePerCyclePolicyCost, 1.0))]
    case WaterManagementEdict => [OnTech(Mul(FoodProductionBonusFactor, 1.05))]
    case ElderCouncilSupport => [OnPolicy(Add(StabilityPolicyBonus, 2.0))]
  }

  /** `remove_effects`; the permanent policy has none. */
  function RemoveEffect(p: PolicyId): (ops: seq<PolicyOp>)
    ensures forall i :: 0 <= i < |ops| ==> PolicyOpOk(ops[i])
  {
    match p
    case FestivalAbundance => [OnPolicy(Add(StabilityPolicyBonus, -10.0)), SubPopShare(CulturePerCyclePolicyBonus, 0.05)]
    case ForcedLaborQuotas => [OnPolicy(Div(ProductionBonusFactorPolicy, 1.15)), OnPolicy(Div(PopulationGrowthModifierPolicy, 0.95))]
    case KnowledgeSharingInitiative => [OnPolicy(Div(KnowledgeGenerationBonusFactorPolicy, 1.10)), OnPolicy(Add(CulturePerCyclePolicyCost, -1.0))]
    case WaterManagementEdict => []
    case ElderCouncilSupport => [OnPolicy(Add(StabilityPolicyBonus, -2.0))]
  }

  /** The two pools an effect may write. */
  datatype Pools = Pools(tech: Pool, policy: Pool)

  function ApplyPolicyOp(ps: Pools, o: PolicyOp, population: real): Pools
    requires PolicyOpOk(o)
  {
    match o
    case OnPolicy(op) => ps.(policy := ApplyOp(ps.policy, op))
    case OnTech(op) => ps.(tech := ApplyOp(ps.tech, op))
    case AddPopShare(k, f) => ps.(policy := ps.policy[k := Get(ps.policy, k, 0.0) + Trunc(population * f) as real])
    case SubPopShare(k, f) => ps.(policy := ps.policy[k := Get(ps.policy, k, 0.0) - Trunc(population * f) as real])
  }

  /** One call of an effect lambda; `population` is `core_resources["Population"]` at the call. */
  function ApplyPolicyOps(ps: Pools, ops: seq<PolicyOp>, population: real): Pools
    requires forall i :: 0 <= i < |ops| ==> PolicyOpOk(ops[i])
    decreases |ops|
  {
    if ops == [] then ps else ApplyPolicyOps(ApplyPolicyOp(ps, ops[0], population), ops[1..], population)
  }

  // --- removal against enactment ---

  lemma ApplyOne(ps: Pools, o: PolicyOp, pop: real)
    requires PolicyOpOk(o)
    ensures ApplyPolicyOps(ps, [o], pop) == ApplyPolicyOp(ps, o, pop)
  {
    assert [o][1..] == [];
  }

  lemma ApplyTwo(ps: Pools, o1: PolicyOp, o2: PolicyOp, pop: real)
    requires PolicyOpOk(o1) && PolicyOpOk(o2)
    ensures ApplyPolicyOps(ps, [o1, o2], pop) == ApplyPolicyOp(ApplyPolicyOp(ps, o1, pop), o2, pop)
  {
    assert [o1, o2][1..] == [o2];
    ApplyOne(ApplyPolicyOp(ps, o1, pop), o2, pop);
  }

  /** Pool ops on different keys commute. */
  lemma OpsCommute(p: Pool, o: PoolOp, o': PoolOp)
    requires OpOk(o) && OpOk(o') && o.key != o'.key
    ensures ApplyOp(ApplyOp(p, o), o') == ApplyOp(ApplyOp(p, o'), o)
  {
    OpIsUpdate(p, o);
    OpIsUpdate(p, o');
    var p1, p2 := ApplyOp(p, o), ApplyOp(p, o');
    OpIsUpdate(p1, o');
    OpIsUpdate(p2, o);
    assert OpValue(p1, o') == OpValue(p, o');
    assert OpValue(p2, o) == OpValue(p, o);
  }

  lemma MulDivReal(x: real, f: real)
    requires f != 0.0
    ensures x * f / f == x
  {
  }

  /** Multiplying a present key by f and dividing it by f restores the pool. */
  lemma MulThenDiv(p: Pool, a: Channel, f: real)
    requires a in p && f != 0.0
    ensures ApplyOp(ApplyOp(p, Mul(a, f)), Div(a, f)) == p
  {
    var q := p[a := p[a] * f];
    calc {
      ApplyOp(ApplyOp(p, Mul(a, f)), Div(a, f));
      == { OpIsUpdate(p, Mul(a, f)); assert OpValue(p, Mul(a, f)) == p[a] * f; }
      ApplyOp(q, Div(a, f));
      == { OpIsUpdate(q, Div(a, f)); assert OpValue(q, Div(a, f)) == p[a] * f / f; }
      q[a := p[a] * f / f];
      == { MulDivReal(p[a], f); assert p[a] * f / f == p[a]; }
      q[a := p[a]];
      ==
      p;
    }
  }

  /** Two additions to a present key add up. */
  lemma AddThenAdd(p: Pool, a: Channel, x: real, y: real)
    requires a in p
    ensures ApplyOp(ApplyOp(p, Add(a, x)), Add(a, y)) == p[a := p[a] + x + y]
  {
    var q := p[a := p[a] + x];
    OpIsUpdate(p, Add(a, x));
    assert OpValue(p, Add(a, x)) == p[a] + x;
    OpIsUpdate(q, Add(a, y));
    assert OpValue(q, Add(a, y)) == p[a] + x + y;
  }

  /** Adding x to a present key and then -x restores the pool. */
  lemma AddThenSubtract(p: Pool, a: Channel, x: real)
    requires a in p
    ensures ApplyOp(ApplyOp(p, Add(a, x)), Add(a, -x)) == p
  {
    AddThenAdd(p, a, x, -x);
    assert p[a := p[a] + x + -x] == p;
  }

  /**
   * Enactment ops o1, o2 then removal ops o3, o4: when o3 undoes o1 and
   * touches another key than o2, the four ops amount to o2 then o4.
   */
  lemma InterleavedPairs(p: Pool, o1: PoolOp, o2: PoolOp, o3: PoolOp, o4: PoolOp)
    requires OpOk(o1) && OpOk(o2) && OpOk(o3) && OpOk(o4)
    requires o2.key != o3.key && ApplyOp(ApplyOp(p, o1), o3) == p
    ensures ApplyOp(ApplyOp(ApplyOp(ApplyOp(p, o1), o2), o3), o4) == ApplyOp(ApplyOp(p, o2), o4)
  {
    OpsCommute(ApplyOp(p, o1), o2, o3);
  }

  /** The policy-pool op a policy-side effect step performs at a given population. */
  function PolicyPoolOp(o: PolicyOp, population: real): PoolOp
    requires !o.OnTech?
  {
    match o
    case OnPolicy(op) => op
    case AddPopShare(k, f) => Add(k, Trunc(population * f) as real)
    case SubPopShare(k, f) => Add(k, -Trunc(population * f) as real)
  }

  lemma PolicyStep(ps: Pools, o: PolicyOp, population: real)
    requires PolicyOpOk(o) && !o.OnTech?
    ensures OpOk(PolicyPoolOp(o, population))
    ensures ApplyPolicyOp(ps, o, population) == ps.(policy := ApplyOp(ps.policy, PolicyPoolOp(o, population)))
  {
  }

  /** Two-step enactment followed by two-step removal, as four policy-pool ops. */
  lemma EnactRemoveChain(ps: Pools, o1: PolicyOp, o2: PolicyOp, o3: PolicyOp, o4: PolicyOp, pop: real, pop': real,
                         q1: PoolOp, q2: PoolOp, q3: PoolOp, q4: PoolOp)
    requires PolicyOpOk(o1) && PolicyOpOk(o2) && PolicyOpOk(o3) && PolicyOpOk(o4)
    requires !o1.OnTech? && !o2.OnTech? && !o3.OnTech? && !o4.OnTech?
    requires q1 == PolicyPoolOp(o1, pop) && q2 == PolicyPoolOp(o2, pop)
    requires q3 == PolicyPoolOp(o3, pop') && q4 == PolicyPoolOp(o4, pop')
    ensures OpOk(q1) && OpOk(q2) && OpOk(q3) && OpOk(q4)
    ensures ApplyPolicyOps(ApplyPolicyOps(ps, [o1, o2], pop), [o3, o4], pop') ==
            ps.(policy := ApplyOp(ApplyOp(ApplyOp(ApplyOp(ps.policy, q1), q2), q3), q4))
  {
    ApplyTwo(ps, o1, o2, pop);
    PolicyStep(ps, o1, pop);
    var e1 := ApplyPolicyOp(ps, o1, pop);
    PolicyStep(e1, o2, pop);
    var e := ApplyPolicyOp(e1, o2, pop);
    ApplyTwo(e, o3, o4, pop');
    PolicyStep(e, o3, pop');
    PolicyStep(ApplyPolicyOp(e, o3, pop'), o4, pop');
  }

  lemma ForcedLaborCancels(ps: Pools, pop: real, pop': real)
    requires ProductionBonusFactorPolicy in ps.policy && PopulationGrowthModifierPolicy in ps.policy
    ensures ApplyPolicyOps(ApplyPolicyOps(ps, Effect(ForcedLaborQuotas), pop), RemoveEffect(ForcedLaborQuotas), pop') == ps
  {
    var a, b := ProductionBonusFactorPolicy, PopulationGrowthModifierPolicy;
    var p := ps.policy;
    assert Effect(ForcedLaborQuotas) == [OnPolicy(Mul(a, 1.15)), OnPolicy(Mul(b, 0.95))];
    assert RemoveEffect(ForcedLaborQuotas) == [OnPolicy(Div(a, 1.15)), OnPolicy(Div(b, 0.95))];
    var m, n, d, e := Mul(a, 1.15), Mul(b, 0.95), Div(a, 1.15), Div(b, 0.95);
    EnactRemoveChain(ps, OnPolicy(m), OnPolicy(n), OnPolicy(d), OnPolicy(e), pop, pop', m, n, d, e);
    MulThenDiv(p, a, 1.15);
    InterleavedPairs(p, m, n, d, e);
    MulThenDiv(p, b, 0.95);
  }

  /** The knowledge initiative's four pool ops restore the pool. */
  lemma KnowledgePoolCancels(p: Pool)
    requires KnowledgeGenerationBonusFactorPolicy in p && CulturePerCyclePolicyCost in p
    ensures var a, b := KnowledgeGenerationBonusFactorPolicy, CulturePerCyclePolicyCost;
            ApplyOp(ApplyOp(ApplyOp(ApplyOp(p, Mul(a, 1.10)), Add(b, 1.0)), Div(a, 1.10)), Add(b, -1.0)) == p
  {
    var a, b := KnowledgeGenerationBonusFactorPolicy, CulturePerCyclePolicyCost;
    MulThenDiv(p, a, 1.10);
    InterleavedPairs(p, Mul(a, 1.10), Add(b, 1.0), Div(a, 1.10), Add(b, -1.0));
    AddThenSubtract(p, b, 1.0);
  }

  lemma KnowledgeSharingCancels(ps: Pools, pop: real, pop': real)
    requires KnowledgeGenerationBonusFactorPolicy in ps.policy && CulturePerCyclePolicyCost in ps.policy
    ensures ApplyPolicyOps(ApplyPolicyOps(ps, Effect(KnowledgeSharingInitiative), pop), RemoveEffect(KnowledgeSharingInitiative), pop') == ps
  {
    var a, b := KnowledgeGenerationBonusFactorPolicy, CulturePerCyclePolicyCost;
    var m, x, d, y := Mul(a, 1.10), Add(b, 1.0), Div(a, 1.10), Add(b, -1.0);
    assert Effect(KnowledgeSharingInitiative) == [OnPolicy(m), OnPolicy(x)];
    assert RemoveEffect(KnowledgeSharingInitiative) == [OnPolicy(d), OnPolicy(y)];
    EnactRemoveChain(ps, OnPolicy(m), OnPolicy(x), OnPolicy(d), OnPolicy(y), pop, pop', m, x, d, y);
    KnowledgePoolCancels(ps.policy);
  }

  lemma ElderCouncilCancels(ps: Pools, pop: real, pop': real)
    requires StabilityPolicyBonus in ps.policy
    ensures ApplyPolicyOps(ApplyPolicyOps(ps, Effect(ElderCouncilSupport), pop), RemoveEffect(ElderCouncilSupport), pop') == ps
  {
    var a := StabilityPolicyBonus;
    var p := ps.policy;
    var o, o' := OnPolicy(Add(a, 2.0)), OnPolicy(Add(a, -2.0));
    assert Effect(ElderCouncilSupport) == [o];
    assert RemoveEffect(ElderCouncilSupport) == [o'];
    ApplyOne(ps, o, pop);
    ApplyOne(ps.(policy := ApplyOp(p, Add(a, 2.0))), o', pop');
    AddThenAdd(p, a, 2.0, -2.0);
    assert p[a := p[a] + 2.0 + -2.0] == p;
  }

  /** The policy-pool keys each policy's effects write. */
  predicate EffectKeysPresent(p: PolicyId, pm: Pool)
  {
    match p
    case FestivalAbundance => StabilityPolicyBonus in pm && CulturePerCyclePolicyBonus in pm
    case ForcedLaborQuotas => ProductionBonusFactorPolicy in pm && PopulationGrowthModifierPolicy in pm
    case KnowledgeSharingInitiative => KnowledgeGenerationBonusFactorPolicy in pm && CulturePerCyclePolicyCost in pm
    case WaterManagementEdict => true
    case ElderCouncilSupport => StabilityPolicyBonus in pm
  }

  /**
   * For every policy with remove-effects except the festival, removal undoes
   * enactment exactly, whatever the population at either moment.
   */
  lemma RemoveCancelsEnact(p: PolicyId, ps: Pools, pop: real, pop': real)
    requires p != FestivalAbundance && p != WaterManagementEdict
    requires EffectKeysPresent(p, ps.policy)
    ensures ApplyPolicyOps(ApplyPolicyOps(ps, Effect(p), pop), RemoveEffect(p), pop') == ps
  {
    match p
    case ForcedLaborQuotas => ForcedLaborCancels(ps, pop, pop');
    case KnowledgeSharingInitiative => KnowledgeSharingCancels(ps, pop, pop');
    case ElderCouncilSupport => ElderCouncilCancels(ps, pop, pop');
  }

  /** The festival's four pool ops leave only the Culture difference t - t'. */
  lemma FestivalPoolDrift(p: Pool, t: real, t': real)
    requires StabilityPolicyBonus in p && CulturePerCyclePolicyBonus in p
    ensures var a, c := StabilityPolicyBonus, CulturePerCyclePolicyBonus;
            ApplyOp(ApplyOp(ApplyOp(ApplyOp(p, Add(a, 10.0)), Add(c, t)), Add(a, -10.0)), Add(c, -t')) == p[c := p[c] + (t - t')]
  {
    var a, c := StabilityPolicyBonus, CulturePerCyclePolicyBonus;
    calc {
      ApplyOp(ApplyOp(ApplyOp(ApplyOp(p, Add(a, 10.0)), Add(c, t)), Add(a, -10.0)), Add(c, -t'));
      == { AddThenSubtract(p, a, 10.0); InterleavedPairs(p, Add(a, 10.0), Add(c, t), Add(a, -10.0), Add(c, -t')); }
      ApplyOp(ApplyOp(p, Add(c, t)), Add(c, -t'));
      == { AddThenAdd(p, c, t, -t'); }
      p[c := p[c] + t + -t'];
      == { assert p[c] + t + -t' == p[c] + (t - t'); }
      p[c := p[c] + (t - t')];
    }
  }

  /**
   * The festival's Stability bonus cancels; its Culture bonus is added from
   * the population at enactment and taken away from the population at removal.
   */
  lemma FestivalRoundTrip(ps: Pools, pop: real, pop': real)
    requires EffectKeysPresent(FestivalAbundance, ps.policy)
    ensures var c := CulturePerCyclePolicyBonus;
            ApplyPolicyOps(ApplyPolicyOps(ps, Effect(FestivalAbundance), pop), RemoveEffect(FestivalAbundance), pop') ==
            ps.(policy := ps.policy[c := ps.policy[c] + (Trunc(pop * 0.05) - Trunc(pop' * 0.05)) as real])
  {
    var a, c := StabilityPolicyBonus, CulturePerCyclePolicyBonus;
    var t, t' := Trunc(pop * 0.05) as real, Trunc(pop' * 0.05) as real;
    var x, x' := OnPolicy(Add(a, 10.0)), OnPolicy(Add(a, -10.0));
    assert Effect(FestivalAbundance) == [x, AddPopShare(c, 0.05)];
    assert RemoveEffect(FestivalAbundance) == [x', SubPopShare(c, 0.05)];
    EnactRemoveChain(ps, x, AddPopShare(c, 0.05), x', SubPopShare(c, 0.05), pop, pop',
                     Add(a, 10.0), Add(c, t), Add(a, -10.0), Add(c, -t'));
    FestivalPoolDrift(ps.policy, t, t');
    assert (Trunc(pop * 0.05) - Trunc(pop' * 0.05)) as real == t - t';
  }

  /**
   * The pools come back exactly after the festival when, and only when,
   * int(Population * 0.05) is the same at enactment and at removal.
   */
  lemma FestivalCancelsIff(ps: Pools, pop: real, pop': real)
    requires EffectKeysPresent(FestivalAbundance, ps.policy)
    ensures ApplyPolicyOps(ApplyPolicyOps(ps, Effect(FestivalAbundance), pop), RemoveEffect(FestivalAbundance), pop') == ps
            <==> Trunc(pop * 0.05) == Trunc(pop' * 0.05)
  {
    FestivalRoundTrip(ps, pop, pop');
    var c := CulturePerCyclePolicyBonus;
    var d := (Trunc(pop * 0.05) - Trunc(pop' * 0.05)) as real;
    var r := ps.policy[c := ps.policy[c] + d];
    if d == 0.0 {
      assert r == ps.policy;
    } else {
      assert r[c] != ps.policy[c];
    }
  }

  /** Enacted at Population 100 and expired at Population 60, the festival leaves 2 Culture per cycle behind. */
  lemma FestivalDrift(ps: Pools)
    requires EffectKeysPresent(FestivalAbundance, ps.policy)
    ensures var after := ApplyPolicyOps(ApplyPolicyOps(ps, Effect(FestivalAbundance), 100.0), RemoveEffect(FestivalAbundance), 60.0);
      after != ps && after.policy[CulturePerCyclePolicyBonus] == ps.policy[CulturePerCyclePolicyBonus] + 2.0
  {
    assert Trunc(100.0 * 0.05) == 5 && Trunc(60.0 * 0.05) == 3;
    FestivalRoundTrip(ps, 100.0, 60.0);
  }

  // --- enactability ---

  /** The running ledger covers every enactment cost. */
  predicate CostsCovered(res: Resources, costs: seq<(Res, real)>)
  {
    forall i :: 0 <= i < |costs| ==> res.Get(costs[i].0) >= costs[i].1
  }

  /** The prerequisite checks of `get_enactable_policies`. */
  predicate PrerequisitesMet(p: PolicyId, res: Resources, researched: set<TechTree.TechId>, completed: Buildings.Completed)
  {
    && (forall i :: 0 <= i < |TechPrerequisites(p)| ==> TechPrerequisites(p)[i] in researched)
    && CostsCovered(res, Cost(p))
    && res.stability >= MinStability(p)
    && res.population >= MinPopulation(p)
    && (forall i :: 0 <= i < |BuildingPrerequisites(p)| ==>
          Buildings.CountOf(completed, BuildingPrerequisites(p)[i].0) >= BuildingPrerequisites(p)[i].1)
  }

  predicate OnCooldown(p: PolicyId, cooldowns: Dict<PolicyId, int>, cycle: int)
  {
    Has(cooldowns, p) && Lookup(cooldowns, p) > cycle
  }

  /** Neither active nor cooling down, with every prerequisite met. */
  predicate Enactable(p: PolicyId, active: Dict<PolicyId, ActiveInfo>, cooldowns: Dict<PolicyId, int>, cycle: int,
                      res: Resources, researched: set<TechTree.TechId>, completed: Buildings.Completed)
  {
    !Has(active, p) && !OnCooldown(p, cooldowns, cycle) && PrerequisitesMet(p, res, researched, completed)
  }

  /** `active_policies[id]`: remaining duration, enactment cycle and type. */
  datatype ActiveInfo = ActiveInfo(remaining: Option<int>, enactedCycle: int, kind: PolicyType)

  /** `get_enactable_policies` over the table in `order`. */
  function EnactableIds(order: seq<PolicyId>, active: Dict<PolicyId, ActiveInfo>, cooldowns: Dict<PolicyId, int>, cycle: int,
                        res: Resources, researched: set<TechTree.TechId>, completed: Buildings.Completed): (r: seq<PolicyId>)
    ensures forall p :: p in r <==> p in order && Enactable(p, active, cooldowns, cycle, res, researched, completed)
    decreases |order|
  {
    if order == [] then []
    else
      var rest := EnactableIds(order[1..], active, cooldowns, cycle, res, researched, completed);
      assert order == [order[0]] + order[1..];
      if Enactable(order[0], active, cooldowns, cycle, res, researched, completed) then [order[0]] + rest else rest
  }

  datatype EnactOutcome = Enacted | UnknownPolicy | AlreadyActive | CoolingDown(until: int) | CannotEnact
  {
    predicate IsError() { !Enacted? }
  }

  /** The outcome of `enact_policy`: when the id is not enactable, the first reason in the source's order. */
  function EnactVerdict(key: string, active: Dict<PolicyId, ActiveInfo>, cooldowns: Dict<PolicyId, int>, cycle: int,
                        res: Resources, researched: set<TechTree.TechId>, completed: Buildings.Completed): (r: EnactOutcome)
    ensures r.Enacted? <==> Parse(key).Some? && Enactable(Parse(key).value, active, cooldowns, cycle, res, researched, completed)
    ensures r.UnknownPolicy? <==> Parse(key).None?
    ensures r.AlreadyActive? <==> Parse(key).Some? && Has(active, Parse(key).value)
    ensures r.CoolingDown? <==> Parse(key).Some? && !Has(active, Parse(key).value) && OnCooldown(Parse(key).value, cooldowns, cycle)
    ensures r.CoolingDown? ==> r.until == Lookup(cooldowns, Parse(key).value) && r.until > cycle
  {
    match Parse(key)
    case None => UnknownPolicy
    case Some(p) =>
      if Enactable(p, active, cooldowns, cycle, res, researched, completed) then Enacted
      else if Has(active, p) then AlreadyActive
      else if OnCooldown(p, cooldowns, cycle) then CoolingDown(Lookup(cooldowns, p))
      else CannotEnact
  }

  /** `core_resources[resource] -= amount` for each cost in order. */
  function DeductCosts(res: Resources, costs: seq<(Res, real)>): Resources
    decreases |costs|
  {
    if costs == [] then res
    else
      var last := costs[|costs| - 1];
      var before := DeductCosts(res, costs[..|costs| - 1]);
      before.Set(last.0, before.Get(last.0) - last.1)
  }

  /** With each resource named once, each cost is deducted exactly once and nothing else moves. */
  lemma {:induction false} DeductCostsExact(res: Resources, costs: seq<(Res, real)>)
    requires forall i, j :: 0 <= i < j < |costs| ==> costs[i].0 != costs[j].0
    ensures var out := DeductCosts(res, costs);
      && (forall i :: 0 <= i < |costs| ==> out.Get(costs[i].0) == res.Get(costs[i].0) - costs[i].1)
      && (forall r :: (forall i :: 0 <= i < |costs| ==> costs[i].0 != r) ==> out.Get(r) == res.Get(r))
    decreases |costs|
  {
    if costs != [] {
      var init := costs[..|costs| - 1];
      assert forall i :: 0 <= i < |init| ==> init[i] == costs[i];
      DeductCostsExact(res, init);
    }
  }

  /** A policy that passed the checks can pay: no cost drives its resource below zero. */
  lemma EnactedCostsAffordable(p: PolicyId, res: Resources, researched: set<TechTree.TechId>, completed: Buildings.Completed)
    requires PrerequisitesMet(p, res, researched, completed)
    ensures forall i :: 0 <= i < |Cost(p)| ==> DeductCosts(res, Cost(p)).Get(Cost(p)[i].0) >= 0.0
  {
    DeductCostsExact(res, Cost(p));
  }

  // --- update_active_policies ---

  function TickEntry(info: ActiveInfo): ActiveInfo
  {
    if info.kind.TimedActive? && info.remaining.Some? then info.(remaining := Some(info.remaining.value - 1)) else info
  }

  /** Whether the decrement just brought a timed policy to 0 or below. */
  predicate JustExpired(info: ActiveInfo)
  {
    info.kind.TimedActive? && info.remaining.Some? && info.remaining.value - 1 <= 0
  }

  /** The first loop: decrement every timed policy, collecting in order those that ran out. */
  function TickAll(active: Dict<PolicyId, ActiveInfo>): (r: (Dict<PolicyId, ActiveInfo>, seq<PolicyId>))
    ensures |r.0| == |active|
    ensures forall i :: 0 <= i < |active| ==> r.0[i] == (active[i].0, TickEntry(active[i].1))
    ensures forall p :: p in r.1 <==> exists i :: 0 <= i < |active| && active[i].0 == p && JustExpired(active[i].1)
    decreases |active|
  {
    if active == [] then ([], [])
    else
      var init := active[..|active| - 1];
      var (ticked, expired) := TickAll(init);
      var (p, info) := active[|active| - 1];
      assert forall i :: 0 <= i < |init| ==> init[i] == active[i];
      (ticked + [(p, TickEntry(info))], expired + (if JustExpired(info) then [p] else []))
  }

  /** What the expiry loop reads and writes. */
  datatype PolicyState = PolicyState(active: Dict<PolicyId, ActiveInfo>, cooldowns: Dict<PolicyId, int>,
                                     pools: Pools, log: seq<string>)

  function EnactedMessage(p: PolicyId): string
  {
    "Policy Enacted: '" + Name(p) + "'. " + Description(p)
  }

  function RevokedMessage(p: PolicyId): string
  {
    "Policy Revoked: '" + Name(p) + "'."
  }

  function RevokedEntry(p: PolicyId): string
  {
    Events.Entry(RevokedMessage(p), true)
  }

  function ExpiredMessage(p: PolicyId): string
  {
    "Policy Expired: '" + Name(p) + "'."
  }

  function ExpiredEntry(p: PolicyId): string
  {
    Events.Entry(ExpiredMessage(p), true)
  }

  /** Ending a policy: remove-effects once, the entry deleted, the cooldown set when it is nonzero. */
  function EndPolicy(st: PolicyState, p: PolicyId, population: real, cycle: int): PolicyState
  {
    PolicyState(Remove(st.active, p),
                if Cooldown(p) != 0 then Put(st.cooldowns, p, cycle + Cooldown(p)) else st.cooldowns,
                ApplyPolicyOps(st.pools, RemoveEffect(p), population),
                st.log)
  }

  /** The second loop: for each expired id in order, log, then end the policy. */
  function ExpireAll(st: PolicyState, expired: seq<PolicyId>, population: real, cycle: int): PolicyState
    decreases |expired|
  {
    if expired == [] then st
    else
      var before := ExpireAll(st, expired[..|expired| - 1], population, cycle);
      var p := expired[|expired| - 1];
      EndPolicy(before.(log := Events.Logged(before.log, ExpiredEntry(p))), p, population, cycle)
  }

  /** The third loop's list: the ids whose cooldown has ended, in order. */
  function EndedIds(cooldowns: Dict<PolicyId, int>, cycle: int): (r: seq<PolicyId>)
    ensures forall p :: p in r <==> exists i :: 0 <= i < |cooldowns| && cooldowns[i].0 == p && cycle >= cooldowns[i].1
    decreases |cooldowns|
  {
    if cooldowns == [] then []
    else
      var rest := EndedIds(cooldowns[1..], cycle);
      assert forall i :: 0 < i < |cooldowns| ==> cooldowns[i] == cooldowns[1..][i - 1];
      (if cycle >= cooldowns[0].1 then [cooldowns[0].0] else []) + rest
  }

  function OffCooldownMessage(p: PolicyId): string
  {
    "Policy '" + Name(p) + "' is now off cooldown."
  }

  function OffCooldownEntry(p: PolicyId): string
  {
    Events.Entry(OffCooldownMessage(p), false)
  }

  /** The third loop: delete each ended cooldown and log it. */
  function ClearAll(cooldowns: Dict<PolicyId, int>, log: seq<string>, ended: seq<PolicyId>): (Dict<PolicyId, int>, seq<string>)
    decreases |ended|
  {
    if ended == [] then (cooldowns, log)
    else
      var (c, l) := ClearAll(cooldowns, log, ended[..|ended| - 1]);
      var p := ended[|ended| - 1];
      (Remove(c, p), Events.Logged(l, OffCooldownEntry(p)))
  }

  /** Deleting a list of keys keeps exactly the entries under other keys. */
  lemma {:induction false} ClearAllEntries(cooldowns: Dict<PolicyId, int>, log: seq<string>, ended: seq<PolicyId>, e: (PolicyId, int))
    ensures e in ClearAll(cooldowns, log, ended).0 <==> e in cooldowns && e.0 !in ended
    decreases |ended|
  {
    if ended != [] {
      var init := ended[..|ended| - 1];
      ClearAllEntries(cooldowns, log, init, e);
      RemoveEntries(ClearAll(cooldowns, log, init).0, ended[|ended| - 1], e);
      assert ended == init + [ended[|ended| - 1]];
    }
  }

  /**
   * After the third loop exactly the cooldowns that end after the current
   * cycle remain: every one with `current >= end` is cleared, and every one
   * ending later, including one just set with a positive length, survives.
   */
  lemma ClearedAreExactlyFuture(cooldowns: Dict<PolicyId, int>, log: seq<string>, cycle: int, e: (PolicyId, int))
    requires UniqueKeys(cooldowns)
    ensures e in ClearAll(cooldowns, log, EndedIds(cooldowns, cycle)).0 <==> e in cooldowns && e.1 > cycle
  {
    var ended := EndedIds(cooldowns, cycle);
    ClearAllEntries(cooldowns, log, ended, e);
  }

  /** Every policy the expiry loop ends with a nonzero cooldown holds `cycle + Cooldown(p)` afterwards, whatever came after it. */
  lemma {:induction false} ExpirySetsCooldown(st: PolicyState, expired: seq<PolicyId>, population: real, cycle: int, p: PolicyId)
    requires p in expired && Cooldown(p) != 0
    ensures var c := ExpireAll(st, expired, population, cycle).cooldowns;
            Has(c, p) && GetOr(c, p, 0) == cycle + Cooldown(p)
    decreases |expired|
  {
    hide ApplyPolicyOps, RemoveEffect, Events.Logged, ExpiredEntry, Remove, Put, GetOr;
    var init := expired[..|expired| - 1];
    var q := expired[|expired| - 1];
    var c := ExpireAll(st, init, population, cycle).cooldowns;
    ExpireStepCooldowns(st, expired, population, cycle);
    if q == p {
      PutGetOr(c, p, cycle + Cooldown(p), p, 0);
    } else {
      assert expired == init + [q];
      ExpirySetsCooldown(st, init, population, cycle, p);
      if Cooldown(q) != 0 {
        PutGetOr(c, q, cycle + Cooldown(q), p, 0);
        HasPut(c, q, cycle + Cooldown(q), p);
      }
    }
  }

  /** One step of the expiry loop on the cooldowns: the ended policy's cooldown is set when it is nonzero. */
  lemma ExpireStepCooldowns(st: PolicyState, expired: seq<PolicyId>, population: real, cycle: int)
    requires expired != []
    ensures var c := ExpireAll(st, expired[..|expired| - 1], population, cycle).cooldowns;
            var q := expired[|expired| - 1];
            ExpireAll(st, expired, population, cycle).cooldowns == if Cooldown(q) != 0 then Put(c, q, cycle + Cooldown(q)) else c
  {
    hide ApplyPolicyOps, RemoveEffect, Events.Logged, ExpiredEntry, Remove, Put;
  }

  /** The expiry loop keeps the cooldown keys unique. */
  lemma {:induction false} ExpireAllUnique(st: PolicyState, expired: seq<PolicyId>, population: real, cycle: int)
    requires UniqueKeys(st.cooldowns)
    ensures UniqueKeys(ExpireAll(st, expired, population, cycle).cooldowns)
    decreases |expired|
  {
    hide ApplyPolicyOps, RemoveEffect, Events.Logged, ExpiredEntry, Remove, Put;
    if expired != [] {
      var init := expired[..|expired| - 1];
      var q := expired[|expired| - 1];
      ExpireAllUnique(st, init, population, cycle);
      ExpireStepCooldowns(st, expired, population, cycle);
      var c := ExpireAll(st, init, population, cycle).cooldowns;
      if Cooldown(q) != 0 {
        PutUnique(c, q, cycle + Cooldown(q));
      }
    }
  }


  /**
   * Lines 247-266: a policy that expires in this call with a nonzero cooldown
   * keeps its cooldown entry through the clearing loop of the same call.
   */
  lemma ExpiredCooldownSurvives(st: PolicyState, expired: seq<PolicyId>, population: real, cycle: int, log: seq<string>,
                                p: PolicyId)
    requires UniqueKeys(st.cooldowns) && p in expired && Cooldown(p) != 0
    ensures var c := ExpireAll(st, expired, population, cycle).cooldowns;
            (p, cycle + Cooldown(p)) in ClearAll(c, log, EndedIds(c, cycle)).0
  {
    var c := ExpireAll(st, expired, population, cycle).cooldowns;
    ExpirySetsCooldown(st, expired, population, cycle, p);
    ExpireAllUnique(st, expired, population, cycle);
    assert (p, cycle + Cooldown(p)) in c;
    ClearedAreExactlyFuture(c, log, cycle, (p, cycle + Cooldown(p)));
  }

  // --- the manager ---

  class PolicyManager {
    const gs: State
    const tree: TechTree.TechTree
    const bm: Buildings.BuildingManager
    const em: Events.EventManager
    /** `policies_definitions`, in dictionary order. */
    const order: seq<PolicyId>
    var active: Dict<PolicyId, ActiveInfo>
    var cooldowns: Dict<PolicyId, int>

    ghost predicate Valid()
      reads this
    {
      UniqueKeys(active) && UniqueKeys(cooldowns)
    }

    constructor(gs: State, tree: TechTree.TechTree, bm: Buildings.BuildingManager, em: Events.EventManager, order: seq<PolicyId>)
      ensures this.gs == gs && this.tree == tree && this.bm == bm && this.em == em && this.order == order
      ensures active == [] && cooldowns == []
      ensures Valid()
    {
      this.gs := gs;
      this.tree := tree;
      this.bm := bm;
      this.em := em;
      this.order := order;
      active := [];
      cooldowns := [];
    }

    /** `get_enactable_policies`: the enactable ids, in table order. */
    method GetEnactablePolicies() returns (enactable: seq<PolicyId>)
      ensures enactable == EnactableIds(order, active, cooldowns, gs.currentCycle, gs.res, tree.researched, bm.completed)
    {
      enactable := [];
      var i := |order|;
      while i > 0
        invariant 0 <= i <= |order|
        invariant enactable == EnactableIds(order[i..], active, cooldowns, gs.currentCycle, gs.res, tree.researched, bm.completed)
      {
        i := i - 1;
        assert order[i..][1..] == order[i + 1..];
        var p := order[i];
        if Enactable(p, active, cooldowns, gs.currentCycle, gs.res, tree.researched, bm.completed) {
          enactable := [p] + enactable;
        }
      }
    }

    /**
     * `enact_policy`: on success the costs are deducted in order, the effect
     * runs once, the policy joins the end of the active map, and a major entry
     * is logged; on any error nothing changes.
     */
    method EnactPolicy(key: string) returns (r: EnactOutcome)
      requires Valid()
      modifies this`active, gs`res, gs`techMods, gs`policyMods, em`log
      ensures Valid()
      ensures r == EnactVerdict(key, old(active), cooldowns, gs.currentCycle, old(gs.res), tree.researched, bm.completed)
      ensures r.IsError() ==> active == old(active) && gs.res == old(gs.res) && gs.techMods == old(gs.techMods) &&
                              gs.policyMods == old(gs.policyMods) && em.log == old(em.log)
      ensures r.Enacted? ==>
                var p := Parse(key).value;
                var res := DeductCosts(old(gs.res), Cost(p));
                && gs.res == res
                && Pools(gs.techMods, gs.policyMods) == ApplyPolicyOps(Pools(old(gs.techMods), old(gs.policyMods)), Effect(p), res.population)
                && active == old(active) + [(p, ActiveInfo(Duration(p), gs.currentCycle, Type(p)))]
                && em.log == Events.Logged(old(em.log), Events.Entry(EnactedMessage(p), true))
    {
      r := EnactVerdict(key, active, cooldowns, gs.currentCycle, gs.res, tree.researched, bm.completed);
      if r.IsError() {
        return;
      }
      Enact(Parse(key).value);
    }

    /** The success path of `enact_policy`, for a policy that is not active. */
    method Enact(p: PolicyId)
      requires Valid() && !Has(active, p)
      modifies this`active, gs`res, gs`techMods, gs`policyMods, em`log
      ensures Valid()
      ensures gs.res == DeductCosts(old(gs.res), Cost(p))
      ensures Pools(gs.techMods, gs.policyMods) == ApplyPolicyOps(Pools(old(gs.techMods), old(gs.policyMods)), Effect(p), gs.res.population)
      ensures active == old(active) + [(p, ActiveInfo(Duration(p), gs.currentCycle, Type(p)))]
      ensures em.log == Events.Logged(old(em.log), Events.Entry(EnactedMessage(p), true))
    {
      hide ApplyPolicyOps, DeductCosts, Events.Logged, Put, UniqueKeys, Effect, Cost, Duration, Type, EnactedMessage;
      EnactState(p);
      em.LogEvent(EnactedMessage(p), true);
    }

    /** Costs, effect and the new active entry, in the source's order. */
    method EnactState(p: PolicyId)
      requires Valid() && !Has(active, p)
      modifies this`active, gs`res, gs`techMods, gs`policyMods
      ensures Valid()
      ensures gs.res == DeductCosts(old(gs.res), Cost(p))
      ensures Pools(gs.techMods, gs.policyMods) == ApplyPolicyOps(Pools(old(gs.techMods), old(gs.policyMods)), Effect(p), gs.res.population)
      ensures active == old(active) + [(p, ActiveInfo(Duration(p), gs.currentCycle, Type(p)))]
    {
      DeductCostsOf(Cost(p));
      RunEffect(Effect(p), gs.res.population);
      PutUnique(active, p, ActiveInfo(Duration(p), gs.currentCycle, Type(p)));
      active := Put(active, p, ActiveInfo(Duration(p), gs.currentCycle, Type(p)));
    }

    /** One call of an effect or remove-effect lambda on the two modifier pools. */
    method RunEffect(ops: seq<PolicyOp>, population: real)
      requires forall i :: 0 <= i < |ops| ==> PolicyOpOk(ops[i])
      modifies gs`techMods, gs`policyMods
      ensures Pools(gs.techMods, gs.policyMods) == ApplyPolicyOps(Pools(old(gs.techMods), old(gs.policyMods)), ops, population)
    {
      var ps := ApplyPolicyOps(Pools(gs.techMods, gs.policyMods), ops, population);
      gs.techMods, gs.policyMods := ps.tech, ps.policy;
    }

    /** The cost loop of `enact_policy`. */
    method DeductCostsOf(costs: seq<(Res, real)>)
      modifies gs`res
      ensures gs.res == DeductCosts(old(gs.res), costs)
    {
      var i := 0;
      while i < |costs|
        invariant 0 <= i <= |costs|
        invariant gs.res == DeductCosts(old(gs.res), costs[..i])
      {
        assert costs[..i + 1][..i] == costs[..i];
        gs.res := gs.res.Set(costs[i].0, gs.res.Get(costs[i].0) - costs[i].1);
        i := i + 1;
      }
      assert costs[..i] == costs;
    }

    /**
     * `revoke_policy`: only an active toggleable policy can be revoked; its
     * remove-effects run once, its entry is deleted, its cooldown starts, and
     * a major entry is logged.
     */
    method RevokePolicy(key: string) returns (r: RevokeOutcome)
      requires Valid()
      modifies this`active, this`cooldowns, gs`techMods, gs`policyMods, em`log
      ensures Valid()
      ensures r == RevokeVerdict(key, old(active))
      ensures r.IsError() ==> active == old(active) && cooldowns == old(cooldowns) && gs.techMods == old(gs.techMods) &&
                              gs.policyMods == old(gs.policyMods) && em.log == old(em.log)
      ensures r.Revoked? ==>
                var p := Parse(key).value;
                var st := EndPolicy(PolicyState(old(active), old(cooldowns), Pools(old(gs.techMods), old(gs.policyMods)), old(em.log)),
                                    p, gs.res.population, gs.currentCycle);
                && active == st.active && cooldowns == st.cooldowns && Pools(gs.techMods, gs.policyMods) == st.pools
                && !Has(active, p)
                && em.log == Events.Logged(old(em.log), RevokedEntry(p))
    {
      r := RevokeVerdict(key, active);
      if r.IsError() {
        return;
      }
      var p := Parse(key).value;
      EndPolicyStep(p);
      em.LogEvent(RevokedMessage(p), true);
    }

    /** Remove-effects once, delete the entry, start the cooldown when it is nonzero. */
    method EndPolicyStep(p: PolicyId)
      requires Valid()
      modifies this`active, this`cooldowns, gs`techMods, gs`policyMods
      ensures Valid()
      ensures EndPolicy(PolicyState(old(active), old(cooldowns), Pools(old(gs.techMods), old(gs.policyMods)), em.log),
                        p, gs.res.population, gs.currentCycle) ==
              PolicyState(active, cooldowns, Pools(gs.techMods, gs.policyMods), em.log)
    {
      var ps := ApplyPolicyOps(Pools(gs.techMods, gs.policyMods), RemoveEffect(p), gs.res.population);
      gs.techMods, gs.policyMods := ps.tech, ps.policy;
      RemoveUnique(active, p);
      active := Remove(active, p);
      if Cooldown(p) != 0 {
        PutUnique(cooldowns, p, gs.currentCycle + Cooldown(p));
        cooldowns := Put(cooldowns, p, gs.currentCycle + Cooldown(p));
      }
    }

    /** `update_active_policies`: tick, expire, then clear the ended cooldowns. */
    method UpdateActivePolicies()
      requires Valid()
      modifies this`active, this`cooldowns, gs`techMods, gs`policyMods, em`log
      ensures Valid()
      ensures var (ticked, expired) := TickAll(old(active));
              var st := ExpireAll(PolicyState(ticked, old(cooldowns), Pools(old(gs.techMods), old(gs.policyMods)), old(em.log)),
                                  expired, gs.res.population, gs.currentCycle);
              var (c, l) := ClearAll(st.cooldowns, st.log, EndedIds(st.cooldowns, gs.currentCycle));
              active == st.active && cooldowns == c && em.log == l && Pools(gs.techMods, gs.policyMods) == st.pools
      ensures forall i :: 0 <= i < |cooldowns| ==> cooldowns[i].1 > gs.currentCycle
    {
      var expired := TickDurations();
      ExpirePolicies(expired);
      ClearEndedCooldowns();
    }

    /** The first loop of `update_active_policies`. */
    method TickDurations() returns (expired: seq<PolicyId>)
      requires Valid()
      modifies this`active
      ensures Valid()
      ensures (active, expired) == TickAll(old(active))
    {
      var ticked: Dict<PolicyId, ActiveInfo> := [];
      expired := [];
      var i := 0;
      while i < |active|
        invariant 0 <= i <= |active|
        invariant (ticked, expired) == TickAll(active[..i])
      {
        var p, info := active[i].0, active[i].1;
        ghost var step := TickAll(active[..i + 1]);
        assert active[..i + 1][..i] == active[..i] && active[..i + 1][i] == (p, info);
        assert step == (ticked + [(p, TickEntry(info))], expired + if JustExpired(info) then [p] else []);
        ghost var before := info;
        if info.kind.TimedActive? && info.remaining.Some? {
          info := info.(remaining := Some(info.remaining.value - 1));
          if info.remaining.value <= 0 {
            expired := expired + [p];
          }
        }
        assert info == TickEntry(before);
        ticked := ticked + [(p, info)];
        assert ticked == step.0;
        assert expired == step.1;
        i := i + 1;
      }
      assert active[..i] == active;
      active := ticked;
    }

    /** The second loop of `update_active_policies`. */
    method ExpirePolicies(expired: seq<PolicyId>)
      requires Valid()
      modifies this`active, this`cooldowns, gs`techMods, gs`policyMods, em`log
      ensures Valid()
      ensures ExpireAll(PolicyState(old(active), old(cooldowns), Pools(old(gs.techMods), old(gs.policyMods)), old(em.log)),
                        expired, gs.res.population, gs.currentCycle) ==
              PolicyState(active, cooldowns, Pools(gs.techMods, gs.policyMods), em.log)
    {
      ghost var start := PolicyState(active, cooldowns, Pools(gs.techMods, gs.policyMods), em.log);
      var j := 0;
      while j < |expired|
        invariant 0 <= j <= |expired|
        invariant Valid()
        invariant ExpireAll(start, expired[..j], gs.res.population, gs.currentCycle) ==
                  PolicyState(active, cooldowns, Pools(gs.techMods, gs.policyMods), em.log)
      {
        assert expired[..j + 1][..j] == expired[..j];
        var p := expired[j];
        em.LogEvent(ExpiredMessage(p), true);
        EndPolicyStep(p);
        j := j + 1;
      }
      assert expired[..j] == expired;
    }

    /** The third loop of `update_active_policies`. */
    method ClearEndedCooldowns()
      requires Valid()
      modifies this`cooldowns, em`log
      ensures Valid()
      ensures (cooldowns, em.log) == ClearAll(old(cooldowns), old(em.log), EndedIds(old(cooldowns), gs.currentCycle))
      ensures forall i :: 0 <= i < |cooldowns| ==> cooldowns[i].1 > gs.currentCycle
    {
      var ended := EndedIds(cooldowns, gs.currentCycle);
      ghost var c0, l0 := cooldowns, em.log;
      var k := 0;
      while k < |ended|
        invariant 0 <= k <= |ended|
        invariant UniqueKeys(cooldowns) && UniqueKeys(active)
        invariant (cooldowns, em.log) == ClearAll(c0, l0, ended[..k])
      {
        assert ended[..k + 1][..k] == ended[..k];
        var p := ended[k];
        RemoveUnique(cooldowns, p);
        cooldowns := Remove(cooldowns, p);
        em.LogEvent(OffCooldownMessage(p), false);
        k := k + 1;
      }
      assert ended[..k] == ended;
      forall i | 0 <= i < |cooldowns|
        ensures cooldowns[i].1 > gs.currentCycle
      {
        ClearedAreExactlyFuture(c0, l0, gs.currentCycle, cooldowns[i]);
      }
    }
  }

  datatype RevokeOutcome = Revoked | NotActive | NotToggleable
  {
    predicate IsError() { !Revoked? }
  }

  /** The checks of `revoke_policy`, on the type recorded at enactment. */
  function RevokeVerdict(key: string, active: Dict<PolicyId, ActiveInfo>): (r: RevokeOutcome)
    ensures r.Revoked? <==> Parse(key).Some? && Has(active, Parse(key).value) &&
                            Lookup(active, Parse(key).value).kind == ToggleableActive
    ensures r.NotActive? <==> Parse(key).None? || !Has(active, Parse(key).value)
  {
    match Parse(key)
    case None => NotActive
    case Some(p) =>
      if !Has(active, p) then NotActive
      else if Lookup(active, p).kind != ToggleableActive then NotToggleable
      else Revoked
  }
}
