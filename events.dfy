/**
 * The event manager (text_epoch/event_manager.py): a table of random and
 * decision events scanned once per cycle against injected random draws, a
 * pending-decision state machine resolved by a 1-based choice number, and a
 * log that keeps only the newest thirty entries.
 *
 * Trigger conditions and effects are data: a condition compares one ledger
 * value with a constant, an effect is a list of ledger updates followed by
 * its outcome message.
 */
module Events {
  import opened Wrappers
  import opened Numbers
  import opened Text
  import opened GameState

  // --- the log ---

  const LogCapacity: nat := 30

  /** The entry `log_event` records for a message. */
  function Entry(message: string, major: bool): string
  {
    (if major then "MAJOR EVENT: " else "EVENT: ") + message
  }

  /** `log_event`: append, then evict the oldest entry when the log holds more than thirty. */
  function Logged(log: seq<string>, entry: string): (r: seq<string>)
    ensures r != [] && r[|r| - 1] == entry
    ensures |log| < LogCapacity ==> r == log + [entry]
    ensures |log| >= LogCapacity ==> |r| == |log| && r == (log + [entry])[1..]
    ensures |log| <= LogCapacity ==> |r| <= LogCapacity
  {
    var l := log + [entry];
    if |l| > LogCapacity then l[1..] else l
  }

  /** Logging several entries one after the other. */
  function LoggedAll(log: seq<string>, entries: seq<string>): seq<string>
    decreases |entries|
  {
    if entries == [] then log
    else Logged(LoggedAll(log, entries[..|entries| - 1]), entries[|entries| - 1])
  }

  /** Logging one or two entries. */
  lemma LoggedOneOrTwo(log: seq<string>, entries: seq<string>)
    requires 1 <= |entries| <= 2
    ensures LoggedAll(log, entries) ==
      if |entries| == 1 then Logged(log, entries[0]) else Logged(Logged(log, entries[0]), entries[1])
  {
    assert entries[..|entries| - 1][..0] == [];
    if |entries| == 2 {
      assert entries[..1][0] == entries[0];
    }
  }

  /** The newest `n` elements of `s` (all of them when there are fewer). */
  function Newest<T>(s: seq<T>, n: nat): seq<T>
  {
    if |s| <= n then s else s[|s| - n..]
  }

  /** Whatever was logged, the log is the newest thirty entries of everything ever appended. */
  lemma {:induction false} LogWindow(log: seq<string>, entries: seq<string>)
    requires |log| <= LogCapacity
    ensures LoggedAll(log, entries) == Newest(log + entries, LogCapacity)
    decreases |entries|
  {
    if entries != [] {
      var init := entries[..|entries| - 1];
      var e := entries[|entries| - 1];
      LogWindow(log, init);
      assert log + entries == (log + init) + [e];
    }
  }

  // --- effects and conditions as data ---

  /** One update of the ledger made by an effect. */
  datatype LedgerOp =
    | Gain(r: Res, x: real)                   // r += x
    | GainShare(r: Res, src: Res, f: real)    // r += int(src * f)
    | LoseShare(r: Res, f: real)              // r = max(0, r - int(r * f))
    | GainCapped(r: Res, x: real)             // r = min(100, r + x)
    | LoseFloored(r: Res, x: real)            // r = max(0, r - x)
    | LoseRolled(r: Res)                      // r = max(0, r - random.randint(0, 3))

  /** `roll` is the value `random.randint(0, 3)` returned. */
  function ApplyLedgerOp(res: Resources, op: LedgerOp, roll: nat): (out: Resources)
    ensures forall k :: k != op.r ==> out.Get(k) == res.Get(k)
  {
    var v := res.Get(op.r);
    match op
    case Gain(_, x) => res.Set(op.r, v + x)
    case GainShare(_, src, f) => res.Set(op.r, v + Trunc(res.Get(src) * f) as real)
    case LoseShare(_, f) => res.Set(op.r, Max(0.0, v - Trunc(v * f) as real))
    case GainCapped(_, x) => res.Set(op.r, Min(100.0, v + x))
    case LoseFloored(_, x) => res.Set(op.r, Max(0.0, v - x))
    case LoseRolled(_) => res.Set(op.r, Max(0.0, v - roll as real))
  }

  /** The updates in order. */
  function ApplyLedgerOps(res: Resources, ops: seq<LedgerOp>, roll: nat): Resources
    decreases |ops|
  {
    if ops == [] then res
    else ApplyLedgerOp(ApplyLedgerOps(res, ops[..|ops| - 1], roll), ops[|ops| - 1], roll)
  }

  /** Updates that only ever floor at zero or cap at 100 keep a value inside [0, 100] there. */
  predicate Bounded(op: LedgerOp)
  {
    match op
    case Gain(_, _) => false
    case GainShare(_, _, _) => false
    case LoseShare(_, f) => 0.0 <= f <= 1.0
    case GainCapped(_, x) => x >= 0.0
    case LoseFloored(_, x) => x >= 0.0
    case LoseRolled(_) => true
  }

  /** Stability stays in [0, 100] under effects whose Stability updates are all capped or floored. */
  lemma {:induction false} LedgerOpsKeepStability(res: Resources, ops: seq<LedgerOp>, roll: nat)
    requires 0.0 <= res.stability <= 100.0
    requires forall i :: 0 <= i < |ops| && ops[i].r == Stability ==> Bounded(ops[i])
    ensures 0.0 <= ApplyLedgerOps(res, ops, roll).stability <= 100.0
    decreases |ops|
  {
    if ops != [] {
      var init := ops[..|ops| - 1];
      assert forall i :: 0 <= i < |init| ==> init[i] == ops[i];
      LedgerOpsKeepStability(res, init, roll);
      var before := ApplyLedgerOps(res, init, roll);
      var op := ops[|ops| - 1];
      if op.r == Stability {
        var v := before.stability;
        assert before.Get(Stability) == v;
        if op.LoseShare? {
          var t := Trunc(v * op.f);
          assert 0.0 <= v * op.f <= v;
          assert 0.0 <= t as real <= v;
        }
      }
    }
  }

  /** An effect's ledger updates, then its outcome message. */
  datatype Effect = Effect(ops: seq<LedgerOp>, outcome: string)

  datatype Choice = Choice(text: string, effect: Effect)

  /** `trigger_conditions`. */
  datatype Cond = Always | Exceeds(r: Res, x: real)

  predicate Holds(c: Cond, res: Resources)
  {
    match c
    case Always => true
    case Exceeds(r, x) => res.Get(r) > x
  }

  datatype Kind = RandomEvent(effect: Effect) | DecisionEvent(choices: seq<Choice>)

  /** One entry of `events_data`; absent keys take the defaults the manager reads them with. */
  datatype EventDef = EventDef(id: string, title: string, description: string, probability: real,
                               cond: Cond, kind: Kind, oneTime: bool, stopsScan: bool)

  /** `pending_decision_event`. */
  datatype Pending = Pending(id: string, title: string, description: string, choices: seq<Choice>)

  /** Table keys are distinct, as dictionary keys are. */
  predicate UniqueIds(events: seq<EventDef>)
  {
    forall i, j :: 0 <= i < j < |events| ==> events[i].id != events[j].id
  }

  // --- the catalogue ---

  const BumperHarvest := EventDef(
    "bumper_harvest", "Unexpected Bumper Harvest",
    "Favorable weather and unexpected fertility have led to an unusually large harvest.",
    0.05, Always,
    RandomEvent(Effect([Gain(Food, 50.0), GainShare(Food, Population, 0.5), GainCapped(Stability, 5.0)],
                       "Outcome: Food increased significantly (+50, +0.5/Pop). Stability improved (+5%).")),
    false, false)

  const RodentInfestation := EventDef(
    "rodent_infestation", "Rodent Infestation",
    "Rodents have infested food stores, leading to significant losses.",
    0.03, Exceeds(Food, 20.0),
    RandomEvent(Effect([LoseShare(Food, 0.15), LoseFloored(Stability, 3.0)],
                       "Outcome: Food decreased by 15%. Stability slightly worsened (-3%).")),
    false, false)

  const StrangeLights := EventDef(
    "strange_lights", "Strange Lights in the Sky",
    "Elderly members of the tribe speak of strange, fleeting lights observed in the night sky. Some are fearful, others curious.",
    0.02, Exceeds(Knowledge, 30.0),
    DecisionEvent([
      Choice("Dismiss them as ill omens. Focus on earthly matters and appease the spirits with work.",
             Effect([Gain(Culture, 10.0), LoseFloored(Knowledge, 5.0), GainCapped(Stability, 2.0)],
                    "Choice Outcome: Culture +10, Knowledge -5, Stability +2.")),
      Choice("Order the wisest to observe and interpret them. Knowledge is paramount.",
             Effect([Gain(Knowledge, 20.0), LoseFloored(Culture, 5.0), LoseRolled(Stability)],
                    "Choice Outcome: Knowledge +20, Culture -5. Stability may have slightly decreased due to unease.")),
      Choice("Proclaim them a sign from the ancient spirits! Hold a grand ritual to seek guidance.",
             Effect([Gain(Culture, 30.0), GainCapped(Stability, 5.0), LoseFloored(Production, 15.0), LoseFloored(Food, 20.0)],
                    "Choice Outcome: Culture +30, Stability +5. Production -15, Food -20 due to ritual preparations."))]),
    false, false)

  /** The events of `events_data` this model catalogues, in declaration order. */
  const Catalogue: seq<EventDef> := [BumperHarvest, RodentInfestation, StrangeLights]

  /** The catalogued effects never push Stability out of [0, 100]. */
  lemma CatalogueKeepsStability(res: Resources, roll: nat, c: nat)
    requires 0.0 <= res.stability <= 100.0
    requires c < 3
    ensures 0.0 <= ApplyLedgerOps(res, BumperHarvest.kind.effect.ops, roll).stability <= 100.0
    ensures 0.0 <= ApplyLedgerOps(res, RodentInfestation.kind.effect.ops, roll).stability <= 100.0
    ensures 0.0 <= ApplyLedgerOps(res, StrangeLights.kind.choices[c].effect.ops, roll).stability <= 100.0
  {
    LedgerOpsKeepStability(res, BumperHarvest.kind.effect.ops, roll);
    LedgerOpsKeepStability(res, RodentInfestation.kind.effect.ops, roll);
    LedgerOpsKeepStability(res, StrangeLights.kind.choices[c].effect.ops, roll);
  }

  // --- the scan of `check_for_events` ---

  /** What the scan reads and writes, plus the draws it used and the ids it fired. */
  datatype ScanState = ScanState(res: Resources, log: seq<string>, pending: Option<Pending>,
                                 triggered: set<string>, used: nat, fired: seq<string>)

  /** The effect of an effect: its updates, then its outcome logged as a minor entry. */
  function Affect(res: Resources, log: seq<string>, e: Effect, roll: nat): (Resources, seq<string>)
  {
    (ApplyLedgerOps(res, e.ops, roll), Logged(log, Entry(e.outcome, false)))
  }

  /**
   * `trigger_event`: log the title and description as a major entry, flag a
   * one-time event, then either open the decision or apply the random effect.
   */
  function Trigger(st: ScanState, e: EventDef, roll: nat): (r: ScanState)
    ensures r.used == st.used && r.fired == st.fired + [e.id]
    ensures r.triggered == if e.oneTime then st.triggered + {e.id} else st.triggered
    ensures e.kind.DecisionEvent? ==>
              r.pending == Some(Pending(e.id, e.title, e.description, e.kind.choices)) && r.res == st.res
    ensures e.kind.RandomEvent? ==> r.pending == st.pending && r.res == ApplyLedgerOps(st.res, e.kind.effect.ops, roll)
  {
    var log := Logged(st.log, Entry(e.title + " - " + e.description, true));
    var triggered := if e.oneTime then st.triggered + {e.id} else st.triggered;
    match e.kind
    case DecisionEvent(choices) =>
      ScanState(st.res, log, Some(Pending(e.id, e.title, e.description, choices)), triggered, st.used, st.fired + [e.id])
    case RandomEvent(eff) =>
      var (res, log') := Affect(st.res, log, eff, roll);
      ScanState(res, log', st.pending, triggered, st.used, st.fired + [e.id])
  }

  /** A one-time event that already fired is passed over. */
  predicate Spent(e: EventDef, triggered: set<string>)
  {
    e.oneTime && e.id in triggered
  }

  /** An event consumes a draw exactly when it is not spent and its condition holds. */
  predicate Eligible(e: EventDef, st: ScanState)
  {
    !Spent(e, st.triggered) && Holds(e.cond, st.res)
  }

  /** Whether the scan goes on after `e` fired. */
  predicate Stops(e: EventDef, after: ScanState)
  {
    after.pending.Some? || e.stopsScan
  }

  /** Everything the scan does from event `i` on, `draws[st.used]` being the next draw. */
  function ScanFrom(events: seq<EventDef>, i: nat, st: ScanState, draws: seq<real>, roll: nat): ScanState
    requires i <= |events| && st.used + (|events| - i) <= |draws|
    decreases |events| - i
  {
    if i == |events| then st
    else
      var e := events[i];
      if !Eligible(e, st) then ScanFrom(events, i + 1, st, draws, roll)
      else
        var drawn := st.(used := st.used + 1);
        if draws[st.used] < e.probability then
          var after := Trigger(drawn, e, roll);
          if Stops(e, after) then after else ScanFrom(events, i + 1, after, draws, roll)
        else ScanFrom(events, i + 1, drawn, draws, roll)
  }

  /** The scan only appends to the fired ids, and uses one draw per eligible event it passes, at most one per event. */
  lemma {:induction false} ScanExtends(events: seq<EventDef>, i: nat, st: ScanState, draws: seq<real>, roll: nat)
    requires i <= |events| && st.used + (|events| - i) <= |draws|
    ensures var r := ScanFrom(events, i, st, draws, roll);
      && |r.fired| >= |st.fired| && r.fired[..|st.fired|] == st.fired
      && st.used <= r.used <= st.used + (|events| - i)
      && r.used - st.used >= |r.fired| - |st.fired|
    decreases |events| - i
  {
    if i < |events| {
      var e := events[i];
      if !Eligible(e, st) {
        ScanExtends(events, i + 1, st, draws, roll);
      } else {
        var drawn := st.(used := st.used + 1);
        if draws[st.used] < e.probability {
          var after := Trigger(drawn, e, roll);
          if !Stops(e, after) {
            ScanExtends(events, i + 1, after, draws, roll);
            var r := ScanFrom(events, i + 1, after, draws, roll);
            assert r.fired[..|st.fired|] == r.fired[..|after.fired|][..|st.fired|];
          }
        } else {
          ScanExtends(events, i + 1, drawn, draws, roll);
        }
      }
    }
  }

  /** Every id the scan fires belongs to an event of the table at or after the scan position. */
  lemma {:induction false} ScanFiresTableEvents(events: seq<EventDef>, i: nat, st: ScanState, draws: seq<real>, roll: nat)
    requires i <= |events| && st.used + (|events| - i) <= |draws|
    ensures var r := ScanFrom(events, i, st, draws, roll);
      forall k :: |st.fired| <= k < |r.fired| ==> exists j :: i <= j < |events| && events[j].id == r.fired[k]
    decreases |events| - i
  {
    if i < |events| {
      var e := events[i];
      var r := ScanFrom(events, i, st, draws, roll);
      var next := st;
      if Eligible(e, st) {
        next := st.(used := st.used + 1);
        if draws[st.used] < e.probability {
          next := Trigger(next, e, roll);
          if Stops(e, next) {
            assert r == next;
            return;
          }
        }
      }
      assert r == ScanFrom(events, i + 1, next, draws, roll);
      ScanFiresTableEvents(events, i + 1, next, draws, roll);
      ScanExtends(events, i + 1, next, draws, roll);
      forall k | |st.fired| <= k < |r.fired|
        ensures exists j :: i <= j < |events| && events[j].id == r.fired[k]
      {
        if k < |next.fired| {
          assert r.fired[k] == next.fired[k] == e.id;
        } else {
          var j :| i + 1 <= j < |events| && events[j].id == r.fired[k];
        }
      }
    }
  }

  /**
   * A one-time event flagged as triggered never fires again: its id is not
   * among the ids the scan fires.
   */
  lemma {:induction false} SpentNeverFires(events: seq<EventDef>, i: nat, st: ScanState, draws: seq<real>, roll: nat, x: string)
    requires i <= |events| && st.used + (|events| - i) <= |draws|
    requires x in st.triggered
    requires forall j :: 0 <= j < |events| && events[j].id == x ==> events[j].oneTime
    ensures var r := ScanFrom(events, i, st, draws, roll);
      x in r.triggered && forall k :: |st.fired| <= k < |r.fired| ==> r.fired[k] != x
    decreases |events| - i
  {
    if i < |events| {
      var e := events[i];
      if !Eligible(e, st) {
        SpentNeverFires(events, i + 1, st, draws, roll, x);
      } else {
        assert e.id != x;
        var drawn := st.(used := st.used + 1);
        if draws[st.used] < e.probability {
          var after := Trigger(drawn, e, roll);
          if !Stops(e, after) {
            SpentNeverFires(events, i + 1, after, draws, roll, x);
            ScanExtends(events, i + 1, after, draws, roll);
            var r := ScanFrom(events, i + 1, after, draws, roll);
            assert r.fired[|st.fired|] == after.fired[|st.fired|];
          }
        } else {
          SpentNeverFires(events, i + 1, drawn, draws, roll, x);
        }
      }
    }
  }

  /** A decision that fires ends the scan: it is the last event fired and the one left pending. */
  lemma {:induction false} DecisionEndsScan(events: seq<EventDef>, i: nat, st: ScanState, draws: seq<real>, roll: nat)
    requires i <= |events| && st.used + (|events| - i) <= |draws|
    requires st.pending.None?
    ensures var r := ScanFrom(events, i, st, draws, roll);
      r.pending.Some? ==> r.fired != [] && r.fired[|r.fired| - 1] == r.pending.value.id
    decreases |events| - i
  {
    if i < |events| {
      var e := events[i];
      if !Eligible(e, st) {
        DecisionEndsScan(events, i + 1, st, draws, roll);
      } else {
        var drawn := st.(used := st.used + 1);
        if draws[st.used] < e.probability {
          var after := Trigger(drawn, e, roll);
          if !Stops(e, after) {
            DecisionEndsScan(events, i + 1, after, draws, roll);
          }
        } else {
          DecisionEndsScan(events, i + 1, drawn, draws, roll);
        }
      }
    }
  }

  /**
   * The event at position `i` fires exactly when it is eligible and its draw is
   * below its probability: then its id is the next one fired. Otherwise the scan
   * goes on to the next event with nothing fired, having used a draw only for
   * an eligible event.
   */
  lemma FiresIffDrawBelow(events: seq<EventDef>, i: nat, st: ScanState, draws: seq<real>, roll: nat)
    requires i < |events| && st.used + (|events| - i) <= |draws|
    ensures var r := ScanFrom(events, i, st, draws, roll);
      && (!Eligible(events[i], st) ==> r == ScanFrom(events, i + 1, st, draws, roll))
      && (Eligible(events[i], st) && draws[st.used] >= events[i].probability ==>
            r == ScanFrom(events, i + 1, st.(used := st.used + 1), draws, roll))
      && (Eligible(events[i], st) && draws[st.used] < events[i].probability ==>
            |r.fired| > |st.fired| && r.fired[|st.fired|] == events[i].id && r.used > st.used)
  {
    var e := events[i];
    if Eligible(e, st) && draws[st.used] < e.probability {
      var after := Trigger(st.(used := st.used + 1), e, roll);
      if !Stops(e, after) {
        ScanExtends(events, i + 1, after, draws, roll);
        var r := ScanFrom(events, i + 1, after, draws, roll);
        assert r.fired[..|after.fired|][|st.fired|] == after.fired[|st.fired|];
      }
    }
  }

  /**
   * After an event fires, a decision or an event that stops further events ends
   * the scan; a random event without the stop flag lets the scan go on with the
   * next event.
   */
  lemma FiredEventContinues(events: seq<EventDef>, i: nat, st: ScanState, draws: seq<real>, roll: nat)
    requires i < |events| && st.used + (|events| - i) <= |draws|
    requires Eligible(events[i], st) && draws[st.used] < events[i].probability
    ensures var after := Trigger(st.(used := st.used + 1), events[i], roll);
      && (after.pending.None? && !events[i].stopsScan ==>
            ScanFrom(events, i, st, draws, roll) == ScanFrom(events, i + 1, after, draws, roll))
      && (after.pending.Some? || events[i].stopsScan ==> ScanFrom(events, i, st, draws, roll) == after)
      && (st.pending.None? && events[i].kind.RandomEvent? && !events[i].stopsScan ==>
            after.pending.None? && ScanFrom(events, i, st, draws, roll) == ScanFrom(events, i + 1, after, draws, roll))
  {
  }

  // --- `resolve_decision_event` ---

  datatype Resolution = NoPending | NotANumber | InvalidChoice | Decided(index: nat)
  {
    predicate IsError() { !Decided? }
  }

  /** The check order of `resolve_decision_event`; the input is a 1-based choice number. */
  function ResolveVerdict(pending: Option<Pending>, input: string): (r: Resolution)
    ensures r.Decided? <==> pending.Some? && ParseInt(input).Some? &&
                            1 <= ParseInt(input).value <= |pending.value.choices|
    ensures r.Decided? ==> r.index + 1 == ParseInt(input).value
    ensures r == NoPending <==> pending.None?
    ensures r == NotANumber <==> pending.Some? && ParseInt(input).None?
  {
    match pending
    case None => NoPending
    case Some(p) =>
      match ParseInt(input)
      case None => NotANumber
      case Some(n) => if 0 <= n - 1 < |p.choices| then Decided(n - 1) else InvalidChoice
  }

  /** The string `resolve_decision_event` returns. */
  function ResolveMessage(r: Resolution, pending: Option<Pending>): (m: string)
    requires r.Decided? ==> pending.Some? && r.index < |pending.value.choices|
    ensures r.IsError() <==> StartsWith(m, "Error:")
  {
    var m := match r
      case NoPending => "Error: No pending decision to resolve."
      case NotANumber => "Error: Choice must be a number."
      case InvalidChoice => "Error: Invalid choice number."
      case Decided(i) => "Decision '" + pending.value.choices[i].text + "' has been made.";
    assert m[..6] == (if r.IsError() then "Error:" else "Decisi");
    m
  }

  /** The main loop counts any message without "Error:" as an action; a decision's message says "Decision '". */
  lemma ErrorMessagesFlagged(r: Resolution, pending: Option<Pending>)
    requires r.Decided? ==> pending.Some? && r.index < |pending.value.choices|
    ensures r.IsError() ==> Contains(ResolveMessage(r, pending), "Error:")
    ensures r.Decided? ==> StartsWith(ResolveMessage(r, pending), "Decision '")
  {
    var m := ResolveMessage(r, pending);
    if r.IsError() {
      assert StartsWith(m, "Error:");
    } else {
      assert m[..10] == "Decision '";
    }
  }

  /** The entry logged when a choice is made. */
  function ChoiceEntry(p: Pending, c: Choice): string
  {
    Entry("For '" + p.title + "', you chose: '" + c.text + "'", true)
  }

  // --- the manager ---

  class EventManager {
    const gs: State
    /** `events_data`, in declaration order. */
    const events: seq<EventDef>
    /** The ids whose `triggered_this_session` flag is set. */
    var triggered: set<string>
    var pending: Option<Pending>
    var log: seq<string>

    constructor(gs: State, events: seq<EventDef>)
      ensures this.gs == gs && this.events == events
      ensures triggered == {} && pending == None && log == []
    {
      this.gs := gs;
      this.events := events;
      triggered := {};
      pending := None;
      log := [];
    }

    /** `log_event`. */
    method LogEvent(message: string, major: bool)
      modifies this`log
      ensures log == Logged(old(log), Entry(message, major))
    {
      log := log + [Entry(message, major)];
      if |log| > LogCapacity {
        log := log[1..];
      }
    }

    /** `apply_effects`: the ledger updates one by one, then the outcome message. */
    method ApplyEffect(e: Effect, roll: nat)
      modifies this`log, gs`res
      ensures (gs.res, log) == Affect(old(gs.res), old(log), e, roll)
    {
      var i := 0;
      while i < |e.ops|
        invariant 0 <= i <= |e.ops|
        invariant gs.res == ApplyLedgerOps(old(gs.res), e.ops[..i], roll)
        invariant log == old(log)
      {
        assert e.ops[..i + 1][..i] == e.ops[..i];
        gs.res := ApplyLedgerOp(gs.res, e.ops[i], roll);
        i := i + 1;
      }
      assert e.ops[..i] == e.ops;
      LogEvent(e.outcome, false);
    }

    /** `trigger_event`. */
    method TriggerEvent(e: EventDef, roll: nat)
      modifies this`log, this`triggered, this`pending, gs`res
      ensures var r := Trigger(ScanState(old(gs.res), old(log), old(pending), old(triggered), 0, []), e, roll);
              gs.res == r.res && log == r.log && pending == r.pending && triggered == r.triggered
    {
      LogEvent(e.title + " - " + e.description, true);
      if e.oneTime {
        triggered := triggered + {e.id};
      }
      match e.kind {
        case DecisionEvent(choices) =>
          pending := Some(Pending(e.id, e.title, e.description, choices));
        case RandomEvent(eff) =>
          ApplyEffect(eff, roll);
      }
    }

    function Snapshot(used: nat, fired: seq<string>): ScanState
      reads this, gs
    {
      ScanState(gs.res, log, pending, triggered, used, fired)
    }

    /**
     * `check_for_events`, `draws` standing for the successive values of
     * `random.random()` and `roll` for `random.randint(0, 3)`. Returns the
     * ids that fired and the number of draws used. Nothing happens while a
     * decision is pending.
     */
    method CheckForEvents(draws: seq<real>, roll: nat) returns (fired: seq<string>, used: nat)
      requires |events| <= |draws|
      modifies this`log, this`triggered, this`pending, gs`res
      ensures old(pending).Some? ==>
                (fired == [] && used == 0 &&
                 gs.res == old(gs.res) && log == old(log) && pending == old(pending) && triggered == old(triggered))
      ensures old(pending).None? ==>
                ScanFrom(events, 0, ScanState(old(gs.res), old(log), None, old(triggered), 0, []), draws, roll) ==
                ScanState(gs.res, log, pending, triggered, used, fired)
    {
      fired, used := [], 0;
      if pending.Some? {
        return;
      }
      ghost var goal := ScanFrom(events, 0, Snapshot(0, []), draws, roll);
      var i := 0;
      var stop := false;
      while i < |events| && !stop
        invariant 0 <= i <= |events| && used <= i
        invariant !stop ==> pending.None? && ScanFrom(events, i, Snapshot(used, fired), draws, roll) == goal
        invariant stop ==> Snapshot(used, fired) == goal
      {
        var e := events[i];
        if !Spent(e, triggered) && Holds(e.cond, gs.res) {
          var d := draws[used];
          used := used + 1;
          if d < e.probability {
            TriggerEvent(e, roll);
            fired := fired + [e.id];
            stop := pending.Some? || e.stopsScan;
          }
        }
        i := i + 1;
      }
    }

    /** `resolve_decision_event`: errors change nothing; a decision logs, applies the choice once, and clears the decision. */
    method ResolveDecisionEvent(input: string, roll: nat) returns (message: string)
      modifies this`log, this`pending, gs`res
      ensures var r := ResolveVerdict(old(pending), input);
        && message == ResolveMessage(r, old(pending))
        && (r.IsError() ==> gs.res == old(gs.res) && log == old(log) && pending == old(pending))
        && (r.Decided? ==>
              var c := old(pending).value.choices[r.index];
              pending == None &&
              (gs.res, log) == Affect(old(gs.res), Logged(old(log), ChoiceEntry(old(pending).value, c)), c.effect, roll))
    {
      var r := ResolveVerdict(pending, input);
      message := ResolveMessage(r, pending);
      if r.Decided? {
        var p := pending.value;
        var c := p.choices[r.index];
        LogEvent("For '" + p.title + "', you chose: '" + c.text + "'", true);
        ApplyEffect(c.effect, roll);
        pending := None;
      }
    }
  }
}
