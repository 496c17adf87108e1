/**
 * resource/function/plan.py: the `AutomationEngine` that runs a task, a
 * list of commands, each with parameters, preconditions and an action.
 *
 * Parameters whose key ends in `_rel` hold coordinates relative to the
 * screen and are converted to pixels. A command runs only when its
 * preconditions hold; any exception inside a command makes it fail; a task
 * stops at the first failing command unless that command may fail.
 *
 * Screen checks (template match, OCR) and the device actions (click, OCR
 * click, key press, drag) are calls into the device layer: they are
 * oracles passed as parameters, returning `None` where they raise.
 */
module Plan {
  import opened Wrappers
  import opened Numbers
  import opened Text
  import opened Dict

  /** A parameter value: relative coordinates, converted pixels, or anything else. */
  datatype Value =
    | Coords(cs: seq<real>)     // a list or tuple of numbers
    | Pixel(x: int, y: int)     // the tuple `_convert_relative_coord` builds
    | Scalar(text: string)      // a string, number or flag, never converted

  /** `int(c * size)`: a relative coordinate scaled to the screen, truncated toward zero. */
  function Scale(c: real, size: int): int
  {
    Trunc(c * size as real)
  }

  /**
   * `_convert_relative_coord`: `None` where `coord[1]` raises on a list shorter
   * than two. A pixel pair is a tuple too, so it is scaled again; only a
   * scalar passes unchanged.
   */
  function ConvertRelative(v: Value, width: int, height: int): (r: Option<Value>)
    ensures v.Coords? && |v.cs| >= 2 ==>
              r == Some(Pixel(Scale(v.cs[0], width), Scale(v.cs[1], height)))
    ensures v.Coords? && |v.cs| < 2 ==> r.None?
    ensures v.Pixel? ==> r == Some(Pixel(Scale(v.x as real, width), Scale(v.y as real, height)))
    ensures v.Scalar? ==> r == Some(v)
  {
    match v
    case Coords(cs) =>
      if |cs| < 2 then None
      else Some(Pixel(Scale(cs[0], width), Scale(cs[1], height)))
    case Pixel(x, y) => Some(Pixel(Scale(x as real, width), Scale(y as real, height)))
    case Scalar(_) => Some(v)
  }

  /** Relative coordinates inside the screen land on a pixel of the screen. */
  lemma RelativeStaysOnScreen(c0: real, c1: real, width: nat, height: nat)
    requires 0.0 <= c0 < 1.0 && 0.0 <= c1 < 1.0
    ensures var r := ConvertRelative(Coords([c0, c1]), width, height);
            r.Some? && r.value.Pixel? && 0 <= r.value.x && (width > 0 ==> r.value.x < width)
            && 0 <= r.value.y && (height > 0 ==> r.value.y < height)
  {
    ScaleInside(c0, width);
    ScaleInside(c1, height);
  }

  /** A relative coordinate in [0, 1) scales to a pixel in [0, size). */
  lemma ScaleInside(c: real, size: nat)
    requires 0.0 <= c < 1.0
    ensures 0 <= Scale(c, size) && (size > 0 ==> Scale(c, size) < size)
  {
    var x := c * size as real;
    assert 0.0 <= x;
    if size > 0 {
      assert x < size as real by {
        assert (1.0 - c) * size as real > 0.0;
      }
    }
    assert Scale(c, size) as real <= x;
  }

  /** Lines 47-51: the key an entry is stored under, with every `_rel` removed from `_rel` keys. */
  function TargetKey(key: string): string
  {
    if EndsWith(key, "_rel") then RemoveAll(key, "_rel") else key
  }

  /** Lines 47-51: the value an entry is stored with, converted under `_rel` keys. */
  function TargetValue(key: string, v: Value, width: int, height: int): Option<Value>
  {
    if EndsWith(key, "_rel") then ConvertRelative(v, width, height) else Some(v)
  }

  /** `_preprocess_params` over the entries in order; `None` where a conversion raises. */
  function Preprocess(params: Dict<string, Value>, width: int, height: int): Option<Dict<string, Value>>
  {
    if params == [] then Some([])
    else
      var last := params[|params| - 1];
      match Preprocess(params[..|params| - 1], width, height)
      case None => None
      case Some(d) =>
        match TargetValue(last.0, last.1, width, height)
        case None => None
        case Some(v) => Some(Put(d, TargetKey(last.0), v))
  }

  /** `_preprocess_params` as written: the loop filling `processed`. */
  method PreprocessParams(params: Dict<string, Value>, width: int, height: int) returns (r: Option<Dict<string, Value>>)
    ensures r == Preprocess(params, width, height)
  {
    var processed: Dict<string, Value> := [];
    var i := 0;
    while i < |params|
      invariant 0 <= i <= |params|
      invariant Preprocess(params[..i], width, height) == Some(processed)
    {
      var (key, value) := params[i];
      assert params[..i + 1][..i] == params[..i];
      var v := TargetValue(key, value, width, height);
      if v.None? {
        assert Preprocess(params[..i + 1], width, height).None?;
        PreprocessFailsOnward(params, width, height, i + 1);
        return None;
      }
      processed := Put(processed, TargetKey(key), v.value);
      i := i + 1;
    }
    assert params[..i] == params;
    r := Some(processed);
  }

  /** Once a prefix raises, the whole preprocessing raises. */
  lemma {:induction false} PreprocessFailsOnward(params: Dict<string, Value>, width: int, height: int, n: nat)
    requires n <= |params| && Preprocess(params[..n], width, height).None?
    ensures Preprocess(params, width, height).None?
    decreases |params| - n
  {
    if n < |params| {
      assert params[..n + 1][..n] == params[..n];
      PreprocessFailsOnward(params, width, height, n + 1);
    } else {
      assert params[..n] == params;
    }
  }

  /** One more entry: the processed dictionary of a prefix, updated with the entry's key and value. */
  lemma PreprocessSnoc(params: Dict<string, Value>, width: int, height: int)
    requires params != []
    ensures var last := params[|params| - 1];
            Preprocess(params, width, height) ==
              match Preprocess(params[..|params| - 1], width, height)
              case None => None
              case Some(d) =>
                match TargetValue(last.0, last.1, width, height)
                case None => None
                case Some(v) => Some(Put(d, TargetKey(last.0), v))
  {
  }

  /** `_preprocess_params` raises exactly when some `_rel` entry cannot be converted. */
  lemma {:induction false} PreprocessRaises(params: Dict<string, Value>, width: int, height: int)
    ensures Preprocess(params, width, height).None? <==>
              exists i :: 0 <= i < |params| && TargetValue(params[i].0, params[i].1, width, height).None?
  {
    if params != [] {
      var init := params[..|params| - 1];
      PreprocessRaises(init, width, height);
      if exists i :: 0 <= i < |init| && TargetValue(init[i].0, init[i].1, width, height).None? {
        var i :| 0 <= i < |init| && TargetValue(init[i].0, init[i].1, width, height).None?;
        assert params[i] == init[i];
      }
      if exists i :: 0 <= i < |params| && TargetValue(params[i].0, params[i].1, width, height).None? {
        var i :| 0 <= i < |params| && TargetValue(params[i].0, params[i].1, width, height).None?;
        if i < |init| {
          assert init[i] == params[i];
        }
      }
    }
  }

  /** After `_preprocess_params`, a key is present iff some entry is stored under it. */
  lemma {:induction false} PreprocessHas(params: Dict<string, Value>, width: int, height: int, k: string)
    requires Preprocess(params, width, height).Some?
    ensures Has(Preprocess(params, width, height).value, k) <==> exists i :: 0 <= i < |params| && TargetKey(params[i].0) == k
  {
    if params != [] {
      var init := params[..|params| - 1];
      var last := params[|params| - 1];
      PreprocessSnoc(params, width, height);
      hide ConvertRelative, RemoveAll, EndsWith, Put, Has, Preprocess;
      var d := Preprocess(init, width, height).value;
      PreprocessHas(init, width, height, k);
      HasPut(d, TargetKey(last.0), TargetValue(last.0, last.1, width, height).value, k);
      SomeKeySnoc(params, init, k);
    }
  }

  /** Some entry is stored under `k` iff an earlier one is, or the last one is. */
  lemma SomeKeySnoc(params: Dict<string, Value>, init: Dict<string, Value>, k: string)
    requires params != [] && init == params[..|params| - 1]
    ensures (exists i :: 0 <= i < |params| && TargetKey(params[i].0) == k) <==>
            (exists i :: 0 <= i < |init| && TargetKey(init[i].0) == k)
            || TargetKey(params[|params| - 1].0) == k
  {
    if exists i :: 0 <= i < |init| && TargetKey(init[i].0) == k {
      var i :| 0 <= i < |init| && TargetKey(init[i].0) == k;
      assert params[i] == init[i];
    }
    if exists i :: 0 <= i < |params| && TargetKey(params[i].0) == k {
      var i :| 0 <= i < |params| && TargetKey(params[i].0) == k;
      if i < |init| {
        assert init[i] == params[i];
      }
    }
  }

  /** After `_preprocess_params`, a key holds the value of the last entry stored under it. */
  lemma {:induction false} PreprocessLastWins(params: Dict<string, Value>, width: int, height: int, i: nat, dflt: Value)
    requires Preprocess(params, width, height).Some?
    requires i < |params| && forall j :: i < j < |params| ==> TargetKey(params[j].0) != TargetKey(params[i].0)
    ensures var k := TargetKey(params[i].0);
            Some(GetOr(Preprocess(params, width, height).value, k, dflt)) == TargetValue(params[i].0, params[i].1, width, height)
  {
    PreprocessRaises(params, width, height);
    var init := params[..|params| - 1];
    var last := params[|params| - 1];
    var k := TargetKey(params[i].0);
    var d := Preprocess(init, width, height).value;
    var v := TargetValue(last.0, last.1, width, height).value;
    PutGetOr(d, TargetKey(last.0), v, k, dflt);
    if i < |init| {
      assert init[i] == params[i];
      assert forall j :: i < j < |init| ==> init[j] == params[j];
      PreprocessLastWins(init, width, height, i, dflt);
    }
  }

  /** Keys that do not end in `_rel` (even `a_rel_b`) keep their name and value. */
  lemma PlainKeyKept(key: string, v: Value, width: int, height: int)
    requires !EndsWith(key, "_rel")
    ensures TargetKey(key) == key && TargetValue(key, v, width, height) == Some(v)
  {
  }

  // --- _check_conditions ---

  /** A precondition: its `type` (`None` where the key is missing) and the rest of its dictionary. */
  datatype Condition = Condition(kind: Option<string>, args: Dict<string, Value>)

  /** The condition types `_check_conditions` checks; others are ignored. */
  predicate Checked(kind: string)
  {
    kind == "template_match" || kind == "ocr_text"
  }

  /**
   * `_check_conditions` with the screen checks as `probe`: `Some(b)` for a
   * check returning `b`, `None` where it raises. The result is `None`
   * where the source raises (a missing `type`, or a raising check).
   */
  function ConditionsHold(conds: seq<Condition>, probe: Condition -> Option<bool>): Option<bool>
  {
    if conds == [] then Some(true)
    else if conds[0].kind.None? then None
    else if Checked(conds[0].kind.value) then
      match probe(conds[0])
      case None => None
      case Some(false) => Some(false)
      case Some(true) => ConditionsHold(conds[1..], probe)
    else ConditionsHold(conds[1..], probe)
  }

  /** A condition that lets the scan go on: it has a type, and passes if it is checked. */
  predicate Passes(c: Condition, probe: Condition -> Option<bool>)
  {
    c.kind.Some? && (Checked(c.kind.value) ==> probe(c) == Some(true))
  }

  /** A condition that stops the scan with `False`. */
  predicate Refuses(c: Condition, probe: Condition -> Option<bool>)
  {
    c.kind.Some? && Checked(c.kind.value) && probe(c) == Some(false)
  }

  /** `True` exactly when every condition passes (in particular for no conditions). */
  lemma {:induction false} ConditionsHoldIffAllPass(conds: seq<Condition>, probe: Condition -> Option<bool>)
    ensures ConditionsHold(conds, probe) == Some(true) <==> forall i :: 0 <= i < |conds| ==> Passes(conds[i], probe)
  {
    if conds != [] {
      ConditionsHoldIffAllPass(conds[1..], probe);
      assert forall i :: 1 <= i < |conds| ==> conds[i] == conds[1..][i - 1];
    }
  }

  /** `False` exactly at a first refusing condition after passing ones. */
  lemma {:induction false} ConditionsFailAtFirstRefusal(conds: seq<Condition>, probe: Condition -> Option<bool>)
    ensures ConditionsHold(conds, probe) == Some(false) <==>
              exists i :: 0 <= i < |conds| && Refuses(conds[i], probe) && forall j :: 0 <= j < i ==> Passes(conds[j], probe)
  {
    if conds != [] {
      var tail := conds[1..];
      ConditionsFailAtFirstRefusal(tail, probe);
      assert ConditionsHold(conds, probe) ==
        if Refuses(conds[0], probe) then Some(false)
        else if Passes(conds[0], probe) then ConditionsHold(tail, probe)
        else None;
      hide ConditionsHold;
      if ConditionsHold(tail, probe) == Some(false) && Passes(conds[0], probe) {
        var i :| 0 <= i < |tail| && Refuses(tail[i], probe) && forall j :: 0 <= j < i ==> Passes(tail[j], probe);
        assert conds[i + 1] == tail[i];
        assert forall j :: 0 <= j < i + 1 ==> Passes(conds[j], probe) by {
          assert forall j :: 1 <= j < i + 1 ==> conds[j] == tail[j - 1];
        }
      }
      if exists i :: 0 <= i < |conds| && Refuses(conds[i], probe) && forall j :: 0 <= j < i ==> Passes(conds[j], probe) {
        var i :| 0 <= i < |conds| && Refuses(conds[i], probe) && forall j :: 0 <= j < i ==> Passes(conds[j], probe);
        if i > 0 {
          assert tail[i - 1] == conds[i];
          assert forall j :: 0 <= j < i - 1 ==> tail[j] == conds[j + 1];
        }
      }
    }
  }

  /** `_check_conditions` as written: the loop with its early return. */
  method CheckConditions(conds: seq<Condition>, probe: Condition -> Option<bool>) returns (r: Option<bool>)
    ensures r == ConditionsHold(conds, probe)
  {
    var i := 0;
    while i < |conds|
      invariant 0 <= i <= |conds|
      invariant ConditionsHold(conds, probe) == ConditionsHold(conds[i..], probe)
    {
      assert conds[i..][1..] == conds[i + 1..];
      var c := conds[i];
      if c.kind.None? {
        return None;
      }
      if Checked(c.kind.value) {
        var ok := probe(c);
        if ok.None? {
          return None;
        }
        if !ok.value {
          return Some(false);
        }
      }
      i := i + 1;
    }
    r := Some(true);
  }

  // --- execute_command / execute_task ---

  /** A command: `params` (`{}` when missing), `conditions` (`[]` when missing), `action` (`None` when missing) and `ignore_failure`. */
  datatype Command = Command(params: Dict<string, Value>, conditions: seq<Condition>, action: Option<string>, ignoreFailure: bool)

  /** The actions `execute_command` dispatches. */
  predicate KnownAction(action: string)
  {
    action in {"click", "ocr_find_and_click", "key_press", "drag"}
  }

  /**
   * `execute_command` with the device calls as oracles: `act` gives the
   * executor's result for an action and its processed parameters, `None`
   * where it raises. Every exception, an unknown action among them, is
   * caught and gives `False`.
   */
  function ExecuteCommand(c: Command, width: int, height: int, probe: Condition -> Option<bool>,
                          act: (string, Dict<string, Value>) -> Option<bool>): (ok: bool)
    ensures ok <==> (&& Preprocess(c.params, width, height).Some?
                     && ConditionsHold(c.conditions, probe) == Some(true)
                     && c.action.Some? && KnownAction(c.action.value)
                     && act(c.action.value, Preprocess(c.params, width, height).value) == Some(true))
  {
    match Preprocess(c.params, width, height)
    case None => false
    case Some(processed) =>
      if ConditionsHold(c.conditions, probe) != Some(true) then false
      else if c.action.None? || !KnownAction(c.action.value) then false
      else act(c.action.value, processed) == Some(true)
  }

  /** A command that fails is tolerated only when marked `ignore_failure`. */
  predicate Tolerated(c: Command, width: int, height: int, probe: Condition -> Option<bool>,
                      act: (string, Dict<string, Value>) -> Option<bool>)
  {
    ExecuteCommand(c, width, height, probe, act) || c.ignoreFailure
  }

  /**
   * `execute_task` over the steps: it returns the result and how many
   * commands it ran. It succeeds iff every step succeeds or may fail, and
   * it stops right after the first step that fails and may not.
   */
  method ExecuteTask(steps: seq<Command>, width: int, height: int, probe: Condition -> Option<bool>,
                     act: (string, Dict<string, Value>) -> Option<bool>) returns (ok: bool, ran: nat)
    ensures ok <==> forall i :: 0 <= i < |steps| ==> Tolerated(steps[i], width, height, probe, act)
    ensures ok ==> ran == |steps|
    ensures !ok ==> 0 < ran <= |steps| && !Tolerated(steps[ran - 1], width, height, probe, act)
                    && forall i :: 0 <= i < ran - 1 ==> Tolerated(steps[i], width, height, probe, act)
  {
    ran := 0;
    while ran < |steps|
      invariant 0 <= ran <= |steps|
      invariant forall i :: 0 <= i < ran ==> Tolerated(steps[i], width, height, probe, act)
    {
      var success := ExecuteCommand(steps[ran], width, height, probe, act);
      ran := ran + 1;
      if !success && !steps[ran - 1].ignoreFailure {
        return false, ran;
      }
    }
    ok := true;
  }
}
