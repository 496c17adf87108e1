/**
 * exp_mission.py: missions read from JSON files and run as a depth-first
 * schedule.
 *
 * `read_mission_json` merges the mission dictionaries of every `.json`
 * file of the mission directory, the first definition of a name winning,
 * and lists the entry missions (`type == 1`). `run_mission_list` keeps a
 * stack of mission names: it pops the last one, runs it, and pushes its
 * successors reversed so that the first-listed successor runs next.
 * `_run_mission` performs the mission's action `retry + 1` times and
 * returns the successors: `next`, or `error_next` when the screen did not
 * change as `check_change` demands.
 *
 * Directory listing and JSON parsing, the device (connection, screenshots,
 * taps, OCR) and the image similarity are outside: the listed files with
 * their parsed contents, the connection outcome and the similarity of each
 * attempt are parameters.
 */
module Missions {
  import opened Wrappers
  import opened Text
  import opened Dict

  /**
   * The fields of a mission that decide what `_run_mission` returns, with
   * the defaults of `value.get(...)` applied. `empty` marks a JSON object
   * with no keys at all, which `if not value` treats as missing.
   */
  datatype Mission = Mission(
    empty: bool,
    kind: Option<int>,             // "type" (read with default None)
    action: string,                // "action", default "nothing"
    retry: int,                    // "retry", default 0
    checkChange: Option<real>,     // "check_change", default None
    next: Option<seq<string>>,     // "next", default None
    errorNext: Option<seq<string>> // "error_next", default None
  )

  /** A listed file: its name and, for JSON files, the dictionary it holds. */
  type File = (string, Dict<string, Mission>)

  // --- read_mission_json ---

  /** The entries of the `.json` files, file by file, in listing order (lines 36-42). */
  function JsonEntries(files: seq<File>): seq<(string, Mission)>
  {
    if files == [] then []
    else
      var last := files[|files| - 1];
      JsonEntries(files[..|files| - 1]) + (if EndsWith(last.0, ".json") then last.1 else [])
  }

  /** The merged dictionary and the entry-mission list. */
  datatype Catalog = Catalog(missions: Dict<string, Mission>, entries: seq<string>)

  /** Lines 43-48: a new name is added (and listed when `type == 1`); a repeated name is ignored. */
  function Add(c: Catalog, e: (string, Mission)): Catalog
  {
    if Has(c.missions, e.0) then c
    else Catalog(c.missions + [e], if e.1.kind == Some(1) then c.entries + [e.0] else c.entries)
  }

  /** Every entry added in order. */
  function Merge(c: Catalog, es: seq<(string, Mission)>): Catalog
  {
    if es == [] then c else Add(Merge(c, es[..|es| - 1]), es[|es| - 1])
  }

  lemma MergeSnoc(c: Catalog, es: seq<(string, Mission)>, e: (string, Mission))
    ensures Merge(c, es + [e]) == Add(Merge(c, es), e)
  {
    assert (es + [e])[..|es|] == es;
  }

  /** Merging two runs of entries one after the other is merging them together. */
  lemma {:induction false} MergeAppend(c: Catalog, a: seq<(string, Mission)>, b: seq<(string, Mission)>)
    ensures Merge(c, a + b) == Merge(Merge(c, a), b)
    decreases |b|
  {
    if b == [] {
      assert a + b == a;
    } else {
      var init := b[..|b| - 1];
      var last := b[|b| - 1];
      assert a + b == (a + init) + [last];
      assert b == init + [last];
      MergeAppend(c, a, init);
      MergeSnoc(c, a + init, last);
      MergeSnoc(Merge(c, a), init, last);
    }
  }

  /**
   * The first definition wins: after merging, a name is present iff it was
   * before or some entry carries it, and it keeps its earlier value, or
   * else the value of its first entry.
   */
  lemma {:induction false} MergeFirstWins(c: Catalog, es: seq<(string, Mission)>, k: string, dflt: Mission)
    ensures Has(Merge(c, es).missions, k) <==> Has(c.missions, k) || exists i :: 0 <= i < |es| && es[i].0 == k
    ensures Has(c.missions, k) ==> GetOr(Merge(c, es).missions, k, dflt) == GetOr(c.missions, k, dflt)
    ensures forall i :: 0 <= i < |es| && es[i].0 == k && !Has(c.missions, k) && (forall j :: 0 <= j < i ==> es[j].0 != k) ==>
              GetOr(Merge(c, es).missions, k, dflt) == es[i].1
  {
    if es != [] {
      var init := es[..|es| - 1];
      var e := es[|es| - 1];
      var m := Merge(c, init);
      MergeFirstWins(c, init, k, dflt);
      assert forall i :: 0 <= i < |init| ==> init[i] == es[i];
      if !Has(m.missions, e.0) {
        HasSnoc(m.missions, e, k);
        GetOrSnoc(m.missions, e, k, dflt);
      }
      if exists i :: 0 <= i < |es| && es[i].0 == k {
        var i :| 0 <= i < |es| && es[i].0 == k;
        if i < |init| {
          assert init[i].0 == k;
        }
      }
    }
  }

  /**
   * A name is listed as an entry mission iff it was listed before, or it
   * was newly added by the merge with `type == 1`.
   */
  lemma {:induction false} MergeListsEntries(c: Catalog, es: seq<(string, Mission)>, k: string, dflt: Mission)
    ensures var m := Merge(c, es);
            k in m.entries <==> k in c.entries || (!Has(c.missions, k) && Has(m.missions, k) && GetOr(m.missions, k, dflt).kind == Some(1))
  {
    if es != [] {
      var init := es[..|es| - 1];
      var e := es[|es| - 1];
      var m := Merge(c, init);
      MergeListsEntries(c, init, k, dflt);
      MergeFirstWins(c, init, k, dflt);
      if !Has(m.missions, e.0) {
        HasSnoc(m.missions, e, k);
        GetOrSnoc(m.missions, e, k, dflt);
      }
    }
  }

  // --- _run_mission ---

  /** The actions `_run_mission` knows; any other makes it return `None` (lines 123-141). */
  predicate KnownAction(action: string)
  {
    action in {"nothing", "click", "swipe", "startapp", "closeapp", "input_text"} || EndsWith(action, ".py")
  }

  /** Line 154: the screen changed too much (`0 < c < s`) or too little (`c < 0` and `s > |c|`). */
  predicate ChangeFails(checkChange: real, similarity: real)
  {
    (0.0 < checkChange < similarity) || (checkChange < 0.0 && similarity > -checkChange)
  }

  /**
   * What `_run_mission` returns for a mission, decided by the last attempt
   * only: a failed check on an earlier attempt just retries, a passed one
   * goes on to the next attempt. No attempt at all (a negative `retry`)
   * returns `next` without acting.
   */
  function Outcome(m: Mission, similarity: nat -> real): Option<seq<string>>
  {
    if m.retry < 0 then m.next
    else if !KnownAction(m.action) then None
    else if m.checkChange.Some? && ChangeFails(m.checkChange.value, similarity(m.retry)) then m.errorNext
    else m.next
  }

  /** Lines 79-82 and `Outcome`: an unknown (or empty) mission returns `None`. */
  function RunOutcome(missions: Dict<string, Mission>, name: string, similarity: nat -> real): Option<seq<string>>
  {
    var m := GetOr(missions, name, Mission(true, None, "nothing", 0, None, None, None));
    if m.empty then None else Outcome(m, similarity)
  }

  /** `next_mission_list[::-1]`. */
  function Reverse(s: seq<string>): (r: seq<string>)
    ensures |r| == |s| && forall i :: 0 <= i < |s| ==> r[i] == s[|s| - 1 - i]
  {
    if s == [] then [] else Reverse(s[1..]) + [s[0]]
  }

  // --- run_mission_list ---

  /** The missions run, in order, and whether the stack emptied. */
  datatype Run = Run(trace: seq<string>, finished: bool)

  /** The stack after running the last mission of `todo`: its successors pushed reversed, nothing for `None`. */
  function Push(rest: seq<string>, out: Option<seq<string>>): seq<string>
  {
    if out.Some? then rest + Reverse(out.value) else rest
  }

  /**
   * Lines 65-72 for at most `fuel` missions: pop the last name, run it with
   * the similarities of run number `count`, push its successors.
   */
  function Schedule(missions: Dict<string, Mission>, todo: seq<string>, count: nat,
                    similarity: (nat, nat) -> real, fuel: nat): Run
    decreases fuel
  {
    if todo == [] then Run([], true)
    else if fuel == 0 then Run([], false)
    else
      var name := todo[|todo| - 1];
      var out := RunOutcome(missions, name, (n: nat) => similarity(count, n));
      var after := Schedule(missions, Push(todo[..|todo| - 1], out), count + 1, similarity, fuel - 1);
      Run([name] + after.trace, after.finished)
  }

  /**
   * Depth first: the mission on top of the stack runs first; after it, the
   * first of its successors runs, or, when it has none (or returned
   * `None`), the mission below it on the stack.
   */
  lemma DepthFirst(missions: Dict<string, Mission>, todo: seq<string>, count: nat, similarity: (nat, nat) -> real, fuel: nat)
    requires todo != [] && fuel > 0
    ensures var r := Schedule(missions, todo, count, similarity, fuel);
            var out := RunOutcome(missions, todo[|todo| - 1], (n: nat) => similarity(count, n));
            && r.trace != [] && r.trace[0] == todo[|todo| - 1]
            && (|r.trace| > 1 && out.Some? && out.value != [] ==> r.trace[1] == out.value[0])
            && (|r.trace| > 1 && (out.None? || out.value == []) ==> |todo| > 1 && r.trace[1] == todo[|todo| - 2])
  {
    var out := RunOutcome(missions, todo[|todo| - 1], (n: nat) => similarity(count, n));
    var pushed := Push(todo[..|todo| - 1], out);
    var after := Schedule(missions, pushed, count + 1, similarity, fuel - 1);
    if |after.trace| > 0 {
      assert pushed != [] && after.trace[0] == pushed[|pushed| - 1];
      if out.Some? && out.value != [] {
        assert pushed[|pushed| - 1] == Reverse(out.value)[|out.value| - 1];
      } else if out.Some? {
        assert pushed == todo[..|todo| - 1];
      }
    }
  }

  /** A run that finishes has run every mission it started with, the first ones last pushed first. */
  lemma {:induction false} ScheduleRunsAll(missions: Dict<string, Mission>, todo: seq<string>, count: nat,
                                           similarity: (nat, nat) -> real, fuel: nat)
    ensures var r := Schedule(missions, todo, count, similarity, fuel);
            r.finished ==> |r.trace| >= |todo| && forall i :: 0 <= i < |todo| ==> todo[i] in r.trace
    decreases fuel
  {
    if todo != [] && fuel > 0 {
      var name := todo[|todo| - 1];
      var rest := todo[..|todo| - 1];
      var out := RunOutcome(missions, name, (n: nat) => similarity(count, n));
      var pushed := Push(rest, out);
      var after := Schedule(missions, pushed, count + 1, similarity, fuel - 1);
      var r := Schedule(missions, todo, count, similarity, fuel);
      assert r == Run([name] + after.trace, after.finished);
      ScheduleRunsAll(missions, pushed, count + 1, similarity, fuel - 1);
      if after.finished {
        forall i | 0 <= i < |todo|
          ensures todo[i] in r.trace
        {
          if i < |rest| {
            assert pushed[i] == rest[i] == todo[i];
            assert todo[i] in after.trace;
          } else {
            assert r.trace[0] == todo[i];
          }
        }
      }
    }
  }

  // --- the object ---

  /** Line 20: the directory used when none is given. */
  const DefaultDir: string := @"D:\bishe\code\res"

  /**
   * Lines 19-20: the directory `__init__` stores. Only a missing or empty
   * argument sets the attribute; a given directory is never stored, so
   * `read_mission_json` at line 22 raises (`None` here).
   */
  function InitialDir(arg: Option<string>): (r: Option<string>)
    ensures r.Some? <==> arg.None? || arg.value == ""
    ensures r.Some? ==> r.value == DefaultDir && r.value != ""
  {
    if arg.None? || arg.value == "" then Some(DefaultDir) else None
  }

  class MissionRelated {
    var missionDir: string
    var missionDict: Dict<string, Mission>
    var enterMissionList: seq<string>

    /** The catalogue held by the object. */
    function Catalogue(): Catalog
      reads this
    {
      Catalog(missionDict, enterMissionList)
    }

    /**
     * `Mission_related()` with no directory (or an empty one), the only call
     * that does not raise: the default directory, then `read_mission_json`
     * over its listing `files`.
     */
    constructor (files: seq<File>)
      ensures missionDir == DefaultDir
      ensures Catalogue() == Merge(Catalog([], []), JsonEntries(files))
    {
      missionDir := DefaultDir;
      missionDict := [];
      enterMissionList := [];
      new;
      var _ := ReadMissionJson(files);
    }

    /** `set_mission_dir`: only the directory changes. */
    method SetMissionDir(dir: string)
      modifies this
      ensures missionDir == dir && Catalogue() == old(Catalogue())
    {
      missionDir := dir;
    }

    /**
     * `read_mission_json` over the listed files: `true` where the source
     * returns `False` (no directory); otherwise every `.json` file's
     * entries are merged into the catalogue.
     */
    method ReadMissionJson(files: seq<File>) returns (refused: bool)
      modifies this
      ensures refused <==> missionDir == ""
      ensures missionDir == old(missionDir)
      ensures refused ==> Catalogue() == old(Catalogue())
      ensures !refused ==> Catalogue() == Merge(old(Catalogue()), JsonEntries(files))
    {
      if missionDir == "" {
        return true;
      }
      refused := false;
      var f := 0;
      while f < |files|
        invariant 0 <= f <= |files|
        invariant missionDir == old(missionDir)
        invariant Catalogue() == Merge(old(Catalogue()), JsonEntries(files[..f]))
      {
        var (filename, data) := files[f];
        assert files[..f + 1][..f] == files[..f] && files[..f + 1][f] == (filename, data);
        if EndsWith(filename, ".json") {
          MergeFile(data);
          MergeAppend(old(Catalogue()), JsonEntries(files[..f]), data);
          assert JsonEntries(files[..f + 1]) == JsonEntries(files[..f]) + data;
        } else {
          assert JsonEntries(files[..f + 1]) == JsonEntries(files[..f]) + [] == JsonEntries(files[..f]);
        }
        f := f + 1;
      }
      assert files[..f] == files;
    }

    /** Lines 42-48 for one file: each entry merged in order, the first definition of a name winning. */
    method MergeFile(data: Dict<string, Mission>)
      modifies this
      ensures missionDir == old(missionDir)
      ensures Catalogue() == Merge(old(Catalogue()), data)
    {
      var k := 0;
      while k < |data|
        invariant 0 <= k <= |data|
        invariant missionDir == old(missionDir)
        invariant Catalogue() == Merge(old(Catalogue()), data[..k])
      {
        var (key, value) := data[k];
        MergeSnoc(old(Catalogue()), data[..k], data[k]);
        assert data[..k + 1] == data[..k] + [data[k]];
        if !Has(missionDict, key) {
          missionDict := missionDict + [(key, value)];
          if value.kind == Some(1) {
            enterMissionList := enterMissionList + [key];
          }
        }
        k := k + 1;
      }
      assert data[..k] == data;
    }

    /**
     * `_run_mission` as written: the attempt loop. An unknown action
     * returns `None` on the first attempt; a failed check retries while
     * attempts remain and returns `error_next` on the last one; otherwise
     * the loop runs every attempt and returns `next`.
     */
    method RunMission(name: string, similarity: nat -> real) returns (r: Option<seq<string>>)
      ensures r == RunOutcome(missionDict, name, similarity)
    {
      var m := GetOr(missionDict, name, Mission(true, None, "nothing", 0, None, None, None));
      if m.empty {
        return None;
      }
      var attempt := 0;
      while attempt < m.retry + 1
        invariant 0 <= attempt
        invariant attempt > 0 ==> KnownAction(m.action) && attempt <= m.retry + 1
        invariant 0 < attempt == m.retry + 1 ==> !(m.checkChange.Some? && ChangeFails(m.checkChange.value, similarity(m.retry)))
      {
        if !KnownAction(m.action) {
          return None;
        }
        if m.checkChange.Some? && ChangeFails(m.checkChange.value, similarity(attempt)) {
          if attempt < m.retry {
            attempt := attempt + 1;
            continue;
          }
          return m.errorNext;
        }
        attempt := attempt + 1;
      }
      r := m.next;
    }

    /**
     * `run_mission_list` for at most `fuel` missions: `Some(false)` where
     * the device cannot be connected (the source returns `False`),
     * otherwise `None` with the missions run in order.
     */
    method RunMissionList(start: string, connected: bool, connects: bool,
                          similarity: (nat, nat) -> real, fuel: nat) returns (result: Option<bool>, run: Run)
      ensures result == Some(false) <==> !connected && !connects
      ensures result.None? ==> run == Schedule(missionDict, [start], 0, similarity, fuel)
      ensures result.Some? ==> run == Run([], false)
    {
      hide RunOutcome, Push, Reverse;
      if !connected && !connects {
        return Some(false), Run([], false);
      }
      result := None;
      var todo := [start];
      var trace: seq<string> := [];
      var count := 0;
      while todo != [] && count < fuel
        invariant count <= fuel
        invariant var rest := Schedule(missionDict, todo, count, similarity, fuel - count);
                  Schedule(missionDict, [start], 0, similarity, fuel) == Run(trace + rest.trace, rest.finished)
        decreases fuel - count
      {
        var name := todo[|todo| - 1];
        todo := todo[..|todo| - 1];
        var out := RunMission(name, (n: nat) => similarity(count, n));
        todo := Push(todo, out);
        trace := trace + [name];
        count := count + 1;
      }
      run := Run(trace, todo == []);
    }
  }
}
