/**
 * `TestStore`: saved tests live in a directory per test id under the store's tests directory,
 * each holding the script and its configuration, and every save is appended to the history
 * list. The files on disk are the map `archive` from test id to what was written there; the
 * history file mirrors the list `history`. The test id is the save time to the second, read
 * from the clock: the clock readings are parameters.
 */
module Store {
  import opened Wrappers
  import opened Text
  import opened Model

  // ---------------------------------------------------------------------------------------
  // Test ids
  // ---------------------------------------------------------------------------------------

  /** A clock reading, to the second. */
  datatype Instant = Instant(year: nat, month: nat, day: nat, hour: nat, minute: nat, second: nat)

  /** A reading Python's `datetime` can hold, with a four-digit year. */
  predicate ValidInstant(t: Instant) {
    && 1000 <= t.year <= 9999 && 1 <= t.month <= 12 && 1 <= t.day <= 31
    && t.hour < 24 && t.minute < 60 && t.second < 60
  }

  function Pow10(w: nat): (p: nat)
    ensures p >= 1
  {
    if w == 0 then 1 else 10 * Pow10(w - 1)
  }

  /** The last `w` decimal digits of `n`, zero-padded: `%02d`, `%04d`. */
  function Digits(n: nat, w: nat): (r: string)
    ensures |r| == w && AllDigits(r)
  {
    if w == 0 then [] else Digits(n / 10, w - 1) + [DigitChar(n % 10)]
  }

  /** A number below `10^w` reads back from its `w` zero-padded digits. */
  lemma {:induction false} DigitsReadBack(n: nat, w: nat)
    requires n < Pow10(w)
    ensures DigitsValue(Digits(n, w)) == n
  {
    if w > 0 {
      var q, d := n / 10, n % 10;
      assert n == 10 * q + d;
      assert q < Pow10(w - 1);
      DigitsReadBack(q, w - 1);
      var r := Digits(n, w);
      assert r == Digits(q, w - 1) + [DigitChar(d)];
      assert r[..w - 1] == Digits(q, w - 1);
      assert DigitsValue(r) == DigitsValue(Digits(q, w - 1)) * 10 + d;
    }
  }

  /** Zero-padded numbers below `10^w` print differently. */
  lemma {:induction false} DigitsInjective(m: nat, n: nat, w: nat)
    requires m < Pow10(w) && n < Pow10(w)
    requires Digits(m, w) == Digits(n, w)
    ensures m == n
  {
    if w > 0 {
      var a, b := Digits(m, w), Digits(n, w);
      assert a[..w - 1] == Digits(m / 10, w - 1);
      assert b[..w - 1] == Digits(n / 10, w - 1);
      DigitsInjective(m / 10, n / 10, w - 1);
      assert DigitChar(m % 10) == a[w - 1] == b[w - 1] == DigitChar(n % 10);
      assert DigitValue(DigitChar(m % 10)) == DigitValue(DigitChar(n % 10));
    }
  }

  /** `now.strftime('%Y%m%d_%H%M%S')`. */
  function TestIdOf(t: Instant): string {
    Digits(t.year, 4) + Digits(t.month, 2) + Digits(t.day, 2) + "_"
    + Digits(t.hour, 2) + Digits(t.minute, 2) + Digits(t.second, 2)
  }

  /** Two saves get the same test id exactly when they happen in the same second. */
  lemma TestIdInjective(t1: Instant, t2: Instant)
    requires ValidInstant(t1) && ValidInstant(t2)
    ensures TestIdOf(t1) == TestIdOf(t2) <==> t1 == t2
  {
    if TestIdOf(t1) == TestIdOf(t2) {
      var s1, s2 := TestIdOf(t1), TestIdOf(t2);
      assert Pow10(2) == 100 && Pow10(4) == 10000;
      assert s1[0..4] == Digits(t1.year, 4) && s2[0..4] == Digits(t2.year, 4);
      assert s1[4..6] == Digits(t1.month, 2) && s2[4..6] == Digits(t2.month, 2);
      assert s1[6..8] == Digits(t1.day, 2) && s2[6..8] == Digits(t2.day, 2);
      assert s1[9..11] == Digits(t1.hour, 2) && s2[9..11] == Digits(t2.hour, 2);
      assert s1[11..13] == Digits(t1.minute, 2) && s2[11..13] == Digits(t2.minute, 2);
      assert s1[13..15] == Digits(t1.second, 2) && s2[13..15] == Digits(t2.second, 2);
      DigitsInjective(t1.year, t2.year, 4);
      DigitsInjective(t1.month, t2.month, 2);
      DigitsInjective(t1.day, t2.day, 2);
      DigitsInjective(t1.hour, t2.hour, 2);
      DigitsInjective(t1.minute, t2.minute, 2);
      DigitsInjective(t1.second, t2.second, 2);
    }
  }

  // ---------------------------------------------------------------------------------------
  // Stored records
  // ---------------------------------------------------------------------------------------

  /** A history entry (`test_info`). */
  datatype TestInfo = TestInfo(
    id: string,
    timestamp: string,
    description: string,
    scriptPath: string,
    configPath: string,
    config: Config)

  /** The two files of a test directory: the script and the configuration. */
  datatype Archived = Archived(script: string, config: Config)

  /** What `get_test` returns. */
  datatype StoredTest = StoredTest(script: string, config: Config, scriptPath: string, configPath: string)

  function ScriptPath(testsDir: string, id: string): string {
    testsDir + "/" + id + "/locust_test_" + id + ".py"
  }

  function ConfigPath(testsDir: string, id: string): string {
    testsDir + "/" + id + "/config.json"
  }

  /** The history entry of a save. */
  function InfoFor(testsDir: string, config: Config, description: string, id: string, timestamp: string): TestInfo {
    TestInfo(id, timestamp, description, ScriptPath(testsDir, id), ConfigPath(testsDir, id), config)
  }

  /** `get_test(id)`: the test when its directory holds both files, otherwise nothing. */
  function Lookup(testsDir: string, archive: map<string, Archived>, id: string): Option<StoredTest> {
    if id in archive then
      Some(StoredTest(archive[id].script, archive[id].config, ScriptPath(testsDir, id), ConfigPath(testsDir, id)))
    else None
  }

  /** The store's contents: the history list and the test directories. */
  datatype StoreState = StoreState(history: seq<TestInfo>, archive: map<string, Archived>)

  /** The store after `save_test`: the files of the test id are (over)written and the entry is
    * appended to the history. */
  function Saved(st: StoreState, testsDir: string, script: string, config: Config, description: string,
                 id: string, timestamp: string): StoreState {
    StoreState(st.history + [InfoFor(testsDir, config, description, id, timestamp)],
               st.archive[id := Archived(script, config)])
  }

  // ---------------------------------------------------------------------------------------
  // The store object
  // ---------------------------------------------------------------------------------------

  class TestStore {
    const testsDir: string
    var history: seq<TestInfo>
    var archive: map<string, Archived>

    function State(): StoreState
      reads this
    {
      StoreState(history, archive)
    }

    /** Opens the store on `testsDir`. The history is the saved history file when there is
      * one, otherwise empty; `files` are the test directories already on disk. */
    constructor(testsDir: string, historyFile: Option<seq<TestInfo>>, files: map<string, Archived>)
      ensures this.testsDir == testsDir
      ensures history == historyFile.GetOr([]) && archive == files
    {
      this.testsDir := testsDir;
      history := historyFile.GetOr([]);
      archive := files;
    }

    /** `save_test`: the test id is the first clock reading, the timestamp the second. */
    method SaveTest(script: string, config: Config, description: string, now: Instant, timestamp: string)
      returns (info: TestInfo)
      modifies this
      ensures info == InfoFor(testsDir, config, description, TestIdOf(now), timestamp)
      ensures State() == Saved(old(State()), testsDir, script, config, description, TestIdOf(now), timestamp)
    {
      var testId := TestIdOf(now);
      archive := archive[testId := Archived(script, config)];
      info := TestInfo(testId, timestamp, description, ScriptPath(testsDir, testId), ConfigPath(testsDir, testId), config);
      history := history + [info];
    }

    /** `get_test`: the saved test of that id, with its paths, when its directory exists. */
    method GetTest(id: string) returns (r: Option<StoredTest>)
      ensures r.Some? <==> id in archive
      ensures r.Some? ==> r.value == StoredTest(archive[id].script, archive[id].config,
                                                  ScriptPath(testsDir, id), ConfigPath(testsDir, id))
    {
      r := Lookup(testsDir, archive, id);
    }

    /** `list_tests`: the whole history, oldest first. */
    method ListTests() returns (tests: seq<TestInfo>)
      ensures tests == history
    {
      tests := history;
    }
  }

  // ---------------------------------------------------------------------------------------
  // Properties of saving
  // ---------------------------------------------------------------------------------------

  /** What is saved can be got back: the script and configuration just written, at the
    * paths reported in the history entry. */
  lemma SaveThenGet(st: StoreState, testsDir: string, script: string, config: Config, description: string,
                    id: string, timestamp: string)
    ensures var after := Saved(st, testsDir, script, config, description, id, timestamp);
            var info := InfoFor(testsDir, config, description, id, timestamp);
      && Lookup(testsDir, after.archive, id) == Some(StoredTest(script, config, info.scriptPath, info.configPath))
      && after.history[|after.history| - 1] == info
  {
  }

  /** A save touches no other test id. */
  lemma SaveKeepsOthers(st: StoreState, testsDir: string, script: string, config: Config, description: string,
                        id: string, timestamp: string, other: string)
    requires other != id
    ensures Lookup(testsDir, Saved(st, testsDir, script, config, description, id, timestamp).archive, other)
            == Lookup(testsDir, st.archive, other)
  {
  }

  /** One call of `save_test`. */
  datatype Save = Save(script: string, config: Config, description: string, now: Instant, timestamp: string)

  /** The store after the saves, in order. */
  function AfterSaves(st: StoreState, testsDir: string, saves: seq<Save>): StoreState
    decreases |saves|
  {
    if saves == [] then st
    else
      var last := saves[|saves| - 1];
      Saved(AfterSaves(st, testsDir, saves[..|saves| - 1]), testsDir, last.script, last.config,
            last.description, TestIdOf(last.now), last.timestamp)
  }

  /** The position of the last save whose test id is `id`. */
  function LastSaveOf(saves: seq<Save>, id: string): (r: Option<nat>)
    ensures r.Some? ==> r.value < |saves| && TestIdOf(saves[r.value].now) == id
    ensures forall k :: 0 <= k < |saves| && TestIdOf(saves[k].now) == id ==> r.Some? && k <= r.value
    decreases |saves|
  {
    if saves == [] then None
    else if TestIdOf(saves[|saves| - 1].now) == id then Some(|saves| - 1)
    else LastSaveOf(saves[..|saves| - 1], id)
  }

  /** After a series of saves, each test id holds what its last save wrote; ids nobody saved
    * keep what was on disk before. */
  lemma {:induction false} LastSaveWins(st: StoreState, testsDir: string, saves: seq<Save>, id: string)
    ensures Lookup(testsDir, AfterSaves(st, testsDir, saves).archive, id)
            == match LastSaveOf(saves, id)
               case Some(k) => Some(StoredTest(saves[k].script, saves[k].config, ScriptPath(testsDir, id), ConfigPath(testsDir, id)))
               case None => Lookup(testsDir, st.archive, id)
    decreases |saves|
  {
    if saves != [] {
      var init := saves[..|saves| - 1];
      LastSaveWins(st, testsDir, init, id);
      if TestIdOf(saves[|saves| - 1].now) != id {
        match LastSaveOf(init, id)
        case Some(k) => assert init[k] == saves[k];
        case None =>
      }
    }
  }

  /** Every save appends exactly one history entry, in order, and the history never loses
    * an entry, even when two saves share a test id. */
  lemma {:induction false} HistoryOfSaves(st: StoreState, testsDir: string, saves: seq<Save>)
    ensures var h := AfterSaves(st, testsDir, saves).history;
      && |h| == |st.history| + |saves|
      && h[..|st.history|] == st.history
      && forall k :: 0 <= k < |saves| ==>
           h[|st.history| + k] == InfoFor(testsDir, saves[k].config, saves[k].description, TestIdOf(saves[k].now), saves[k].timestamp)
    decreases |saves|
  {
    if saves != [] {
      var init := saves[..|saves| - 1];
      HistoryOfSaves(st, testsDir, init);
      var h0 := AfterSaves(st, testsDir, init).history;
      var h := AfterSaves(st, testsDir, saves).history;
      assert h[..|h0|] == h0;
      forall k | 0 <= k < |saves|
        ensures h[|st.history| + k] == InfoFor(testsDir, saves[k].config, saves[k].description, TestIdOf(saves[k].now), saves[k].timestamp)
      {
        if k < |init| {
          assert init[k] == saves[k];
          assert h[|st.history| + k] == h0[|st.history| + k];
        }
      }
    }
  }

  /** Two saves in the same second: the history lists both under the same id, but the second
    * overwrites the first's files, so only its script can be got back. */
  lemma SameSecondOverwrites(st: StoreState, testsDir: string, first: Save, second: Save)
    requires first.now == second.now
    ensures var after := AfterSaves(st, testsDir, [first, second]);
      && |after.history| == |st.history| + 2
      && after.history[|st.history|].id == after.history[|st.history| + 1].id == TestIdOf(first.now)
      && Lookup(testsDir, after.archive, TestIdOf(first.now))
         == Some(StoredTest(second.script, second.config, ScriptPath(testsDir, TestIdOf(first.now)),
                            ConfigPath(testsDir, TestIdOf(first.now))))
  {
    HistoryOfSaves(st, testsDir, [first, second]);
    LastSaveWins(st, testsDir, [first, second], TestIdOf(first.now));
  }
}
