/**
 * The package server's message handling (`websocket_endpoint` in the package): each message
 * is answered on its own, `initialize` before anything else is checked, then `generate`,
 * `run`, `list`, `stop` or an unknown command. A generated test is saved in the test store
 * and can be run later by its id.
 *
 * The whole exchange is `Step` on the store's state. `Step` comes in two variants that differ
 * only in the configuration saved for a prompt: `AsWritten` saves the spec's own dictionary,
 * `Corrected` saves `generate_config` of the spec. `Dispatcher.Handle` is proved to perform
 * the `AsWritten` step on the `TestStore` object. The effects the model cannot see are in `Env`:
 * `json.dumps`, launching Locust and the report of stopping it.
 */
module Server {
  import opened Wrappers
  import opened Text
  import opened Model
  import PromptExtractor
  import Renderer
  import Runner
  import opened Store

  /** A received text frame: not a JSON object, or the keys `command`, `requestId` and
    * `params` (each possibly absent). */
  datatype Message =
    | Unparsable
    | Message(command: Option<string>, requestId: Option<Json>, params: Option<Params>)

  datatype Error =
    | UnknownCommand(name: string)
    | TestNotFound(id: string)
    | InvalidMessage   // a frame that is not JSON, or lacks `command` or `params`

  /** The `error` text of a reply; the parser's own message for an invalid frame is
    * `invalidText`. */
  function ErrorText(e: Error, invalidText: string): string {
    match e
    case UnknownCommand(name) => "Unknown command: " + name
    case TestNotFound(id) => "Test with ID " + id + " not found"
    case InvalidMessage => invalidText
  }

  /** The capabilities announced in reply to `initialize`. */
  const Capabilities := JObj([("textDocument", JBool(true)), ("workspace", JBool(true))])

  /** The reply to one message. */
  datatype Reply =
    | Initialized(requestId: Option<Json>, capabilities: Json)
    | Generated(testId: string, script: string, config: Config, scriptPath: string, configPath: string)
    | Ran(result: Runner.RunResult)
    | Listed(tests: seq<TestInfo>)
    | Stopped(report: Json)
    | Failed(error: Error)

  /** What the server does not compute itself: `json.dumps`, a Locust run and its report,
    * and the report of stopping all runs. */
  datatype Env = Env(dumps: Json -> string, launch: (string, Runner.Settings) -> Json, stopReport: Json)

  // ---------------------------------------------------------------------------------------
  // Configuration of prompt-generated tests
  // ---------------------------------------------------------------------------------------

  /** As written, a prompt-generated test is saved with the spec's own dictionary as its
    * configuration. */
  function PromptConfigAsWritten(spec: LoadTestSpec): Config {
    SpecDict(spec)
  }

  /** That dictionary has none of the runner's keys but `users`: a test generated for a
    * two-minute run against a public URL at spawn rate 5 is run, by its id, against
    * `http://localhost:8000` at spawn rate 1 for 30 seconds. */
  lemma PromptConfigAsWrittenLosesSettings()
    ensures var spec := LoadTestSpec("https://jsonplaceholder.typicode.com/posts",
                                     [PromptExtractor.DefaultEndpoint], 50, 5, "2m");
            Runner.SettingsOf(PromptConfigAsWritten(spec))
            == Runner.Settings("http://localhost:8000", 50, 1, "30s")
  {
  }

  /** The configuration a prompt-generated test is saved with: `generate_config` of the spec,
    * as for tests generated from explicit parameters. */
  function PromptConfig(spec: LoadTestSpec): Config {
    Renderer.GenerateConfig(SpecParams(spec))
  }

  /** The runner reads back every load figure of the prompt. */
  lemma PromptConfigRunsAsPrompted(spec: LoadTestSpec)
    ensures Runner.SettingsOf(PromptConfig(spec))
            == Runner.Settings(spec.targetUrl, spec.users, spec.spawnRate, spec.runTime)
  {
    Runner.GeneratedConfigRunsAsGenerated(SpecParams(spec));
  }

  // ---------------------------------------------------------------------------------------
  // One message
  // ---------------------------------------------------------------------------------------

  /** Which configuration `generate` saves for a prompt: the spec's own dictionary, as the
    * program is written, or `generate_config` of the spec, as evidently intended. The reply
    * shows the spec's dictionary either way, since clients read its keys. */
  datatype Variant = AsWritten | Corrected

  /** What `generate` produces before saving: the script, the configuration it saves, the
    * configuration it shows in the reply, and the description. */
  datatype Generation = Generation(script: string, saved: Config, shown: Config, description: string)

  /** `generate`: from the prompt when there is one, otherwise from the parameters. */
  function Generate(v: Variant, p: Params, dumps: Json -> string): Generation {
    match p.prompt
    case Some(prompt) =>
      var spec := PromptExtractor.Extract(prompt);
      var saved := if v == AsWritten then PromptConfigAsWritten(spec) else PromptConfig(spec);
      Generation(Join(Renderer.ScriptLines(SpecParams(spec), dumps), "\n"), saved, SpecDict(spec), prompt)
    case None =>
      var config := Renderer.GenerateConfig(p);
      Generation(Join(Renderer.ScriptLines(p, dumps), "\n"), config, config, "Generated test")
  }

  /** `run`: by test id when one is given, otherwise the script and configuration in the
    * parameters. */
  function RunReply(archive: map<string, Archived>, testsDir: string, p: Params, env: Env): Reply {
    match p.testId
    case Some(id) =>
      (match Lookup(testsDir, archive, id)
       case None => Failed(TestNotFound(id))
       case Some(t) => Ran(Runner.Run(t.script, t.config, env.launch)))
    case None => Ran(Runner.Run(p.script.GetOr(""), p.config.GetOr(EmptyConfig), env.launch))
  }

  /** The store and the reply after one message; `now` and `timestamp` are the clock. */
  function Step(v: Variant, st: StoreState, testsDir: string, msg: Message, env: Env, now: Instant, timestamp: string)
    : (StoreState, Reply)
  {
    match msg
    case Unparsable => (st, Failed(InvalidMessage))
    case Message(command, requestId, params) =>
      if command == Some("initialize") then (st, Initialized(requestId, Capabilities))
      else if command.None? || params.None? then (st, Failed(InvalidMessage))
      else
        var c, p := command.value, params.value;
        if c == "generate" then
          var g := Generate(v, p, env.dumps);
          var id := TestIdOf(now);
          var info := InfoFor(testsDir, g.saved, g.description, id, timestamp);
          (Saved(st, testsDir, g.script, g.saved, g.description, id, timestamp),
           Generated(id, g.script, g.shown, info.scriptPath, info.configPath))
        else if c == "run" then (st, RunReply(st.archive, testsDir, p, env))
        else if c == "list" then (st, Listed(st.history))
        else if c == "stop" then (st, Stopped(env.stopReport))
        else (st, Failed(UnknownCommand(c)))
  }

  /** The store and the replies after a series of messages, with one clock reading each. */
  function Session(v: Variant, st: StoreState, testsDir: string, msgs: seq<Message>, clock: seq<(Instant, string)>, env: Env)
    : (StoreState, seq<Reply>)
    requires |clock| == |msgs|
    decreases |msgs|
  {
    if msgs == [] then (st, [])
    else
      var n := |msgs| - 1;
      var before := Session(v, st, testsDir, msgs[..n], clock[..n], env);
      var after := Step(v, before.0, testsDir, msgs[n], env, clock[n].0, clock[n].1);
      (after.0, before.1 + [after.1])
  }

  // ---------------------------------------------------------------------------------------
  // Properties of the exchange
  // ---------------------------------------------------------------------------------------

  /** `initialize` is answered before the frame is checked any further, with the request id
    * echoed and the fixed capabilities, and changes nothing. */
  lemma InitializeChangesNothing(v: Variant, st: StoreState, testsDir: string, requestId: Option<Json>, params: Option<Params>,
                                 env: Env, now: Instant, timestamp: string)
    ensures Step(v, st, testsDir, Message(Some("initialize"), requestId, params), env, now, timestamp)
            == (st, Initialized(requestId, Capabilities))
  {
  }

  /** A well-formed `generate` message. */
  predicate IsGenerate(msg: Message) {
    msg.Message? && msg.command == Some("generate") && msg.params.Some?
  }

  /** Only `generate` changes the store, and it adds exactly one history entry. */
  lemma OnlyGenerateWrites(v: Variant, st: StoreState, testsDir: string, msg: Message, env: Env, now: Instant, timestamp: string)
    ensures var after := Step(v, st, testsDir, msg, env, now, timestamp).0;
      && (!IsGenerate(msg) ==> after == st)
      && (IsGenerate(msg) ==> after.history[..|st.history|] == st.history && |after.history| == |st.history| + 1
                              && TestIdOf(now) in after.archive)
  {
    if IsGenerate(msg) {
      var after := Step(v, st, testsDir, msg, env, now, timestamp).0;
      assert after.history[..|st.history|] == st.history;
    }
  }

  /** `run` with an id that names no saved test fails with `Test with ID ... not found` and
    * launches nothing. */
  lemma RunUnknownIdFails(v: Variant, st: StoreState, testsDir: string, requestId: Option<Json>, q: Params,
                          env: Env, now: Instant, timestamp: string)
    requires q.testId.Some? && q.testId.value !in st.archive
    ensures var (after, reply) := Step(v, st, testsDir, Message(Some("run"), requestId, Some(q)), env, now, timestamp);
      && after == st && reply == Failed(TestNotFound(q.testId.value))
      && ErrorText(reply.error, "") == "Test with ID " + q.testId.value + " not found"
  {
  }

  /** `run` without an id and without a script is refused by the runner, not launched. */
  lemma RunWithoutScriptRefused(v: Variant, st: StoreState, testsDir: string, requestId: Option<Json>, q: Params,
                                env: Env, now: Instant, timestamp: string)
    requires q.testId.None? && q.script.GetOr("") == ""
    ensures Step(v, st, testsDir, Message(Some("run"), requestId, Some(q)), env, now, timestamp) == (st, Ran(Runner.NoScript))
  {
  }

  /** `generate` archives the generated script and configuration under the id of the clock
    * reading, and replies with that id and the script. */
  lemma GenerateSaves(v: Variant, st: StoreState, testsDir: string, p: Params, env: Env, rid: Option<Json>,
                      now: Instant, ts: string)
    ensures var (s1, r1) := Step(v, st, testsDir, Message(Some("generate"), rid, Some(p)), env, now, ts);
            var g := Generate(v, p, env.dumps);
      && r1.Generated? && r1.testId == TestIdOf(now) && r1.script == g.script && r1.config == g.shown
      && TestIdOf(now) in s1.archive && s1.archive[TestIdOf(now)] == Archived(g.script, g.saved)
      && s1.history == st.history + [InfoFor(testsDir, g.saved, g.description, TestIdOf(now), ts)]
  {
  }

  /** A generated script is never empty, so the runner never refuses it. */
  lemma GeneratedScriptNonEmpty(v: Variant, p: Params, dumps: Json -> string)
    ensures Generate(v, p, dumps).script != ""
  {
    match p.prompt
    case Some(prompt) =>
      Renderer.ScriptStartsWithImport(SpecParams(PromptExtractor.Extract(prompt)), dumps);
    case None =>
      Renderer.ScriptStartsWithImport(p, dumps);
  }

  /** `run` with the id of an archived test whose script is not empty launches that script
    * with the settings read from its configuration, and changes nothing. */
  lemma RunArchived(v: Variant, st: StoreState, testsDir: string, q: Params, env: Env, rid: Option<Json>,
                    now: Instant, ts: string)
    requires q.testId.Some? && q.testId.value in st.archive && st.archive[q.testId.value].script != ""
    ensures var t := st.archive[q.testId.value];
            var settings := Runner.SettingsOf(t.config);
            Step(v, st, testsDir, Message(Some("run"), rid, Some(q)), env, now, ts)
            == (st, Ran(Runner.Launched(settings, env.launch(t.script, settings))))
  {
  }

  /** A test generated and then run by the id in the reply is launched with the generated
    * script and the settings of its saved configuration. */
  lemma GenerateThenRunById(v: Variant, st: StoreState, testsDir: string, p: Params, q: Params, env: Env,
                            rid1: Option<Json>, rid2: Option<Json>, now1: Instant, ts1: string, now2: Instant, ts2: string)
    requires q.testId == Some(TestIdOf(now1))
    ensures var (s1, r1) := Step(v, st, testsDir, Message(Some("generate"), rid1, Some(p)), env, now1, ts1);
            var (s2, r2) := Step(v, s1, testsDir, Message(Some("run"), rid2, Some(q)), env, now2, ts2);
            var g := Generate(v, p, env.dumps);
            var settings := Runner.SettingsOf(g.saved);
      && r1.Generated? && r1.testId == TestIdOf(now1) && r1.script == g.script
      && s2 == s1
      && r2 == Ran(Runner.Launched(settings, env.launch(g.script, settings)))
  {
    var s1 := Step(v, st, testsDir, Message(Some("generate"), rid1, Some(p)), env, now1, ts1).0;
    GenerateSaves(v, st, testsDir, p, env, rid1, now1, ts1);
    GeneratedScriptNonEmpty(v, p, env.dumps);
    RunArchived(v, s1, testsDir, q, env, rid2, now2, ts2);
  }

  /** From a prompt, `generate` shows the spec's own dictionary and saves the configuration
    * of the variant. */
  lemma PromptGeneration(v: Variant, p: Params, prompt: string, dumps: Json -> string)
    requires p.prompt == Some(prompt)
    ensures var g, spec := Generate(v, p, dumps), PromptExtractor.Extract(prompt);
      && g.shown == SpecDict(spec)
      && g.saved == (if v == AsWritten then PromptConfigAsWritten(spec) else PromptConfig(spec))
  {
  }

  /** As written, a test generated from a prompt and run by its id is launched against the
    * default host with the default spawn rate and run time: only the prompt's user count
    * survives. The reply shows the spec's own dictionary. */
  lemma PromptTestRunsAsWritten(st: StoreState, testsDir: string, prompt: string, p: Params, q: Params, env: Env,
                                rid1: Option<Json>, rid2: Option<Json>, now1: Instant, ts1: string, now2: Instant, ts2: string)
    requires p.prompt == Some(prompt) && q.testId == Some(TestIdOf(now1))
    ensures var (s1, r1) := Step(AsWritten, st, testsDir, Message(Some("generate"), rid1, Some(p)), env, now1, ts1);
            var r2 := Step(AsWritten, s1, testsDir, Message(Some("run"), rid2, Some(q)), env, now2, ts2).1;
            var spec := PromptExtractor.Extract(prompt);
      && r1.Generated? && r1.config == SpecDict(spec)
      && r2.Ran? && r2.result.Launched?
      && r2.result.settings == Runner.Settings(DefaultHost, spec.users, DefaultSpawnRate, DefaultRunTime)
  {
    GenerateSaves(AsWritten, st, testsDir, p, env, rid1, now1, ts1);
    GenerateThenRunById(AsWritten, st, testsDir, p, q, env, rid1, rid2, now1, ts1, now2, ts2);
    PromptGeneration(AsWritten, p, prompt, env.dumps);
  }

  /** With the corrected configuration, a test generated from a prompt and run by its id is
    * launched with the prompt's host, users, spawn rate and run time, and the reply still
    * shows the spec's own dictionary. */
  lemma PromptTestRunsAsPrompted(st: StoreState, testsDir: string, prompt: string, p: Params, q: Params, env: Env,
                                 rid1: Option<Json>, rid2: Option<Json>, now1: Instant, ts1: string, now2: Instant, ts2: string)
    requires p.prompt == Some(prompt) && q.testId == Some(TestIdOf(now1))
    ensures var (s1, r1) := Step(Corrected, st, testsDir, Message(Some("generate"), rid1, Some(p)), env, now1, ts1);
            var r2 := Step(Corrected, s1, testsDir, Message(Some("run"), rid2, Some(q)), env, now2, ts2).1;
            var spec := PromptExtractor.Extract(prompt);
      && r1.Generated? && r1.config == SpecDict(spec)
      && r2.Ran? && r2.result.Launched?
      && r2.result.settings == Runner.Settings(spec.targetUrl, spec.users, spec.spawnRate, spec.runTime)
  {
    GenerateSaves(Corrected, st, testsDir, p, env, rid1, now1, ts1);
    GenerateThenRunById(Corrected, st, testsDir, p, q, env, rid1, rid2, now1, ts1, now2, ts2);
    PromptGeneration(Corrected, p, prompt, env.dumps);
    PromptConfigRunsAsPrompted(PromptExtractor.Extract(prompt));
  }

  /** `list` returns the history as it stands, in the order the tests were saved. */
  lemma ListReturnsHistory(v: Variant, st: StoreState, testsDir: string, requestId: Option<Json>, q: Params,
                           env: Env, now: Instant, timestamp: string)
    ensures Step(v, st, testsDir, Message(Some("list"), requestId, Some(q)), env, now, timestamp) == (st, Listed(st.history))
  {
  }

  /** A command other than the five known ones is answered with `Unknown command: <name>` and
    * changes nothing. */
  lemma UnknownCommandRejected(v: Variant, st: StoreState, testsDir: string, requestId: Option<Json>, c: string, q: Params,
                               env: Env, now: Instant, timestamp: string)
    requires c != "initialize" && c != "generate" && c != "run" && c != "list" && c != "stop"
    ensures var (after, reply) := Step(v, st, testsDir, Message(Some(c), requestId, Some(q)), env, now, timestamp);
      && after == st && reply == Failed(UnknownCommand(c))
      && ErrorText(reply.error, "") == "Unknown command: " + c
  {
  }

  /** `generate` without a prompt describes the test as `Generated test` and saves a
    * configuration whose run settings are the parameters' own, each defaulted. */
  lemma GenerateWithoutPrompt(v: Variant, p: Params, dumps: Json -> string)
    requires p.prompt.None?
    ensures var g := Generate(v, p, dumps);
      && g.description == "Generated test" && g.saved == g.shown
      && g.script == Join(Renderer.ScriptLines(p, dumps), "\n")
      && Runner.SettingsOf(g.saved)
         == Runner.Settings(p.targetUrl.GetOr(DefaultHost), p.users.GetOr(DefaultUsers),
                            p.spawnRate.GetOr(DefaultSpawnRate), p.runTime.GetOr(DefaultRunTime))
  {
    Runner.GeneratedConfigRunsAsGenerated(p);
  }

  /** The number of well-formed `generate` messages. */
  function GenerateCount(msgs: seq<Message>): nat
    decreases |msgs|
  {
    if msgs == [] then 0
    else GenerateCount(msgs[..|msgs| - 1]) + (if IsGenerate(msgs[|msgs| - 1]) then 1 else 0)
  }

  /** Over a session: one reply per message, the history keeps its entries and gains one per
    * `generate`, and no saved test disappears. */
  lemma {:induction false} SessionGrowth(v: Variant, st: StoreState, testsDir: string, msgs: seq<Message>,
                                         clock: seq<(Instant, string)>, env: Env)
    requires |clock| == |msgs|
    ensures var (after, replies) := Session(v, st, testsDir, msgs, clock, env);
      && |replies| == |msgs|
      && |after.history| == |st.history| + GenerateCount(msgs)
      && after.history[..|st.history|] == st.history
      && st.archive.Keys <= after.archive.Keys
    decreases |msgs|
  {
    if msgs != [] {
      var n := |msgs| - 1;
      SessionGrowth(v, st, testsDir, msgs[..n], clock[..n], env);
      var before := Session(v, st, testsDir, msgs[..n], clock[..n], env).0;
      OnlyGenerateWrites(v, before, testsDir, msgs[n], env, clock[n].0, clock[n].1);
      var after := Session(v, st, testsDir, msgs, clock, env).0;
      assert after.history[..|before.history|] == before.history;
      assert after.history[..|st.history|] == before.history[..|st.history|];
    }
  }

  // ---------------------------------------------------------------------------------------
  // The server object
  // ---------------------------------------------------------------------------------------

  class Dispatcher {
    const store: TestStore

    constructor(store: TestStore)
      ensures this.store == store
    {
      this.store := store;
    }

    /** One turn of the receive loop, as the program is written: the reply to `msg`, saving a
      * generated test. */
    method Handle(msg: Message, env: Env, now: Instant, timestamp: string) returns (reply: Reply)
      modifies store
      ensures (store.State(), reply) == Step(AsWritten, old(store.State()), store.testsDir, msg, env, now, timestamp)
    {
      if msg.Unparsable? {
        return Failed(InvalidMessage);
      }
      if msg.command == Some("initialize") {
        return Initialized(msg.requestId, Capabilities);
      }
      if msg.command.None? || msg.params.None? {
        return Failed(InvalidMessage);
      }
      var command, params := msg.command.value, msg.params.value;
      if command == "generate" {
        var script: string;
        var config: Config;
        if params.prompt.Some? {
          var spec := PromptExtractor.ParsePrompt(params.prompt.value);
          script := Renderer.Generate(SpecParams(spec), env.dumps);
          config := PromptConfigAsWritten(spec);
        } else {
          script := Renderer.Generate(params, env.dumps);
          config := Renderer.GenerateConfig(params);
        }
        var description := params.prompt.GetOr("Generated test");
        var info := store.SaveTest(script, config, description, now, timestamp);
        reply := Generated(info.id, script, config, info.scriptPath, info.configPath);
      } else if command == "run" {
        var script: string;
        var config: Config;
        if params.testId.Some? {
          var testData := store.GetTest(params.testId.value);
          if testData.None? {
            return Failed(TestNotFound(params.testId.value));
          }
          script, config := testData.value.script, testData.value.config;
        } else {
          script, config := params.script.GetOr(""), params.config.GetOr(EmptyConfig);
        }
        reply := Ran(Runner.Run(script, config, env.launch));
      } else if command == "list" {
        var tests := store.ListTests();
        reply := Listed(tests);
      } else if command == "stop" {
        reply := Stopped(env.stopReport);
      } else {
        reply := Failed(UnknownCommand(command));
      }
    }

    /** The receive loop over the frames of one connection, in order. */
    method Serve(msgs: seq<Message>, clock: seq<(Instant, string)>, env: Env) returns (replies: seq<Reply>)
      requires |clock| == |msgs|
      modifies store
      ensures (store.State(), replies) == Session(AsWritten, old(store.State()), store.testsDir, msgs, clock, env)
    {
      replies := [];
      for k := 0 to |msgs|
        invariant (store.State(), replies) == Session(AsWritten, old(store.State()), store.testsDir, msgs[..k], clock[..k], env)
      {
        assert msgs[..k + 1][..k] == msgs[..k];
        assert clock[..k + 1][..k] == clock[..k];
        var reply := Handle(msgs[k], env, clock[k].0, clock[k].1);
        replies := replies + [reply];
      }
      assert msgs[..|msgs|] == msgs;
      assert clock[..|clock|] == clock;
    }
  }
}
