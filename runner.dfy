/**
 * The part of `LocustTestRunner` that decides what to run: an empty script is refused with a
 * fixed message; otherwise the run settings are read from the configuration dictionary under
 * the runner's own keys (`host`, `users`, `spawn_rate`, `run_time`), each with a default, and
 * the Locust process is launched. Launching the process and reading its report is the
 * parameter `launch`; stopping runs is the parameter `stopReport` of the servers.
 */
module Runner {
  import opened Wrappers
  import opened Model
  import Renderer

  /** The values passed on the Locust command line (`--host`, `--users`, `--spawn-rate`,
    * `--run-time`). */
  datatype Settings = Settings(host: string, users: int, spawnRate: int, runTime: string)

  /** What `run` returns: the refusal of an empty script, or the settings of the launched run
    * with its report. */
  datatype RunResult =
    | NoScript
    | Launched(settings: Settings, report: Json)

  const NoScriptMessage := "No test script provided"

  /** The settings the runner reads from a configuration. A `spec.dict()` has none of the
    * runner's keys except `users`. */
  function SettingsOf(c: Config): Settings {
    match c
    case RunConfig(host, users, spawnRate, runTime) =>
      Settings(host.GetOr(DefaultHost), users.GetOr(DefaultUsers), spawnRate.GetOr(DefaultSpawnRate), runTime.GetOr(DefaultRunTime))
    case SpecDict(spec) =>
      Settings(DefaultHost, spec.users, DefaultSpawnRate, DefaultRunTime)
  }

  /** `LocustTestRunner.run`: an empty script is refused before anything is launched; any other
    * script is launched with the settings of its configuration. */
  function Run(script: string, config: Config, launch: (string, Settings) -> Json): (r: RunResult)
    ensures r.NoScript? <==> script == ""
    ensures r.Launched? ==> r.settings == SettingsOf(config) && r.report == launch(script, r.settings)
  {
    if script == "" then NoScript
    else
      var settings := SettingsOf(config);
      Launched(settings, launch(script, settings))
  }

  /** The runner's defaults are the generator's: whatever `generate_config` wrote, the runner
    * reads back the same host, users, spawn rate and run time. */
  lemma GeneratedConfigRunsAsGenerated(p: Params)
    ensures SettingsOf(Renderer.GenerateConfig(p))
            == Settings(p.targetUrl.GetOr(DefaultHost), p.users.GetOr(DefaultUsers),
                        p.spawnRate.GetOr(DefaultSpawnRate), p.runTime.GetOr(DefaultRunTime))
  {
  }
}
