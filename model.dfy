/**
 * The values that flow between the prompt extractors, the script renderers, the test store and
 * the command dispatchers. Python dictionaries become records whose absent keys are `None`.
 */
module Model {
  import opened Wrappers

  /** A JSON-decoded value, as carried by request parameters, request bodies and headers.
    * Numbers are integers only. */
  datatype Json =
    | JNull
    | JBool(b: bool)
    | JNum(n: int)
    | JStr(s: string)
    | JArr(items: seq<Json>)
    | JObj(fields: seq<(string, Json)>)

  /** Python truthiness of a decoded JSON value (`if data:`). */
  predicate Truthy(j: Json) {
    match j
    case JNull => false
    case JBool(b) => b
    case JNum(n) => n != 0
    case JStr(s) => s != ""
    case JArr(items) => items != []
    case JObj(fields) => fields != []
  }

  /** One endpoint dictionary: the keys `method` (here `httpMethod`), `path`, `data`, `headers` and `weight`.
    * `data == Some(JNull)` is a key present with the value `None`; `data == None` is an
    * absent key. */
  datatype Endpoint = Endpoint(
    httpMethod: Option<string>,
    path: Option<string>,
    data: Option<Json>,
    headers: Option<Json>,
    weight: Option<int>)

  /** The `LoadTestSpec` record built by the package's prompt extractor. */
  datatype LoadTestSpec = LoadTestSpec(
    targetUrl: string,
    endpoints: seq<Endpoint>,
    users: nat,
    spawnRate: nat,
    runTime: string)

  /** A test configuration dictionary as stored and as handed to the runner. Either the
    * runner-shaped `{host, users, spawn_rate, run_time}` map (keys may be absent), or the
    * dictionary of a `LoadTestSpec` (`spec.dict()`, keys `targetUrl`, `endpoints`, `users`,
    * `spawnRate`, `runTime`). */
  datatype Config =
    | RunConfig(host: Option<string>, users: Option<int>, spawnRate: Option<int>, runTime: Option<string>)
    | SpecDict(spec: LoadTestSpec)

  /** The `{}` configuration. */
  const EmptyConfig := RunConfig(None, None, None, None)

  /** A request's `params` dictionary, restricted to the keys the code reads. The legacy
    * parser also returns its configuration in this shape. */
  datatype Params = Params(
    prompt: Option<string>,
    targetUrl: Option<string>,
    endpoints: Option<seq<Endpoint>>,
    users: Option<int>,
    spawnRate: Option<int>,
    runTime: Option<string>,
    thinkTime: Option<int>,
    testId: Option<string>,
    script: Option<string>,
    config: Option<Config>)

  const NoParams := Params(None, None, None, None, None, None, None, None, None, None)

  const DefaultHost := "http://localhost:8000"
  const DefaultUsers := 10
  const DefaultSpawnRate := 1
  const DefaultRunTime := "30s"

  /** `spec.dict()`, as handed to the script renderer. */
  function SpecParams(spec: LoadTestSpec): Params {
    NoParams.(targetUrl := Some(spec.targetUrl), endpoints := Some(spec.endpoints),
              users := Some(spec.users), spawnRate := Some(spec.spawnRate),
              runTime := Some(spec.runTime))
  }
}
