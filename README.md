# locust-mcp, modelled in Dafny

This project models locust-mcp, a small server that turns a natural-language description of a
load test into a Locust script. It models the decision-making core in both generations of the
server.

The package server (`src/locust_mcp`) has:
- a prompt extractor that turns free text into a `LoadTestSpec`, one field at a time, each
  from the leftmost match of a pattern or from a default;
- a script renderer that writes a six-line header and a four-line task block per endpoint, and
  that also writes the run configuration;
- a test store that appends each saved test to a history and archives its script and
  configuration under a timestamp id;
- a dispatcher that answers each message (`initialize`, `generate`, `run`, `list`, `stop`, or
  anything else) and keeps going.

The legacy single-file server (`locust_mcp_server.py`) has its own case-sensitive prompt parser
and a renderer whose wait time follows a stated think time. It answers one `generate` per
connection with a Locust command line, through a connection manager that tracks whether the
socket is open.

The modules follow the source:

| module | file | models |
|---|---|---|
| `Wrappers` | `wrappers.dfy` | `Option` |
| `Text` | `text.dfy` | character classes, `lower()`, the leftmost-match rule of `re.search`, `in` on strings, decimal numerals, `str.join` |
| `Model` | `model.dfy` | JSON values, endpoints, `LoadTestSpec`, parameter and configuration dictionaries, the defaults |
| `PromptExtractor` | `prompt.dfy` | `PromptGenerator.parse_prompt` |
| `Renderer` | `render.dfy` | `LocustScriptGenerator.generate` and `generate_config` |
| `Runner` | `runner.dfy` | the decision `LocustTestRunner.run` makes before launching Locust |
| `Store` | `store.dfy` | `TestStore` |
| `Server` | `server.dfy` | the message loop of the package server |
| `Legacy` | `legacy.dfy` | `parse_prompt`, `generate_locust_script`, `WebSocketConnectionManager` and `websocket_endpoint` of the legacy server |

Each regular expression becomes a function that matches at one position and returns
`Option<...>`. A generic scan tries positions from left to right, as `re.search` does. Where a
pattern could backtrack, a comment says why backtracking yields no other match.

Code that builds its result step by step is modelled as a method proved equal to a
specification function. This covers the verb loop, the task loop, the legacy parser's updates
of its dictionary, the store's appends and the message loop. The properties are proved as
lemmas about those functions.

The package server's message step comes in two variants (`Server.Variant`). `AsWritten`
archives a prompt test's configuration as the server does, and `Server.Dispatcher` performs it.
`Corrected` archives the runnable configuration instead and keeps the same reply (see Findings).

Things the model takes as parameters:
- `json.dumps` is the parameter `dumps`.
- Launching Locust and reading its report is the parameter `launch`, and the report of
  stopping runs is `stopReport` (both in `Server.Env`).
- The clock reading is an `Instant` plus the ISO timestamp text.
- The files a store starts with are a map.

## Model

| member | source | states |
|---|---|---|
| Text.Lower | src/locust_mcp/prompt_generator.py:21 | lower-casing keeps the length, maps each character on its own (an upper-case ASCII letter to the letter 32 code points above, anything else to itself) and leaves no upper-case letter |
| Text.LowerIdempotent | src/locust_mcp/prompt_generator.py:21 | lower-casing twice is lower-casing once |
| Text.FirstOr | src/locust_mcp/prompt_generator.py:25-26 | the value is the match at the leftmost matching position, or the default when no position matches |
| Text.Contains | src/locust_mcp/prompt_generator.py:54 | `sub in s` holds exactly when `sub` occurs at some position of `s` |
| Text.DigitsRoundTrip | src/locust_mcp/prompt_generator.py:30 | reading back the decimal numeral of `n` gives `n` |
| Text.NatToStringInjective | src/locust_mcp/locust_generator.py:32 | different numbers have different numerals |
| PromptExtractor.UrlAt | src/locust_mcp/prompt_generator.py:25 | a URL match is a scheme followed by the whole run of non-space characters, and it occurs in the prompt at that position |
| PromptExtractor.UsersAt | src/locust_mcp/prompt_generator.py:29-30 | there is a user-count match at `i` exactly when a digit is there and the maximal digit run is followed, after optional spaces, by `user`; its value is the number that run spells |
| PromptExtractor.TimeAt | src/locust_mcp/prompt_generator.py:33-41 | there is a run-time match at `i` if and only if a digit starts there and the first non-space character after the whole digit run is `s`, `m` or `h`; the match is that maximal digit run followed by that unit letter |
| PromptExtractor.PathAt | src/locust_mcp/prompt_generator.py:59 | there is a path match exactly when the verb is at `i`, at least one space follows it, and a path character follows those spaces; the path is the maximal run of `/` and word characters starting where `PromptExtractor.PathStart` says |
| PromptExtractor.PathStart | src/locust_mcp/prompt_generator.py:59 | group 1 starts after `from` (or else `to`) and its spaces when a path character follows them, and otherwise right after the verb's spaces, at a path character |
| PromptExtractor.TimesMoreAt | src/locust_mcp/prompt_generator.py:71 | there is a weight match at `c` exactly when a digit is there and the maximal digit run is followed, after optional spaces, by `time`, an optional `s`, optional spaces and `more`; the capture is that digit run |
| PromptExtractor.AfterSpawn | src/locust_mcp/prompt_generator.py:45 | the greedy `spawn\s*(?:rate\|speed)?\s*(?:of)?\s*` ends at or after the end of `spawn`, and the text it reads after `spawn` holds no digit |
| PromptExtractor.SpawnAt | src/locust_mcp/prompt_generator.py:45-46 | there is a spawn match exactly when `spawn` is at `i` and a digit follows the greedy `\s*(?:rate\|speed)?\s*(?:of)?\s*` that `PromptExtractor.AfterSpawn` reads; its value is the number of the digit run there, the first digit after `spawn` |
| PromptExtractor.WeightAt | src/locust_mcp/prompt_generator.py:71-73 | a weight match needs the verb at `i`; its value is the number of the leftmost `N times more` after the verb, with no line break in between (the lazy `.*?`); when there is no match, the verb is not at `i` or no `N times more` starts between the verb and the next line break |
| PromptExtractor.TargetUrl | src/locust_mcp/prompt_generator.py:25-26 | the target URL is the leftmost URL match, or `http://localhost:8000` |
| PromptExtractor.Users | src/locust_mcp/prompt_generator.py:29-30 | the user count is the leftmost `N user(s)` match, or 10 |
| PromptExtractor.RunTime | src/locust_mcp/prompt_generator.py:33-43 | the run time is the leftmost match, or `30s`; it is digits followed by exactly one of `s`, `m`, `h` |
| PromptExtractor.SpawnRate | src/locust_mcp/prompt_generator.py:45-46 | the spawn rate is the leftmost `spawn ... N` match, or 1 |
| PromptExtractor.PathFor | src/locust_mcp/prompt_generator.py:55-63 | a verb's path is `/` when the path pattern matches nowhere, and otherwise the leftmost match with `/` put in front when it lacks one (`Rooted`); it is never empty and starts with `/` |
| PromptExtractor.WeightFor | src/locust_mcp/prompt_generator.py:56-73 | a verb's weight is the leftmost weight match, or 1 |
| PromptExtractor.Rooted | src/locust_mcp/prompt_generator.py:62-63 | a path starting with `/` is kept; any other path, the empty one included, gets `/` in front |
| PromptExtractor.ParsePrompt | src/locust_mcp/prompt_generator.py:16-92 | the verb loop's result is `Extract(prompt)`; the method has no precondition, so with numbers read as unbounded integers parsing succeeds on every string and the trailing `raise` is unreachable (see Left out for `int()` of very long digit strings) |
| PromptExtractor.IndicesMembers | src/locust_mcp/prompt_generator.py:53-54 | the indices of the accepted elements are strictly increasing, and an index is listed if and only if its element is accepted |
| PromptExtractor.SelectFollowsIndices | src/locust_mcp/prompt_generator.py:53-80 | a loop that appends one value per accepted element yields, at position `k`, the value of the `k`-th accepted element |
| PromptExtractor.DetectedFollowsHits | src/locust_mcp/prompt_generator.py:53-80 | the endpoints appended by the loop are those of the verbs found in the prompt, each verb at most once and exactly when it occurs, in the fixed verb order |
| PromptExtractor.EndpointsPerVerb | src/locust_mcp/prompt_generator.py:53-84 | the verbs found are the ones contained in the lower-cased prompt, at most one endpoint each, in the order get, post, put, delete, patch, with the method upper-cased; with none found the list is the default GET `/` endpoint |
| PromptExtractor.EndpointsNonEmpty | src/locust_mcp/prompt_generator.py:83-84 | the endpoint list has between one and five entries |
| PromptExtractor.DefaultEndpointIffNoVerb | src/locust_mcp/prompt_generator.py:83-84 | the list is exactly the default endpoint if and only if no verb occurs in the prompt |
| PromptExtractor.PathsRooted | src/locust_mcp/prompt_generator.py:55-63 | every endpoint path starts with `/` |
| PromptExtractor.BodyRule | src/locust_mcp/prompt_generator.py:66-68 | an endpoint has data if and only if its method is POST, PUT or PATCH and `json` occurs in the prompt, and the data is then the fixed placeholder |
| PromptExtractor.ExtractIgnoresCase | src/locust_mcp/prompt_generator.py:21 | parsing a prompt and parsing its lower-cased form give the same spec |
| PromptExtractor.TargetUrlLowerCase | src/locust_mcp/prompt_generator.py:21-26 | the target URL extracted from the lower-cased prompt contains no upper-case letter |
| Renderer.Header | src/locust_mcp/locust_generator.py:14-21 | the header has six lines, opening with the Locust import and with the class line third |
| Renderer.RenderTask | src/locust_mcp/locust_generator.py:24-43 | one pass of the loop body produces the endpoint's four-line task block |
| Renderer.AppendTaskBlocks | src/locust_mcp/locust_generator.py:23-45 | the loop appends the blocks of all endpoints, numbered from 1, in input order |
| Renderer.Generate | src/locust_mcp/locust_generator.py:7-47 | the script is the header and the task blocks joined by newlines |
| Renderer.GenerateConfig | src/locust_mcp/locust_generator.py:49-56 | each of host, users, spawn_rate and run_time is copied from targetUrl, users, spawnRate and runTime when present, and otherwise takes its default |
| Renderer.BlocksLength | src/locust_mcp/locust_generator.py:23-45 | there are four lines per endpoint |
| Renderer.BlockLine | src/locust_mcp/locust_generator.py:23-45 | line `4k + r` of the tasks is line `r` of endpoint `k`'s block, numbered `k + 1` |
| Renderer.BlockSlice | src/locust_mcp/locust_generator.py:23-45 | lines `4k` to `4k + 3` of the tasks are endpoint `k`'s block, numbered `k + 1` |
| Renderer.BlocksDefLinesDistinct | src/locust_mcp/locust_generator.py:23-33 | the `def` lines of two different endpoints' blocks differ |
| Renderer.ScriptHeader | src/locust_mcp/locust_generator.py:14-21 | the script has `6 + 4n` lines and opens with the header naming the host and the fixed `between(1, 5)` |
| Renderer.ScriptTask | src/locust_mcp/locust_generator.py:23-45 | lines `6 + 4k` to `9 + 4k` are endpoint `k`'s task block, numbered `k + 1` |
| Renderer.TaskNamesDistinct | src/locust_mcp/locust_generator.py:32 | tasks with different numbers get different method names, whatever their HTTP methods |
| Renderer.DefLinesDistinct | src/locust_mcp/locust_generator.py:32 | the `def` lines of tasks with different numbers differ |
| Renderer.ScriptDefLinesDistinct | src/locust_mcp/locust_generator.py:23-33 | in a script, no two tasks declare the same method, so none replaces another |
| Renderer.PlainCall | src/locust_mcp/locust_generator.py:35-42 | without headers and without a body for POST, PUT or PATCH, the request call has the path alone |
| Renderer.CallWithArgs | src/locust_mcp/locust_generator.py:35-42 | with headers the call passes `headers=` first and then, for a body, `json=`; with a body alone it passes `json=` only |
| Renderer.ScriptStartsWithImport | src/locust_mcp/locust_generator.py:14-21 | a script starts with the Locust import and is never empty |
| Renderer.ScriptIgnoresLoad | src/locust_mcp/locust_generator.py:9-12 | users and spawn rate do not affect the script: parameters with the same host and endpoints render the same lines |
| Runner.Run | src/locust_mcp/test_runner.py:9-33 | an empty script is refused if and only if it is empty; any other script is launched with the host, users, spawn rate and run time read from the configuration |
| Runner.GeneratedConfigRunsAsGenerated | src/locust_mcp/test_runner.py:24-33 | the runner reads back from a generated configuration the parameters' host, users, spawn rate and run time, each defaulted as the generator defaults it |
| Store.Digits | src/locust_mcp/test_store.py:55 | a zero-padded field has exactly its width and only digits |
| Store.DigitsReadBack | src/locust_mcp/test_store.py:55 | a number below `10^w` reads back from its `w`-digit field |
| Store.DigitsInjective | src/locust_mcp/test_store.py:55 | different numbers below `10^w` give different `w`-digit fields |
| Store.TestIdInjective | src/locust_mcp/test_store.py:55 | two valid instants give the same `%Y%m%d_%H%M%S` id if and only if they are the same second |
| Store.TestStore.constructor | src/locust_mcp/test_store.py:12-42 | a new store starts from the history file's list, or an empty one, and from the files present |
| Store.TestStore.SaveTest | src/locust_mcp/test_store.py:49-97 | saving returns the record with the id, timestamp, description, both paths and the configuration; it appends that record to the history and archives the script and configuration under the id |
| Store.TestStore.GetTest | src/locust_mcp/test_store.py:99-122 | a lookup finds a test if and only if its id is archived, and returns its script, configuration and both paths |
| Store.TestStore.ListTests | src/locust_mcp/test_store.py:124-126 | listing returns the history as it stands |
| Store.SaveThenGet | src/locust_mcp/test_store.py:58-67 | after a save, looking up its id gives back the saved script and configuration at the paths the save reported |
| Store.SaveKeepsOthers | src/locust_mcp/test_store.py:58-67 | a save leaves every other id's lookup unchanged |
| Store.LastSaveOf | src/locust_mcp/test_store.py:55-67 | the index found is the last save whose clock gives the id |
| Store.LastSaveWins | src/locust_mcp/test_store.py:58-67 | after a series of saves, an id holds the script and configuration of the last save that used it, or what it held before when none did |
| Store.HistoryOfSaves | src/locust_mcp/test_store.py:82-90 | after a series of saves, the history is the old one followed by one record per save, in order |
| Store.SameSecondOverwrites | src/locust_mcp/test_store.py:55-90 | two saves in the same second archive only the second test but leave two history records with the same id |
| Server.PromptConfigAsWrittenLosesSettings | src/locust_mcp/server.py:78-81 | the configuration as written loses the prompt's host, spawn rate and run time when the test is run (see Findings) |
| Server.PromptConfigRunsAsPrompted | src/locust_mcp/server.py:78-81 | the corrected configuration runs with the spec's host, users, spawn rate and run time |
| Server.PromptGeneration | src/locust_mcp/server.py:78-81 | from a prompt, `generate` shows `test_spec.dict()` in the reply and saves that dictionary as written, or `generate_config` of the spec in the corrected step |
| Server.InitializeChangesNothing | src/locust_mcp/server.py:55-69 | `initialize` echoes the request id with the fixed capabilities and changes nothing |
| Server.OnlyGenerateWrites | src/locust_mcp/server.py:76-145 | only a well-formed `generate` changes the store; it keeps the history and adds one record, and the new id is archived |
| Server.RunUnknownIdFails | src/locust_mcp/server.py:107-110 | `run` with an unknown id fails with `Test with ID <id> not found`, launches nothing and changes nothing |
| Server.RunWithoutScriptRefused | src/locust_mcp/server.py:113-121 | `run` without an id and without a script is refused by the runner |
| Server.GenerateSaves | src/locust_mcp/server.py:76-100 | `generate` archives the generated script with the step's saved configuration under the clock's id, appends the matching history record, and replies with that id, the script and the shown configuration |
| Server.GeneratedScriptNonEmpty | src/locust_mcp/server.py:78-91 | a generated script is never empty, so the runner never refuses it |
| Server.RunArchived | src/locust_mcp/server.py:105-121 | `run` with the id of an archived test with a non-empty script launches that script with the settings read from its configuration, and changes nothing |
| Server.GenerateThenRunById | src/locust_mcp/server.py:92-121 | a test generated and then run by the returned id is launched with the generated script and its saved configuration's settings |
| Server.PromptTestRunsAsPrompted | src/locust_mcp/server.py:78-121 | with the corrected step, a prompt test still replies with the spec's own dictionary, and run by its id it uses the prompt's host, users, spawn rate and run time (see Findings) |
| Server.PromptTestRunsAsWritten | src/locust_mcp/server.py:78-121 | as written, a prompt test replies with the spec's own dictionary, and run by its id it is launched against `http://localhost:8000` with the spec's users, spawn rate 1 and `30s`, whatever the prompt said (see Findings) |
| Server.ListReturnsHistory | src/locust_mcp/server.py:126-132 | `list` returns the store's history and changes nothing |
| Server.UnknownCommandRejected | src/locust_mcp/server.py:142-145 | any other command fails with `Unknown command: <name>` and changes nothing |
| Server.GenerateWithoutPrompt | src/locust_mcp/server.py:82-91 | without a prompt, the description is `Generated test` and the saved configuration runs with the parameters' settings, defaulted |
| Server.SessionGrowth | src/locust_mcp/server.py:47-155 | over a session there is one reply per message; the history keeps its records and gains one per `generate`; no archived test disappears |
| Server.Dispatcher.Handle | src/locust_mcp/server.py:47-148 | handling a message changes the store and replies as the as-written `Step` prescribes, saving `test_spec.dict()` for a prompt |
| Server.Dispatcher.Serve | src/locust_mcp/server.py:47-155 | the loop over messages leaves the store and the replies as the as-written `Session` prescribes |
| Legacy.TestUrlAt | locust_mcp_server.py:44 | there is a match exactly when the literal `Test` (case-sensitive) is at `i`, at least one space follows, and a URL match starts right after the spaces; the URL is a scheme followed by non-space characters, and is maximal (the prompt ends or a space follows) |
| Legacy.UsersAt | locust_mcp_server.py:49-51 | there is a user-count match at `i` exactly when a digit is there and the maximal digit run is followed by at least one space and `user`; its value is the number that run spells |
| Legacy.ThinkTimeAt | locust_mcp_server.py:54-56 | there is a think-time match at `i` exactly when a digit is there and the maximal digit run is followed by at least one space, `second`, an optional `s`, at least one space and `think time`; its value is the number that run spells |
| Legacy.GetPathAt | locust_mcp_server.py:61 | there is a match exactly when the literal `GET` is at `i`, at least one space follows, and then `/` and a word character; the path starts right after the spaces, is `/` followed by word characters, and is maximal (no word character follows) |
| Legacy.ThinkTimeMatchLeftmost | locust_mcp_server.py:54 | the think-time match is at the leftmost matching position, and there is none when no position matches |
| Legacy.PathMatchLeftmost | locust_mcp_server.py:61 | the GET-path match is at the leftmost matching position, and there is none when no position matches |
| Legacy.ParsePromptLegacy | locust_mcp_server.py:33-68 | the step-by-step updates of the default dictionary yield `ParsedConfig(prompt)` |
| Legacy.ParsedConfigShape | locust_mcp_server.py:35-66 | spawn rate stays 1 and run time `30s`; a think time is present if and only if one is stated; there is at most one endpoint, a GET of a `/word` path, present if and only if such a path follows `GET`; there is no default endpoint |
| Legacy.GetGuardRedundant | locust_mcp_server.py:60-61 | the `"GET" in prompt` test never changes the outcome, since a path match contains `GET` |
| Legacy.GenerateLegacyScript | locust_mcp_server.py:70-109 | the script is the header with the think-time wait and the task blocks, joined by newlines |
| Legacy.GeneratorsDifferOnlyInWait | locust_mcp_server.py:76-83 | the legacy script is the package script with the wait-time line replaced by `between(t, t + 1)` |
| Legacy.DefaultThinkWait | locust_mcp_server.py:74-81 | without a think time the wait is `between(1, 2)` |
| Legacy.LegacyGenerateOutcome | locust_mcp_server.py:154-180 | with a prompt and numbers read as unbounded integers, `generate` succeeds and its command names the parsed host and users with spawn rate 1 and run time `30s`; without one, it fails if and only if one of the four keys is missing |
| Legacy.ConnectionManager.constructor | locust_mcp_server.py:112-114 | a new manager is not connected and has sent nothing |
| Legacy.ConnectionManager.Connect | locust_mcp_server.py:116-123 | the socket is open once the handshake succeeds; a failed handshake leaves the flag as it was |
| Legacy.ConnectionManager.Disconnect | locust_mcp_server.py:125-133 | afterwards the socket is closed, whether or not closing failed |
| Legacy.ConnectionManager.SendResponse | locust_mcp_server.py:135-141 | nothing is sent on a closed socket; a failed send closes it |
| Legacy.HandleConnection | locust_mcp_server.py:143-193 | one frame gets at most one reply, sent only when the handshake and the send succeed and the peer is still there; the connection is always closed at the end |

## Left out

- Transport: the WebSocket frames, JSON encoding and decoding, pydantic validation and the
  launchers are left out. A frame reaches the model already decoded (`Server.Message`,
  `Legacy.Frame`). The parser's error text for a bad frame is a parameter.
- Failure of a send in the package server, and its fallback error reply (src/locust_mcp/server.py:150-155),
  are left out. Each message gets its reply.
- The package server's loop is modelled over a finite list of messages. As written, it never
  leaves `while True` after the client disconnects: the disconnect is caught like any other
  error. That is a liveness matter and is not modelled.
- `LocustTestRunner` is modelled only up to the launch: the empty-script refusal and the
  settings it reads. The temporary file, the Locust process, its output parsing and `stop`
  are the parameters `launch` and `stopReport`.
- File I/O in `TestStore` is left out: directories, the cache-directory copy chosen by
  operating system, and writing and reading `history.json`. The archive is a map from id to
  script and configuration, and the history file's content is a constructor argument.
- Store.TestStore.GetTest: a test directory with only one of its two files is treated as absent
  as a whole. An id is looked up in the map, not joined onto a path, so an id that is an
  absolute path or contains `..` is not modelled.
- `datetime.now()` becomes two parameters: the `Instant` that gives the id, and the ISO
  timestamp text.
- `\d`, `\w` and `lower()` are ASCII only: they do not cover non-ASCII letters and digits.
  `\s` is the full set of characters `str.isspace` accepts (`Text.IsSpace`).
- JSON values are kept abstract: `json.dumps` is a parameter, and the configuration dictionary
  is the `Config` datatype, not free-form JSON. Values whose Python type differs from the one
  the code expects are not modelled (a string `weight`, a non-string prompt), nor are the
  exceptions they would raise.
- Numbers are unbounded integers. CPython 3.11 and later (and 3.8.14, 3.9.14, 3.10.7 on) refuse
  `int()` of a digit string longer than 4300 digits, so a prompt with such a number makes
  `parse_prompt` raise (src/locust_mcp/prompt_generator.py:30, 47, 73; locust_mcp_server.py:51, 56)
  and the server reply with an error. The model reads any digit run and does not produce that error.
- PromptExtractor.ParsePrompt: succeeds on every string only with numbers read as unbounded
  integers; the `int()` digit limit above is not modelled.
- Legacy.LegacyGenerateOutcome: with a prompt it succeeds only with numbers read as unbounded
  integers; the `int()` digit limit above is not modelled.
- Python's `int()` accepts Unicode digits, which ASCII-only `\d` never captures, so this makes
  no difference to the model.
- Endpoint weights rendered by `@task(...)` are integers. Any other value the dictionary might
  hold is not modelled.
- Curl parsing, rate limiting, client demos and the generated scripts are not part of this
  model.

## Findings

| source | as written | input that shows it | evidently intended | confidence | as-written member | corrected member |
|---|---|---|---|---|---|---|
| src/locust_mcp/server.py:78-81 | a prompt-generated test is saved with `test_spec.dict()` as its configuration, whose keys are `targetUrl`, `spawnRate` and `runTime`; the runner reads `host`, `spawn_rate` and `run_time` (src/locust_mcp/test_runner.py:24-33), so running it by id uses `http://localhost:8000`, spawn rate 1 and `30s`, and only `users` survives | the prompt `Test the API at https://jsonplaceholder.typicode.com/posts with 50 users for 2 minutes` followed by `run` with the returned id (test_client_run.py:17-41) launches against `http://localhost:8000` for `30s` | archive the configuration `generate_config` would write for the spec, as the prompt-less branch does (src/locust_mcp/server.py:84-89), while the reply keeps the spec's dictionary, whose `targetUrl`, `spawnRate` and `runTime` keys test_client.py:64 reads | medium, not executed | Server.PromptTestRunsAsWritten | Server.PromptTestRunsAsPrompted |
