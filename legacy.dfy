/**
 * The legacy single-file server: its own prompt parser (case-sensitive, fewer fields, a think
 * time), its own script generator (the wait time follows the think time), the `generate`
 * reply with a Locust command line, and the connection manager that answers one request per
 * connection and always closes it.
 */
module Legacy {
  import opened Wrappers
  import opened Text
  import opened Model
  import PromptExtractor
  import Renderer

  // ---------------------------------------------------------------------------------------
  // Prompt parsing, on the prompt as typed
  // ---------------------------------------------------------------------------------------

  /** `Test\s+(https?://[^\s]+)` at `i`: group 1. The URL must begin right after the spaces,
    * since `h` is not a space, so only the longest run of spaces can match. */
  function TestUrlAt(s: string, i: nat): (r: Option<string>)
    ensures r.Some? <==> && StartsAt(s, i, "Test")
                         && var b := RunEnd(s, i + 4, IsSpace); b > i + 4 && PromptExtractor.UrlAt(s, b).Some?
    ensures r.Some? ==> && StartsAt(s, i, "Test") && i + 4 < |s| && IsSpace(s[i + 4])
                        && var b := RunEnd(s, i + 4, IsSpace);
                           && StartsAt(s, b, r.value)
                           && (StartsAt(r.value, 0, PromptExtractor.Http) || StartsAt(r.value, 0, PromptExtractor.Https))
                           && (forall k :: 0 <= k < |r.value| ==> !IsSpace(r.value[k]))
                           && (b + |r.value| == |s| || IsSpace(s[b + |r.value|]))
  {
    if StartsAt(s, i, "Test") then
      var b := RunEnd(s, i + 4, IsSpace);
      if b > i + 4 then
        assert IsSpace(s[i + 4]);
        PromptExtractor.UrlAt(s, b)
      else None
    else None
  }

  /** `(\d+)\s+users?` at `i`, converted by `int(...)`. */
  function UsersAt(s: string, i: nat): (r: Option<nat>)
    ensures r.Some? <==> && i < |s| && IsDigit(s[i])
                         && var e := RunEnd(s, i, IsDigit);
                            var k := RunEnd(s, e, IsSpace); k > e && StartsAt(s, k, "user")
    ensures r.Some? ==> && i < |s| && IsDigit(s[i])
                        && var d := RunFrom(s, i, IsDigit);
                           && r.value == DigitsValue(d)
                           && var k := RunEnd(s, i + |d|, IsSpace); k > i + |d| && StartsAt(s, k, "user")
  {
    match PromptExtractor.DigitsBefore(s, i, "user", true)
    case Some(d) => Some(DigitsValue(d))
    case None => None
  }

  /** `second[s]?\s+think time` at `k`. Leaving out the optional `s` would need a space where
    * the `s` is, so the greedy reading is the only one. */
  predicate ThinkTimeTail(s: string, k: nat) {
    && StartsAt(s, k, "second")
    && var m := if StartsAt(s, k + 6, "s") then k + 7 else k + 6;
       var n := RunEnd(s, m, IsSpace);
       n > m && StartsAt(s, n, "think time")
  }

  /** `(\d+)\s+second[s]?\s+think time` at `i`, converted by `int(...)`: a match exactly when
    * the maximal digit run at `i` is followed by at least one space and `second[s]?\s+think time`. */
  function ThinkTimeAt(s: string, i: nat): (r: Option<nat>)
    ensures r.Some? <==> && i < |s| && IsDigit(s[i])
                         && var e := RunEnd(s, i, IsDigit);
                            var k := RunEnd(s, e, IsSpace);
                            k > e && ThinkTimeTail(s, k)
    ensures r.Some? ==> && i < |s| && IsDigit(s[i])
                        && var d := RunFrom(s, i, IsDigit);
                           && r.value == DigitsValue(d)
                           && var k := RunEnd(s, i + |d|, IsSpace); k > i + |d| && ThinkTimeTail(s, k)
  {
    if i < |s| && IsDigit(s[i]) then
      var e := RunEnd(s, i, IsDigit);
      var k := RunEnd(s, e, IsSpace);
      if k > e && ThinkTimeTail(s, k) then Some(DigitsValue(RunFrom(s, i, IsDigit))) else None
    else None
  }

  /** `GET\s+(/\w+)` at `i`: group 1, a slash and the longest run of word characters. */
  function GetPathAt(s: string, i: nat): (r: Option<string>)
    ensures r.Some? <==> && StartsAt(s, i, "GET")
                         && var b := RunEnd(s, i + 3, IsSpace);
                            b > i + 3 && b + 1 < |s| && s[b] == '/' && IsWordChar(s[b + 1])
    ensures r.Some? ==> && StartsAt(s, i, "GET") && i + 3 < |s| && IsSpace(s[i + 3])
                        && |r.value| >= 2 && r.value[0] == '/'
                        && (forall k :: 1 <= k < |r.value| ==> IsWordChar(r.value[k]))
                        && var b := RunEnd(s, i + 3, IsSpace);
                           StartsAt(s, b, r.value) && (b + |r.value| == |s| || !IsWordChar(s[b + |r.value|]))
  {
    if StartsAt(s, i, "GET") then
      var b := RunEnd(s, i + 3, IsSpace);
      if b > i + 3 && b < |s| && s[b] == '/' then
        var e := RunEnd(s, b + 1, IsWordChar);
        if e > b + 1 then Some(s[b..e]) else None
      else None
    else None
  }

  /** The one method the legacy parser recognises. */
  const GetVerb: string := "GET"

  /** The first matches of the four patterns, as `re.search` finds them. */
  function UrlMatch(prompt: string): Option<(nat, string)> {
    Search(prompt, (i: nat) => TestUrlAt(prompt, i))
  }

  function UsersMatch(prompt: string): Option<(nat, nat)> {
    Search(prompt, (i: nat) => UsersAt(prompt, i))
  }

  function ThinkTimeMatch(prompt: string): Option<(nat, nat)> {
    Search(prompt, (i: nat) => ThinkTimeAt(prompt, i))
  }

  function PathMatch(prompt: string): Option<(nat, string)> {
    Search(prompt, (i: nat) => GetPathAt(prompt, i))
  }

  /** The think-time match is at the leftmost position where the pattern matches, and there
    * is none when it matches nowhere. */
  lemma ThinkTimeMatchLeftmost(prompt: string)
    ensures var r := ThinkTimeMatch(prompt);
      && (r.Some? ==> && r.value.0 <= |prompt| && ThinkTimeAt(prompt, r.value.0) == Some(r.value.1)
                      && forall j: nat :: j < r.value.0 ==> ThinkTimeAt(prompt, j).None?)
      && (r.None? ==> forall j: nat :: j <= |prompt| ==> ThinkTimeAt(prompt, j).None?)
  {
    var at := (i: nat) => ThinkTimeAt(prompt, i);
    assert forall j: nat :: at(j) == ThinkTimeAt(prompt, j);
  }

  /** The GET-path match is at the leftmost position where the pattern matches, and there is
    * none when it matches nowhere. */
  lemma PathMatchLeftmost(prompt: string)
    ensures var r := PathMatch(prompt);
      && (r.Some? ==> && r.value.0 <= |prompt| && GetPathAt(prompt, r.value.0) == Some(r.value.1)
                      && forall j: nat :: j < r.value.0 ==> GetPathAt(prompt, j).None?)
      && (r.None? ==> forall j: nat :: j <= |prompt| ==> GetPathAt(prompt, j).None?)
  {
    var at := (i: nat) => GetPathAt(prompt, i);
    assert forall j: nat :: at(j) == GetPathAt(prompt, j);
  }

  /** The legacy `parse_prompt`, as a function of the prompt. */
  function ParsedConfig(prompt: string): Params {
    var url, users, think, path := UrlMatch(prompt), UsersMatch(prompt), ThinkTimeMatch(prompt), PathMatch(prompt);
    NoParams.(
      targetUrl := Some(if url.Some? then url.value.1 else DefaultHost),
      users := Some(if users.Some? then users.value.1 as int else DefaultUsers),
      spawnRate := Some(DefaultSpawnRate),
      runTime := Some(DefaultRunTime),
      thinkTime := (if think.Some? then Some(think.value.1 as int) else None),
      endpoints := Some(if Contains(prompt, GetVerb) && path.Some?
                        then [Endpoint(Some(GetVerb), Some(path.value.1), None, None, None)] else []))
  }

  /** The legacy `parse_prompt`: starts from the defaults and overwrites a key for each
    * pattern that matches. */
  method ParsePromptLegacy(prompt: string) returns (config: Params)
    ensures config == ParsedConfig(prompt)
  {
    config := NoParams.(targetUrl := Some(DefaultHost), users := Some(DefaultUsers), spawnRate := Some(DefaultSpawnRate),
                        runTime := Some(DefaultRunTime), endpoints := Some([]));
    ghost var target := ParsedConfig(prompt);
    var urlMatch := UrlMatch(prompt);
    if urlMatch.Some? {
      config := config.(targetUrl := Some(urlMatch.value.1));
    }
    assert config.targetUrl == target.targetUrl;
    var usersMatch := UsersMatch(prompt);
    if usersMatch.Some? {
      config := config.(users := Some(usersMatch.value.1));
    }
    assert config.users == target.users;
    var thinkTimeMatch := ThinkTimeMatch(prompt);
    if thinkTimeMatch.Some? {
      config := config.(thinkTime := Some(thinkTimeMatch.value.1));
    }
    assert config.thinkTime == target.thinkTime;
    if Contains(prompt, GetVerb) {
      var pathMatch := PathMatch(prompt);
      if pathMatch.Some? {
        var endpoint := Endpoint(Some(GetVerb), Some(pathMatch.value.1), None, None, None);
        assert config.endpoints.value + [endpoint] == [endpoint];
        config := config.(endpoints := Some(config.endpoints.value + [endpoint]));
      }
    }
    assert config.endpoints == target.endpoints;
  }

  /** What the legacy parser can produce: a URL, a user count, spawn rate 1 and run time 30s
    * always; a think time exactly when one is stated; at most one endpoint, a GET of a
    * `/word` path, exactly when such a path follows `GET`. No prompt yields the default
    * endpoint of the package parser. */
  lemma ParsedConfigShape(prompt: string)
    ensures var c := ParsedConfig(prompt);
      && c.targetUrl.Some? && c.users.Some? && c.spawnRate == Some(1) && c.runTime == Some("30s")
      && (c.thinkTime.Some? <==> exists i: nat :: i <= |prompt| && ThinkTimeAt(prompt, i).Some?)
      && c.endpoints.Some? && |c.endpoints.value| <= 1
      && (c.endpoints.value != [] <==> exists i: nat :: i <= |prompt| && GetPathAt(prompt, i).Some?)
      && (c.endpoints.value != [] ==>
            var e := c.endpoints.value[0];
            e.httpMethod == Some(GetVerb) && e.path.Some? && |e.path.value| >= 2 && e.path.value[0] == '/'
            && e.data.None? && e.headers.None? && e.weight.None?)
  {
    ThinkTimeMatchLeftmost(prompt);
    PathMatchLeftmost(prompt);
    var path := PathMatch(prompt);
    if path.Some? {
      GetGuardRedundant(prompt, path.value.0);
    }
  }

  /** The `"GET" in prompt` test adds nothing: a path match already contains `GET`. */
  lemma GetGuardRedundant(prompt: string, i: nat)
    requires GetPathAt(prompt, i).Some?
    ensures Contains(prompt, GetVerb)
  {
    assert StartsAt(prompt, i, "GET");
  }

  // ---------------------------------------------------------------------------------------
  // Script and reply
  // ---------------------------------------------------------------------------------------

  /** `between(t, t + 1)`. */
  function ThinkWait(t: int): string {
    "between(" + IntToString(t) + ", " + IntToString(t + 1) + ")"
  }

  /** The lines of the legacy script: the same header and tasks as the package's, with the
    * wait time taken from the think time (1 when absent). */
  function LegacyScriptLines(p: Params, dumps: Json -> string): seq<string> {
    Renderer.Header(p.targetUrl.GetOr(DefaultHost), ThinkWait(p.thinkTime.GetOr(1)))
    + Renderer.Blocks(p.endpoints.GetOr([]), dumps)
  }

  /** `generate_locust_script`. */
  method GenerateLegacyScript(p: Params, dumps: Json -> string) returns (script: string)
    ensures script == Join(LegacyScriptLines(p, dumps), "\n")
  {
    var targetUrl := p.targetUrl.GetOr(DefaultHost);
    var endpoints := p.endpoints.GetOr([]);
    var thinkTime := p.thinkTime.GetOr(1);
    var scriptLines := Renderer.Header(targetUrl, ThinkWait(thinkTime));
    scriptLines := Renderer.AppendTaskBlocks(scriptLines, endpoints, dumps);
    script := Join(scriptLines, "\n");
  }

  /** The two generators agree on every line but the wait time: for the same parameters, the
    * legacy script is the package script with line 4 replaced by the think-time window. */
  lemma GeneratorsDifferOnlyInWait(p: Params, dumps: Json -> string)
    ensures var package := Renderer.ScriptLines(p, dumps);
      && |package| >= 6 && package[4] == "    wait_time = " + Renderer.PackageWait
      && LegacyScriptLines(p, dumps) == package[4 := "    wait_time = " + ThinkWait(p.thinkTime.GetOr(1))]
  {
    var host, b := p.targetUrl.GetOr(DefaultHost), Renderer.Blocks(p.endpoints.GetOr([]), dumps);
    var wait := ThinkWait(p.thinkTime.GetOr(1));
    Renderer.HeaderWait(host, Renderer.PackageWait, wait);
    Renderer.UpdateFirstPart(Renderer.Header(host, Renderer.PackageWait), b, 4, "    wait_time = " + wait);
  }

  /** Without a think time the legacy window is one to two seconds. */
  lemma DefaultThinkWait()
    ensures ThinkWait(1) == "between(1, 2)"
  {
    assert NatToString(1) == "1" && NatToString(2) == "2";
  }

  /** The reply to `generate`: the script, the configuration and the command line, or the
    * message of the missing key. */
  datatype GenerateReply =
    | Success(script: string, config: Params, command: string)
    | Failure(error: string)

  /** The first of the keys the command line reads that is absent, in the order it reads
    * them. */
  function MissingKey(c: Params): Option<string> {
    if c.targetUrl.None? then Some("targetUrl")
    else if c.users.None? then Some("users")
    else if c.spawnRate.None? then Some("spawnRate")
    else if c.runTime.None? then Some("runTime")
    else None
  }

  /** The Locust command line returned to the client. */
  function CommandFor(c: Params): string
    requires MissingKey(c).None?
  {
    "locust -f test_script.py --host " + c.targetUrl.value + " --users " + IntToString(c.users.value)
    + " --spawn-rate " + IntToString(c.spawnRate.value) + " --run-time " + c.runTime.value
    + " --headless --only-summary --json"
  }

  /** The `generate` command: the configuration is parsed from the prompt when there is one,
    * otherwise it is the parameters themselves, which must hold all four keys. */
  function LegacyGenerate(p: Params, dumps: Json -> string): GenerateReply {
    var config := if p.prompt.Some? then ParsedConfig(p.prompt.value) else p;
    var script := Join(LegacyScriptLines(config, dumps), "\n");
    match MissingKey(config)
    case Some(key) => Failure("'" + key + "'")
    case None => Success(script, config, CommandFor(config))
  }

  /** With a prompt, and numbers read as unbounded integers, `generate` succeeds, and the
    * command line names the parsed URL and user count with spawn rate 1 and run time 30s.
    * Without one, it fails exactly when a key is missing. */
  lemma LegacyGenerateOutcome(p: Params, dumps: Json -> string)
    ensures p.prompt.Some? ==>
      var c := ParsedConfig(p.prompt.value);
      LegacyGenerate(p, dumps)
      == Success(Join(LegacyScriptLines(c, dumps), "\n"), c,
                 "locust -f test_script.py --host " + c.targetUrl.value + " --users " + IntToString(c.users.value)
                 + " --spawn-rate " + IntToString(DefaultSpawnRate) + " --run-time " + DefaultRunTime
                 + " --headless --only-summary --json")
    ensures p.prompt.None? ==>
      (LegacyGenerate(p, dumps).Failure?
       <==> p.targetUrl.None? || p.users.None? || p.spawnRate.None? || p.runTime.None?)
  {
    if p.prompt.Some? {
      ParsedConfigShape(p.prompt.value);
    }
  }

  // ---------------------------------------------------------------------------------------
  // One connection
  // ---------------------------------------------------------------------------------------

  /** `WebSocketConnectionManager`: whether the socket is open, and the replies sent on it. */
  class ConnectionManager {
    var isConnected: bool
    var sent: seq<GenerateReply>

    constructor()
      ensures !isConnected && sent == []
    {
      isConnected := false;
      sent := [];
    }

    /** `connect`: the socket is open once the handshake is accepted; a failed handshake leaves
      * the flag as it was. */
    method Connect(acceptOk: bool) returns (ok: bool)
      modifies this
      ensures ok == acceptOk && isConnected == (old(isConnected) || acceptOk) && sent == old(sent)
    {
      if acceptOk {
        isConnected := true;
      }
      ok := acceptOk;
    }

    /** `disconnect`: closed afterwards whether or not closing the socket fails. */
    method Disconnect()
      modifies this
      ensures !isConnected && sent == old(sent)
    {
      if isConnected {
        isConnected := false;
      }
    }

    /** `send_response`: sent only on an open socket; a failed send closes it. */
    method SendResponse(r: GenerateReply, sendOk: bool)
      modifies this
      ensures sent == (if old(isConnected) && sendOk then old(sent) + [r] else old(sent))
      ensures isConnected == (old(isConnected) && sendOk)
    {
      if isConnected {
        if sendOk {
          sent := sent + [r];
        } else {
          Disconnect();
        }
      }
    }
  }

  /** The one frame a legacy connection reads: the peer went away, a frame that is not a
    * request, or a request. */
  datatype Frame =
    | PeerGone
    | Malformed
    | Request(command: string, params: Params)

  /** The reply to a frame other than `PeerGone`; `parseError` is the parser's message. */
  function Answer(frame: Frame, parseError: string, dumps: Json -> string): GenerateReply
    requires !frame.PeerGone?
  {
    match frame
    case Malformed => Failure(parseError)
    case Request(command, params) =>
      if command == "generate" then LegacyGenerate(params, dumps) else Failure("Unknown command: " + command)
  }

  /** `websocket_endpoint`: one frame, at most one reply, and the connection is always closed
    * at the end. */
  method HandleConnection(frame: Frame, acceptOk: bool, sendOk: bool, parseError: string, dumps: Json -> string)
    returns (conn: ConnectionManager)
    ensures fresh(conn)
    ensures !conn.isConnected
    ensures conn.sent == if acceptOk && sendOk && !frame.PeerGone? then [Answer(frame, parseError, dumps)] else []
  {
    conn := new ConnectionManager();
    var ok := conn.Connect(acceptOk);
    if ok {
      match frame
      case PeerGone =>
      case Malformed =>
        if conn.isConnected {
          conn.SendResponse(Failure(parseError), sendOk);
        }
      case Request(command, params) =>
        if command == "generate" {
          var config: Params;
          if params.prompt.Some? {
            config := ParsePromptLegacy(params.prompt.value);
          } else {
            config := params;
          }
          var script := GenerateLegacyScript(config, dumps);
          var reply: GenerateReply;
          if MissingKey(config).Some? {
            reply := Failure("'" + MissingKey(config).value + "'");
          } else {
            reply := Success(script, config, CommandFor(config));
          }
          conn.SendResponse(reply, sendOk);
        } else {
          conn.SendResponse(Failure("Unknown command: " + command), sendOk);
        }
    }
    conn.Disconnect();
  }
}
