/**
 * Rendering a Locust script from a parameter dictionary, and the run configuration that goes
 * with it (`LocustScriptGenerator.generate` and `generate_config`). The legacy server's
 * `generate_locust_script` renders its task blocks with the very same code; only its header
 * differs (module `Legacy`).
 *
 * The script is a list of lines joined by newlines: a six-line header, then four lines per
 * endpoint. `json.dumps` is the parameter `dumps`.
 */
module Renderer {
  import opened Wrappers
  import opened Text
  import opened Model

  const ImportLine := "from locust import HttpUser, task, between"
  const ClassLine := "class PerformanceTest(HttpUser):"

  /** The package's fixed wait time. */
  const PackageWait := "between(1, 5)"

  /** The methods whose task sends the endpoint's `data` as a JSON body. */
  const BodyMethods: seq<string> := ["post", "put", "patch"]

  /** The six lines before the first task: the import, the class line, the host and the wait
    * time, with blank lines between. */
  function Header(host: string, waitTime: string): (lines: seq<string>)
    ensures |lines| == 6 && lines[0] == ImportLine && lines[2] == ClassLine
  {
    [ImportLine, "", ClassLine, "    host = \"" + host + "\"", "    wait_time = " + waitTime, ""]
  }

  /** The endpoint's method, lower-cased, `get` when the key is absent. */
  function MethodName(e: Endpoint): string {
    Lower(e.httpMethod.GetOr("GET"))
  }

  /** `if headers:` */
  predicate SendsHeaders(e: Endpoint) {
    e.headers.Some? && Truthy(e.headers.value)
  }

  /** `if data and method in ["post", "put", "patch"]:` */
  predicate SendsBody(e: Endpoint) {
    e.data.Some? && Truthy(e.data.value) && MethodName(e) in BodyMethods
  }

  /** The keyword arguments of the request call: `headers=` first, then `json=`, each only
    * when its condition holds. */
  function RequestArgs(e: Endpoint, dumps: Json -> string): seq<string> {
    (if SendsHeaders(e) then ["headers=" + dumps(e.headers.value)] else [])
    + (if SendsBody(e) then ["json=" + dumps(e.data.value)] else [])
  }

  /** The request line `self.client.METHOD("PATH", ARGS)`. */
  function CallLine(m: string, path: string, args: seq<string>): string {
    var argStr := Join(args, ", ");
    "        self.client." + m + "(\"" + path + "\"" + (if argStr != "" then ", " + argStr else "") + ")"
  }

  /** The name of the task method for the `idx`-th endpoint (counting from 1). */
  function TaskName(m: string, idx: nat): string {
    "test_" + m + "_" + NatToString(idx)
  }

  /** The line that declares the task method of the `idx`-th endpoint. */
  function DefLine(m: string, idx: nat): string {
    "    def " + TaskName(m, idx) + "(self):"
  }

  /** The four lines of the `idx`-th endpoint's task. */
  function TaskBlock(idx: nat, e: Endpoint, dumps: Json -> string): seq<string> {
    var m := MethodName(e);
    [ "    @task(" + IntToString(e.weight.GetOr(1)) + ")",
      DefLine(m, idx),
      CallLine(m, e.path.GetOr("/"), RequestArgs(e, dumps)),
      "" ]
  }

  /** `block(1, eps[0]) + block(2, eps[1]) + ...`: a block per element, numbered from 1. */
  function Numbered<E>(eps: seq<E>, block: (nat, E) -> seq<string>): seq<string>
    decreases |eps|
  {
    if eps == [] then [] else Numbered(eps[..|eps| - 1], block) + block(|eps|, eps[|eps| - 1])
  }

  /** The task blocks of `eps`, numbered from 1. */
  function Blocks(eps: seq<Endpoint>, dumps: Json -> string): seq<string> {
    Numbered(eps, (idx: nat, e: Endpoint) => TaskBlock(idx, e, dumps))
  }

  /** The lines of the package generator's script for `p`. */
  function ScriptLines(p: Params, dumps: Json -> string): seq<string> {
    Header(p.targetUrl.GetOr(DefaultHost), PackageWait) + Blocks(p.endpoints.GetOr([]), dumps)
  }

  /** The body of the task loop: the four lines of the `idx`-th endpoint's task. */
  method RenderTask(idx: nat, e: Endpoint, dumps: Json -> string) returns (taskLines: seq<string>)
    ensures taskLines == TaskBlock(idx, e, dumps)
  {
    var m := Lower(e.httpMethod.GetOr("GET"));
    var path := e.path.GetOr("/");
    var weight := e.weight.GetOr(1);
    taskLines := ["    @task(" + IntToString(weight) + ")", DefLine(m, idx)];
    var requestParams: seq<string> := [];
    if e.headers.Some? && Truthy(e.headers.value) {
      requestParams := requestParams + ["headers=" + dumps(e.headers.value)];
    }
    if e.data.Some? && Truthy(e.data.value) && m in BodyMethods {
      requestParams := requestParams + ["json=" + dumps(e.data.value)];
    }
    assert requestParams == RequestArgs(e, dumps);
    var paramsStr := Join(requestParams, ", ");
    taskLines := taskLines + ["        self.client." + m + "(\"" + path + "\"" + (if paramsStr != "" then ", " + paramsStr else "") + ")", ""];
  }

  /** The task loop shared by both generators: appends the blocks of `eps` to `lines0`,
    * numbering the endpoints from 1. */
  method AppendTaskBlocks(lines0: seq<string>, eps: seq<Endpoint>, dumps: Json -> string)
    returns (lines: seq<string>)
    ensures lines == lines0 + Blocks(eps, dumps)
  {
    lines := lines0;
    for k := 0 to |eps|
      invariant lines == lines0 + Blocks(eps[..k], dumps)
    {
      var taskLines := RenderTask(k + 1, eps[k], dumps);
      BlocksSnoc(eps, dumps, k);
      lines := lines + taskLines;
    }
    assert eps[..|eps|] == eps;
  }

  /** `LocustScriptGenerator.generate`. */
  method Generate(p: Params, dumps: Json -> string) returns (script: string)
    ensures script == Join(ScriptLines(p, dumps), "\n")
  {
    var targetUrl := p.targetUrl.GetOr(DefaultHost);
    var endpoints := p.endpoints.GetOr([]);
    var scriptLines := Header(targetUrl, PackageWait);
    scriptLines := AppendTaskBlocks(scriptLines, endpoints, dumps);
    script := Join(scriptLines, "\n");
  }

  /** `LocustScriptGenerator.generate_config`: all four runner keys, each taken from the
    * parameters when present and otherwise defaulted. */
  function GenerateConfig(p: Params): (c: Config)
    ensures c.RunConfig? && c.host.Some? && c.users.Some? && c.spawnRate.Some? && c.runTime.Some?
    ensures p.targetUrl.Some? ==> c.host == p.targetUrl
    ensures p.targetUrl.None? ==> c.host == Some(DefaultHost)
    ensures p.users.Some? ==> c.users == p.users
    ensures p.users.None? ==> c.users == Some(DefaultUsers)
    ensures p.spawnRate.Some? ==> c.spawnRate == p.spawnRate
    ensures p.spawnRate.None? ==> c.spawnRate == Some(DefaultSpawnRate)
    ensures p.runTime.Some? ==> c.runTime == p.runTime
    ensures p.runTime.None? ==> c.runTime == Some(DefaultRunTime)
  {
    RunConfig(Some(p.targetUrl.GetOr(DefaultHost)), Some(p.users.GetOr(DefaultUsers)),
              Some(p.spawnRate.GetOr(DefaultSpawnRate)), Some(p.runTime.GetOr(DefaultRunTime)))
  }

  // ---------------------------------------------------------------------------------------
  // Properties of the rendered script
  // ---------------------------------------------------------------------------------------

  /** Blocks of four lines make four lines per element. */
  lemma {:induction false} NumberedLength<E>(eps: seq<E>, block: (nat, E) -> seq<string>)
    requires forall idx: nat, e: E :: |block(idx, e)| == 4
    ensures |Numbered(eps, block)| == 4 * |eps|
    decreases |eps|
  {
    if eps != [] {
      var n := |eps| - 1;
      NumberedLength(eps[..n], block);
      assert |Numbered(eps, block)| == 4 * n + |block(n + 1, eps[n])|;
    }
  }

  /** Line `r` of block `k` (both counting from 0) is line `4k + r` of the list: block `k` is
    * the one of element `k`, numbered `k + 1`. */
  lemma {:induction false} NumberedLine<E>(eps: seq<E>, block: (nat, E) -> seq<string>, k: nat, r: nat)
    requires forall idx: nat, e: E :: |block(idx, e)| == 4
    requires k < |eps| && r < 4
    ensures 4 * k + r < |Numbered(eps, block)|
    ensures Numbered(eps, block)[4 * k + r] == block(k + 1, eps[k])[r]
    decreases |eps|
  {
    var n := |eps| - 1;
    var init := eps[..n];
    NumberedLength(init, block);
    var b := Numbered(init, block);
    assert Numbered(eps, block) == b + block(n + 1, eps[n]);
    if k < n {
      NumberedLine(init, block, k, r);
      assert init[k] == eps[k];
    } else {
      assert 4 * k == |b|;
    }
  }

  /** Lines `4k` to `4k + 3` of the list are the block of element `k`. */
  lemma {:induction false} NumberedSlice<E>(eps: seq<E>, block: (nat, E) -> seq<string>, k: nat)
    requires forall idx: nat, e: E :: |block(idx, e)| == 4
    requires k < |eps|
    ensures 4 * k + 4 <= |Numbered(eps, block)|
    ensures Numbered(eps, block)[4 * k .. 4 * k + 4] == block(k + 1, eps[k])
    decreases |eps|
  {
    var n := |eps| - 1;
    var init := eps[..n];
    NumberedLength(init, block);
    var b := Numbered(init, block);
    var last := block(n + 1, eps[n]);
    assert Numbered(eps, block) == b + last;
    if k < n {
      NumberedSlice(init, block, k);
      assert init[k] == eps[k];
      assert (b + last)[4 * k .. 4 * k + 4] == b[4 * k .. 4 * k + 4];
    } else {
      assert (b + last)[|b| .. |b| + 4] == last;
    }
  }

  /** Appending an element appends its block, numbered after the others. */
  lemma NumberedSnoc<E>(eps: seq<E>, block: (nat, E) -> seq<string>, k: nat)
    requires k < |eps|
    ensures Numbered(eps[..k + 1], block) == Numbered(eps[..k], block) + block(k + 1, eps[k])
  {
    assert eps[..k + 1][..k] == eps[..k];
  }

  lemma BlocksLength(eps: seq<Endpoint>, dumps: Json -> string)
    ensures |Blocks(eps, dumps)| == 4 * |eps|
  {
    NumberedLength(eps, (idx: nat, e: Endpoint) => TaskBlock(idx, e, dumps));
  }

  /** Block `k` of the list (counting from 0) occupies lines `4k .. 4k+3` and is the task of
    * endpoint `k` numbered `k + 1`. */
  lemma BlockLine(eps: seq<Endpoint>, dumps: Json -> string, k: nat, r: nat)
    requires k < |eps| && r < 4
    ensures 4 * k + r < |Blocks(eps, dumps)|
    ensures Blocks(eps, dumps)[4 * k + r] == TaskBlock(k + 1, eps[k], dumps)[r]
  {
    NumberedLine(eps, (idx: nat, e: Endpoint) => TaskBlock(idx, e, dumps), k, r);
  }

  /** Lines `4k .. 4k+3` of the tasks are the block of endpoint `k`, numbered `k + 1`. */
  lemma BlockSlice(eps: seq<Endpoint>, dumps: Json -> string, k: nat)
    requires k < |eps|
    ensures 4 * k + 4 <= |Blocks(eps, dumps)|
    ensures Blocks(eps, dumps)[4 * k .. 4 * k + 4] == TaskBlock(k + 1, eps[k], dumps)
  {
    NumberedSlice(eps, (idx: nat, e: Endpoint) => TaskBlock(idx, e, dumps), k);
  }

  /** The second line of endpoint `k`'s block declares its task method. */
  lemma BlockDefLine(eps: seq<Endpoint>, dumps: Json -> string, k: nat)
    requires k < |eps|
    ensures 4 * k + 1 < |Blocks(eps, dumps)|
    ensures Blocks(eps, dumps)[4 * k + 1] == DefLine(MethodName(eps[k]), k + 1)
  {
    BlockLine(eps, dumps, k, 1);
  }

  /** The blocks of the first `k + 1` endpoints are those of the first `k` and the block of
    * endpoint `k`, numbered `k + 1`. */
  lemma BlocksSnoc(eps: seq<Endpoint>, dumps: Json -> string, k: nat)
    requires k < |eps|
    ensures Blocks(eps[..k + 1], dumps) == Blocks(eps[..k], dumps) + TaskBlock(k + 1, eps[k], dumps)
  {
    NumberedSnoc(eps, (idx: nat, e: Endpoint) => TaskBlock(idx, e, dumps), k);
  }

  /** The package script begins with the header naming the parameters' host (or the
    * default) and the fixed wait time, and has four lines per endpoint after it. */
  lemma ScriptHeader(p: Params, dumps: Json -> string)
    ensures var lines := ScriptLines(p, dumps);
      && |lines| == 6 + 4 * |p.endpoints.GetOr([])|
      && lines[..6] == Header(p.targetUrl.GetOr(DefaultHost), PackageWait)
  {
    BlocksLength(p.endpoints.GetOr([]), dumps);
  }

  /** Lines `6 + 4k .. 9 + 4k` of the package script are the task of endpoint `k`, numbered
    * `k + 1`: the tasks follow the endpoint list in order. */
  lemma ScriptTask(p: Params, dumps: Json -> string, k: nat)
    requires k < |p.endpoints.GetOr([])|
    ensures var lines := ScriptLines(p, dumps); var eps := p.endpoints.GetOr([]);
      && |lines| == 6 + 4 * |eps|
      && lines[6 + 4 * k .. 10 + 4 * k] == TaskBlock(k + 1, eps[k], dumps)
  {
    var eps := p.endpoints.GetOr([]);
    var h := Header(p.targetUrl.GetOr(DefaultHost), PackageWait);
    var b := Blocks(eps, dumps);
    BlocksLength(eps, dumps);
    BlockSlice(eps, dumps, k);
    SliceAfterPrefix(h, b, 4 * k, 4);
  }

  /** A slice of the second part of a list, shifted by the length of the first part. */
  lemma SliceAfterPrefix<T>(a: seq<T>, b: seq<T>, j: nat, n: nat)
    requires j + n <= |b|
    ensures (a + b)[|a| + j .. |a| + j + n] == b[j .. j + n]
  {
  }

  /** Only line 4 of the header depends on the wait time. */
  lemma HeaderWait(host: string, w1: string, w2: string)
    ensures Header(host, w1)[4 := "    wait_time = " + w2] == Header(host, w2)
  {
  }

  /** Replacing a line of the first part of a list replaces it in the whole list. */
  lemma UpdateFirstPart(a: seq<string>, b: seq<string>, i: nat, x: string)
    requires i < |a|
    ensures (a + b)[i := x] == a[i := x] + b
  {
  }

  /** The number of decimal digits at the end of `s`. */
  function TrailingDigits(s: string): nat
    decreases |s|
  {
    if s != [] && IsDigit(s[|s| - 1]) then 1 + TrailingDigits(s[..|s| - 1]) else 0
  }

  /** In `m + "_" + a` with `a` all digits, the trailing digits are exactly `a`: the `_`
    * stops them. */
  lemma {:induction false} TrailingDigitsAfterUnderscore(m: string, a: string)
    requires AllDigits(a)
    ensures TrailingDigits(m + "_" + a) == |a|
    decreases |a|
  {
    var s := m + "_" + a;
    if a == [] {
      assert s[|s| - 1] == '_';
    } else {
      assert s[|s| - 1] == a[|a| - 1];
      assert s[..|s| - 1] == m + "_" + a[..|a| - 1];
      TrailingDigitsAfterUnderscore(m, a[..|a| - 1]);
    }
  }

  /** A string made of a name, `_` and a number gives the number back. */
  lemma NumberSuffixDetermines(m1: string, m2: string, i: nat, j: nat)
    requires m1 + "_" + NatToString(i) == m2 + "_" + NatToString(j)
    ensures i == j
  {
    var a, b := NatToString(i), NatToString(j);
    var s := m1 + "_" + a;
    TrailingDigitsAfterUnderscore(m1, a);
    TrailingDigitsAfterUnderscore(m2, b);
    assert a == s[|s| - |a|..];
    assert b == s[|s| - |b|..];
    NatToStringInjective(i, j);
  }

  /** Tasks of different endpoints get different method names, whatever their methods: no
    * `def` in the generated class replaces an earlier one. */
  lemma TaskNamesDistinct(m1: string, m2: string, i: nat, j: nat)
    requires i != j
    ensures TaskName(m1, i) != TaskName(m2, j)
  {
    if TaskName(m1, i) == TaskName(m2, j) {
      var x, y := m1 + "_" + NatToString(i), m2 + "_" + NatToString(j);
      assert TaskName(m1, i) == "test_" + x;
      assert TaskName(m2, j) == "test_" + y;
      assert x == TaskName(m1, i)[5..];
      NumberSuffixDetermines(m1, m2, i, j);
    }
  }

  /** The `def` lines of tasks with different numbers differ. */
  lemma DefLinesDistinct(m1: string, i: nat, m2: string, j: nat)
    requires i != j
    ensures DefLine(m1, i) != DefLine(m2, j)
  {
    TaskNamesDistinct(m1, m2, i, j);
    var d1, d2 := DefLine(m1, i), DefLine(m2, j);
    assert d1 == "    def " + TaskName(m1, i) + "(self):";
    assert d2 == "    def " + TaskName(m2, j) + "(self):";
    assert TaskName(m1, i) == d1[8..|d1| - 7];
    assert TaskName(m2, j) == d2[8..|d2| - 7];
  }

  /** In a package script, the `def` lines of two different tasks differ: no method of the
    * generated class replaces another. */
  lemma ScriptDefLinesDistinct(p: Params, dumps: Json -> string, k1: nat, k2: nat)
    requires k1 < k2 < |p.endpoints.GetOr([])|
    ensures var lines := ScriptLines(p, dumps);
      7 + 4 * k2 < |lines| && lines[7 + 4 * k1] != lines[7 + 4 * k2]
  {
    var eps := p.endpoints.GetOr([]);
    BlocksDefLinesDistinct(eps, dumps, k1, k2);
    DistinctAfterPrefix(Header(p.targetUrl.GetOr(DefaultHost), PackageWait), Blocks(eps, dumps), 4 * k1 + 1, 4 * k2 + 1);
  }

  /** Two different lines of the second part of a list stay different in the whole list. */
  lemma DistinctAfterPrefix<T>(a: seq<T>, b: seq<T>, i: nat, j: nat)
    requires i < |b| && j < |b| && b[i] != b[j]
    ensures (a + b)[|a| + i] != (a + b)[|a| + j]
  {
  }

  /** In the task list, the `def` lines of two different tasks differ. */
  lemma BlocksDefLinesDistinct(eps: seq<Endpoint>, dumps: Json -> string, k1: nat, k2: nat)
    requires k1 < k2 < |eps|
    ensures 4 * k2 + 1 < |Blocks(eps, dumps)|
    ensures Blocks(eps, dumps)[4 * k1 + 1] != Blocks(eps, dumps)[4 * k2 + 1]
  {
    BlockDefLine(eps, dumps, k1);
    BlockDefLine(eps, dumps, k2);
    DefLinesDistinct(MethodName(eps[k1]), k1 + 1, MethodName(eps[k2]), k2 + 1);
  }

  /** A request body is only ever sent by POST, PUT and PATCH tasks, and headers only when the
    * endpoint has non-empty headers: without either the call has the path alone. */
  lemma PlainCall(e: Endpoint, dumps: Json -> string, idx: nat)
    requires !SendsHeaders(e) && (MethodName(e) !in BodyMethods || e.data.None? || !Truthy(e.data.value))
    ensures TaskBlock(idx, e, dumps)[2] == "        self.client." + MethodName(e) + "(\"" + e.path.GetOr("/") + "\")"
  {
  }

  /** With headers to send, the call passes `headers=` and, for a body, `json=` after it; with a
    * body alone it passes `json=` only. */
  lemma CallWithArgs(e: Endpoint, dumps: Json -> string, idx: nat)
    ensures SendsHeaders(e) && SendsBody(e) ==>
      TaskBlock(idx, e, dumps)[2] == "        self.client." + MethodName(e) + "(\"" + e.path.GetOr("/") + "\""
                                     + ", headers=" + dumps(e.headers.value) + ", json=" + dumps(e.data.value) + ")"
    ensures SendsHeaders(e) && !SendsBody(e) ==>
      TaskBlock(idx, e, dumps)[2] == "        self.client." + MethodName(e) + "(\"" + e.path.GetOr("/") + "\""
                                     + ", headers=" + dumps(e.headers.value) + ")"
    ensures !SendsHeaders(e) && SendsBody(e) ==>
      TaskBlock(idx, e, dumps)[2] == "        self.client." + MethodName(e) + "(\"" + e.path.GetOr("/") + "\""
                                     + ", json=" + dumps(e.data.value) + ")"
  {
    var args := RequestArgs(e, dumps);
    if SendsHeaders(e) && SendsBody(e) {
      var h, j := "headers=" + dumps(e.headers.value), "json=" + dumps(e.data.value);
      assert args == [h, j];
      assert args[..1] == [h];
      assert Join(args, ", ") == h + ", " + j;
    }
  }

  /** A rendered script starts with the Locust import, so it is never empty. */
  lemma ScriptStartsWithImport(p: Params, dumps: Json -> string)
    ensures ImportLine <= Join(ScriptLines(p, dumps), "\n")
    ensures Join(ScriptLines(p, dumps), "\n") != ""
  {
    assert ScriptLines(p, dumps)[0] == ImportLine;
  }

  /** The load figures do not reach the package script: only the host and the endpoints do. */
  lemma ScriptIgnoresLoad(p: Params, q: Params, dumps: Json -> string)
    requires p.targetUrl == q.targetUrl && p.endpoints == q.endpoints
    ensures ScriptLines(p, dumps) == ScriptLines(q, dumps)
  {
  }
}
