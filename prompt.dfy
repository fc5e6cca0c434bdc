/**
 * The package's prompt extractor (`PromptGenerator.parse_prompt`): free text becomes a
 * `LoadTestSpec`, one field at a time, each field taken from the leftmost match of one regular
 * expression over the lower-cased prompt, or from a fixed default.
 *
 * Each regular expression is written as a deterministic "match anchored at position i"
 * function; `Text.FirstOr` tries the positions left to right as `re.search` does. Where the
 * pattern could backtrack, a comment says why backtracking cannot produce another match.
 */
module PromptExtractor {
  import opened Wrappers
  import opened Text
  import opened Model

  // ---------------------------------------------------------------------------------------
  // Field patterns, anchored at position i
  // ---------------------------------------------------------------------------------------

  /** The two schemes a URL may start with. */
  const Http: string := "http://"
  const Https: string := "https://"

  /** Where the text after `http://` or `https://` begins, when one of them occurs at `i`. */
  function AfterScheme(s: string, i: nat): Option<nat> {
    if StartsAt(s, i, Https) then Some(i + |Https|)
    else if StartsAt(s, i, Http) then Some(i + |Http|)
    else None
  }

  /** `https?://[^\s]+` at `i`: the whole run of non-space characters starting at `i`,
    * provided it begins with a scheme and something follows the scheme. */
  function UrlAt(s: string, i: nat): (r: Option<string>)
    ensures r.Some? <==> AfterScheme(s, i).Some? && AfterScheme(s, i).value < |s|
                          && !IsSpace(s[AfterScheme(s, i).value])
    ensures r.Some? ==> && StartsAt(s, i, r.value)
                        && (StartsAt(r.value, 0, Http) || StartsAt(r.value, 0, Https))
                        && (forall k :: 0 <= k < |r.value| ==> !IsSpace(r.value[k]))
                        && (i + |r.value| == |s| || IsSpace(s[i + |r.value|]))
  {
    match AfterScheme(s, i)
    case None => None
    case Some(a) =>
      if a < |s| && !IsSpace(s[a]) then
        var e := RunEnd(s, a, IsNonSpace);
        SchemeUrl(s, i, a, e);
        Some(s[i..e])
      else None
  }

  /** The text from a scheme to the end of the run of non-space characters after it is a URL:
    * it starts with the scheme and has no space in it. */
  lemma SchemeUrl(s: string, i: nat, a: nat, e: nat)
    requires AfterScheme(s, i) == Some(a) && a <= e <= |s|
    requires forall k :: a <= k < e ==> IsNonSpace(s[k])
    ensures StartsAt(s[i..e], 0, Http) || StartsAt(s[i..e], 0, Https)
    ensures forall k :: 0 <= k < e - i ==> !IsSpace(s[i..e][k])
  {
    var url := s[i..e];
    var scheme := s[i..a];
    assert scheme == Https || scheme == Http;
    SchemeHasNoSpace(scheme);
    assert url[..a - i] == scheme;
    forall k | 0 <= k < |url|
      ensures !IsSpace(url[k])
    {
      if k < a - i {
        assert url[k] == scheme[k];
      } else {
        assert url[k] == s[i + k];
      }
    }
  }

  lemma SchemeHasNoSpace(scheme: string)
    requires scheme == Http || scheme == Https
    ensures forall k :: 0 <= k < |scheme| ==> !IsSpace(scheme[k])
  {
  }

  /** `(\d+)\s*WORD` (or `(\d+)\s+WORD` when `needSpace`) at `i`: the digits of group 1.
    * Giving back a digit or a space cannot help, since WORD starts with a letter. */
  function DigitsBefore(s: string, i: nat, word: string, needSpace: bool): (r: Option<string>)
    ensures r.Some? <==> && i < |s| && IsDigit(s[i])
                         && var e := RunEnd(s, i, IsDigit);
                            var k := RunEnd(s, e, IsSpace);
                            StartsAt(s, k, word) && (needSpace ==> k > e)
    ensures r.Some? ==> && IsRunAt(s, i, r.value, IsDigit) && AllDigits(r.value)
                        && var k := RunEnd(s, i + |r.value|, IsSpace);
                           StartsAt(s, k, word) && (needSpace ==> k > i + |r.value|)
  {
    if i < |s| && IsDigit(s[i]) then
      var e := RunEnd(s, i, IsDigit);
      var k := RunEnd(s, e, IsSpace);
      if StartsAt(s, k, word) && (needSpace ==> k > e) then Some(RunFrom(s, i, IsDigit)) else None
    else None
  }

  /** `(\d+)\s*users?` at `i`, converted by `int(...)`. */
  function UsersAt(s: string, i: nat): (r: Option<nat>)
    ensures r.Some? <==> && i < |s| && IsDigit(s[i])
                         && StartsAt(s, RunEnd(s, RunEnd(s, i, IsDigit), IsSpace), "user")
    ensures r.Some? ==> && i < |s| && IsDigit(s[i])
                        && var d := RunFrom(s, i, IsDigit);
                           r.value == DigitsValue(d) && StartsAt(s, RunEnd(s, i + |d|, IsSpace), "user")
  {
    match DigitsBefore(s, i, "user", false)
    case Some(d) => Some(DigitsValue(d))
    case None => None
  }

  /** `(\d+)\s*(s|seconds?|m|minutes?|h|hours?)` at `i`, rendered as digits plus the unit's
    * first letter. The first alternative that fits is always the one-letter one, so group 2
    * is `s`, `m` or `h` and only the letter after the spaces matters. */
  function TimeAt(s: string, i: nat): (r: Option<string>)
    ensures r.Some? <==> && i < |s| && IsDigit(s[i])
                         && var k := RunEnd(s, RunEnd(s, i, IsDigit), IsSpace); k < |s| && IsUnit(s[k])
    ensures r.Some? ==> && |r.value| >= 2
                        && var d := |r.value| - 1;
                           && IsRunAt(s, i, r.value[..d], IsDigit) && AllDigits(r.value[..d])
                           && var k := RunEnd(s, i + d, IsSpace);
                              k < |s| && s[k] == r.value[d] && IsUnit(r.value[d])
  {
    if i < |s| && IsDigit(s[i]) then
      var d := RunFrom(s, i, IsDigit);
      var k := RunEnd(s, i + |d|, IsSpace);
      if k < |s| && IsUnit(s[k]) then Some(WithUnit(d, s[k])) else None
    else None
  }

  /** `[smh]` */
  predicate IsUnit(c: char) {
    c == 's' || c == 'm' || c == 'h'
  }

  /** Group 1 followed by group 2: the digits, then the unit letter. */
  function WithUnit(digits: string, unit: char): (r: string)
    requires digits != []
    ensures |r| == |digits| + 1 && r[..|digits|] == digits && r[|digits|] == unit
  {
    digits + [unit]
  }

  /** Where `spawn\s*(?:rate|speed)?\s*(?:of)?\s*` read at `i` ends: after `spawn`, the longest
    * run of spaces, `rate` or else `speed` when one is there, spaces, `of` when it is there,
    * and spaces. The optional words and the spaces begin with different characters and none
    * is a digit, so this greedy reading is the only one that can be followed by digits; the
    * text it skips holds no digit. */
  function AfterSpawn(s: string, i: nat): (f: nat)
    requires StartsAt(s, i, "spawn")
    ensures i + 5 <= f <= |s|
    ensures forall m :: i + 5 <= m < f ==> !IsDigit(s[m])
  {
    var a := RunEnd(s, i + 5, IsSpace);
    var b := if StartsAt(s, a, "rate") then a + 4 else if StartsAt(s, a, "speed") then a + 5 else a;
    var c := RunEnd(s, b, IsSpace);
    var d := if StartsAt(s, c, "of") then c + 2 else c;
    var f := RunEnd(s, d, IsSpace);
    SpawnGap(s, i, a, b, c, d, f);
    f
  }

  /** `spawn\s*(?:rate|speed)?\s*(?:of)?\s*(\d+)` at `i`, converted by `int(...)`: a match
    * exactly when a digit follows the greedy prefix, and its value is the digit run there. */
  function SpawnAt(s: string, i: nat): (r: Option<nat>)
    ensures r.Some? <==> StartsAt(s, i, "spawn") && AfterSpawn(s, i) < |s| && IsDigit(s[AfterSpawn(s, i)])
    ensures r.Some? ==> && StartsAt(s, i, "spawn")
                        && r.value == DigitsValue(RunFrom(s, AfterSpawn(s, i), IsDigit))
    ensures r.Some? ==> && StartsAt(s, i, "spawn")
                        && exists f :: && i + 5 <= f < |s| && IsDigit(s[f])
                                       && (forall m :: i + 5 <= m < f ==> !IsDigit(s[m]))
                                       && r.value == DigitsValue(RunFrom(s, f, IsDigit))
  {
    if StartsAt(s, i, "spawn") then
      var f := AfterSpawn(s, i);
      if f < |s| && IsDigit(s[f]) then Some(DigitsValue(RunFrom(s, f, IsDigit))) else None
    else None
  }

  /** Between `spawn` and the number, `spawn\s*(rate|speed)?\s*(of)?\s*` reads no digit. */
  lemma SpawnGap(s: string, i: nat, a: nat, b: nat, c: nat, d: nat, f: nat)
    requires StartsAt(s, i, "spawn") && a == RunEnd(s, i + 5, IsSpace)
    requires b == if StartsAt(s, a, "rate") then a + 4 else if StartsAt(s, a, "speed") then a + 5 else a
    requires b <= |s| && c == RunEnd(s, b, IsSpace)
    requires d == if StartsAt(s, c, "of") then c + 2 else c
    requires d <= |s| && f == RunEnd(s, d, IsSpace)
    ensures forall m :: i + 5 <= m < f ==> !IsDigit(s[m])
  {
    if StartsAt(s, a, "rate") {
      WordHasNoDigit(s, a, "rate");
    } else if StartsAt(s, a, "speed") {
      WordHasNoDigit(s, a, "speed");
    }
    if StartsAt(s, c, "of") {
      WordHasNoDigit(s, c, "of");
    }
    SpacesHaveNoDigit(s, i + 5);
    SpacesHaveNoDigit(s, b);
    SpacesHaveNoDigit(s, d);
  }

  /** The run of whitespace at `x` holds no digit. */
  lemma SpacesHaveNoDigit(s: string, x: nat)
    requires x <= |s|
    ensures forall m :: x <= m < RunEnd(s, x, IsSpace) ==> !IsDigit(s[m])
  {
  }

  /** A word without digits, read in `s` at `a`, puts no digit there. */
  lemma WordHasNoDigit(s: string, a: nat, w: string)
    requires StartsAt(s, a, w) && forall k :: 0 <= k < |w| ==> !IsDigit(w[k])
    ensures forall m :: a <= m < a + |w| ==> !IsDigit(s[m])
  {
    forall m | a <= m < a + |w|
      ensures !IsDigit(s[m])
    {
      assert s[m] == s[a..a + |w|][m - a] == w[m - a];
    }
  }

  /** `[/\w]` */
  predicate IsPathChar(c: char) {
    c == '/' || IsWordChar(c)
  }

  /** `VERB\s+(?:from|to)?\s*([/\w]+)` at `i`: group 1. When `from` or `to` follows the spaces
    * but no path character follows the word, the regex backtracks to reading the word itself
    * as the path (`get from` gives `from`, `get tomato` gives `mato`). */
  function PathAt(s: string, verb: string, i: nat): (r: Option<string>)
    ensures r.Some? <==> && StartsAt(s, i, verb)
                         && var b := RunEnd(s, i + |verb|, IsSpace);
                            b > i + |verb| && b < |s| && IsPathChar(s[b])
    ensures r.Some? ==> && StartsAt(s, i, verb)
                        && var b := RunEnd(s, i + |verb|, IsSpace);
                           && b > i + |verb| && b < |s| && IsPathChar(s[b])
                           && IsRunAt(s, PathStart(s, b), r.value, IsPathChar)
    ensures r.Some? ==> && StartsAt(s, i, verb) && i + |verb| < |s| && IsSpace(s[i + |verb|])
                        && exists p :: i + |verb| < p && IsRunAt(s, p, r.value, IsPathChar)
  {
    if StartsAt(s, i, verb) then
      var a := i + |verb|;
      var b := RunEnd(s, a, IsSpace);
      if b > a && b < |s| && IsPathChar(s[b]) then
        var p := PathStart(s, b);
        assert IsSpace(s[a]);
        Some(RunFrom(s, p, IsPathChar))
      else None
    else None
  }

  /** Where group 1 starts when the spaces after the verb end at `b`: after `from` or `to`
    * and its spaces when a path character follows them, else at `b` itself. */
  function PathStart(s: string, b: nat): (p: nat)
    requires b < |s| && IsPathChar(s[b])
    ensures b <= p < |s| && IsPathChar(s[p])
    ensures StartsAt(s, b, "from") ==>
              var d := RunEnd(s, b + 4, IsSpace); d < |s| && IsPathChar(s[d]) ==> p == d
    ensures !StartsAt(s, b, "from") && StartsAt(s, b, "to") ==>
              var d := RunEnd(s, b + 2, IsSpace); d < |s| && IsPathChar(s[d]) ==> p == d
    ensures p != b ==> || (StartsAt(s, b, "from") && p == RunEnd(s, b + 4, IsSpace))
                       || (!StartsAt(s, b, "from") && StartsAt(s, b, "to") && p == RunEnd(s, b + 2, IsSpace))
  {
    var w := FromTo(s, b);
    var d := RunEnd(s, b + w, IsSpace);
    if w > 0 && d < |s| && IsPathChar(s[d]) then d else b
  }

  /** The length of what `(?:from|to)?` reads at `b`: `from`, else `to`, else nothing. */
  function FromTo(s: string, b: nat): (w: nat)
    ensures b + w <= |s| || w == 0
    ensures w == 4 <==> StartsAt(s, b, "from")
    ensures w == 2 <==> !StartsAt(s, b, "from") && StartsAt(s, b, "to")
    ensures w == 0 || w == 2 || w == 4
    ensures w > 0 ==> b < |s| && IsWordChar(s[b])
  {
    if StartsAt(s, b, "from") then 4 else if StartsAt(s, b, "to") then 2 else 0
  }

  predicate IsNotNewline(c: char) {
    c != '\n'
  }

  /** `times?\s*more` at `k`: `time`, an optional `s`, spaces, `more`. The optional `s` is
    * not a space, so the greedy reading is the only one. */
  predicate TimesMoreTail(s: string, k: nat) {
    && StartsAt(s, k, "time")
    && var m := if StartsAt(s, k + 4, "s") then k + 5 else k + 4;
       StartsAt(s, RunEnd(s, m, IsSpace), "more")
  }

  /** `(\d+)\s*times?\s*more` at `c`: the digits of group 1, a match exactly when the maximal
    * digit run at `c` is followed, after spaces, by `times?\s*more`. */
  function TimesMoreAt(s: string, c: nat): (r: Option<string>)
    ensures r.Some? <==> && c < |s| && IsDigit(s[c])
                         && TimesMoreTail(s, RunEnd(s, RunEnd(s, c, IsDigit), IsSpace))
    ensures r.Some? ==> && IsRunAt(s, c, r.value, IsDigit) && AllDigits(r.value)
                        && TimesMoreTail(s, RunEnd(s, c + |r.value|, IsSpace))
  {
    if c < |s| && IsDigit(s[c]) then
      var e := RunEnd(s, c, IsDigit);
      if TimesMoreTail(s, RunEnd(s, e, IsSpace)) then Some(s[c..e]) else None
    else None
  }

  /** `VERB.*?(\d+)\s*times?\s*more` at `i`, converted by `int(...)`: the lazy `.*?` tries the
    * shortest gap first and cannot cross a newline. */
  function WeightAt(s: string, verb: string, i: nat): (r: Option<nat>)
    ensures r.Some? ==>
      && StartsAt(s, i, verb)
      && exists c: nat :: && i + |verb| <= c <= |s| && TimesMoreAt(s, c).Some?
                          && r.value == DigitsValue(TimesMoreAt(s, c).value)
                          && (forall m :: i + |verb| <= m < c ==> s[m] != '\n')
                          && (forall c': nat :: i + |verb| <= c' < c ==> TimesMoreAt(s, c').None?)
    ensures r.None? ==> || !StartsAt(s, i, verb)
                        || forall c: nat :: i + |verb| <= c <= RunEnd(s, i + |verb|, IsNotNewline)
                                            ==> TimesMoreAt(s, c).None?
  {
    if StartsAt(s, i, verb) then
      var a := i + |verb|;
      var reach := RunEnd(s, a, IsNotNewline);
      match FirstMatch(TimesMoreWithin(s, reach), a, |s| + 1)
      case Some((c, d)) =>
        WeightScan(s, a, reach, c, d);
        Some(DigitsValue(d))
      case None =>
        WeightScanNone(s, a, reach);
        None
    else None
  }

  /** `TimesMoreAt` at the positions up to `reach`, the first line break: what the lazy `.*?`
    * can skip to. */
  function TimesMoreWithin(s: string, reach: nat): nat -> Option<string> {
    (c: nat) => if c <= reach then TimesMoreAt(s, c) else None
  }

  /** The first weight match within reach is a `TimesMoreAt` match, and none starts before it. */
  lemma WeightScan(s: string, a: nat, reach: nat, c: nat, d: string)
    requires a <= |s| && FirstMatch(TimesMoreWithin(s, reach), a, |s| + 1) == Some((c, d))
    ensures a <= c <= reach && TimesMoreAt(s, c) == Some(d)
    ensures forall c': nat :: a <= c' < c ==> TimesMoreAt(s, c').None?
  {
    var at := TimesMoreWithin(s, reach);
    assert at(c) == Some(d);
    forall c': nat | a <= c' < c
      ensures TimesMoreAt(s, c').None?
    {
      assert at(c') == None;
    }
  }

  /** When no weight match is within reach, `TimesMoreAt` matches nowhere up to the line break. */
  lemma WeightScanNone(s: string, a: nat, reach: nat)
    requires a <= |s| && reach <= |s| && FirstMatch(TimesMoreWithin(s, reach), a, |s| + 1).None?
    ensures forall c: nat :: a <= c <= reach ==> TimesMoreAt(s, c).None?
  {
    var at := TimesMoreWithin(s, reach);
    forall c: nat | a <= c <= reach
      ensures TimesMoreAt(s, c).None?
    {
      assert at(c) == None;
    }
  }

  // ---------------------------------------------------------------------------------------
  // Fields with their defaults
  // ---------------------------------------------------------------------------------------

  function TargetUrl(s: string): (r: string)
    ensures IsFirstMatchOr(s, (i: nat) => UrlAt(s, i), r, DefaultHost)
  {
    FirstOr(s, (i: nat) => UrlAt(s, i), DefaultHost)
  }

  function Users(s: string): (r: nat)
    ensures IsFirstMatchOr(s, (i: nat) => UsersAt(s, i), r, DefaultUsers)
  {
    FirstOr(s, (i: nat) => UsersAt(s, i), DefaultUsers)
  }

  /** The run time is `30s`, or a digit string followed by exactly one of `s`, `m`, `h`. */
  function RunTime(s: string): (r: string)
    ensures IsFirstMatchOr(s, (i: nat) => TimeAt(s, i), r, DefaultRunTime)
    ensures r == DefaultRunTime || (|r| >= 2 && AllDigits(r[..|r| - 1]) && IsUnit(r[|r| - 1]))
  {
    FirstOr(s, (i: nat) => TimeAt(s, i), DefaultRunTime)
  }

  function SpawnRate(s: string): (r: nat)
    ensures IsFirstMatchOr(s, (i: nat) => SpawnAt(s, i), r, DefaultSpawnRate)
  {
    FirstOr(s, (i: nat) => SpawnAt(s, i), DefaultSpawnRate)
  }

  // ---------------------------------------------------------------------------------------
  // Endpoints
  // ---------------------------------------------------------------------------------------

  const Verbs: seq<string> := ["get", "post", "put", "delete", "patch"]
  const BodyVerbs: seq<string> := ["post", "put", "patch"]

  /** The fixed request body attached to POST, PUT and PATCH endpoints. */
  const Placeholder := JObj([("title", JStr("Test Data")), ("body", JStr("This is test data"))])

  /** The endpoint used when the prompt names no verb; it has no `data` key. */
  const DefaultEndpoint := Endpoint(Some("GET"), Some("/"), None, None, Some(1))

  /** `path if path.startswith('/') else f"/{path}"`. */
  function Rooted(path: string): (r: string)
    ensures r != [] && r[0] == '/'
    ensures path != [] && path[0] == '/' ==> r == path
    ensures (path == [] || path[0] != '/') ==> r == "/" + path
  {
    if path != [] && path[0] == '/' then path else "/" + path
  }

  /** The path of the verb's endpoint: `/` when the path pattern matches nowhere, otherwise
    * its leftmost match with `/` put in front when it lacks one. */
  function PathFor(s: string, verb: string): (r: string)
    ensures r != [] && r[0] == '/'
    ensures exists path :: IsFirstMatchOr(s, (i: nat) => PathAt(s, verb, i), path, "/") && r == Rooted(path)
  {
    var path := FirstOr(s, (i: nat) => PathAt(s, verb, i), "/");
    Rooted(path)
  }

  function BodyFor(s: string, verb: string): Json {
    if verb in BodyVerbs && Contains(s, "json") then Placeholder else JNull
  }

  /** The verb's weight: the leftmost `N times more` after the verb, or 1. */
  function WeightFor(s: string, verb: string): (r: nat)
    ensures IsFirstMatchOr(s, (i: nat) => WeightAt(s, verb, i), r, 1)
  {
    FirstOr(s, (i: nat) => WeightAt(s, verb, i), 1)
  }

  function EndpointFor(s: string, verb: string): Endpoint {
    Endpoint(Some(Upper(verb)), Some(PathFor(s, verb)), Some(BodyFor(s, verb)), None, Some(WeightFor(s, verb)))
  }

  /** The images under `f` of the elements of `xs` that `keep` accepts, in the order of `xs`:
    * what a loop appending `f(x)` for each accepted `x` builds. */
  function Select<X, Y>(xs: seq<X>, keep: X -> bool, f: X -> Y): seq<Y>
    decreases |xs|
  {
    if xs == [] then []
    else
      var last := xs[|xs| - 1];
      Select(xs[..|xs| - 1], keep, f) + (if keep(last) then [f(last)] else [])
  }

  /** The indices, in increasing order, of the elements of `xs` that `keep` accepts. */
  function Indices<X>(xs: seq<X>, keep: X -> bool): seq<nat>
    decreases |xs|
  {
    if xs == [] then []
    else Indices(xs[..|xs| - 1], keep) + (if keep(xs[|xs| - 1]) then [|xs| - 1] else [])
  }

  /** The test `verb in prompt` of the loop. */
  function OccursIn(s: string): string -> bool {
    verb => Contains(s, verb)
  }

  function EndpointIn(s: string): string -> Endpoint {
    verb => EndpointFor(s, verb)
  }

  /** One endpoint per verb of `verbs` that occurs in `s`, in the order of `verbs`. */
  function Detected(s: string, verbs: seq<string>): seq<Endpoint> {
    Select(verbs, OccursIn(s), EndpointIn(s))
  }

  /** The indices, in increasing order, of the verbs of `verbs` that occur in `s`. */
  function Hits(s: string, verbs: seq<string>): seq<nat> {
    Indices(verbs, OccursIn(s))
  }

  function EndpointsOf(s: string): seq<Endpoint> {
    var found := Detected(s, Verbs);
    if found == [] then [DefaultEndpoint] else found
  }

  /** `parse_prompt(prompt)`, as a function of the prompt. */
  function Extract(prompt: string): LoadTestSpec {
    var s := Lower(prompt);
    LoadTestSpec(TargetUrl(s), EndpointsOf(s), Users(s), SpawnRate(s), RunTime(s))
  }

  /** `PromptGenerator.parse_prompt`: with numbers read as unbounded integers it never fails.
    * It builds the endpoint list by appending inside the loop over the five verbs. */
  method ParsePrompt(prompt: string) returns (spec: LoadTestSpec)
    ensures spec == Extract(prompt)
  {
    var s := Lower(prompt);
    var targetUrl := TargetUrl(s);
    var users := Users(s);
    var runTime := RunTime(s);
    var spawnRate := SpawnRate(s);
    var endpoints: seq<Endpoint> := [];
    for k := 0 to |Verbs|
      invariant endpoints == Detected(s, Verbs[..k])
    {
      var verb := Verbs[k];
      assert Verbs[..k + 1][..k] == Verbs[..k];
      if Contains(s, verb) {
        var path := PathFor(s, verb);
        var data := BodyFor(s, verb);
        var weight := WeightFor(s, verb);
        var endpoint := Endpoint(Some(Upper(verb)), Some(path), Some(data), None, Some(weight));
        assert endpoint == EndpointIn(s)(verb);
        endpoints := endpoints + [endpoint];
      }
    }
    assert Verbs[..|Verbs|] == Verbs;
    if endpoints == [] {
      endpoints := [DefaultEndpoint];
    }
    spec := LoadTestSpec(targetUrl, endpoints, users, spawnRate, runTime);
  }

  // ---------------------------------------------------------------------------------------
  // Properties of the extraction
  // ---------------------------------------------------------------------------------------

  /** `Indices` lists indices of `xs` only. */
  lemma {:induction false} IndicesBounded<X>(xs: seq<X>, keep: X -> bool)
    ensures |Indices(xs, keep)| <= |xs|
    ensures forall k :: 0 <= k < |Indices(xs, keep)| ==> Indices(xs, keep)[k] < |xs|
    decreases |xs|
  {
    if xs != [] {
      var n := |xs| - 1;
      IndicesBounded(xs[..n], keep);
      var h := Indices(xs[..n], keep);
      assert Indices(xs, keep) == h + (if keep(xs[n]) then [n] else []);
    }
  }

  /** `Indices` is strictly increasing, and an index is in it exactly when `keep` accepts its
    * element. */
  lemma {:induction false} IndicesMembers<X>(xs: seq<X>, keep: X -> bool)
    ensures forall k1, k2 :: 0 <= k1 < k2 < |Indices(xs, keep)| ==> Indices(xs, keep)[k1] < Indices(xs, keep)[k2]
    ensures forall j :: 0 <= j < |xs| ==> (j in Indices(xs, keep) <==> keep(xs[j]))
    decreases |xs|
  {
    if xs != [] {
      var n := |xs| - 1;
      var init := xs[..n];
      IndicesMembers(init, keep);
      IndicesBounded(init, keep);
      var h := Indices(init, keep);
      var tail: seq<nat> := if keep(xs[n]) then [n] else [];
      assert Indices(xs, keep) == h + tail;
      assert forall j :: 0 <= j < n ==> init[j] == xs[j];
      assert n !in h;
    }
  }

  /** `Select` keeps the images of the elements listed by `Indices`, in their order. */
  lemma {:induction false} SelectFollowsIndices<X, Y>(xs: seq<X>, keep: X -> bool, f: X -> Y)
    ensures |Select(xs, keep, f)| == |Indices(xs, keep)|
    ensures forall k :: 0 <= k < |Indices(xs, keep)| ==>
              Indices(xs, keep)[k] < |xs| && Select(xs, keep, f)[k] == f(xs[Indices(xs, keep)[k]])
    decreases |xs|
  {
    IndicesBounded(xs, keep);
    if xs != [] {
      var n := |xs| - 1;
      var init := xs[..n];
      SelectFollowsIndices(init, keep, f);
      IndicesBounded(init, keep);
      var d, h := Select(init, keep, f), Indices(init, keep);
      var dTail := if keep(xs[n]) then [f(xs[n])] else [];
      var hTail: seq<nat> := if keep(xs[n]) then [n] else [];
      assert Select(xs, keep, f) == d + dTail;
      assert Indices(xs, keep) == h + hTail;
      forall k | 0 <= k < |h + hTail|
        ensures (d + dTail)[k] == f(xs[(h + hTail)[k]])
      {
        if k < |h| {
          assert init[h[k]] == xs[h[k]];
        }
      }
    }
  }

  /** The detected endpoints are those of the verbs listed by `Hits`: one per verb that occurs,
    * in the order of `verbs`, each verb found at most once and exactly when it occurs. */
  lemma DetectedFollowsHits(s: string, verbs: seq<string>)
    ensures |Hits(s, verbs)| <= |verbs| && |Detected(s, verbs)| == |Hits(s, verbs)|
    ensures forall k1, k2 :: 0 <= k1 < k2 < |Hits(s, verbs)| ==> Hits(s, verbs)[k1] < Hits(s, verbs)[k2]
    ensures forall j :: 0 <= j < |verbs| ==> (j in Hits(s, verbs) <==> Contains(s, verbs[j]))
    ensures forall k :: 0 <= k < |Hits(s, verbs)| ==>
              Hits(s, verbs)[k] < |verbs| && Detected(s, verbs)[k] == EndpointFor(s, verbs[Hits(s, verbs)[k]])
  {
    IndicesBounded(verbs, OccursIn(s));
    IndicesMembers(verbs, OccursIn(s));
    SelectFollowsIndices(verbs, OccursIn(s), EndpointIn(s));
  }

  /** The upper-cased verbs, as they appear in the endpoints' `method` key. */
  const Methods: seq<string> := ["GET", "POST", "PUT", "DELETE", "PATCH"]

  lemma UpperVerbs()
    ensures |Methods| == |Verbs|
    ensures forall j :: 0 <= j < |Verbs| ==> Upper(Verbs[j]) == Methods[j]
  {
    assert Upper("get") == "GET";
    assert Upper("post") == "POST";
    assert Upper("put") == "PUT";
    assert Upper("delete") == "DELETE";
    assert Upper("patch") == "PATCH";
  }

  /** One endpoint per verb that occurs in the lower-cased prompt, in the order get, post,
    * put, delete, patch; the default endpoint when none occurs. */
  lemma {:induction false} EndpointsPerVerb(prompt: string)
    ensures var s := Lower(prompt); var eps := Extract(prompt).endpoints; var h := Hits(s, Verbs);
      && (forall k1, k2 :: 0 <= k1 < k2 < |h| ==> h[k1] < h[k2])
      && (forall j :: 0 <= j < |Verbs| ==> (j in h <==> Contains(s, Verbs[j])))
      && (h == [] ==> eps == [DefaultEndpoint])
      && (h != [] ==> |eps| == |h| && forall k :: 0 <= k < |h| ==>
            h[k] < |Verbs| && eps[k] == EndpointFor(s, Verbs[h[k]]) && eps[k].httpMethod == Some(Methods[h[k]]))
  {
    DetectedFollowsHits(Lower(prompt), Verbs);
    UpperVerbs();
  }

  /** The endpoint list is never empty and has at most one entry per verb. */
  lemma EndpointsNonEmpty(prompt: string)
    ensures 1 <= |Extract(prompt).endpoints| <= |Verbs|
  {
    DetectedFollowsHits(Lower(prompt), Verbs);
  }

  /** The endpoint list is exactly `[GET / weight 1]` if and only if no verb occurs. */
  lemma DefaultEndpointIffNoVerb(prompt: string)
    ensures Extract(prompt).endpoints == [DefaultEndpoint]
            <==> forall j :: 0 <= j < |Verbs| ==> !Contains(Lower(prompt), Verbs[j])
  {
    var s := Lower(prompt);
    EndpointsPerVerb(prompt);
    var h := Hits(s, Verbs);
    if h != [] {
      assert Contains(s, Verbs[h[0]]);
      assert Extract(prompt).endpoints[0].data.Some?;
    } else {
      forall j | 0 <= j < |Verbs| ensures !Contains(s, Verbs[j]) {
        assert j !in h;
      }
    }
  }

  /** Every endpoint path starts with `/`. */
  lemma PathsRooted(prompt: string)
    ensures forall e :: e in Extract(prompt).endpoints ==>
              e.path.Some? && e.path.value != [] && e.path.value[0] == '/'
  {
    EndpointsPerVerb(prompt);
  }

  /** The body rule for the endpoint of the `j`-th verb. */
  lemma EndpointBody(s: string, j: nat)
    requires j < |Verbs|
    ensures var e := EndpointFor(s, Verbs[j]);
      && e.httpMethod == Some(Methods[j]) && e.data.Some?
      && ((e.data.value != JNull) <==> (Methods[j] in ["POST", "PUT", "PATCH"] && Contains(s, "json")))
      && (e.data.value != JNull ==> e.data.value == Placeholder)
  {
    UpperVerbs();
    assert j == 0 || j == 1 || j == 2 || j == 3 || j == 4;
  }

  /** A request body is present (non-null) exactly on POST, PUT and PATCH endpoints of a
    * prompt that mentions `json`, and it is then the fixed placeholder. */
  lemma BodyRule(prompt: string)
    ensures forall e :: e in Extract(prompt).endpoints ==>
              && ((e.data.Some? && e.data.value != JNull)
                  <==> (e.httpMethod.Some? && e.httpMethod.value in ["POST", "PUT", "PATCH"]
                        && Contains(Lower(prompt), "json")))
              && (e.data.Some? && e.data.value != JNull ==> e.data.value == Placeholder)
  {
    var s := Lower(prompt);
    var eps := Extract(prompt).endpoints;
    EndpointsPerVerb(prompt);
    var h := Hits(s, Verbs);
    forall e | e in eps
      ensures && ((e.data.Some? && e.data.value != JNull)
                  <==> (e.httpMethod.Some? && e.httpMethod.value in ["POST", "PUT", "PATCH"]
                        && Contains(s, "json")))
              && (e.data.Some? && e.data.value != JNull ==> e.data.value == Placeholder)
    {
      if h == [] {
        assert e == DefaultEndpoint;
      } else {
        var k :| 0 <= k < |eps| && eps[k] == e;
        EndpointBody(s, h[k]);
      }
    }
  }

  /** Matching is done on the lower-cased prompt, so the case of the prompt does not matter. */
  lemma ExtractIgnoresCase(prompt: string)
    ensures Extract(Lower(prompt)) == Extract(prompt)
  {
    LowerIdempotent(prompt);
  }

  /** A URL matched in text without upper-case letters has none either. */
  lemma UrlAtLowerCase(s: string, i: nat)
    requires forall k :: 0 <= k < |s| ==> !IsUpper(s[k])
    ensures UrlAt(s, i).Some? ==> forall k :: 0 <= k < |UrlAt(s, i).value| ==> !IsUpper(UrlAt(s, i).value[k])
  {
    if UrlAt(s, i).Some? {
      var u := UrlAt(s, i).value;
      assert u == s[i..i + |u|];
    }
  }

  /** The target URL comes out lower-cased, path included. */
  lemma TargetUrlLowerCase(prompt: string)
    ensures forall k :: 0 <= k < |Extract(prompt).targetUrl| ==> !IsUpper(Extract(prompt).targetUrl[k])
  {
    var s := Lower(prompt);
    var u := TargetUrl(s);
    var at := (i: nat) => UrlAt(s, i);
    assert IsFirstMatchOr(s, at, u, DefaultHost);
    if u != DefaultHost {
      var i: nat :| i <= |s| && at(i) == Some(u);
      UrlAtLowerCase(s, i);
    }
  }
}
