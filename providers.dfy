/** The provider side of server/services/aiItineraryService.js: how the raw text
    of a chat-completion reply and of a Gemini reply is turned into a `days`
    array, and `generateItineraryForTrip`, which picks the mock or a provider
    and falls back to the mock whenever the provider path fails. The network
    call and `JSON.parse` are parameters. */
module Providers {
  import opened Wrappers
  import opened Text
  import opened TripModel
  import opened ItineraryModel
  import opened MockGenerator

  /** The outcome of the HTTPS request: the text the model produced, or a failure
      (a transport error, an error status, or an envelope without the text). */
  datatype Reply = Delivered(text: string) | CallFailed

  /** What the server looks at in a parsed document: whether its `days` member
      is an array, and if so its elements. */
  datatype DaysMember = NoDaysArray | DayArray(days: seq<Day>)

  /** `JSON.parse` followed by a look at `days`: `None` when the text is not JSON. */
  type Parser = string -> Option<DaysMember>

  // ----- the chat-completion path: `content.match(/\{[\s\S]*\}/)` -----

  /** Index of the first occurrence of `c`. */
  function FirstIndex(s: string, c: char): (r: Option<nat>)
    ensures r.None? <==> c !in s
    ensures r.Some? ==> r.value < |s| && s[r.value] == c && c !in s[..r.value]
    decreases |s|
  {
    if s == [] then None
    else if s[0] == c then Some(0)
    else
      match FirstIndex(s[1..], c)
      case None => None
      case Some(i) =>
        assert s[..i + 1] == [s[0]] + s[1..][..i];
        Some(i + 1)
  }

  /** Index of the last occurrence of `c`. */
  function LastIndex(s: string, c: char): (r: Option<nat>)
    ensures r.None? <==> c !in s
    ensures r.Some? ==> r.value < |s| && s[r.value] == c && c !in s[r.value + 1..]
    decreases |s|
  {
    if s == [] then None
    else if s[|s| - 1] == c then Some(|s| - 1)
    else
      match LastIndex(s[..|s| - 1], c)
      case None => None
      case Some(i) =>
        assert s[i + 1..] == s[..|s| - 1][i + 1..] + [s[|s| - 1]];
        Some(i)
  }

  /** `t` is `s[i..j]` (inclusive) with `i` the first `{` and `j` the last `}` of `s`. */
  ghost predicate OuterBraces(s: string, t: string, i: int, j: int) {
    0 <= i < j < |s| && t == s[i..j + 1] && '{' !in s[..i] && '}' !in s[j + 1..]
  }

  /** An occurrence of `c` is not before its first occurrence. */
  lemma NotBeforeFirst(s: string, c: char, i: nat, k: nat)
    requires i <= |s| && c !in s[..i] && k < |s| && s[k] == c
    ensures k >= i
  {
    forall m | 0 <= m < i
      ensures s[m] != c
    {
      assert s[..i][m] == s[m];
    }
  }

  /** The greedy match of `\{[\s\S]*\}`: from the first `{` to the last `}`, when
      that `}` comes after the `{`. */
  function ExtractBraced(s: string): (r: Option<string>)
    ensures r.Some? <==> exists i, j :: 0 <= i < j < |s| && s[i] == '{' && s[j] == '}'
    ensures r.Some? ==> exists i, j :: OuterBraces(s, r.value, i, j)
  {
    match FirstIndex(s, '{')
    case None => None
    case Some(i) =>
      match LastIndex(s, '}')
      case None => None
      case Some(j) =>
        if i < j then
          assert OuterBraces(s, s[i..j + 1], i, j);
          Some(s[i..j + 1])
        else
          assert forall i', j' :: 0 <= i' < j' < |s| && s[i'] == '{' ==> s[j'] != '}' by {
            forall i', j' | 0 <= i' < j' < |s| && s[i'] == '{'
              ensures s[j'] != '}'
            {
              NotBeforeFirst(s, '{', i, i');
              assert j' > j;
              assert s[j + 1..][j' - j - 1] == s[j'];
            }
          }
          None
  }

  /** The extracted text starts with `{` and ends with `}`. */
  lemma ExtractBracedDelimited(s: string)
    requires ExtractBraced(s).Some?
    ensures var t := ExtractBraced(s).value;
            |t| >= 2 && t[0] == '{' && t[|t| - 1] == '}'
  {
  }

  /** A reply that already is a bare object is taken whole. */
  lemma ExtractBracedKeepsBareObject(s: string)
    requires |s| >= 2 && s[0] == '{' && s[|s| - 1] == '}'
    ensures ExtractBraced(s) == Some(s)
  {
    assert s[0..|s|] == s;
  }

  /** `generateOpenAIItinerary` after the request: `None` is every path that
      throws (failed call, no braces, invalid JSON, no `days` array). */
  function ChatDays(reply: Reply, parse: Parser): (r: Option<seq<Day>>)
    ensures r.Some? <==>
              && reply.Delivered?
              && ExtractBraced(reply.text).Some?
              && parse(ExtractBraced(reply.text).value).Some?
              && parse(ExtractBraced(reply.text).value).value.DayArray?
    ensures r.Some? ==> r.value == parse(ExtractBraced(reply.text).value).value.days
  {
    if reply.CallFailed? then None
    else
      match ExtractBraced(reply.text)
      case None => None
      case Some(json) =>
        match parse(json)
        case None => None
        case Some(NoDaysArray) => None
        case Some(DayArray(days)) => Some(days)
  }

  // ----- the Gemini path: strip code fences, then trim -----

  /** A global regular-expression replacement of `fence` followed by `\s` repeated:
      every occurrence of `fence`, scanning left to right, is removed together
      with the white space that follows it. */
  function RemoveFences(s: string, fence: string): (r: string)
    requires fence != []
    ensures |r| <= |s|
    decreases |s|
  {
    if s == [] then []
    else if StartsWith(s, fence) then RemoveFences(TrimStart(s[|fence|..]), fence)
    else [s[0]] + RemoveFences(s[1..], fence)
  }

  const JsonFence: string := "```json"
  const Fence: string := "```"

  /** The Gemini clean-up: remove the "```json" fences, then the "```" fences,
      each with its trailing white space, then trim. */
  function CleanGemini(s: string): (r: string)
    ensures |r| <= |s|
    ensures Trim(r) == r
  {
    var r := Trim(RemoveFences(RemoveFences(s, JsonFence), Fence));
    TrimIdempotent(RemoveFences(RemoveFences(s, JsonFence), Fence));
    r
  }

  /** A prefix free of backticks passes through the fence removal untouched. */
  lemma {:induction false} RemoveFencesKeepsPlainPrefix(a: string, b: string, fence: string)
    requires fence != [] && fence[0] == '`' && '`' !in a
    ensures RemoveFences(a + b, fence) == a + RemoveFences(b, fence)
    decreases |a|
  {
    if a != [] {
      var s := a + b;
      assert !StartsWith(s, fence) by {
        assert s[0] == a[0] != '`';
      }
      RemoveFencesKeepsFirst(s, fence);
      assert s[1..] == a[1..] + b;
      RemoveFencesKeepsPlainPrefix(a[1..], b, fence);
      assert a == [a[0]] + a[1..];
    } else {
      assert a + b == b;
    }
  }

  /** Text without a backtick is only trimmed. */
  lemma CleanGeminiPlainText(s: string)
    requires '`' !in s
    ensures CleanGemini(s) == Trim(s)
  {
    RemoveFencesKeepsPlainPrefix(s, [], JsonFence);
    RemoveFencesKeepsPlainPrefix(s, [], Fence);
    assert s + [] == s;
  }

  /** The first pass on a fenced block drops the opening fence and the white space
      after it, and keeps the shorter closing fence. */
  lemma OpeningFencePass(open: string, close: string, body: string)
    requires open != [] && open[0] == '`' && close != [] && close[0] == '`'
    requires |close| < |open| && '`' !in body
    ensures RemoveFences(open + body + close, open) == TrimStart(body) + close
  {
    assert open + body + close == open + (body + close);
    RemoveFencesAtFence(open, body + close);
    TrimStartBeforeBacktick(body, close);
    TrimStartKeepsAbsent(body, '`');
    RemoveFencesKeepsPlainPrefix(TrimStart(body), close, open);
    RemoveFencesShortText(close, open);
  }

  /** A fence at the front goes, with the white space after it. */
  lemma RemoveFencesAtFence(fence: string, rest: string)
    requires fence != []
    ensures RemoveFences(fence + rest, fence) == RemoveFences(TrimStart(rest), fence)
  {
    assert StartsWith(fence + rest, fence) && (fence + rest)[|fence|..] == rest;
  }

  lemma TrimStartKeepsAbsent(s: string, c: char)
    requires c !in s
    ensures c !in TrimStart(s)
  {
    var t := TrimStart(s);
    assert t == s[|s| - |t|..];
  }

  /** The second pass drops the closing fence. */
  lemma ClosingFencePass(close: string, t: string)
    requires close != [] && close[0] == '`' && '`' !in t
    ensures RemoveFences(t + close, close) == t
  {
    RemoveFencesKeepsPlainPrefix(t, close, close);
    assert StartsWith(close, close) && close[|close|..] == [];
    assert t + [] == t;
  }

  /** A body without backticks wrapped in a fenced `json` code block comes out as
      the trimmed body. */
  lemma CleanGeminiFencedBlock(body: string)
    requires '`' !in body
    ensures CleanGemini(JsonFence + body + Fence) == Trim(body)
  {
    var t := TrimStart(body);
    TrimStartKeepsAbsent(body, '`');
    OpeningFencePass(JsonFence, Fence, body);
    ClosingFencePass(Fence, t);
    TrimOfTrimStart(body);
  }

  /** A text shorter than the fence cannot hold it. */
  lemma {:induction false} RemoveFencesShortText(s: string, fence: string)
    requires fence != [] && |s| < |fence|
    ensures RemoveFences(s, fence) == s
    decreases |s|
  {
    if s != [] {
      RemoveFencesShortText(s[1..], fence);
      assert [s[0]] + s[1..] == s;
    }
  }

  /** `\s*` stops at the first backtick. */
  lemma {:induction false} TrimStartBeforeBacktick(a: string, b: string)
    requires b != [] && b[0] == '`'
    ensures TrimStart(a + b) == TrimStart(a) + b
    decreases |a|
  {
    if a == [] {
      assert a + b == b;
    } else if IsSpace(a[0]) {
      assert (a + b)[1..] == a[1..] + b;
      TrimStartBeforeBacktick(a[1..], b);
    } else {
      assert (a + b)[0] == a[0];
    }
  }

  lemma TrimOfTrimStart(s: string)
    ensures Trim(TrimStart(s)) == Trim(s)
  {
  }

  /** A text that does not open with the fence keeps its first character. */
  lemma RemoveFencesKeepsFirst(s: string, fence: string)
    requires fence != [] && s != [] && !StartsWith(s, fence)
    ensures RemoveFences(s, fence) == [s[0]] + RemoveFences(s[1..], fence)
  {
  }

  /** Opening with "```" means three backticks in a row. */
  lemma FenceIsThreeBackticks(x: string)
    ensures StartsWith(x, Fence) <==> |x| >= 3 && x[0] == '`' && x[1] == '`' && x[2] == '`'
  {
    if |x| >= 3 {
      assert x[..3] == [x[0], x[1], x[2]];
    }
  }

  /** A character kept in front of what the removal makes of the rest cannot
      start a new "```": a backtick is kept only when fewer than three
      backticks follow in a row, and the rest then opens with the shorter run. */
  lemma NoFenceAtJoin(s: string)
    requires s != [] && !StartsWith(s, Fence)
    ensures !StartsWith([s[0]] + RemoveFences(s[1..], Fence), Fence)
  {
    var t := RemoveFences(s[1..], Fence);
    var r := [s[0]] + t;
    FenceIsThreeBackticks(s);
    FenceIsThreeBackticks(r);
    if s[0] == '`' && |s| > 1 {
      var u := s[1..];
      FenceIsThreeBackticks(u);
      RemoveFencesKeepsFirst(u, Fence);
      assert r[1] == u[0];
      if u[0] == '`' && |u| > 1 {
        var v := u[1..];
        FenceIsThreeBackticks(v);
        RemoveFencesKeepsFirst(v, Fence);
        assert r[2] == v[0];
      }
    }
  }

  /** After the "```" pass no "```" is left anywhere in the text, whatever it held. */
  lemma {:induction false} NoFenceLeft(s: string)
    ensures !Contains(RemoveFences(s, Fence), Fence)
    decreases |s|
  {
    if s == [] {
      assert !StartsWith(RemoveFences(s, Fence), Fence);
    } else if StartsWith(s, Fence) {
      NoFenceLeft(TrimStart(s[|Fence|..]));
    } else {
      var t := RemoveFences(s[1..], Fence);
      NoFenceLeft(s[1..]);
      RemoveFencesKeepsFirst(s, Fence);
      NoFenceAtJoin(s);
      assert ([s[0]] + t)[1..] == t;
    }
  }

  /** A pattern found in a slice of a text is found in the text. */
  lemma ContainsInSlice(x: string, i: nat, j: nat, p: string)
    requires i <= j <= |x| && Contains(x[i..j], p)
    ensures Contains(x, p)
  {
    ContainsIff(x[i..j], p);
    var m :| OccursAt(x[i..j], p, m);
    OccursInPrefix(x[i..], x[i..j], p, m);
    OccursInSuffix(x, i, x[i..], p, m);
    ContainsIff(x, p);
  }

  /** The cleaned Gemini reply holds no code fence, whatever text surrounds or
      sits between the fences. */
  lemma CleanGeminiNoFence(s: string)
    ensures !Contains(CleanGemini(s), Fence)
  {
    var x := RemoveFences(RemoveFences(s, JsonFence), Fence);
    NoFenceLeft(RemoveFences(s, JsonFence));
    var i, j :| 0 <= i <= j <= |x| && Trim(x) == x[i..j];
    if Contains(x[i..j], Fence) {
      ContainsInSlice(x, i, j, Fence);
    }
  }

  /** `generateGeminiItinerary` after the request: `None` is every path that throws. */
  function GeminiDays(reply: Reply, parse: Parser): (r: Option<seq<Day>>)
    ensures r.Some? <==>
              && reply.Delivered?
              && parse(CleanGemini(reply.text)).Some?
              && parse(CleanGemini(reply.text)).value.DayArray?
    ensures r.Some? ==> r.value == parse(CleanGemini(reply.text)).value.days
  {
    if reply.CallFailed? then None
    else
      match parse(CleanGemini(reply.text))
      case None => None
      case Some(NoDaysArray) => None
      case Some(DayArray(days)) => Some(days)
  }

  // ----- `generateItineraryForTrip` -----

  /** The two environment variables the dispatch reads; `None` when unset. */
  datatype Config = Config(provider: Option<string>, apiKey: Option<string>)

  const PlaceholderKey: string := "your_api_key_here"

  /** `process.env.AI_PROVIDER || 'mock'`: unset and empty both mean "mock". */
  function ConfiguredProvider(c: Config): (p: string)
    ensures p != []
    ensures c.provider.Some? && c.provider.value != [] ==> p == c.provider.value
    ensures c.provider.None? || c.provider.value == [] ==> p == "mock"
  {
    match c.provider
    case Some(v) => if v != [] then v else "mock"
    case None => "mock"
  }

  /** `!apiKey || apiKey === 'your_api_key_here'`. */
  predicate KeyMissing(c: Config) {
    c.apiKey.None? || c.apiKey.value == [] || c.apiKey.value == PlaceholderKey
  }

  datatype Strategy = UseMock | UseGemini | UseChat

  function SelectStrategy(c: Config): Strategy {
    var p := ConfiguredProvider(c);
    if p == "mock" || KeyMissing(c) then UseMock
    else if p == "gemini" then UseGemini
    else if p == "openai" then UseChat
    else UseMock
  }

  /** A provider is called exactly when it is named and a usable key is set;
      every other configuration, an unknown provider name included, uses the mock. */
  lemma SelectStrategyCases(c: Config)
    ensures SelectStrategy(c) == UseGemini <==> ConfiguredProvider(c) == "gemini" && !KeyMissing(c)
    ensures SelectStrategy(c) == UseChat <==> ConfiguredProvider(c) == "openai" && !KeyMissing(c)
    ensures SelectStrategy(c) == UseMock <==>
              KeyMissing(c) || ConfiguredProvider(c) !in {"gemini", "openai"}
  {
  }

  /** The `days` array the selected provider's path yields, `None` when the mock
      is selected or that path fails (a failed call, a reply the path cannot
      parse, a document without a `days` array). */
  function ProviderDays(c: Config, reply: Reply, parse: Parser): (r: Option<seq<Day>>)
    ensures SelectStrategy(c) == UseMock || reply.CallFailed? ==> r.None?
  {
    match SelectStrategy(c)
    case UseMock => None
    case UseGemini => GeminiDays(reply, parse)
    case UseChat => ChatDays(reply, parse)
  }

  /** The `days` the dispatch hands back. It never fails: a failed provider path
      yields the mock's days. */
  function GenerateForTrip(c: Config, trip: Trip, rand: RandomSource, reply: Reply, parse: Parser): (days: seq<Day>)
    ensures SelectStrategy(c) == UseMock || reply.CallFailed? ==> days == MockDays(trip, rand)
  {
    ProviderDays(c, reply, parse).GetOr(MockDays(trip, rand))
  }

  /** `generateItineraryForTrip` itself: the mock generator runs only when the
      mock is selected or the selected provider's path failed. */
  method GenerateItineraryForTrip(c: Config, trip: Trip, rand: RandomSource, reply: Reply, parse: Parser)
    returns (days: seq<Day>)
    ensures days == GenerateForTrip(c, trip, rand, reply, parse)
  {
    var fromProvider := ProviderDays(c, reply, parse);
    if fromProvider.Some? {
      days := fromProvider.value;
    } else {
      days := GenerateMock(trip, rand);
    }
  }

  /** When the mock is selected, the reply and the parser play no part: no
      provider is called. */
  lemma MockSelectedIgnoresProvider(c: Config, trip: Trip, rand: RandomSource,
                                    reply1: Reply, parse1: Parser, reply2: Reply, parse2: Parser)
    requires SelectStrategy(c) == UseMock
    ensures GenerateForTrip(c, trip, rand, reply1, parse1) == MockDays(trip, rand)
    ensures GenerateForTrip(c, trip, rand, reply1, parse1) == GenerateForTrip(c, trip, rand, reply2, parse2)
  {
  }

  /** A failed call falls back to the mock, whatever the configuration. */
  lemma FailedCallFallsBack(c: Config, trip: Trip, rand: RandomSource, parse: Parser)
    ensures GenerateForTrip(c, trip, rand, CallFailed, parse) == MockDays(trip, rand)
  {
  }

  /** The result is either the mock's days or exactly the `days` array of the
      provider's reply, and the latter only when that provider was selected and
      its whole path succeeded. */
  lemma ResultIsMockOrProvider(c: Config, trip: Trip, rand: RandomSource, reply: Reply, parse: Parser)
    ensures var days := GenerateForTrip(c, trip, rand, reply, parse);
            || days == MockDays(trip, rand)
            || (SelectStrategy(c) == UseGemini && GeminiDays(reply, parse) == Some(days))
            || (SelectStrategy(c) == UseChat && ChatDays(reply, parse) == Some(days))
    ensures SelectStrategy(c) == UseGemini && GeminiDays(reply, parse).Some? ==>
              GenerateForTrip(c, trip, rand, reply, parse) == GeminiDays(reply, parse).value
    ensures SelectStrategy(c) == UseChat && ChatDays(reply, parse).Some? ==>
              GenerateForTrip(c, trip, rand, reply, parse) == ChatDays(reply, parse).value
  {
  }

  /** A reply whose text holds no `{ ... }` makes the chat path fall back to the mock. */
  lemma ChatWithoutBracesFallsBack(c: Config, trip: Trip, rand: RandomSource, text: string, parse: Parser)
    requires SelectStrategy(c) == UseChat
    requires forall i, j :: 0 <= i < j < |text| && text[i] == '{' ==> text[j] != '}'
    ensures GenerateForTrip(c, trip, rand, Delivered(text), parse) == MockDays(trip, rand)
  {
  }
}
