/** Role-based routing of text generation to a provider and model, the
    error-string contract of `generate_text`, and the JSON extraction of
    `generate_json`. The provider calls themselves and `json.loads` are
    parameters. */
module LlmRouter {
  import opened Wrappers
  import Text
  import Json

  // ---------------------------------------------------------------------------
  // Role to model
  // ---------------------------------------------------------------------------

  /** Role to `(provider, model)` for the cloud providers. */
  const RoleModelMap: map<string, (string, string)> := map[
    "genesis_architect" := ("openai", "gpt-4o"),
    "main_debater" := ("openai", "gpt-4o"),
    "reaction_agent" := ("openai", "gpt-4o-mini"),
    "chaos_joker" := ("anthropic", "claude-sonnet-4-20250514"),
    "searcher" := ("openai", "gpt-4o-mini"),
    "librarian" := ("openai", "gpt-4o-mini"),
    "translator" := ("openai", "gpt-4o-mini"),
    "post_writer" := ("openai", "gpt-4o-mini"),
    "wiki_writer" := ("openai", "gpt-4o")]

  /** Role to model for a local Ollama server. */
  const OllamaRoleModelMap: map<string, string> := map[
    "genesis_architect" := "qwen2.5:14b",
    "main_debater" := "llama3.2:3b",
    "reaction_agent" := "llama3.2:3b",
    "chaos_joker" := "llama3.2:3b",
    "searcher" := "llama3.2:3b",
    "librarian" := "llama3.2:3b",
    "translator" := "llama3.2:3b",
    "post_writer" := "llama3.2:3b",
    "wiki_writer" := "qwen2.5:14b"]

  const OllamaDefaultModel: string := "llama3.2:3b"

  /** The cheap model every unknown role, and every role once the budget is
      spent, is sent to. */
  const Fallback: (string, string) := ("openai", "gpt-4o-mini")

  /** `_get_model`. */
  function GetModel(role: string): (string, string) {
    if role in RoleModelMap then RoleModelMap[role] else Fallback
  }

  /** `_get_ollama_model`. */
  function GetOllamaModel(role: string): string {
    if role in OllamaRoleModelMap then OllamaRoleModelMap[role] else OllamaDefaultModel
  }

  /** An unknown role goes to OpenAI's gpt-4o-mini, or to llama3.2:3b on
      Ollama; both tables know the same roles. */
  lemma UnknownRole(role: string)
    requires role !in RoleModelMap
    ensures GetModel(role) == ("openai", "gpt-4o-mini")
    ensures role !in OllamaRoleModelMap && GetOllamaModel(role) == "llama3.2:3b"
  {
  }

  /** Every role is routed to a provider `generate_text` can call, and only
      `chaos_joker` to Anthropic. */
  lemma KnownProviders(role: string)
    ensures GetModel(role).0 == "openai" || GetModel(role).0 == "anthropic"
    ensures GetModel(role).0 == "anthropic" <==> role == "chaos_joker"
  {
  }

  /** Where a request goes. */
  datatype Target = Cloud(provider: string, model: string) | Local(model: string)

  /** The routing of `generate_text`: Ollama when it is the configured
      provider; otherwise the role's provider and model, replaced by the
      fallback once the budget used reaches the maximum. */
  function Route(useOllama: bool, role: string, budgetUsed: real, maxBudget: real): (t: Target)
    ensures useOllama <==> t.Local?
    ensures t.Local? ==> t.model == GetOllamaModel(role)
    ensures !useOllama && budgetUsed >= maxBudget ==> t == Cloud("openai", "gpt-4o-mini")
    ensures !useOllama && budgetUsed < maxBudget ==> t == Cloud(GetModel(role).0, GetModel(role).1)
    ensures t.Cloud? ==> t.provider == "openai" || t.provider == "anthropic"
  {
    if useOllama then Local(GetOllamaModel(role))
    else
      var pm := if budgetUsed >= maxBudget then Fallback else GetModel(role);
      KnownProviders(role);
      Cloud(pm.0, pm.1)
  }

  // ---------------------------------------------------------------------------
  // Text generation
  // ---------------------------------------------------------------------------

  /** What the provider call gave: the reply's text (the empty text for a
      missing one), or an exception. */
  datatype Outcome = Reply(text: string) | Failure

  const ErrorPrefix: string := "(LLM error"
  const EmptyResponse: string := "(LLM error \U{2014} empty response)"
  const NoResponse: string := "(LLM error \U{2014} no response generated)"

  /** What `generate_text` returns for the call's outcome. */
  function TextOf(t: Target, o: Outcome): string {
    match o
    case Failure => NoResponse
    case Reply(text) =>
      if t.Local? && text == [] then EmptyResponse
      else if t.Cloud? && t.provider != "openai" && t.provider != "anthropic" then NoResponse
      else text
  }

  /** `generate_text` never fails: it gives the reply, or a text starting
      with "(LLM error" when the call failed or Ollama answered nothing, so
      an Ollama result is never empty. */
  lemma TextOfSound(useOllama: bool, role: string, budgetUsed: real, maxBudget: real, o: Outcome)
    ensures var t := Route(useOllama, role, budgetUsed, maxBudget);
      var r := TextOf(t, o);
      && (o.Failure? ==> Text.StartsWith(r, ErrorPrefix))
      && (o.Reply? && (o.text != [] || !useOllama) ==> r == o.text)
      && (o.Reply? && o.text == [] && useOllama ==> r == EmptyResponse && Text.StartsWith(r, ErrorPrefix))
      && (useOllama ==> r != [])
  {
    assert NoResponse[..|ErrorPrefix|] == ErrorPrefix;
    assert EmptyResponse[..|ErrorPrefix|] == ErrorPrefix;
  }

  /** The router; `budgetUsed` is the `_budget_used` it starts with at zero.
      The provider clients it creates on first use are not modelled. */
  class Router {
    var budgetUsed: real

    constructor()
      ensures budgetUsed == 0.0
    {
      budgetUsed := 0.0;
    }

    /** `generate_text`; `call` stands for the request to the chosen
        provider and model. */
    method GenerateText(useOllama: bool, maxBudget: real, role: string, call: Target -> Outcome)
      returns (text: string)
      ensures text == TextOf(Route(useOllama, role, budgetUsed, maxBudget),
                             call(Route(useOllama, role, budgetUsed, maxBudget)))
    {
      if useOllama {
        var model := GetOllamaModel(role);
        var result := call(Local(model));
        if result.Failure? {
          return NoResponse;
        }
        if result.text != [] {
          return result.text;
        }
        return EmptyResponse;
      }
      var pm := GetModel(role);
      if budgetUsed >= maxBudget {
        pm := Fallback;
      }
      var provider, model := pm.0, pm.1;
      var result := call(Cloud(provider, model));
      if result.Failure? {
        return NoResponse;
      }
      if provider == "openai" {
        return result.text;
      } else if provider == "anthropic" {
        return result.text;
      }
      return NoResponse;
    }
  }

  /** A router whose budget is untouched keeps every role on its own
      model while the maximum budget is positive. */
  method FreshRouterRoutesByRole(maxBudget: real, role: string) returns (t: Target)
    requires maxBudget > 0.0
    ensures t == Cloud(GetModel(role).0, GetModel(role).1)
  {
    var r := new Router();
    t := Route(false, role, r.budgetUsed, maxBudget);
  }

  // ---------------------------------------------------------------------------
  // JSON extraction
  // ---------------------------------------------------------------------------

  const Fence: string := "```"

  /** The reply stripped, and, when it starts with a code fence, without
      its first line and a closing fence, stripped again. */
  function Unfence(reply: string): string {
    var text := Text.Strip(reply);
    if Text.StartsWith(text, Fence) then
      var body := Text.Join("\n", Text.Split(text, '\n')[1..]);
      Text.Strip(if Text.EndsWith(body, Fence) then body[..|body| - 3] else body)
    else text
  }

  /** A fenced reply gives back its body, stripped. */
  lemma UnfenceFenced(info: string, body: string)
    requires forall i :: 0 <= i < |info| ==> info[i] != '\n'
    ensures Unfence(Fence + info + "\n" + body + Fence) == Text.Strip(body)
  {
    var text := Fence + info + "\n" + body + Fence;
    FencedIsStripped(text);
    assert Text.StartsWith(text, Fence) by {
      assert text[..3] == Fence;
    }
    assert text == Fence + info + "\n" + (body + Fence);
    var rest := body + Fence;
    AfterFirstLine(info, rest);
    assert Text.Split(text, '\n')[1..] == Text.Split(rest, '\n');
    Text.JoinSplit(rest, '\n');
    ClosingFence(body);
  }

  lemma FencedIsStripped(text: string)
    requires |text| >= 3 && text[0] == '`' && text[|text| - 1] == '`'
    ensures Text.Strip(text) == text
  {
    Text.StripKeeps(text);
  }

  /** Splitting the fenced text at line feeds puts the fence line first and
      the lines of what follows it after. */
  lemma AfterFirstLine(info: string, rest: string)
    requires forall i :: 0 <= i < |info| ==> info[i] != '\n'
    ensures Text.Split(Fence + info + "\n" + rest, '\n')[1..] == Text.Split(rest, '\n')
  {
    var text := Fence + info + "\n" + rest;
    var k := |Fence + info|;
    assert text[k] == '\n';
    forall j | 0 <= j < k ensures text[j] != '\n' {
      if j >= 3 {
        assert text[j] == info[j - 3];
      }
    }
    assert Text.FindChar(text, '\n') == Some(k);
    assert text[k + 1..] == rest;
  }

  lemma ClosingFence(body: string)
    ensures Text.EndsWith(body + Fence, Fence)
    ensures (body + Fence)[..|body + Fence| - 3] == body
  {
    assert (body + Fence)[|body|..] == Fence;
  }

  /** A reply that does not start with a fence is only stripped. */
  lemma UnfencePlain(reply: string)
    requires !Text.StartsWith(Text.Strip(reply), Fence)
    ensures Unfence(reply) == Text.Strip(reply)
  {
  }

  /** The slice from the first `open` to the last `close`, inclusive, when
      the last `close` comes after the first `open`. */
  function Bracketed(text: string, open: char, close: char): (r: Option<string>)
    ensures r.Some? ==> exists i, j ::
      && 0 <= i < j < |text| && text[i] == open && text[j] == close
      && (forall k :: 0 <= k < i ==> text[k] != open)
      && (forall k :: j < k < |text| ==> text[k] != close)
      && r.value == text[i..j + 1]
  {
    match (Text.FindChar(text, open), Text.FindLastChar(text, close))
    case (Some(i), Some(j)) => if j > i then Some(text[i..j + 1]) else None
    case _ => None
  }

  /** When some `open` precedes some `close`, there is a slice to try. */
  lemma BracketedComplete(text: string, open: char, close: char, i: nat, j: nat)
    requires i < j < |text| && text[i] == open && text[j] == close
    ensures Bracketed(text, open, close).Some?
  {
    var s := Text.FindChar(text, open);
    var e := Text.FindLastChar(text, close);
    assert s.Some? && s.value <= i;
    assert e.Some? && e.value >= j;
  }

  /** Parsing the bracketed slice, when there is one. */
  function ParseBracketed(text: string, open: char, close: char, parse: string -> Option<Json.Value>): Option<Json.Value> {
    match Bracketed(text, open, close)
    case None => None
    case Some(s) => parse(s)
  }

  /** The parsing half of `generate_json` on the unfenced text: the whole
      text, else the object slice, else the array slice, else the empty
      object. */
  function ExtractFrom(text: string, parse: string -> Option<Json.Value>): Json.Value {
    if parse(text).Some? then parse(text).value
    else if ParseBracketed(text, '{', '}', parse).Some? then ParseBracketed(text, '{', '}', parse).value
    else if ParseBracketed(text, '[', ']', parse).Some? then ParseBracketed(text, '[', ']', parse).value
    else Json.Object([])
  }

  /** `generate_json` on the text `generate_text` gave, with `parse`
      standing for `json.loads`. */
  function ExtractJson(reply: string, parse: string -> Option<Json.Value>): Json.Value {
    ExtractFrom(Unfence(reply), parse)
  }

  /** `generate_json` never fails: its result is what one of the
      candidate texts parses to, the whole text first and the object slice
      before the array slice, or `{}` when none of them parses. */
  lemma ExtractJsonSound(reply: string, parse: string -> Option<Json.Value>)
    ensures var text := Unfence(reply);
      var r := ExtractJson(reply, parse);
      && (parse(text).Some? ==> r == parse(text).value)
      && (parse(text).None? && ParseBracketed(text, '{', '}', parse).Some? ==>
            r == ParseBracketed(text, '{', '}', parse).value)
      && (parse(text).None? && ParseBracketed(text, '{', '}', parse).None? && ParseBracketed(text, '[', ']', parse).Some? ==>
            r == ParseBracketed(text, '[', ']', parse).value)
      && (parse(text).None? && ParseBracketed(text, '{', '}', parse).None? && ParseBracketed(text, '[', ']', parse).None? ==>
            r == Json.Object([]))
      && (r != Json.Object([]) ==> exists s :: parse(s) == Some(r))
  {
  }

  /** The texts `generate_json` tries, in order: the whole text, then the
      object slice and the array slice where there is one. */
  function CandidateTexts(text: string): (r: seq<string>)
    ensures 1 <= |r| <= 3 && r[0] == text
  {
    [text]
    + (match Bracketed(text, '{', '}') case Some(s) => [s] case None => [])
    + (match Bracketed(text, '[', ']') case Some(s) => [s] case None => [])
  }

  /** What the first of `texts` that parses parses to, if any does. */
  function FirstParsed(texts: seq<string>, parse: string -> Option<Json.Value>): (r: Option<Json.Value>)
    ensures r.None? <==> forall k :: 0 <= k < |texts| ==> parse(texts[k]).None?
    ensures r.Some? ==> exists k :: 0 <= k < |texts| && parse(texts[k]) == r
                                    && forall j :: 0 <= j < k ==> parse(texts[j]).None?
  {
    if texts == [] then None
    else if parse(texts[0]).Some? then parse(texts[0])
    else
      var r := FirstParsed(texts[1..], parse);
      assert forall k :: 1 <= k < |texts| ==> texts[k] == texts[1..][k - 1];
      if r.Some? then
        var k :| 0 <= k < |texts[1..]| && parse(texts[1..][k]) == r
                 && forall j :: 0 <= j < k ==> parse(texts[1..][j]).None?;
        assert parse(texts[k + 1]) == r;
        assert forall j :: 0 <= j < k + 1 ==> parse(texts[j]).None? by {
          forall j | 0 <= j < k + 1 ensures parse(texts[j]).None? {
            if j > 0 {
              assert texts[j] == texts[1..][j - 1];
            }
          }
        }
        r
      else
        r
  }

  lemma FirstParsedCons(x: string, rest: seq<string>, parse: string -> Option<Json.Value>)
    ensures FirstParsed([x] + rest, parse) == if parse(x).Some? then parse(x) else FirstParsed(rest, parse)
  {
    assert ([x] + rest)[1..] == rest;
  }

  lemma ExtractFromFirstParsed(text: string, parse: string -> Option<Json.Value>)
    ensures var first := FirstParsed(CandidateTexts(text), parse);
      ExtractFrom(text, parse) == if first.Some? then first.value else Json.Object([])
  {
    var obj := Bracketed(text, '{', '}');
    var arr := Bracketed(text, '[', ']');
    var arrs: seq<string> := match arr case Some(s) => [s] case None => [];
    FirstParsedCons(text, CandidateTexts(text)[1..], parse);
    assert FirstParsed(arrs, parse) == ParseBracketed(text, '[', ']', parse) by {
      if arr.Some? {
        FirstParsedCons(arr.value, [], parse);
      }
    }
    match obj
    case Some(o) =>
      assert CandidateTexts(text)[1..] == [o] + arrs;
      FirstParsedCons(o, arrs, parse);
    case None =>
      assert CandidateTexts(text)[1..] == arrs;
  }

  /** `generate_json` answers what the first candidate text that parses
      parses to, and `{}` when none parses: it answers `{}` exactly when no
      candidate parses or the first one that does parses to `{}`. */
  lemma ExtractJsonFirstParsed(reply: string, parse: string -> Option<Json.Value>)
    ensures var r := ExtractJson(reply, parse);
      var first := FirstParsed(CandidateTexts(Unfence(reply)), parse);
      && (first.Some? ==> r == first.value)
      && (first.None? ==> r == Json.Object([]))
      && (r == Json.Object([]) <==> first.None? || first == Some(Json.Object([])))
  {
    ExtractFromFirstParsed(Unfence(reply), parse);
  }

  /** The two bracket pairs, in the order they are tried. */
  const Pairs: seq<(char, char)> := [('{', '}'), ('[', ']')]

  /** The fence handling of `generate_json`. */
  method StripFence(reply: string) returns (text: string)
    ensures text == Unfence(reply)
  {
    text := Text.Strip(reply);
    if Text.StartsWith(text, Fence) {
      var lines := Text.Split(text, '\n');
      text := Text.Join("\n", lines[1..]);
      if Text.EndsWith(text, Fence) {
        text := text[..|text| - 3];
      }
      text := Text.Strip(text);
    }
  }

  /** One bracket pair: the slice parsed, when there is a slice. */
  method TryPair(text: string, open: char, close: char, parse: string -> Option<Json.Value>)
    returns (parsed: Option<Json.Value>)
    ensures parsed == ParseBracketed(text, open, close, parse)
  {
    var start := Text.FindChar(text, open);
    var end := Text.FindLastChar(text, close);
    if start.Some? && end.Some? && end.value > start.value {
      parsed := parse(text[start.value..end.value + 1]);
    } else {
      parsed := None;
    }
  }

  /** The parsing half of `generate_json`. */
  method ParseReply(text: string, parse: string -> Option<Json.Value>) returns (v: Json.Value)
    ensures v == ExtractFrom(text, parse)
  {
    var whole := parse(text);
    if whole.Some? {
      return whole.value;
    }
    var i := 0;
    while i < |Pairs|
      invariant 0 <= i <= |Pairs|
      invariant forall k :: 0 <= k < i ==> ParseBracketed(text, Pairs[k].0, Pairs[k].1, parse).None?
    {
      var parsed := TryPair(text, Pairs[i].0, Pairs[i].1, parse);
      if parsed.Some? {
        assert i == 1 ==> ParseBracketed(text, '{', '}', parse).None? by {
          if i == 1 {
            assert Pairs[0] == ('{', '}');
          }
        }
        return parsed.value;
      }
      i := i + 1;
    }
    assert ParseBracketed(text, '{', '}', parse).None? && ParseBracketed(text, '[', ']', parse).None? by {
      assert Pairs[0] == ('{', '}') && Pairs[1] == ('[', ']');
    }
    v := Json.Object([]);
  }

  /** `generate_json` after the reply arrived. */
  method GenerateJson(reply: string, parse: string -> Option<Json.Value>) returns (v: Json.Value)
    ensures v == ExtractJson(reply, parse)
  {
    var text := StripFence(reply);
    v := ParseReply(text, parse);
  }
}
