/** The three-tier memory of the agents: a bounded window of recent
    messages, a bounded list of conversation summaries and an unbounded list
    of facts per agent, and the context text built from them for a prompt. */
module Memory {
  import opened Envelopes
  import Text
  import Conversation

  /** A short-term entry: the message's author, its text and its type. */
  datatype Entry = Entry(agentId: string, content: string, kind: string)

  const ShortTermLimit: nat := 20
  const MidTermLimit: nat := 50
  const ContextMessages: nat := 10
  const ContextItems: nat := 5
  const MessageWidth: nat := 200
  const ItemWidth: nat := 150
  const EmptyContext: string := "(no prior context)"
  const ShortHeader: string := "Recent messages:"
  const MidHeader: string := "\nPast conversation summaries:"
  const LongHeader: string := "\nKnown facts:"

  /** The entry recorded for a message; every conversation message is a speech. */
  function EntryOf(m: Conversation.Message): Entry {
    Entry(m.agentId, m.content, "speech")
  }

  function Entries(ms: seq<Conversation.Message>): (r: seq<Entry>)
    ensures |r| == |ms| && forall k :: 0 <= k < |ms| ==> r[k] == EntryOf(ms[k])
  {
    if ms == [] then [] else [EntryOf(ms[0])] + Entries(ms[1..])
  }

  /** A list of the default dictionary: empty for an agent never seen. */
  function Get<T>(m: map<AgentId, seq<T>>, a: AgentId): seq<T> {
    if a in m then m[a] else []
  }

  /** The window kept after appending `added` to `kept`: the last `limit`
      items of the two together. */
  lemma WindowKeepsNewest<T>(kept: seq<T>, added: seq<T>, limit: nat)
    requires limit > 0
    ensures var w := Text.Last(kept + added, limit);
      && |w| <= limit
      && |w| == (if |kept| + |added| < limit then |kept| + |added| else limit)
      && (|added| <= limit ==> w[|w| - |added|..] == added)
      && (|added| >= limit ==> w == added[|added| - limit..])
  {
    var all := kept + added;
    var w := Text.Last(all, limit);
    if |added| <= limit {
      assert w[|w| - |added|..] == all[|all| - |added|..];
      assert all[|all| - |added|..] == added;
    } else {
      assert w == all[|all| - limit..];
      assert all[|all| - limit..] == added[|added| - limit..];
    }
  }

  // ---------------------------------------------------------------------------
  // The context text
  // ---------------------------------------------------------------------------

  /** A section of the context: a header line, then one indented line per
      item, each item cut to `width` characters; nothing when there are no
      items. */
  function Section(header: string, items: seq<string>, indent: string, width: nat): (r: seq<string>)
    ensures items == [] ==> r == []
    ensures items != [] ==> |r| == |items| + 1 && r[0] == header
    ensures forall k :: 1 <= k < |r| ==> |r[k]| <= |indent| + width
  {
    if items == [] then [] else [header] + ItemLines(items, indent, width)
  }

  /** One line per item: the indent, then the item cut to `width` characters. */
  function ItemLines(items: seq<string>, indent: string, width: nat): (r: seq<string>)
    ensures |r| == |items|
    ensures forall k :: 0 <= k < |items| ==> r[k] == ItemLine(items[k], indent, width)
  {
    if items == [] then [] else [ItemLine(items[0], indent, width)] + ItemLines(items[1..], indent, width)
  }

  /** The indent, then the item cut to `width` characters. */
  function ItemLine(item: string, indent: string, width: nat): (r: string)
    ensures |r| <= |indent| + width
    ensures |indent| <= |r| && r[..|indent|] == indent && r[|indent|..] <= item
  {
    indent + Text.Take(item, width)
  }

  function Contents(es: seq<Entry>): (r: seq<string>)
    ensures |r| == |es| && forall k :: 0 <= k < |es| ==> r[k] == es[k].content
  {
    if es == [] then [] else [es[0].content] + Contents(es[1..])
  }

  /** The lines of the context: the ten most recent messages, the five most
      recent summaries and the five most recent facts. */
  function Parts(short: seq<Entry>, mid: seq<string>, long: seq<string>): seq<string> {
    Section(ShortHeader, Contents(Text.Last(short, ContextMessages)), "  ", MessageWidth)
    + Section(MidHeader, Text.Last(mid, ContextItems), "  - ", ItemWidth)
    + Section(LongHeader, Text.Last(long, ContextItems), "  - ", ItemWidth)
  }

  /** `context[-(max_tokens * 4):]` when the estimate of a quarter token per
      character exceeds `maxTokens`, the context itself otherwise. */
  function Truncate(context: string, maxTokens: int): (r: string)
    ensures |context| / 4 <= maxTokens ==> r == context
    ensures |context| / 4 > maxTokens && maxTokens > 0 ==>
      |r| == 4 * maxTokens && r == context[|context| - 4 * maxTokens..]
  {
    if |context| / 4 > maxTokens then Text.Drop(context, -(maxTokens * 4)) else context
  }

  /** The joined lines, cut to the token budget, and the placeholder when
      nothing is left. */
  function Render(parts: seq<string>, maxTokens: int): string {
    var cut := Truncate(Text.Join("\n", parts), maxTokens);
    if cut == [] then EmptyContext else cut
  }

  /** The context of an agent with the given memory tiers. */
  function Context(short: seq<Entry>, mid: seq<string>, long: seq<string>, maxTokens: int): string {
    Render(Parts(short, mid, long), maxTokens)
  }

  /** An agent without any memory gets the placeholder. */
  lemma EmptyMemoryContext(maxTokens: int)
    ensures Context([], [], [], maxTokens) == EmptyContext
  {
    assert Parts([], [], []) == [];
  }

  /** The number of lines a tier of `n` items shows when at most `cap` are shown. */
  function TierLines(n: nat, cap: nat): nat {
    if n == 0 then 0 else 1 + (if n < cap then n else cap)
  }

  /** The context has one header line per non-empty tier followed by at most
      10 messages, 5 summaries and 5 facts. */
  lemma ContextShape(short: seq<Entry>, mid: seq<string>, long: seq<string>)
    ensures |Parts(short, mid, long)|
      == TierLines(|short|, ContextMessages) + TierLines(|mid|, ContextItems) + TierLines(|long|, ContextItems)
  {
    PartsSize(short, mid, long);
    ShortTierSize(short);
    ItemTierSize(MidHeader, mid);
    ItemTierSize(LongHeader, long);
  }

  lemma PartsSize(short: seq<Entry>, mid: seq<string>, long: seq<string>)
    ensures |Parts(short, mid, long)|
      == |Section(ShortHeader, Contents(Text.Last(short, ContextMessages)), "  ", MessageWidth)|
       + |Section(MidHeader, Text.Last(mid, ContextItems), "  - ", ItemWidth)|
       + |Section(LongHeader, Text.Last(long, ContextItems), "  - ", ItemWidth)|
  {
  }

  lemma ShortTierSize(short: seq<Entry>)
    ensures |Section(ShortHeader, Contents(Text.Last(short, ContextMessages)), "  ", MessageWidth)| == TierLines(|short|, ContextMessages)
  {
  }

  lemma ItemTierSize(header: string, items: seq<string>)
    ensures |Section(header, Text.Last(items, ContextItems), "  - ", ItemWidth)| == TierLines(|items|, ContextItems)
  {
  }

  /** A context over budget is exactly its last `4 * maxTokens` characters. */
  lemma ContextTruncation(short: seq<Entry>, mid: seq<string>, long: seq<string>, maxTokens: int)
    requires maxTokens > 0
    requires |Text.Join("\n", Parts(short, mid, long))| / 4 > maxTokens
    ensures var context := Text.Join("\n", Parts(short, mid, long));
      Context(short, mid, long, maxTokens) == context[|context| - 4 * maxTokens..]
      && |Context(short, mid, long, maxTokens)| == 4 * maxTokens
  {
    RenderTruncation(Parts(short, mid, long), maxTokens);
  }

  lemma RenderTruncation(parts: seq<string>, maxTokens: int)
    requires maxTokens > 0
    requires |Text.Join("\n", parts)| / 4 > maxTokens
    ensures var context := Text.Join("\n", parts);
      Render(parts, maxTokens) == context[|context| - 4 * maxTokens..]
      && |Render(parts, maxTokens)| == 4 * maxTokens
  {
    TruncateTail(Text.Join("\n", parts), maxTokens);
  }

  /** Cutting a text over a positive budget keeps its last `4 * maxTokens`
      characters, which is never the empty text. */
  lemma TruncateTail(context: string, maxTokens: int)
    requires maxTokens > 0 && |context| / 4 > maxTokens
    ensures var cut := Truncate(context, maxTokens);
      cut != [] && |cut| == 4 * maxTokens && cut == context[|context| - 4 * maxTokens..]
  {
  }

  /** A non-empty memory within budget gives the joined lines themselves. */
  lemma ContextWithinBudget(short: seq<Entry>, mid: seq<string>, long: seq<string>, maxTokens: int)
    requires |Text.Join("\n", Parts(short, mid, long))| / 4 <= maxTokens
    requires short != [] || mid != [] || long != []
    ensures Context(short, mid, long, maxTokens) == Text.Join("\n", Parts(short, mid, long))
  {
    var a := Section(ShortHeader, Contents(Text.Last(short, ContextMessages)), "  ", MessageWidth);
    var b := Section(MidHeader, Text.Last(mid, ContextItems), "  - ", ItemWidth);
    var c := Section(LongHeader, Text.Last(long, ContextItems), "  - ", ItemWidth);
    var p := a + b + c;
    assert Parts(short, mid, long) == p;
    if a != [] {
      assert p[0] == ShortHeader;
    } else if b != [] {
      assert p[0] == MidHeader;
    } else {
      assert p[0] == LongHeader;
    }
    JoinNonEmpty(p);
  }

  /** Joining lines whose first line is not empty never gives the empty text. */
  lemma JoinNonEmpty(p: seq<string>)
    requires p != [] && p[0] != []
    ensures Text.Join("\n", p) != []
  {
    if |p| > 1 {
      assert Text.Join("\n", p) == p[0] + "\n" + Text.Join("\n", p[1..]);
    }
  }

  /** `parts.append(header)` then one `parts.append` per item. */
  method AppendSection(parts: seq<string>, header: string, items: seq<string>, indent: string, width: nat)
    returns (out: seq<string>)
    requires items != []
    ensures out == parts + Section(header, items, indent, width)
  {
    out := AppendItems(parts + [header], items, indent, width);
  }

  /** The per-item `parts.append` loop. */
  method AppendItems(parts: seq<string>, items: seq<string>, indent: string, width: nat)
    returns (out: seq<string>)
    ensures out == parts + ItemLines(items, indent, width)
  {
    out := parts;
    assert parts + ItemLines(items[..0], indent, width) == parts;
    var i := 0;
    while i < |items|
      invariant 0 <= i <= |items|
      invariant out == parts + ItemLines(items[..i], indent, width)
    {
      ItemLinesStep(parts, items, i, indent, width);
      out := out + [ItemLine(items[i], indent, width)];
      i := i + 1;
    }
    assert items[..i] == items;
  }

  lemma ItemLinesStep(parts: seq<string>, items: seq<string>, i: nat, indent: string, width: nat)
    requires i < |items|
    ensures parts + ItemLines(items[..i], indent, width) + [ItemLine(items[i], indent, width)]
      == parts + ItemLines(items[..i + 1], indent, width)
  {
    var l := ItemLines(items[..i + 1], indent, width);
    var r := ItemLines(items[..i], indent, width) + [ItemLine(items[i], indent, width)];
    forall k | 0 <= k < |l| ensures l[k] == r[k] {
      assert items[..i + 1][k] == items[k];
    }
    assert l == r;
  }

  /** One tier of `build_context`: nothing when the tier is empty, its
      section otherwise. */
  method AppendTier(parts: seq<string>, header: string, items: seq<string>, indent: string, width: nat)
    returns (out: seq<string>)
    ensures out == parts + Section(header, items, indent, width)
  {
    out := parts;
    if items != [] {
      out := AppendSection(parts, header, items, indent, width);
    }
  }

  class MemoryManager {
    var shortTerm: map<AgentId, seq<Entry>>
    var midTerm: map<AgentId, seq<string>>
    var longTerm: map<AgentId, seq<string>>

    constructor()
      ensures shortTerm == map[] && midTerm == map[] && longTerm == map[]
    {
      shortTerm := map[];
      midTerm := map[];
      longTerm := map[];
    }

    /** `add_short_term`: the agent's window becomes the last 20 of its old
        entries followed by the new ones. */
    method AddShortTerm(agent: AgentId, messages: seq<Conversation.Message>)
      modifies this
      ensures shortTerm == old(shortTerm)[agent := Text.Last(Get(old(shortTerm), agent) + Entries(messages), ShortTermLimit)]
      ensures |Get(shortTerm, agent)| <= ShortTermLimit
      ensures forall a :: a != agent ==> Get(shortTerm, a) == Get(old(shortTerm), a)
      ensures midTerm == old(midTerm) && longTerm == old(longTerm)
    {
      var entries := Entries(messages);
      var list := if agent in shortTerm then shortTerm[agent] else [];
      shortTerm := shortTerm[agent := Text.Last(list + entries, ShortTermLimit)];
    }

    /** `add_mid_term`: the summary is appended and the last 50 are kept. */
    method AddMidTerm(agent: AgentId, summary: string)
      modifies this
      ensures midTerm == old(midTerm)[agent := Text.Last(Get(old(midTerm), agent) + [summary], MidTermLimit)]
      ensures |Get(midTerm, agent)| <= MidTermLimit
      ensures Get(midTerm, agent)[|Get(midTerm, agent)| - 1] == summary
      ensures forall a :: a != agent ==> Get(midTerm, a) == Get(old(midTerm), a)
      ensures shortTerm == old(shortTerm) && longTerm == old(longTerm)
    {
      var list := if agent in midTerm then midTerm[agent] else [];
      midTerm := midTerm[agent := Text.Last(list + [summary], MidTermLimit)];
    }

    /** `add_long_term`: facts are only ever appended. */
    method AddLongTerm(agent: AgentId, fact: string)
      modifies this
      ensures longTerm == old(longTerm)[agent := Get(old(longTerm), agent) + [fact]]
      ensures forall a :: a != agent ==> Get(longTerm, a) == Get(old(longTerm), a)
      ensures shortTerm == old(shortTerm) && midTerm == old(midTerm)
    {
      var list := if agent in longTerm then longTerm[agent] else [];
      longTerm := longTerm[agent := list + [fact]];
    }

    /** `build_context`: the three sections are collected line by line,
        joined, cut to the token budget, and replaced by the placeholder when
        empty. `topic` is not used. */
    method BuildContext(agent: AgentId, topic: string, maxTokens: int) returns (context: string)
      ensures context == Context(Get(shortTerm, agent), Get(midTerm, agent), Get(longTerm, agent), maxTokens)
    {
      var short := if agent in shortTerm then shortTerm[agent] else [];
      var mid := if agent in midTerm then midTerm[agent] else [];
      var long := if agent in longTerm then longTerm[agent] else [];
      var recent := Contents(Text.Last(short, ContextMessages));
      var parts := AppendTier([], ShortHeader, recent, "  ", MessageWidth);
      assert parts == Section(ShortHeader, recent, "  ", MessageWidth);
      parts := AppendTier(parts, MidHeader, Text.Last(mid, ContextItems), "  - ", ItemWidth);
      parts := AppendTier(parts, LongHeader, Text.Last(long, ContextItems), "  - ", ItemWidth);
      assert parts == Parts(short, mid, long);
      context := Text.Join("\n", parts);
      if |context| / 4 > maxTokens {
        context := Text.Drop(context, -(maxTokens * 4));
      }
      if context == [] {
        context := EmptyContext;
      }
    }
  }

}
