/** The conversation list, with participants resolved to agents and their
    faction colours, and the world feed that merges conversations, wiki
    edits and epochs newest first. The rows are what the database queries
    return; `parse` stands for `uuid.UUID(str(pid))`, giving the canonical
    text of a well-formed id. */
module Conversations {
  import opened Wrappers
  import Text
  import Sorting

  const DefaultColor: string := "#6366f1"
  const UnknownName: string := "Unknown"
  const PreviewWidth: nat := 120

  // ---------------------------------------------------------------------------
  // Participant ids
  // ---------------------------------------------------------------------------

  /** The ids that parse among one conversation's participants. */
  function ParsedIds(pids: seq<string>, parse: string -> Option<string>): set<string> {
    if pids == [] then {}
    else
      var last := pids[|pids| - 1];
      ParsedIds(pids[..|pids| - 1], parse) + (if parse(last).Some? then {parse(last).value} else {})
  }

  /** The ids that parse among all the conversations' participants. */
  function AllIds(lists: seq<seq<string>>, parse: string -> Option<string>): set<string> {
    if lists == [] then {}
    else AllIds(lists[..|lists| - 1], parse) + ParsedIds(lists[|lists| - 1], parse)
  }

  lemma {:induction false} ParsedIdsSound(pids: seq<string>, parse: string -> Option<string>, x: string)
    ensures x in ParsedIds(pids, parse) <==> exists p :: p in pids && parse(p) == Some(x)
  {
    if pids != [] {
      var init := pids[..|pids| - 1];
      ParsedIdsSound(init, parse, x);
      assert forall p :: p in pids <==> p in init || p == pids[|pids| - 1];
    }
  }

  /** An id is looked up exactly when some participant's id parses to it;
      ids that do not parse are skipped. */
  lemma {:induction false} AllIdsSound(lists: seq<seq<string>>, parse: string -> Option<string>, x: string)
    ensures x in AllIds(lists, parse) <==>
      exists c, p :: 0 <= c < |lists| && p in lists[c] && parse(p) == Some(x)
  {
    if lists != [] {
      var init := lists[..|lists| - 1];
      var last := lists[|lists| - 1];
      AllIdsSound(init, parse, x);
      ParsedIdsSound(last, parse, x);
      if x in AllIds(lists, parse) {
        if x in AllIds(init, parse) {
          var c, p :| 0 <= c < |init| && p in init[c] && parse(p) == Some(x);
          assert lists[c] == init[c];
        } else {
          var p :| p in last && parse(p) == Some(x);
          assert lists[|lists| - 1] == last;
        }
      } else {
        forall c, p | 0 <= c < |lists| && p in lists[c] ensures parse(p) != Some(x) {
          if c < |init| {
            assert lists[c] == init[c];
          }
        }
      }
    }
  }

  /** The nested loops that collect the agent ids to fetch. */
  method CollectAgentIds(lists: seq<seq<string>>, parse: string -> Option<string>) returns (ids: set<string>)
    ensures ids == AllIds(lists, parse)
  {
    ids := {};
    var i := 0;
    while i < |lists|
      invariant 0 <= i <= |lists|
      invariant ids == AllIds(lists[..i], parse)
    {
      var pids := lists[i];
      var j := 0;
      while j < |pids|
        invariant 0 <= j <= |pids|
        invariant ids == AllIds(lists[..i], parse) + ParsedIds(pids[..j], parse)
      {
        assert pids[..j + 1][..j] == pids[..j];
        var parsed := parse(pids[j]);
        if parsed.Some? {
          ids := ids + {parsed.value};
        }
        j := j + 1;
      }
      assert pids[..|pids|] == pids;
      assert lists[..i + 1][..i] == lists[..i];
      i := i + 1;
    }
    assert lists[..|lists|] == lists;
  }

  // ---------------------------------------------------------------------------
  // Conversation list
  // ---------------------------------------------------------------------------

  datatype AgentRow = AgentRow(id: string, name: string, factionId: Option<string>)

  datatype Participant = Participant(id: string, name: string, factionColor: string)

  /** The agent's faction colour, the default when it has no faction or the
      faction has no row. */
  function FactionColor(a: AgentRow, colors: map<string, string>): string {
    match a.factionId
    case None => DefaultColor
    case Some(f) => if f in colors then colors[f] else DefaultColor
  }

  /** An agent without a faction is drawn in the default colour. */
  lemma FactionlessDefault(a: AgentRow, colors: map<string, string>)
    requires a.factionId.None?
    ensures FactionColor(a, colors) == "#6366f1"
  {
  }

  function Entry(a: AgentRow, colors: map<string, string>): Participant {
    Participant(a.id, a.name, FactionColor(a, colors))
  }

  /** `agent_map`: agent id to its entry, a later row replacing an earlier
      one with the same id. */
  function AgentMap(agents: seq<AgentRow>, colors: map<string, string>): map<string, Participant> {
    if agents == [] then map[]
    else
      var a := agents[|agents| - 1];
      AgentMap(agents[..|agents| - 1], colors)[a.id := Entry(a, colors)]
  }

  /** The map holds exactly the fetched agents' ids, each with the entry
      of a row having that id. */
  lemma {:induction false} AgentMapSound(agents: seq<AgentRow>, colors: map<string, string>)
    ensures forall id :: id in AgentMap(agents, colors) <==> exists k :: 0 <= k < |agents| && agents[k].id == id
    ensures forall id :: id in AgentMap(agents, colors) ==>
      exists k :: 0 <= k < |agents| && agents[k].id == id && AgentMap(agents, colors)[id] == Entry(agents[k], colors)
  {
    if agents != [] {
      var init := agents[..|agents| - 1];
      var last := agents[|agents| - 1];
      AgentMapSound(init, colors);
      var m := AgentMap(agents, colors);
      var mi := AgentMap(init, colors);
      assert m == mi[last.id := Entry(last, colors)];
      forall id ensures id in m <==> exists k :: 0 <= k < |agents| && agents[k].id == id {
        if id in m && id != last.id {
          assert id in mi;
          var k :| 0 <= k < |init| && init[k].id == id;
          assert agents[k] == init[k];
        }
        if exists k :: 0 <= k < |agents| && agents[k].id == id {
          var k :| 0 <= k < |agents| && agents[k].id == id;
          if k < |init| {
            assert init[k] == agents[k];
          }
        }
      }
      forall id | id in m
        ensures exists k :: 0 <= k < |agents| && agents[k].id == id && m[id] == Entry(agents[k], colors)
      {
        if id == last.id {
          assert agents[|agents| - 1].id == id && m[id] == Entry(agents[|agents| - 1], colors);
        } else {
          assert id in mi;
          var k :| 0 <= k < |init| && init[k].id == id && mi[id] == Entry(init[k], colors);
          assert agents[k] == init[k];
        }
      }
    }
  }

  /** The loop that fills `agent_map`. */
  method BuildAgentMap(agents: seq<AgentRow>, colors: map<string, string>) returns (m: map<string, Participant>)
    ensures m == AgentMap(agents, colors)
  {
    m := map[];
    var i := 0;
    while i < |agents|
      invariant 0 <= i <= |agents|
      invariant m == AgentMap(agents[..i], colors)
    {
      var a := agents[i];
      assert agents[..i + 1][..i] == agents[..i];
      m := m[a.id := Participant(a.id, a.name, FactionColor(a, colors))];
      i := i + 1;
    }
    assert agents[..|agents|] == agents;
  }

  /** A participant as listed: the agent's entry, or "Unknown" in the
      default colour for an id with no agent. */
  function Resolve(pid: string, m: map<string, Participant>): Participant {
    if pid in m then m[pid] else Participant(pid, UnknownName, DefaultColor)
  }

  function ResolveAll(pids: seq<string>, m: map<string, Participant>): seq<Participant> {
    if pids == [] then [] else ResolveAll(pids[..|pids| - 1], m) + [Resolve(pids[|pids| - 1], m)]
  }

  /** One participant per id, in order; an id with no agent is listed as
      "Unknown" in the default colour, and every participant keeps its id
      when the map is an `agent_map`. */
  lemma {:induction false} ResolveAllSound(pids: seq<string>, agents: seq<AgentRow>, colors: map<string, string>)
    ensures var m := AgentMap(agents, colors);
      var r := ResolveAll(pids, m);
      && |r| == |pids|
      && (forall k :: 0 <= k < |pids| ==> r[k].id == pids[k])
      && (forall k :: 0 <= k < |pids| && pids[k] !in m ==> r[k] == Participant(pids[k], "Unknown", "#6366f1"))
      && (forall k :: 0 <= k < |pids| && pids[k] in m ==> r[k] == m[pids[k]])
  {
    var m := AgentMap(agents, colors);
    if pids != [] {
      ResolveAllSound(pids[..|pids| - 1], agents, colors);
      MapKeepsIds(agents, colors);
    }
  }

  lemma {:induction false} MapKeepsIds(agents: seq<AgentRow>, colors: map<string, string>)
    ensures forall id :: id in AgentMap(agents, colors) ==> AgentMap(agents, colors)[id].id == id
  {
    if agents != [] {
      MapKeepsIds(agents[..|agents| - 1], colors);
    }
  }

  /** The participants loop for one conversation. */
  method ResolveParticipants(pids: seq<string>, m: map<string, Participant>) returns (ps: seq<Participant>)
    ensures ps == ResolveAll(pids, m)
  {
    ps := [];
    var i := 0;
    while i < |pids|
      invariant 0 <= i <= |pids|
      invariant ps == ResolveAll(pids[..i], m)
    {
      assert pids[..i + 1][..i] == pids[..i];
      var pid := pids[i];
      if pid in m {
        ps := ps + [m[pid]];
      } else {
        ps := ps + [Participant(pid, UnknownName, DefaultColor)];
      }
      i := i + 1;
    }
    assert pids[..|pids|] == pids;
  }

  /** A conversation row: `messages` holds each message's `content` (absent
      or null given as `None`). */
  datatype ConversationRow = ConversationRow(
    id: string, epoch: int, tick: int, topic: string, topicKo: Option<string>, participants: seq<string>,
    messages: seq<Option<string>>, messagesKo: Option<seq<Option<string>>>,
    summary: Option<string>, summaryKo: Option<string>, createdAt: Option<string>)

  /** One entry of `list_conversations`. */
  datatype Listed = Listed(
    id: string, epoch: int, tick: int, topic: string, topicKo: Option<string>, participants: seq<Participant>,
    messages: seq<Option<string>>, messagesKo: Option<seq<Option<string>>>,
    summary: string, summaryKo: Option<string>, createdAt: Option<string>)

  function Participants(convs: seq<ConversationRow>): seq<seq<string>> {
    if convs == [] then [] else Participants(convs[..|convs| - 1]) + [convs[|convs| - 1].participants]
  }

  /** The agents the batch query returns: those whose id was collected. */
  function Fetched(agents: seq<AgentRow>, ids: set<string>): seq<AgentRow> {
    Sorting.Filter(agents, (a: AgentRow) => a.id in ids)
  }

  function ListEntry(c: ConversationRow, m: map<string, Participant>): Listed {
    Listed(c.id, c.epoch, c.tick, c.topic, c.topicKo, ResolveAll(c.participants, m), c.messages, c.messagesKo,
           c.summary.GetOr(""), c.summaryKo, c.createdAt)
  }

  function ListEntries(convs: seq<ConversationRow>, m: map<string, Participant>): seq<Listed> {
    if convs == [] then [] else ListEntries(convs[..|convs| - 1], m) + [ListEntry(convs[|convs| - 1], m)]
  }

  /** `list_conversations` on the page of conversations, the agents table
      and the faction colours. */
  function List(convs: seq<ConversationRow>, agents: seq<AgentRow>, colors: map<string, string>,
                parse: string -> Option<string>): seq<Listed> {
    if convs == [] then []
    else ListEntries(convs, AgentMap(Fetched(agents, AllIds(Participants(convs), parse)), colors))
  }

  method ListConversations(convs: seq<ConversationRow>, agents: seq<AgentRow>, colors: map<string, string>,
                           parse: string -> Option<string>) returns (out: seq<Listed>)
    ensures out == List(convs, agents, colors, parse)
  {
    if convs == [] {
      return [];
    }
    var ids := CollectAgentIds(Participants(convs), parse);
    var m: map<string, Participant> := map[];
    if ids != {} {
      m := BuildAgentMap(Fetched(agents, ids), colors);
    } else {
      FetchedNone(agents, ids);
    }
    out := ListLoop(convs, m);
  }

  /** The loop that builds one entry per conversation. */
  method ListLoop(convs: seq<ConversationRow>, m: map<string, Participant>) returns (out: seq<Listed>)
    ensures out == ListEntries(convs, m)
  {
    out := [];
    var i := 0;
    while i < |convs|
      invariant 0 <= i <= |convs|
      invariant out == ListEntries(convs[..i], m)
    {
      assert convs[..i + 1][..i] == convs[..i];
      var c := convs[i];
      var ps := ResolveParticipants(c.participants, m);
      out := out + [Listed(c.id, c.epoch, c.tick, c.topic, c.topicKo, ps, c.messages, c.messagesKo,
                           c.summary.GetOr(""), c.summaryKo, c.createdAt)];
      i := i + 1;
    }
    assert convs[..|convs|] == convs;
  }

  lemma FetchedNone(agents: seq<AgentRow>, ids: set<string>)
    requires ids == {}
    ensures AgentMap(Fetched(agents, ids), map[]) == map[]
    ensures forall colors :: AgentMap(Fetched(agents, ids), colors) == map[]
  {
    Sorting.FilterNone(agents, (a: AgentRow) => a.id in ids);
  }

  lemma {:induction false} ListEntriesAt(convs: seq<ConversationRow>, m: map<string, Participant>)
    ensures |ListEntries(convs, m)| == |convs|
    ensures forall k :: 0 <= k < |convs| ==> ListEntries(convs, m)[k] == ListEntry(convs[k], m)
  {
    if convs != [] {
      ListEntriesAt(convs[..|convs| - 1], m);
    }
  }

  lemma {:induction false} ParticipantsAt(convs: seq<ConversationRow>)
    ensures |Participants(convs)| == |convs|
    ensures forall k :: 0 <= k < |convs| ==> Participants(convs)[k] == convs[k].participants
  {
    if convs != [] {
      ParticipantsAt(convs[..|convs| - 1]);
    }
  }

  /** A fetched agent whose id no other row has is in `agent_map` with
      its own entry. */
  lemma FetchedEntry(agents: seq<AgentRow>, ids: set<string>, colors: map<string, string>, i: nat)
    requires i < |agents| && agents[i].id in ids
    requires forall j :: 0 <= j < |agents| && j != i ==> agents[j].id != agents[i].id
    ensures var m := AgentMap(Fetched(agents, ids), colors);
      agents[i].id in m && m[agents[i].id] == Entry(agents[i], colors)
  {
    var fetched := Fetched(agents, ids);
    var m := AgentMap(fetched, colors);
    AgentMapSound(fetched, colors);
    FilterKeeps(agents, ids, i);
    var x :| 0 <= x < |fetched| && fetched[x] == agents[i];
    assert agents[i].id in m;
    var y :| 0 <= y < |fetched| && fetched[y].id == agents[i].id && m[agents[i].id] == Entry(fetched[y], colors);
    assert fetched[y] in agents;
  }

  /** An id no agent has is not in `agent_map`. */
  lemma NoAgent(agents: seq<AgentRow>, ids: set<string>, colors: map<string, string>, pid: string)
    requires forall a :: a in agents ==> a.id != pid
    ensures pid !in AgentMap(Fetched(agents, ids), colors)
  {
    var fetched := Fetched(agents, ids);
    AgentMapSound(fetched, colors);
    forall x | 0 <= x < |fetched| ensures fetched[x].id != pid {
      assert fetched[x] in agents;
    }
  }

  /** A participant whose id is the canonical id of an agent of the world
      is listed with that agent's name and faction colour (agent ids being
      unique); any other id is listed as "Unknown" in the default colour;
      either way it keeps its id and its place. */
  lemma ListResolvesAgents(convs: seq<ConversationRow>, agents: seq<AgentRow>, colors: map<string, string>,
                           parse: string -> Option<string>, c: nat, k: nat)
    requires c < |convs| && k < |convs[c].participants|
    ensures var out := List(convs, agents, colors, parse);
      var pid := convs[c].participants[k];
      && |out| == |convs|
      && |out[c].participants| == |convs[c].participants|
      && out[c].participants[k].id == pid
      && ((forall a :: a in agents ==> a.id != pid) ==> out[c].participants[k] == Participant(pid, "Unknown", "#6366f1"))
      && (forall i :: (0 <= i < |agents| && agents[i].id == pid && parse(pid) == Some(pid)
                       && (forall j :: 0 <= j < |agents| && j != i ==> agents[j].id != pid)) ==>
            out[c].participants[k] == Participant(pid, agents[i].name, FactionColor(agents[i], colors)))
  {
    var ids := AllIds(Participants(convs), parse);
    var fetched := Fetched(agents, ids);
    var m := AgentMap(fetched, colors);
    var pid := convs[c].participants[k];
    ListEntriesAt(convs, m);
    ResolveAllSound(convs[c].participants, fetched, colors);
    if forall a :: a in agents ==> a.id != pid {
      NoAgent(agents, ids, colors, pid);
    }
    forall i | (0 <= i < |agents| && agents[i].id == pid && parse(pid) == Some(pid)
                && (forall j :: 0 <= j < |agents| && j != i ==> agents[j].id != pid))
      ensures pid in m && m[pid] == Entry(agents[i], colors)
    {
      ParticipantsAt(convs);
      AllIdsSound(Participants(convs), parse, pid);
      assert pid in convs[c].participants;
      FetchedEntry(agents, ids, colors, i);
    }
  }

  lemma FilterKeeps(agents: seq<AgentRow>, ids: set<string>, i: nat)
    requires i < |agents| && agents[i].id in ids
    ensures agents[i] in Fetched(agents, ids)
  {
    FilterKeepsAll(agents, (a: AgentRow) => a.id in ids, i);
  }

  lemma {:induction false} FilterKeepsAll<T>(s: seq<T>, p: T -> bool, i: nat)
    requires i < |s| && p(s[i])
    ensures s[i] in Sorting.Filter(s, p)
  {
    var init := s[..|s| - 1];
    Sorting.FilterAppend(init, [s[|s| - 1]], p);
    assert s == init + [s[|s| - 1]];
    if i < |init| {
      FilterKeepsAll(init, p, i);
      assert s[i] == init[i];
    } else {
      assert Sorting.Filter([s[|s| - 1]], p) == [s[|s| - 1]];
    }
  }

  // ---------------------------------------------------------------------------
  // World feed
  // ---------------------------------------------------------------------------

  /** A wiki page row as the feed query returns it. */
  datatype WikiRow = WikiRow(
    id: string, title: string, titleKo: Option<string>, createdBy: Option<string>,
    status: string, version: int, createdAt: Option<string>)

  /** A stratum row; `themes` is the number of its dominant themes. */
  datatype StratumRow = StratumRow(id: string, epoch: int, summary: string, summaryKo: Option<string>, themes: nat)

  /** The `data` of a feed item, one shape per item type. */
  datatype FeedData =
    | ConversationData(id: string, topic: string, topicKo: Option<string>, participantNames: seq<string>,
                       messageCount: nat, preview: string)
    | WikiEditData(id: string, title: string, titleKo: Option<string>, agentName: Option<string>,
                   status: string, version: int)
    | EpochData(id: string, epoch: int, summary: string, summaryKo: Option<string>, themeCount: nat)

  datatype FeedItem = FeedItem(data: FeedData, createdAt: Option<string>)

  /** The item's `type` field. */
  function Kind(item: FeedItem): string {
    match item.data
    case ConversationData(_, _, _, _, _, _) => "conversation"
    case WikiEditData(_, _, _, _, _, _) => "wiki_edit"
    case EpochData(_, _, _, _, _) => "epoch"
  }

  /** A participant's name in the feed: the agent's, or "Unknown". */
  function Names(pids: seq<string>, m: map<string, Participant>): seq<string> {
    if pids == [] then [] else Names(pids[..|pids| - 1], m) + [Resolve(pids[|pids| - 1], m).name]
  }

  lemma {:induction false} NamesAt(pids: seq<string>, m: map<string, Participant>)
    ensures |Names(pids, m)| == |pids|
    ensures forall k :: 0 <= k < |pids| ==> Names(pids, m)[k] == Resolve(pids[k], m).name
  {
    if pids != [] {
      NamesAt(pids[..|pids| - 1], m);
    }
  }

  /** `first_message_preview`: the first 120 characters of the first
      message's content, empty when there is no message. */
  function Preview(messages: seq<Option<string>>): string {
    if messages == [] then "" else Text.Take(messages[0].GetOr(""), PreviewWidth)
  }

  function ConversationItem(c: ConversationRow, m: map<string, Participant>): FeedItem {
    FeedItem(ConversationData(c.id, c.topic, c.topicKo, Names(c.participants, m), |c.messages|, Preview(c.messages)),
             c.createdAt)
  }

  /** `agent_name`: none for a page no agent created, otherwise the
      creator's name or "Unknown". */
  function Creator(p: WikiRow, m: map<string, Participant>): Option<string> {
    match p.createdBy
    case None => None
    case Some(a) => Some(Resolve(a, m).name)
  }

  function WikiItem(p: WikiRow, m: map<string, Participant>): FeedItem {
    FeedItem(WikiEditData(p.id, p.title, p.titleKo, Creator(p, m), p.status, p.version), p.createdAt)
  }

  /** A stratum carries no creation time. */
  function EpochItem(s: StratumRow): FeedItem {
    FeedItem(EpochData(s.id, s.epoch, s.summary, s.summaryKo, s.themes), None)
  }

  function ConversationItems(convs: seq<ConversationRow>, m: map<string, Participant>): seq<FeedItem> {
    if convs == [] then [] else ConversationItems(convs[..|convs| - 1], m) + [ConversationItem(convs[|convs| - 1], m)]
  }

  function WikiItems(pages: seq<WikiRow>, m: map<string, Participant>): seq<FeedItem> {
    if pages == [] then [] else WikiItems(pages[..|pages| - 1], m) + [WikiItem(pages[|pages| - 1], m)]
  }

  function EpochItems(strata: seq<StratumRow>): seq<FeedItem> {
    if strata == [] then [] else EpochItems(strata[..|strata| - 1]) + [EpochItem(strata[|strata| - 1])]
  }

  /** The ids of the agents that created the pages. */
  function Creators(pages: seq<WikiRow>): set<string> {
    set p | p in pages && p.createdBy.Some? :: p.createdBy.value
  }

  /** `agent_name_map`, from the agents whose id was collected. */
  function ConversationNames(convs: seq<ConversationRow>, agents: seq<AgentRow>,
                             parse: string -> Option<string>): map<string, Participant> {
    AgentMap(Fetched(agents, AllIds(Participants(convs), parse)), map[])
  }

  /** `wiki_agent_names`, from the agents that created a page. */
  function CreatorNames(pages: seq<WikiRow>, agents: seq<AgentRow>): map<string, Participant> {
    AgentMap(Fetched(agents, Creators(pages)), map[])
  }

  /** The merged items before sorting: conversations, then wiki edits,
      then epochs, each in query order. */
  function Items(convs: seq<ConversationRow>, pages: seq<WikiRow>, strata: seq<StratumRow>,
                 agents: seq<AgentRow>, parse: string -> Option<string>): seq<FeedItem> {
    ConversationItems(convs, ConversationNames(convs, agents, parse))
    + WikiItems(pages, CreatorNames(pages, agents))
    + EpochItems(strata)
  }

  /** The sort key `created_at or "0000"`. */
  function SortKey(item: FeedItem): string {
    match item.createdAt
    case None => "0000"
    case Some(t) => if t == "" then "0000" else t
  }

  /** `reverse=True` on the sort key: `a` may stay before `b` when its key
      is not smaller. */
  function NewerFirst(a: FeedItem, b: FeedItem): bool {
    Text.LexLe(SortKey(b), SortKey(a))
  }

  lemma NewerFirstPreorder()
    ensures Sorting.TotalPreorder(NewerFirst)
  {
    forall a: FeedItem, b: FeedItem ensures NewerFirst(a, b) || NewerFirst(b, a) {
      Text.LexLeTotal(SortKey(a), SortKey(b));
    }
    forall a: FeedItem, b: FeedItem, c: FeedItem | NewerFirst(a, b) && NewerFirst(b, c) ensures NewerFirst(a, c) {
      Text.LexLeTransitive(SortKey(c), SortKey(b), SortKey(a));
    }
  }

  /** `get_feed` on the rows its queries return (each already filtered,
      ordered and limited by the database). */
  function Feed(convs: seq<ConversationRow>, pages: seq<WikiRow>, strata: seq<StratumRow>,
                agents: seq<AgentRow>, parse: string -> Option<string>, limit: int): seq<FeedItem> {
    Text.Take(Sorting.Sort(Items(convs, pages, strata, agents, parse), NewerFirst), limit)
  }

  /** The feed holds the first `limit` items, newest first by sort key, each
      one of the merged items and none older than an item left out; a limit
      that covers them all loses none. */
  lemma FeedSound(convs: seq<ConversationRow>, pages: seq<WikiRow>, strata: seq<StratumRow>,
                  agents: seq<AgentRow>, parse: string -> Option<string>, limit: int)
    ensures var items := Items(convs, pages, strata, agents, parse);
      var r := Feed(convs, pages, strata, agents, parse, limit);
      && (limit >= 0 ==> |r| <= limit)
      && (forall i, j :: 0 <= i < j < |r| ==> Text.LexLe(SortKey(r[j]), SortKey(r[i])))
      && (forall x :: x in r ==> x in items)
      && (limit >= |items| ==> multiset(r) == multiset(items))
      && (limit >= 0 ==> |r| == if limit < |items| then limit else |items|)
      && (forall x, c :: x in r && c in multiset(items) - multiset(r) ==> Text.LexLe(SortKey(c), SortKey(x)))
  {
    var items := Items(convs, pages, strata, agents, parse);
    NewerFirstPreorder();
    Sorting.SortedPrefix(items, NewerFirst, limit);
    var r := Feed(convs, pages, strata, agents, parse, limit);
    forall i, j | 0 <= i < j < |r| ensures Text.LexLe(SortKey(r[j]), SortKey(r[i])) {
      assert NewerFirst(r[i], r[j]);
    }
    forall x, c | x in r && c in multiset(items) - multiset(r) ensures Text.LexLe(SortKey(c), SortKey(x)) {
      assert NewerFirst(x, c);
    }
  }

  lemma {:induction false} ConversationItemsAt(convs: seq<ConversationRow>, m: map<string, Participant>)
    ensures |ConversationItems(convs, m)| == |convs|
    ensures forall k :: 0 <= k < |convs| ==> ConversationItems(convs, m)[k] == ConversationItem(convs[k], m)
  {
    if convs != [] {
      ConversationItemsAt(convs[..|convs| - 1], m);
    }
  }

  lemma {:induction false} WikiItemsAt(pages: seq<WikiRow>, m: map<string, Participant>)
    ensures |WikiItems(pages, m)| == |pages|
    ensures forall k :: 0 <= k < |pages| ==> WikiItems(pages, m)[k] == WikiItem(pages[k], m)
  {
    if pages != [] {
      WikiItemsAt(pages[..|pages| - 1], m);
    }
  }

  lemma {:induction false} EpochItemsAt(strata: seq<StratumRow>)
    ensures |EpochItems(strata)| == |strata|
    ensures forall k :: 0 <= k < |strata| ==> EpochItems(strata)[k] == EpochItem(strata[k])
  {
    if strata != [] {
      EpochItemsAt(strata[..|strata| - 1]);
    }
  }

  /** A creation time that sorts after "0000", as every ISO timestamp of
      year 1 or later does. */
  predicate AfterYearZero(t: Option<string>) {
    t.None? || !Text.LexLe(t.value, "0000")
  }

  /** With every conversation and page timestamped after year zero, the
      items without a creation time (every epoch among them) come after
      all those with one. */
  lemma FeedUndatedLast(convs: seq<ConversationRow>, pages: seq<WikiRow>, strata: seq<StratumRow>,
                        agents: seq<AgentRow>, parse: string -> Option<string>, limit: int)
    requires forall c :: c in convs ==> AfterYearZero(c.createdAt)
    requires forall p :: p in pages ==> AfterYearZero(p.createdAt)
    ensures var r := Feed(convs, pages, strata, agents, parse, limit);
      forall i, j :: 0 <= i < j < |r| && r[i].createdAt.None? ==> r[j].createdAt.None?
  {
    var items := Items(convs, pages, strata, agents, parse);
    ItemsAfterYearZero(convs, pages, strata, agents, parse);
    FeedSound(convs, pages, strata, agents, parse, limit);
    var r := Feed(convs, pages, strata, agents, parse, limit);
    forall i, j | 0 <= i < j < |r| && r[i].createdAt.None? ensures r[j].createdAt.None? {
      assert r[j] in items;
      assert Text.LexLe(SortKey(r[j]), "0000");
    }
  }

  lemma ItemsAfterYearZero(convs: seq<ConversationRow>, pages: seq<WikiRow>, strata: seq<StratumRow>,
                           agents: seq<AgentRow>, parse: string -> Option<string>)
    requires forall c :: c in convs ==> AfterYearZero(c.createdAt)
    requires forall p :: p in pages ==> AfterYearZero(p.createdAt)
    ensures forall x :: x in Items(convs, pages, strata, agents, parse) ==> AfterYearZero(x.createdAt)
  {
    var cs := ConversationItems(convs, ConversationNames(convs, agents, parse));
    var ws := WikiItems(pages, CreatorNames(pages, agents));
    var es := EpochItems(strata);
    ConversationItemsAt(convs, ConversationNames(convs, agents, parse));
    WikiItemsAt(pages, CreatorNames(pages, agents));
    EpochItemsAt(strata);
    forall x: FeedItem | x in cs + ws + es ensures AfterYearZero(x.createdAt) {
      if x in cs {
        var k :| 0 <= k < |cs| && cs[k] == x;
        assert convs[k] in convs;
      } else if x in ws {
        var k :| 0 <= k < |ws| && ws[k] == x;
        assert pages[k] in pages;
      } else {
        var k :| 0 <= k < |es| && es[k] == x;
      }
    }
  }

  /** The items sharing a sort key with `x`. */
  function SameKey(x: FeedItem): FeedItem -> bool {
    (z: FeedItem) => SortKey(z) == SortKey(x)
  }

  /** Items with equal sort keys keep their merge order (conversations,
      then wiki edits, then epochs, each in query order): the sort is
      stable, and the feed is a prefix of the sorted items. */
  lemma FeedTiesKeepOrder(convs: seq<ConversationRow>, pages: seq<WikiRow>, strata: seq<StratumRow>,
                          agents: seq<AgentRow>, parse: string -> Option<string>, limit: int, x: FeedItem)
    ensures var items := Items(convs, pages, strata, agents, parse);
      var sorted := Sorting.Sort(items, NewerFirst);
      && Sorting.Filter(sorted, SameKey(x)) == Sorting.Filter(items, SameKey(x))
      && Feed(convs, pages, strata, agents, parse, limit) <= sorted
  {
    var items := Items(convs, pages, strata, agents, parse);
    NewerFirstPreorder();
    forall z ensures SameKey(x)(z) <==> NewerFirst(x, z) && NewerFirst(z, x) {
      if NewerFirst(x, z) && NewerFirst(z, x) {
        Text.LexLeAntisymmetric(SortKey(x), SortKey(z));
      }
    }
    Sorting.SortStable(x, items, NewerFirst, SameKey(x));
  }

  /** A conversation's feed item: its message count, a preview of at most
      120 characters taken from the start of the first message (empty
      without messages), and one name per participant, "Unknown" for an id
      no agent has and the agent's name for an agent's canonical id. */
  lemma FeedConversation(convs: seq<ConversationRow>, agents: seq<AgentRow>, parse: string -> Option<string>, c: nat)
    requires c < |convs|
    ensures var d := ConversationItem(convs[c], ConversationNames(convs, agents, parse)).data;
      var msgs := convs[c].messages;
      && d.messageCount == |msgs|
      && |d.preview| <= 120
      && (msgs == [] ==> d.preview == "")
      && (msgs != [] ==>
            (d.preview <= msgs[0].GetOr("")
             && |d.preview| == (if |msgs[0].GetOr("")| < 120 then |msgs[0].GetOr("")| else 120)))
      && |d.participantNames| == |convs[c].participants|
      && (forall k :: 0 <= k < |convs[c].participants| && (forall a :: a in agents ==> a.id != convs[c].participants[k]) ==>
            d.participantNames[k] == "Unknown")
      && (forall k, i :: (0 <= k < |convs[c].participants| && 0 <= i < |agents|
                          && agents[i].id == convs[c].participants[k] && parse(agents[i].id) == Some(agents[i].id)
                          && (forall j :: 0 <= j < |agents| && j != i ==> agents[j].id != agents[i].id)) ==>
            d.participantNames[k] == agents[i].name)
  {
    var ids := AllIds(Participants(convs), parse);
    var m := ConversationNames(convs, agents, parse);
    var pids := convs[c].participants;
    NamesAt(pids, m);
    forall k | 0 <= k < |pids| && (forall a :: a in agents ==> a.id != pids[k])
      ensures Names(pids, m)[k] == "Unknown"
    {
      NoAgent(agents, ids, map[], pids[k]);
    }
    forall k, i | (0 <= k < |pids| && 0 <= i < |agents| && agents[i].id == pids[k]
                   && parse(agents[i].id) == Some(agents[i].id)
                   && (forall j :: 0 <= j < |agents| && j != i ==> agents[j].id != agents[i].id))
      ensures Names(pids, m)[k] == agents[i].name
    {
      ParticipantsAt(convs);
      AllIdsSound(Participants(convs), parse, agents[i].id);
      assert pids[k] in Participants(convs)[c];
      FetchedEntry(agents, ids, map[], i);
    }
  }

  /** A wiki edit names its creator only when the page has one: the
      agent's name, or "Unknown" when no agent has that id. */
  lemma FeedWikiCreator(pages: seq<WikiRow>, agents: seq<AgentRow>, p: nat)
    requires p < |pages|
    ensures var name := Creator(pages[p], CreatorNames(pages, agents));
      var creator := pages[p].createdBy;
      && (name.None? <==> creator.None?)
      && (creator.Some? && (forall a :: a in agents ==> a.id != creator.value) ==> name == Some("Unknown"))
      && (forall i :: (0 <= i < |agents| && creator == Some(agents[i].id)
                       && (forall j :: 0 <= j < |agents| && j != i ==> agents[j].id != agents[i].id)) ==>
            name == Some(agents[i].name))
  {
    var creator := pages[p].createdBy;
    if creator.Some? {
      if forall a :: a in agents ==> a.id != creator.value {
        NoAgent(agents, Creators(pages), map[], creator.value);
      }
      forall i | (0 <= i < |agents| && creator == Some(agents[i].id)
                  && (forall j :: 0 <= j < |agents| && j != i ==> agents[j].id != agents[i].id))
        ensures Creator(pages[p], CreatorNames(pages, agents)) == Some(agents[i].name)
      {
        assert pages[p] in pages;
        FetchedEntry(agents, Creators(pages), map[], i);
      }
    }
  }

  /** The names loop for one conversation. */
  method NameParticipants(pids: seq<string>, m: map<string, Participant>) returns (names: seq<string>)
    ensures names == Names(pids, m)
  {
    names := [];
    var i := 0;
    while i < |pids|
      invariant 0 <= i <= |pids|
      invariant names == Names(pids[..i], m)
    {
      assert pids[..i + 1][..i] == pids[..i];
      var pid := pids[i];
      names := names + [if pid in m then m[pid].name else UnknownName];
      i := i + 1;
    }
    assert pids[..|pids|] == pids;
  }

  /** The loop over conversations, appending their items. */
  method AddConversations(items: seq<FeedItem>, convs: seq<ConversationRow>, m: map<string, Participant>)
    returns (out: seq<FeedItem>)
    ensures out == items + ConversationItems(convs, m)
  {
    out := items;
    var i := 0;
    while i < |convs|
      invariant 0 <= i <= |convs|
      invariant out == items + ConversationItems(convs[..i], m)
    {
      assert convs[..i + 1][..i] == convs[..i];
      var c := convs[i];
      var names := NameParticipants(c.participants, m);
      var firstMessage := "";
      if c.messages != [] {
        firstMessage := Text.Take(c.messages[0].GetOr(""), PreviewWidth);
      }
      out := out + [FeedItem(ConversationData(c.id, c.topic, c.topicKo, names, |c.messages|, firstMessage), c.createdAt)];
      i := i + 1;
    }
    assert convs[..|convs|] == convs;
  }

  /** The loop over wiki pages, appending their items. */
  method AddWikiEdits(items: seq<FeedItem>, pages: seq<WikiRow>, m: map<string, Participant>)
    returns (out: seq<FeedItem>)
    ensures out == items + WikiItems(pages, m)
  {
    out := items;
    var i := 0;
    while i < |pages|
      invariant 0 <= i <= |pages|
      invariant out == items + WikiItems(pages[..i], m)
    {
      assert pages[..i + 1][..i] == pages[..i];
      var p := pages[i];
      var name: Option<string> := None;
      if p.createdBy.Some? {
        var a := p.createdBy.value;
        name := Some(if a in m then m[a].name else UnknownName);
      }
      out := out + [FeedItem(WikiEditData(p.id, p.title, p.titleKo, name, p.status, p.version), p.createdAt)];
      i := i + 1;
    }
    assert pages[..|pages|] == pages;
  }

  /** The loop over strata, appending their items. */
  method AddEpochs(items: seq<FeedItem>, strata: seq<StratumRow>) returns (out: seq<FeedItem>)
    ensures out == items + EpochItems(strata)
  {
    out := items;
    var i := 0;
    while i < |strata|
      invariant 0 <= i <= |strata|
      invariant out == items + EpochItems(strata[..i])
    {
      assert strata[..i + 1][..i] == strata[..i];
      var s := strata[i];
      out := out + [FeedItem(EpochData(s.id, s.epoch, s.summary, s.summaryKo, s.themes), None)];
      i := i + 1;
    }
    assert strata[..|strata|] == strata;
  }

  /** `agent_name_map`: empty when no participant id parses, otherwise
      built from the agents fetched by id. */
  method ConversationNameMap(convs: seq<ConversationRow>, agents: seq<AgentRow>, parse: string -> Option<string>)
    returns (m: map<string, Participant>)
    ensures m == ConversationNames(convs, agents, parse)
  {
    var ids := CollectAgentIds(Participants(convs), parse);
    m := map[];
    if ids != {} {
      m := BuildAgentMap(Fetched(agents, ids), map[]);
    } else {
      FetchedNone(agents, ids);
    }
  }

  /** `wiki_agent_names`: empty when no page has a creator. */
  method CreatorNameMap(pages: seq<WikiRow>, agents: seq<AgentRow>) returns (m: map<string, Participant>)
    ensures m == CreatorNames(pages, agents)
  {
    var creators := Creators(pages);
    m := map[];
    if creators != {} {
      m := BuildAgentMap(Fetched(agents, creators), map[]);
    } else {
      FetchedNone(agents, creators);
    }
  }

  /** `get_feed` on the rows its queries return. */
  method GetFeed(convs: seq<ConversationRow>, pages: seq<WikiRow>, strata: seq<StratumRow>,
                 agents: seq<AgentRow>, parse: string -> Option<string>, limit: int)
    returns (feed: seq<FeedItem>)
    ensures feed == Feed(convs, pages, strata, agents, parse, limit)
  {
    var names := ConversationNameMap(convs, agents, parse);
    var creatorNames := CreatorNameMap(pages, agents);
    var items := AddConversations([], convs, names);
    assert items == ConversationItems(convs, names);
    items := AddWikiEdits(items, pages, creatorNames);
    items := AddEpochs(items, strata);
    feed := Text.Take(Sorting.Sort(items, NewerFirst), limit);
  }
}
