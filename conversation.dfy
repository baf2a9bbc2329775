/** One conversation turn of a world: a few agents speak in rotation for a
    few rounds, each message addressed to all the other participants and
    broadcast as it is produced. */
module Conversation {
  import opened Envelopes
  import Text

  /** The part of an agent row a conversation reads. */
  datatype Agent = Agent(id: AgentId, name: string)

  datatype Message = Message(agentId: AgentId, content: string, targets: seq<AgentId>)

  /** A turn as returned to the runner. A turn with fewer than two agents has
      no participants, no messages and the empty topic. */
  datatype Turn = Turn(epoch: int, topic: string, participants: seq<AgentId>, messages: seq<Message>)

  /** The prompt sees at most this many earlier lines of the conversation. */
  const HistoryWindow: nat := 10

  /** The topics a conversation is drawn from. */
  const BuiltinTopics: seq<string> := [
    "resource distribution", "territorial boundaries", "trade agreements",
    "recent mysterious events", "leadership disputes", "ancient prophecies",
    "technological discoveries", "cultural traditions", "military strategy",
    "diplomatic relations", "spiritual beliefs", "economic reforms"]

  function Ids(ps: seq<Agent>): (r: seq<AgentId>)
    ensures |r| == |ps|
    ensures forall k :: 0 <= k < |ps| ==> r[k] == ps[k].id
  {
    if ps == [] then [] else [ps[0].id] + Ids(ps[1..])
  }

  /** `[p.id for p in participants if p.id != speaker.id]`. */
  function Targets(ps: seq<Agent>, speaker: AgentId): (r: seq<AgentId>)
    ensures |r| <= |ps|
    ensures forall t :: t in r <==> t != speaker && exists p :: p in ps && p.id == t
  {
    if ps == [] then []
    else
      var rest := Targets(ps[1..], speaker);
      assert forall p :: p in ps[1..] ==> p in ps;
      assert forall p :: p in ps ==> p == ps[0] || p in ps[1..];
      (if ps[0].id != speaker then [ps[0].id] else []) + rest
  }

  /** The speaker of round `k`: the participants take turns in list order. */
  function Speaker(ps: seq<Agent>, k: nat): Agent
    requires ps != []
  {
    ps[k % |ps|]
  }

  /** The message of round `k`, with the model's answer `response`. */
  function MessageOf(ps: seq<Agent>, k: nat, response: string): (r: Message)
    requires ps != []
    ensures r.agentId == ps[k % |ps|].id
    ensures r.agentId !in r.targets
  {
    Message(Speaker(ps, k).id, response, Targets(ps, Speaker(ps, k).id))
  }

  /** The `agent.message` envelope of round `k`. */
  function EnvelopeOf(ps: seq<Agent>, epoch: int, tick: int, k: nat, response: string): (r: Envelope)
    requires ps != []
    ensures r.Kind() == "agent.message" && r.epoch == epoch
    ensures r.payload.agentId == ps[k % |ps|].id && r.payload.round == k && r.payload.content == response
  {
    var s := Speaker(ps, k);
    Envelope(epoch, AgentMessage(s.id, s.name, response, tick, k))
  }

  /** The history line a round adds: "name: response". */
  function HistoryLine(ps: seq<Agent>, k: nat, response: string): string
    requires ps != []
  {
    Speaker(ps, k).name + ": " + response
  }

  /** The history lines of the first `k` rounds. */
  function HistoryLines(ps: seq<Agent>, responses: seq<string>, k: nat): (r: seq<string>)
    requires ps != [] && k <= |responses|
    ensures |r| == k
  {
    if k == 0 then [] else HistoryLines(ps, responses, k - 1) + [HistoryLine(ps, k - 1, responses[k - 1])]
  }

  /** The messages of the first `k` rounds. */
  function Messages(ps: seq<Agent>, responses: seq<string>, k: nat): (r: seq<Message>)
    requires ps != [] && k <= |responses|
    ensures |r| == k
  {
    if k == 0 then [] else Messages(ps, responses, k - 1) + [MessageOf(ps, k - 1, responses[k - 1])]
  }

  lemma {:induction false} MessagesAt(ps: seq<Agent>, responses: seq<string>, k: nat)
    requires ps != [] && k <= |responses|
    ensures forall j :: 0 <= j < k ==> Messages(ps, responses, k)[j] == MessageOf(ps, j, responses[j])
  {
    if k > 0 {
      MessagesAt(ps, responses, k - 1);
    }
  }

  /** The envelopes of the first `k` rounds. */
  function RoundEnvelopes(ps: seq<Agent>, epoch: int, tick: int, responses: seq<string>, k: nat): (r: seq<Envelope>)
    requires ps != [] && k <= |responses|
    ensures |r| == k
  {
    if k == 0 then [] else RoundEnvelopes(ps, epoch, tick, responses, k - 1) + [EnvelopeOf(ps, epoch, tick, k - 1, responses[k - 1])]
  }

  lemma {:induction false} EnvelopesAt(ps: seq<Agent>, epoch: int, tick: int, responses: seq<string>, k: nat)
    requires ps != [] && k <= |responses|
    ensures forall j :: 0 <= j < k ==> RoundEnvelopes(ps, epoch, tick, responses, k)[j] == EnvelopeOf(ps, epoch, tick, j, responses[j])
  {
    if k > 0 {
      EnvelopesAt(ps, epoch, tick, responses, k - 1);
    }
  }

  /** What the prompts of the first `k` rounds were given: each round sees
      the last ten of the lines before it. */
  function Prompts(ps: seq<Agent>, responses: seq<string>, k: nat): (r: seq<seq<string>>)
    requires ps != [] && k <= |responses|
    ensures |r| == k
  {
    if k == 0 then [] else Prompts(ps, responses, k - 1) + [Text.Last(HistoryLines(ps, responses, k - 1), HistoryWindow)]
  }

  lemma {:induction false} PromptsAt(ps: seq<Agent>, responses: seq<string>, k: nat)
    requires ps != [] && k <= |responses|
    ensures forall j :: 0 <= j < k ==> Prompts(ps, responses, k)[j] == Text.Last(HistoryLines(ps, responses, j), HistoryWindow)
  {
    if k > 0 {
      PromptsAt(ps, responses, k - 1);
      var front := Prompts(ps, responses, k - 1);
      var last := Text.Last(HistoryLines(ps, responses, k - 1), HistoryWindow);
      assert Prompts(ps, responses, k) == front + [last];
      forall j | 0 <= j < k - 1 ensures (front + [last])[j] == front[j] {
      }
    }
  }

  /** `run_conversation` for already selected `participants` and `topic`.
      `rounds` is the random round count and `responses` the model's answers,
      one per round. Returns the turn, the envelopes broadcast and, per round,
      the history lines the prompt was given. */
  method RunConversation(participants: seq<Agent>, epoch: int, tick: int, topic: string,
                         rounds: nat, responses: seq<string>)
    returns (turn: Turn, emitted: seq<Envelope>, prompted: seq<seq<string>>)
    requires 3 <= rounds <= 6
    requires |responses| == rounds
    ensures |participants| < 2 ==> turn == Turn(epoch, "", [], []) && emitted == [] && prompted == []
    ensures |participants| >= 2 ==>
      && turn.topic == topic && turn.participants == Ids(participants)
      && |turn.messages| == rounds && |emitted| == rounds && |prompted| == rounds
      && (forall k :: 0 <= k < rounds ==> turn.messages[k] == MessageOf(participants, k, responses[k]))
      && (forall k :: 0 <= k < rounds ==> emitted[k] == EnvelopeOf(participants, epoch, tick, k, responses[k]))
      && (forall k :: 0 <= k < rounds ==> |prompted[k]| <= HistoryWindow)
      && (forall k :: 0 <= k < rounds ==> prompted[k] == Text.Last(HistoryLines(participants, responses, k), HistoryWindow))
  {
    if |participants| < 2 {
      return Turn(epoch, "", [], []), [], [];
    }
    var messages;
    messages, emitted, prompted := RunRounds(participants, epoch, tick, rounds, responses);
    turn := Turn(epoch, topic, Ids(participants), messages);
  }

  /** The round loop of `run_conversation`. */
  method RunRounds(participants: seq<Agent>, epoch: int, tick: int, rounds: nat, responses: seq<string>)
    returns (messages: seq<Message>, emitted: seq<Envelope>, prompted: seq<seq<string>>)
    requires participants != []
    requires |responses| == rounds
    ensures |messages| == rounds && |emitted| == rounds && |prompted| == rounds
    ensures forall k :: 0 <= k < rounds ==> messages[k] == MessageOf(participants, k, responses[k])
    ensures forall k :: 0 <= k < rounds ==> emitted[k] == EnvelopeOf(participants, epoch, tick, k, responses[k])
    ensures forall k :: 0 <= k < rounds ==> prompted[k] == Text.Last(HistoryLines(participants, responses, k), HistoryWindow)
  {
    messages, emitted, prompted := [], [], [];
    var lines: seq<string> := [];
    var k := 0;
    while k < rounds
      invariant 0 <= k <= rounds
      invariant lines == HistoryLines(participants, responses, k)
      invariant messages == Messages(participants, responses, k)
      invariant emitted == RoundEnvelopes(participants, epoch, tick, responses, k)
      invariant prompted == Prompts(participants, responses, k)
    {
      var speaker := participants[k % |participants|];
      var history := Text.Last(lines, HistoryWindow);
      var targets := Targets(participants, speaker.id);
      var message := Message(speaker.id, responses[k], targets);
      var envelope := Envelope(epoch, AgentMessage(speaker.id, speaker.name, responses[k], tick, k));
      assert message == MessageOf(participants, k, responses[k]);
      assert envelope == EnvelopeOf(participants, epoch, tick, k, responses[k]);
      messages := messages + [message];
      prompted := prompted + [history];
      emitted := emitted + [envelope];
      lines := lines + [speaker.name + ": " + responses[k]];
      k := k + 1;
    }
    MessagesAt(participants, responses, rounds);
    EnvelopesAt(participants, epoch, tick, responses, rounds);
    PromptsAt(participants, responses, rounds);
  }

  /** Every round's speaker addresses every other participant and no one
      else, and round `k` is spoken by participant `k mod n`. */
  lemma RoundStructure(ps: seq<Agent>, k: nat, response: string, other: Agent)
    requires ps != [] && other in ps
    ensures MessageOf(ps, k, response).agentId == ps[k % |ps|].id
    ensures other.id in MessageOf(ps, k, response).targets <==> other.id != ps[k % |ps|].id
  {
    var speaker := ps[k % |ps|].id;
    assert MessageOf(ps, k, response).targets == Targets(ps, speaker);
  }

  /** `_select_participants`: all agents when there are at most `count`,
      otherwise `count` distinct agents of the world. `count == 0` means a
      random count in 3..8, given as `drawn`; `random.sample` is modelled as an
      arbitrary choice. */
  method SelectParticipants(agents: seq<Agent>, count: nat, drawn: nat) returns (selected: seq<Agent>)
    requires 3 <= drawn <= 8
    requires forall i, j :: 0 <= i < j < |agents| ==> agents[i].id != agents[j].id
    ensures var c := if count == 0 then drawn else count;
      (|agents| <= c ==> selected == agents)
      && (|agents| > c ==>
        && |selected| == c
        && (forall a :: a in selected ==> a in agents)
        && (forall i, j :: 0 <= i < j < |selected| ==> selected[i] != selected[j]))
  {
    var c := if count == 0 then drawn else count;
    if |agents| <= c {
      return agents;
    }
    var pool := set a | a in agents;
    DistinctCard(agents);
    selected := [];
    while |selected| < c
      invariant |selected| <= c && |pool| + |selected| == |agents|
      invariant forall a :: a in pool ==> a in agents
      invariant forall a :: a in selected ==> a in agents && a !in pool
      invariant forall i, j :: 0 <= i < j < |selected| ==> selected[i] != selected[j]
      decreases c - |selected|
    {
      var a :| a in pool;
      selected := selected + [a];
      pool := pool - {a};
    }
  }

  /** Rows with distinct ids form a set of the same size. */
  lemma {:induction false} DistinctCard(agents: seq<Agent>)
    requires forall i, j :: 0 <= i < j < |agents| ==> agents[i].id != agents[j].id
    ensures |set a | a in agents| == |agents|
  {
    if agents != [] {
      var init := agents[..|agents| - 1];
      var last := agents[|agents| - 1];
      assert agents == init + [last];
      DistinctCard(init);
      var front := set a | a in init;
      forall a | a in init ensures a != last {
        var i :| 0 <= i < |init| && init[i] == a;
        assert agents[i] == a;
      }
      assert last !in front;
      assert (set a | a in agents) == front + {last};
    }
  }

  /** `max(0.0, min(1.0, strength + drift))`. */
  function Clamp01(x: real): (r: real)
    ensures 0.0 <= r <= 1.0
    ensures 0.0 <= x <= 1.0 ==> r == x
    ensures x < 0.0 ==> r == 0.0
    ensures x > 1.0 ==> r == 1.0
  {
    if x < 0.0 then 0.0 else if x > 1.0 then 1.0 else x
  }

  /** `_update_relationships`: every existing relationship between two
      participants, `a` listed before `b`, drifts by `drift(a, b)` and is
      clamped to [0, 1]. The relationship rows are the map's entries; missing
      rows are skipped. */
  method UpdateRelationships(rels: map<(AgentId, AgentId), real>, ps: seq<AgentId>, drift: (AgentId, AgentId) -> real)
    returns (out: map<(AgentId, AgentId), real>)
    ensures out.Keys == rels.Keys
    ensures forall key :: key in out ==> out[key] == rels[key] || 0.0 <= out[key] <= 1.0
    ensures forall key :: key in out && 0.0 <= rels[key] <= 1.0 ==> 0.0 <= out[key] <= 1.0
    ensures forall key :: key in out && (key.0 !in ps || key.1 !in ps) ==> out[key] == rels[key]
  {
    out := rels;
    var i := 0;
    while i < |ps|
      invariant 0 <= i <= |ps|
      invariant out.Keys == rels.Keys
      invariant forall key :: key in out ==> out[key] == rels[key] || 0.0 <= out[key] <= 1.0
      invariant forall key :: key in out && (key.0 !in ps || key.1 !in ps) ==> out[key] == rels[key]
    {
      var j := i + 1;
      while j < |ps|
        invariant i + 1 <= j <= |ps|
        invariant out.Keys == rels.Keys
        invariant forall key :: key in out ==> out[key] == rels[key] || 0.0 <= out[key] <= 1.0
        invariant forall key :: key in out && (key.0 !in ps || key.1 !in ps) ==> out[key] == rels[key]
      {
        var key := (ps[i], ps[j]);
        if key in out {
          out := out[key := Clamp01(out[key] + drift(ps[i], ps[j]))];
        }
        j := j + 1;
      }
      i := i + 1;
    }
  }
}
