/** World genesis: the progress steps `populate_world` records in the
    world's config, the batched persona requests of `_generate_personas`,
    the normalisation of the tags `_generate_world_tags` stores, and the
    status sequence of `create_world`. What the LLM answers is a parameter;
    the relationships step, which is random, is not modelled. */
module Genesis {
  import opened Wrappers
  import Text
  import Rows
  import opened Envelopes

  // ---------------------------------------------------------------------------
  // Persona batches
  // ---------------------------------------------------------------------------

  const PersonaBatch: nat := 5
  const Attempts: nat := 3

  /** `min(BATCH_SIZE, count - batch_start)`: the personas one request asks for. */
  function BatchCount(count: int, start: nat): (r: nat)
    requires start < count
    ensures 1 <= r <= 5 && r <= count - start
  {
    if PersonaBatch < count - start then PersonaBatch else count - start
  }

  /** The personas of the first attempt, from `attempt` on, that gave any;
      none when all three gave none. `reply(start, attempt)` is the persona
      list the LLM gave for that batch and attempt. */
  function FirstReply<P>(reply: (nat, nat) -> seq<P>, start: nat, attempt: nat): seq<P>
    decreases Attempts - attempt
  {
    if attempt >= Attempts then []
    else if reply(start, attempt) != [] then reply(start, attempt)
    else FirstReply(reply, start, attempt + 1)
  }

  /** What the batches from `start` on add to `all_personas`: each at most
      its batch count from its first non-empty answer. */
  function Collected<P>(count: int, reply: (nat, nat) -> seq<P>, start: nat): seq<P>
    decreases count - start
  {
    if start >= count then []
    else Text.Take(FirstReply(reply, start, 0), BatchCount(count, start)) + Collected(count, reply, start + PersonaBatch)
  }

  /** `_generate_personas`: `all_personas[:count]`. */
  function Personas<P>(count: int, reply: (nat, nat) -> seq<P>): seq<P> {
    Text.Take(Collected(count, reply, 0), count)
  }

  /** One LLM request: the batch it belongs to, the attempt, and how many
      personas it asked for. */
  datatype Request = Request(batchStart: nat, attempt: nat, batchCount: nat)

  /** A request as `_generate_personas` makes them: within the batch
      range, at a multiple of five, one of three attempts, asking for
      `min(5, count - batch_start)`. */
  predicate WellFormed(r: Request, count: int) {
    && r.batchStart < count
    && r.batchStart % PersonaBatch == 0
    && r.attempt < Attempts
    && r.batchCount == BatchCount(count, r.batchStart)
  }

  /** The batches from `start` on add no more than the personas still
      wanted. */
  lemma {:induction false} CollectedBound<P>(count: int, reply: (nat, nat) -> seq<P>, start: nat)
    ensures |Collected(count, reply, start)| <= if start < count then count - start else 0
    decreases count - start
  {
    if start < count {
      CollectedBound(count, reply, start + PersonaBatch);
    }
  }

  /** At most `count` personas come back (none for a count that is not
      positive), so the final slice never drops any. */
  lemma PersonasBound<P>(count: int, reply: (nat, nat) -> seq<P>)
    ensures |Personas(count, reply)| <= if count > 0 then count else 0
    ensures Personas(count, reply) == Collected(count, reply, 0)
  {
    CollectedBound(count, reply, 0);
  }

  /** When every batch's first answer holds at least five personas, exactly
      `count` personas come back. */
  lemma {:induction false} FullAnswersFillCount<P>(count: int, reply: (nat, nat) -> seq<P>, start: nat)
    requires forall s: nat :: start <= s < count && s % PersonaBatch == start % PersonaBatch ==> |reply(s, 0)| >= PersonaBatch
    ensures |Collected(count, reply, start)| == if start < count then count - start else 0
    decreases count - start
  {
    if start < count {
      FullAnswersFillCount(count, reply, start + PersonaBatch);
      assert FirstReply(reply, start, 0) == reply(start, 0);
    }
  }

  /** A batch whose three attempts all come back empty adds nothing. */
  lemma EmptyBatch<P>(count: int, reply: (nat, nat) -> seq<P>, start: nat)
    requires start < count
    requires forall a :: 0 <= a < 3 ==> reply(start, a) == []
    ensures Collected(count, reply, start) == Collected(count, reply, start + 5)
  {
    assert FirstReply(reply, start, 2) == [];
    assert FirstReply(reply, start, 1) == [];
  }

  /** The attempts of one batch: up to three requests, stopping at the
      first answer with any persona. */
  method RequestBatch<P>(count: int, reply: (nat, nat) -> seq<P>, start: nat) returns (got: seq<P>, made: seq<Request>)
    requires start < count && start % PersonaBatch == 0
    ensures got == Text.Take(FirstReply(reply, start, 0), BatchCount(count, start))
    ensures 1 <= |made| <= 3
    ensures forall r :: r in made ==> r.batchStart == start && WellFormed(r, count)
  {
    var batchCount := if PersonaBatch < count - start then PersonaBatch else count - start;
    made := [];
    var attempt: nat := 0;
    while attempt < Attempts
      invariant attempt <= Attempts && |made| == attempt
      invariant FirstReply(reply, start, 0) == FirstReply(reply, start, attempt)
      invariant forall r :: r in made ==> r.batchStart == start && WellFormed(r, count)
    {
      var personas := reply(start, attempt);
      made := made + [Request(start, attempt, batchCount)];
      if personas != [] {
        return Text.Take(personas, batchCount), made;
      }
      attempt := attempt + 1;
    }
    got := [];
  }

  /** `_generate_personas`, returning the personas and the requests made. */
  method GeneratePersonas<P>(count: int, reply: (nat, nat) -> seq<P>) returns (personas: seq<P>, requests: seq<Request>)
    ensures personas == Personas(count, reply)
    ensures forall r :: r in requests ==> WellFormed(r, count)
  {
    var all: seq<P> := [];
    requests := [];
    var start: nat := 0;
    while start < count
      invariant start % PersonaBatch == 0
      invariant all + Collected(count, reply, start) == Collected(count, reply, 0)
      invariant forall r :: r in requests ==> WellFormed(r, count)
      decreases count - start
    {
      var got, made := RequestBatch(count, reply, start);
      assert Collected(count, reply, start) == got + Collected(count, reply, start + PersonaBatch);
      all := all + got;
      requests := requests + made;
      start := start + PersonaBatch;
    }
    personas := Text.Take(all, count);
  }

  // ---------------------------------------------------------------------------
  // World tags
  // ---------------------------------------------------------------------------

  /** A tag's `weight`: absent, a number, or a text `float` rejects. */
  datatype Weight = Absent | Number(value: real) | Malformed

  /** An item of the tag list the LLM gave: not an object, or an object
      with its `tag` (as text) and `weight`. */
  datatype TagItem = NotAnObject | TagObject(tag: Option<string>, weight: Weight)

  /** A `world_tags` row to be added. */
  datatype TagRow = TagRow(tag: string, weight: real)

  const MaxTags: nat := 8
  const MaxTagLength: nat := 100

  /** `str(item["tag"]).lower().strip()[:100]`. */
  function TagText(t: string): string {
    Text.Take(Text.Strip(Text.Lower(t)), MaxTagLength)
  }

  /** The item is an object whose `tag` is present and not empty. */
  predicate Tagged(item: TagItem) {
    item.TagObject? && item.tag.Some? && item.tag.value != ""
  }

  /** The rows the loop adds for `items`; a malformed weight raises, which
      ends the loop and keeps the rows already added. */
  function TagRows(items: seq<TagItem>): seq<TagRow> {
    if items == [] then []
    else if !Tagged(items[0]) then TagRows(items[1..])
    else match items[0].weight
      case Malformed => []
      case Absent => [TagRow(TagText(items[0].tag.value), 1.0)] + TagRows(items[1..])
      case Number(w) => [TagRow(TagText(items[0].tag.value), w)] + TagRows(items[1..])
  }

  /** `_generate_world_tags` on the list the LLM gave. */
  function WorldTags(tags: seq<TagItem>): seq<TagRow> {
    TagRows(Text.Take(tags, MaxTags))
  }

  /** A tag as stored: lower case, at most 100 characters, no leading
      whitespace, and a prefix of the stripped, lower-cased text. */
  predicate Normalized(tag: string, source: string) {
    && |tag| <= 100
    && (forall i :: 0 <= i < |tag| ==> !('A' <= tag[i] <= 'Z'))
    && (tag != [] ==> !Text.IsSpace(tag[0]))
    && tag <= Text.Strip(Text.Lower(source))
  }

  lemma TagTextNormalized(t: string)
    ensures Normalized(TagText(t), t)
  {
    var lowered := Text.Lower(t);
    var stripped := Text.Strip(lowered);
    StripKeepsLower(lowered);
  }

  /** Stripping keeps a string free of upper-case ASCII letters. */
  lemma StripKeepsLower(s: string)
    requires forall i :: 0 <= i < |s| ==> !('A' <= s[i] <= 'Z')
    ensures forall i :: 0 <= i < |Text.Strip(s)| ==> !('A' <= Text.Strip(s)[i] <= 'Z')
  {
    var l := Text.StripLeft(s);
    var r := Text.StripRight(l);
    forall i | 0 <= i < |r| ensures !('A' <= r[i] <= 'Z') {
      assert r[i] == l[i] == s[|s| - |l| + i];
    }
  }

  /** The row is what the loop stores for `item`. */
  predicate StoredFrom(row: TagRow, item: TagItem) {
    && Tagged(item) && !item.weight.Malformed?
    && Normalized(row.tag, item.tag.value)
    && row.weight == (if item.weight.Number? then item.weight.value else 1.0)
  }

  /** Each stored row comes from one of the tagged items, with its text
      normalised and a missing weight taken as 1.0. */
  lemma {:induction false} TagRowsSound(items: seq<TagItem>)
    ensures |TagRows(items)| <= |items|
    ensures forall row :: row in TagRows(items) ==> exists item :: item in items && StoredFrom(row, item)
  {
    if items != [] {
      TagRowsSound(items[1..]);
      var rest := TagRows(items[1..]);
      var head := items[0];
      if Tagged(head) && !head.weight.Malformed? {
        var first := TagRow(TagText(head.tag.value), if head.weight.Number? then head.weight.value else 1.0);
        assert TagRows(items) == [first] + rest;
        TagTextNormalized(head.tag.value);
        assert StoredFrom(first, head);
        forall row | row in TagRows(items)
          ensures exists item :: item in items && StoredFrom(row, item)
        {
          if row != first {
            assert row in rest;
            var item :| item in items[1..] && StoredFrom(row, item);
            assert item in items;
          }
        }
      } else if !Tagged(head) {
        assert TagRows(items) == rest;
        forall row | row in TagRows(items)
          ensures exists item :: item in items && StoredFrom(row, item)
        {
          var item :| item in items[1..] && StoredFrom(row, item);
          assert item in items;
        }
      }
    }
  }

  /** At most eight tags are stored, only from the first eight items, and
      when no weight is malformed there are as many rows as tagged items
      among them. */
  lemma WorldTagsSound(tags: seq<TagItem>)
    ensures |WorldTags(tags)| <= 8
    ensures (forall k :: 0 <= k < |tags| && k < 8 ==> !tags[k].TagObject? || !tags[k].weight.Malformed?) ==>
      |WorldTags(tags)| == |TaggedItems(Text.Take(tags, 8))|
  {
    TagRowsSound(Text.Take(tags, MaxTags));
    var items := Text.Take(tags, MaxTags);
    if forall k :: 0 <= k < |tags| && k < 8 ==> !tags[k].TagObject? || !tags[k].weight.Malformed? {
      TagRowsCount(items);
    }
  }

  function TaggedItems(items: seq<TagItem>): seq<TagItem> {
    if items == [] then [] else (if Tagged(items[0]) then [items[0]] else []) + TaggedItems(items[1..])
  }

  lemma {:induction false} TagRowsCount(items: seq<TagItem>)
    requires forall k :: 0 <= k < |items| ==> !items[k].TagObject? || !items[k].weight.Malformed?
    ensures |TagRows(items)| == |TaggedItems(items)|
  {
    if items != [] {
      TagRowsCount(items[1..]);
    }
  }

  /** The loop of `_generate_world_tags` over the first eight items. */
  method GenerateWorldTags(tags: seq<TagItem>) returns (rows: seq<TagRow>)
    ensures rows == WorldTags(tags)
  {
    var items := Text.Take(tags, MaxTags);
    rows := [];
    var i := 0;
    while i < |items|
      invariant 0 <= i <= |items|
      invariant rows + TagRows(items[i..]) == TagRows(items)
    {
      var item := items[i];
      assert items[i..][1..] == items[i + 1..];
      if item.TagObject? && item.tag.Some? && item.tag.value != "" {
        var text := TagText(item.tag.value);
        match item.weight
        case Malformed =>
          return;
        case Absent =>
          rows := rows + [TagRow(text, 1.0)];
        case Number(w) =>
          rows := rows + [TagRow(text, w)];
      }
      i := i + 1;
    }
  }

  // ---------------------------------------------------------------------------
  // Progress and world creation
  // ---------------------------------------------------------------------------

  /** A faction as the LLM's world config describes it. */
  datatype FactionSpec = FactionSpec(name: string, description: Option<string>, color: Option<string>, agentCount: Option<int>)

  /** A `factions` row: a missing description is empty, a missing colour white. */
  datatype Faction = Faction(name: string, description: string, color: string)

  function FactionOf(spec: FactionSpec): Faction {
    Faction(spec.name, spec.description.GetOr(""), spec.color.GetOr("#FFFFFF"))
  }

  /** The `_genesis_progress` entry one step writes. */
  datatype Progress = Progress(step: string, stepNum: int, totalSteps: int, detail: string)

  /** The agent steps, one per faction, numbered from 3. */
  function AgentSteps(specs: seq<FactionSpec>, total: int): seq<Progress> {
    if specs == [] then []
    else
      AgentSteps(specs[..|specs| - 1], total)
      + [Progress("agents", 3 + |specs| - 1, total, "Summoning agents for " + specs[|specs| - 1].name + "...")]
  }

  /** The progress entries `populate_world` writes, in order; none when
      the world row does not exist. */
  function ProgressTrace(numFactions: nat, worldFound: bool, specs: seq<FactionSpec>): seq<Progress> {
    var total := numFactions + 4;
    if !worldFound then []
    else
      [Progress("world_config", 1, total, "Designing world architecture..."),
       Progress("factions", 2, total, "Establishing factions...")]
      + AgentSteps(specs, total)
      + [Progress("relationships", total - 1, total, "Weaving relationships..."),
         Progress("tags", total, total, "Classifying world tags...")]
  }

  lemma {:induction false} AgentStepsAt(specs: seq<FactionSpec>, total: int)
    ensures |AgentSteps(specs, total)| == |specs|
    ensures forall i :: 0 <= i < |specs| ==>
      AgentSteps(specs, total)[i] == Progress("agents", 3 + i, total, "Summoning agents for " + specs[i].name + "...")
  {
    if specs != [] {
      AgentStepsAt(specs[..|specs| - 1], total);
    }
  }

  /** Every entry has `total_steps` = factions + 4; the agent step of the
      faction at `idx` is 3 + idx; the last two steps are
      `total_steps - 1` and `total_steps`. */
  lemma ProgressNumbering(numFactions: nat, specs: seq<FactionSpec>)
    ensures var p := ProgressTrace(numFactions, true, specs);
      && |p| == |specs| + 4
      && (forall k :: 0 <= k < |p| ==> p[k].totalSteps == numFactions + 4)
      && p[0].step == "world_config" && p[0].stepNum == 1
      && p[1].step == "factions" && p[1].stepNum == 2
      && (forall k :: 2 <= k < 2 + |specs| ==> p[k].step == "agents" && p[k].stepNum == k + 1)
      && p[|p| - 2].step == "relationships" && p[|p| - 2].stepNum == numFactions + 3
      && p[|p| - 1].step == "tags" && p[|p| - 1].stepNum == numFactions + 4
  {
    var total := numFactions + 4;
    var p := ProgressTrace(numFactions, true, specs);
    var agents := AgentSteps(specs, total);
    AgentStepsAt(specs, total);
    forall k | 2 <= k < 2 + |specs| ensures p[k] == agents[k - 2] {
    }
  }

  /** The step numbers rise strictly exactly when the config has no more
      factions than were requested, and stay within `total_steps` exactly
      when it has at most two more. */
  lemma ProgressMonotone(numFactions: nat, specs: seq<FactionSpec>)
    ensures var p := ProgressTrace(numFactions, true, specs);
      && ((forall i, j :: 0 <= i < j < |p| ==> p[i].stepNum < p[j].stepNum) <==> |specs| <= numFactions)
      && ((forall k :: 0 <= k < |p| ==> 1 <= p[k].stepNum <= numFactions + 4) <==> |specs| <= numFactions + 2)
  {
    var p := ProgressTrace(numFactions, true, specs);
    ProgressNumbering(numFactions, specs);
    if |specs| <= numFactions {
      forall i, j | 0 <= i < j < |p| ensures p[i].stepNum < p[j].stepNum {
      }
    } else {
      assert p[1 + |specs|].stepNum >= p[|p| - 2].stepNum;
    }
    if |specs| > numFactions + 2 {
      assert p[1 + |specs|].stepNum > numFactions + 4;
    }
  }

  /** `agent_count`, or the configured default. */
  function AgentCount(spec: FactionSpec, defaultAgents: int): int {
    spec.agentCount.GetOr(defaultAgents)
  }

  /** The personas of each faction, `reply(name, start, attempt)` being
      the answer for that faction's batch and attempt. */
  function FactionPersonas<P>(specs: seq<FactionSpec>, defaultAgents: int,
                              reply: (string, nat, nat) -> seq<P>): seq<seq<P>> {
    if specs == [] then []
    else
      var spec := specs[|specs| - 1];
      FactionPersonas(specs[..|specs| - 1], defaultAgents, reply)
      + [Personas(AgentCount(spec, defaultAgents), (s: nat, a: nat) => reply(spec.name, s, a))]
  }

  function Factions(specs: seq<FactionSpec>): seq<Faction> {
    if specs == [] then [] else Factions(specs[..|specs| - 1]) + [FactionOf(specs[|specs| - 1])]
  }

  /** No faction gets more agents than it asked for. */
  lemma {:induction false} FactionPersonasBound<P>(specs: seq<FactionSpec>, defaultAgents: int,
                                                   reply: (string, nat, nat) -> seq<P>)
    ensures |FactionPersonas(specs, defaultAgents, reply)| == |specs|
    ensures forall i :: 0 <= i < |specs| ==>
      |FactionPersonas(specs, defaultAgents, reply)[i]| <= if AgentCount(specs[i], defaultAgents) > 0 then AgentCount(specs[i], defaultAgents) else 0
  {
    if specs != [] {
      var spec := specs[|specs| - 1];
      FactionPersonasBound(specs[..|specs| - 1], defaultAgents, reply);
      PersonasBound(AgentCount(spec, defaultAgents), (s: nat, a: nat) => reply(spec.name, s, a));
    }
  }

  /** What `populate_world` produces besides the random relationships. */
  datatype Population<P> = Population(progress: seq<Progress>, factions: seq<Faction>, personas: seq<seq<P>>, tags: seq<TagRow>)

  /** `populate_world`: the factions of the config, each faction's agents,
      the tags; nothing but the first progress attempt when the world row
      is missing. */
  function Populate<P>(numFactions: nat, worldFound: bool, specs: seq<FactionSpec>, defaultAgents: int,
                       reply: (string, nat, nat) -> seq<P>, tags: seq<TagItem>): Population<P> {
    if !worldFound then Population([], [], [], [])
    else Population(ProgressTrace(numFactions, true, specs), Factions(specs),
                    FactionPersonas(specs, defaultAgents, reply), WorldTags(tags))
  }

  /** The loop over factions: a progress step, then that faction's personas. */
  method PopulateFactions<P>(specs: seq<FactionSpec>, total: int, defaultAgents: int,
                             reply: (string, nat, nat) -> seq<P>)
    returns (steps: seq<Progress>, personas: seq<seq<P>>)
    ensures steps == AgentSteps(specs, total)
    ensures personas == FactionPersonas(specs, defaultAgents, reply)
  {
    steps := [];
    personas := [];
    var idx := 0;
    while idx < |specs|
      invariant 0 <= idx <= |specs|
      invariant steps == AgentSteps(specs[..idx], total)
      invariant personas == FactionPersonas(specs[..idx], defaultAgents, reply)
    {
      assert specs[..idx + 1][..idx] == specs[..idx];
      var spec := specs[idx];
      steps := steps + [Progress("agents", 3 + idx, total, "Summoning agents for " + spec.name + "...")];
      var count := if spec.agentCount.Some? then spec.agentCount.value else defaultAgents;
      var batch, _ := GeneratePersonas(count, (s: nat, a: nat) => reply(spec.name, s, a));
      personas := personas + [batch];
      idx := idx + 1;
    }
    assert specs[..|specs|] == specs;
  }

  method CreateFactions(specs: seq<FactionSpec>) returns (factions: seq<Faction>)
    ensures factions == Factions(specs)
  {
    factions := [];
    var i := 0;
    while i < |specs|
      invariant 0 <= i <= |specs|
      invariant factions == Factions(specs[..i])
    {
      assert specs[..i + 1][..i] == specs[..i];
      var spec := specs[i];
      factions := factions + [Faction(spec.name, spec.description.GetOr(""), spec.color.GetOr("#FFFFFF"))];
      i := i + 1;
    }
    assert specs[..|specs|] == specs;
  }

  /** `populate_world` step by step. */
  method PopulateWorld<P>(numFactions: nat, worldFound: bool, specs: seq<FactionSpec>, defaultAgents: int,
                          reply: (string, nat, nat) -> seq<P>, tags: seq<TagItem>)
    returns (pop: Population<P>)
    ensures pop == Populate(numFactions, worldFound, specs, defaultAgents, reply, tags)
  {
    var total := numFactions + 4;
    if !worldFound {
      return Population([], [], [], []);
    }
    var progress := [Progress("world_config", 1, total, "Designing world architecture...")];
    progress := progress + [Progress("factions", 2, total, "Establishing factions...")];
    var factions := CreateFactions(specs);
    var steps, personas := PopulateFactions(specs, total, defaultAgents, reply);
    progress := progress + steps;
    progress := progress + [Progress("relationships", total - 1, total, "Weaving relationships...")];
    progress := progress + [Progress("tags", total, total, "Classifying world tags...")];
    var rows := GenerateWorldTags(tags);
    pop := Population(progress, factions, personas, rows);
  }

  /** `create_world`: a new row in status "generating" while it is
      populated, "created" afterwards. */
  method CreateWorld<P>(id: WorldId, numFactions: nat, specs: seq<FactionSpec>, defaultAgents: int,
                        reply: (string, nat, nat) -> seq<P>, tags: seq<TagItem>)
    returns (world: Rows.WorldRow, during: string, pop: Population<P>)
    ensures fresh(world) && world.id == id
    ensures during == "generating" && world.status == "created"
    ensures pop == Populate(numFactions, true, specs, defaultAgents, reply, tags)
  {
    world := new Rows.WorldRow(id);
    world.status := "generating";
    during := world.status;
    pop := PopulateWorld(numFactions, true, specs, defaultAgents, reply, tags);
    world.status := "created";
  }
}
