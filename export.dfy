/** The plain-text exports of a world: the knowledge graph as CSV, the wiki
    as Markdown, the conversations as JSON Lines, and everything at once as
    JSON Lines. The rows are what the database queries return. */
module Export {
  import opened Wrappers
  import Text
  import Sorting
  import Json

  // ---------------------------------------------------------------------------
  // Rows
  // ---------------------------------------------------------------------------

  /** A knowledge edge; its confidence is kept as the text `str(float)`
      gives. */
  datatype Edge = Edge(subject: string, pred: string, obj: string, confidence: string)

  datatype Page = Page(id: string, title: string, content: string, status: string, version: int)

  /** A conversation row; `participants` and `messages` are JSON columns and
      `summary` may be NULL. */
  datatype Conversation = Conversation(
    id: string, epoch: int, tick: int, topic: string,
    participants: Json.Value, messages: Json.Value, summary: Option<string>, createdAt: int)

  datatype World = World(id: string, seedPrompt: string, config: Json.Value, status: string)

  datatype Agent = Agent(id: string, name: string, persona: Json.Value, beliefs: Json.Value)

  // ---------------------------------------------------------------------------
  // Knowledge graph as CSV
  // ---------------------------------------------------------------------------

  const CsvHeader: string := "subject,predicate,object,confidence"

  /** `s.replace('"', '""')`. */
  function DoubleQuotes(s: string): string {
    if s == [] then []
    else (if s[0] == '"' then "\"\"" else [s[0]]) + DoubleQuotes(s[1..])
  }

  /** Reads a quoted field whose opening quote has been consumed, a doubled
      quote standing for one quote: the field and what follows the closing
      quote. */
  function Undouble(t: string): Option<(string, string)>
    decreases |t|
  {
    if t == [] then None
    else if t[0] != '"' then
      match Undouble(t[1..])
      case None => None
      case Some((v, rest)) => Some(([t[0]] + v, rest))
    else if |t| >= 2 && t[1] == '"' then
      match Undouble(t[2..])
      case None => None
      case Some((v, rest)) => Some((['"'] + v, rest))
    else Some(([], t[1..]))
  }

  /** Un-doubling a quoted field recovers the value, whatever quotes it
      held, provided the closing quote is not followed by another quote. */
  lemma {:induction false} UndoubleRoundTrip(s: string, rest: string)
    requires rest == [] || rest[0] != '"'
    ensures Undouble(DoubleQuotes(s) + "\"" + rest) == Some((s, rest))
  {
    var t := DoubleQuotes(s) + "\"" + rest;
    if s == [] {
      assert t == "\"" + rest;
      assert t[1..] == rest;
    } else if s[0] == '"' {
      UndoubleRoundTrip(s[1..], rest);
      assert t == "\"\"" + (DoubleQuotes(s[1..]) + "\"" + rest);
      assert t[2..] == DoubleQuotes(s[1..]) + "\"" + rest;
      assert ['"'] + s[1..] == s;
    } else {
      UndoubleRoundTrip(s[1..], rest);
      assert t == [s[0]] + (DoubleQuotes(s[1..]) + "\"" + rest);
      assert t[1..] == DoubleQuotes(s[1..]) + "\"" + rest;
      assert [s[0]] + s[1..] == s;
    }
  }

  /** A text field as the CSV writes it: in double quotes, its own quotes
      doubled. */
  function Quoted(s: string): string {
    "\"" + DoubleQuotes(s) + "\""
  }

  /** Reads a quoted field at the start of `t`: the field and what follows
      its closing quote. */
  function QuotedField(t: string): Option<(string, string)> {
    if t == [] || t[0] != '"' then None else Undouble(t[1..])
  }

  lemma QuotedRoundTrip(s: string, rest: string)
    requires rest == [] || rest[0] != '"'
    ensures QuotedField(Quoted(s) + rest) == Some((s, rest))
  {
    var t := Quoted(s) + rest;
    assert t[1..] == DoubleQuotes(s) + "\"" + rest;
    UndoubleRoundTrip(s, rest);
  }

  /** One CSV record: the three text fields quoted, the confidence bare. */
  function CsvLine(e: Edge): string {
    Quoted(e.subject) + "," + Quoted(e.pred) + "," + Quoted(e.obj) + "," + e.confidence
  }

  /** A comma, then a quoted field. */
  function NextField(t: string): Option<(string, string)> {
    if t == [] || t[0] != ',' then None else QuotedField(t[1..])
  }

  /** Reads a CSV record back into an edge. */
  function ParseCsvLine(line: string): Option<Edge> {
    match QuotedField(line)
    case None => None
    case Some((subject, r1)) =>
      match NextField(r1)
      case None => None
      case Some((pred, r2)) =>
        match NextField(r2)
        case None => None
        case Some((obj, r3)) =>
          if r3 == [] || r3[0] != ',' then None else Some(Edge(subject, pred, obj, r3[1..]))
  }

  lemma NextFieldRoundTrip(s: string, rest: string)
    requires rest == [] || rest[0] != '"'
    ensures NextField("," + Quoted(s) + rest) == Some((s, rest))
  {
    var t := "," + Quoted(s) + rest;
    assert t[1..] == Quoted(s) + rest;
    QuotedRoundTrip(s, rest);
  }

  /** Every edge is recovered from its CSV record: quoting with doubled
      quotes loses nothing. */
  lemma CsvLineRoundTrip(e: Edge)
    ensures ParseCsvLine(CsvLine(e)) == Some(e)
  {
    var tail3 := "," + e.confidence;
    var tail2 := "," + Quoted(e.obj) + tail3;
    var tail1 := "," + Quoted(e.pred) + tail2;
    assert CsvLine(e) == Quoted(e.subject) + tail1;
    QuotedRoundTrip(e.subject, tail1);
    NextFieldRoundTrip(e.pred, tail2);
    NextFieldRoundTrip(e.obj, tail3);
    assert tail3[1..] == e.confidence;
  }

  /** The lines of the CSV export: the header, then one record per edge. */
  function CsvLines(edges: seq<Edge>): (r: seq<string>)
    ensures |r| == |edges| + 1
    ensures r[0] == CsvHeader
    ensures forall k :: 0 <= k < |edges| ==> r[k + 1] == CsvLine(edges[k])
  {
    if edges == [] then [CsvHeader]
    else CsvLines(edges[..|edges| - 1]) + [CsvLine(edges[|edges| - 1])]
  }

  function KnowledgeGraphCsv(edges: seq<Edge>): string {
    Text.Join("\n", CsvLines(edges))
  }

  /** `export_knowledge_graph` with `format="csv"`. */
  method ExportKnowledgeGraphCsv(edges: seq<Edge>) returns (text: string)
    ensures text == KnowledgeGraphCsv(edges)
  {
    var lines := [CsvHeader];
    var i := 0;
    while i < |edges|
      invariant 0 <= i <= |edges|
      invariant lines == CsvLines(edges[..i])
    {
      assert edges[..i + 1][..i] == edges[..i];
      lines := lines + [CsvLine(edges[i])];
      i := i + 1;
    }
    assert edges[..|edges|] == edges;
    text := Text.Join("\n", lines);
  }

  /** An edge none of whose fields holds a line feed. */
  predicate SingleLine(e: Edge) {
    Json.Free(e.subject, '\n') && Json.Free(e.pred, '\n')
    && Json.Free(e.obj, '\n') && Json.Free(e.confidence, '\n')
  }

  lemma DoubleQuotesFree(s: string)
    requires Json.Free(s, '\n')
    ensures Json.Free(DoubleQuotes(s), '\n')
  {
    if s != [] {
      DoubleQuotesFree(s[1..]);
      Json.ConcatFree(if s[0] == '"' then "\"\"" else [s[0]], DoubleQuotes(s[1..]), '\n');
    }
  }

  lemma QuotedFree(s: string)
    requires Json.Free(s, '\n')
    ensures Json.Free(Quoted(s), '\n')
  {
    DoubleQuotesFree(s);
    Json.ConcatFree("\"", DoubleQuotes(s), '\n');
    Json.ConcatFree("\"" + DoubleQuotes(s), "\"", '\n');
  }

  lemma CsvLineFree(e: Edge)
    requires SingleLine(e)
    ensures Json.Free(CsvLine(e), '\n')
  {
    QuotedFree(e.subject);
    QuotedFree(e.pred);
    QuotedFree(e.obj);
    var a1 := Quoted(e.subject) + ",";
    Json.ConcatFree(Quoted(e.subject), ",", '\n');
    var a2 := a1 + Quoted(e.pred);
    Json.ConcatFree(a1, Quoted(e.pred), '\n');
    var a3 := a2 + ",";
    Json.ConcatFree(a2, ",", '\n');
    var a4 := a3 + Quoted(e.obj);
    Json.ConcatFree(a3, Quoted(e.obj), '\n');
    var a5 := a4 + ",";
    Json.ConcatFree(a4, ",", '\n');
    Json.ConcatFree(a5, e.confidence, '\n');
  }

  /** The CSV text, split at line feeds, is the header followed by exactly
      one record per edge, and each record reads back as its edge. */
  lemma KnowledgeGraphCsvLines(edges: seq<Edge>)
    requires forall k :: 0 <= k < |edges| ==> SingleLine(edges[k])
    ensures var lines := Text.Split(KnowledgeGraphCsv(edges), '\n');
      && |lines| == |edges| + 1
      && lines[0] == CsvHeader
      && forall k :: 0 <= k < |edges| ==> ParseCsvLine(lines[k + 1]) == Some(edges[k])
  {
    var lines := CsvLines(edges);
    forall p, i | p in lines && 0 <= i < |p| ensures p[i] != '\n' {
      var k :| 0 <= k < |lines| && lines[k] == p;
      if k > 0 {
        CsvLineFree(edges[k - 1]);
      }
    }
    Text.SplitJoin(lines, '\n');
    forall k | 0 <= k < |edges| ensures ParseCsvLine(lines[k + 1]) == Some(edges[k]) {
      CsvLineRoundTrip(edges[k]);
    }
  }

  // ---------------------------------------------------------------------------
  // Wiki as Markdown
  // ---------------------------------------------------------------------------

  /** The four lines of one page: its title as a heading, its status and
      version, its content, and a rule. */
  function PageBlock(p: Page): seq<string> {
    ["# " + p.title + "\n",
     "*Status: " + p.status + " | Version: " + Text.IntToString(p.version) + "*\n",
     p.content + "\n",
     "---\n"]
  }

  /** The blocks `f` gives each element, one after another. */
  function Blocks<T>(xs: seq<T>, f: T -> seq<string>): seq<string> {
    if xs == [] then []
    else Blocks(xs[..|xs| - 1], f) + f(xs[|xs| - 1])
  }

  /** The lines of the Markdown export, page by page. */
  function MarkdownLines(pages: seq<Page>): seq<string> {
    Blocks(pages, PageBlock)
  }

  lemma SliceOfFront<T>(front: seq<T>, back: seq<T>, i: nat, j: nat)
    requires i <= j <= |front|
    ensures (front + back)[i..j] == front[i..j]
  {
  }

  /** With blocks of four, block `k` sits at lines `4k` to `4k + 3`. */
  lemma {:induction false} BlocksAt<T>(xs: seq<T>, f: T -> seq<string>)
    requires forall x :: |f(x)| == 4
    ensures |Blocks(xs, f)| == 4 * |xs|
    ensures forall k :: 0 <= k < |xs| ==> Blocks(xs, f)[4 * k..4 * k + 4] == f(xs[k])
  {
    if xs != [] {
      var n := |xs| - 1;
      var init := xs[..n];
      var last := f(xs[n]);
      BlocksAt(init, f);
      var front := Blocks(init, f);
      var r := front + last;
      assert Blocks(xs, f) == r;
      assert r[4 * n..4 * n + 4] == last;
      forall k | 0 <= k < n ensures r[4 * k..4 * k + 4] == f(xs[k]) {
        SliceOfFront(front, last, 4 * k, 4 * k + 4);
        assert xs[k] == init[k];
      }
    }
  }

  /** Four lines per page, in page order: the title as a heading, the
      status and version, the content, and a rule. */
  lemma MarkdownShape(pages: seq<Page>)
    ensures var r := MarkdownLines(pages);
      && |r| == 4 * |pages|
      && forall k :: 0 <= k < |pages| ==>
        && r[4 * k] == "# " + pages[k].title + "\n"
        && r[4 * k + 1] == "*Status: " + pages[k].status + " | Version: " + Text.IntToString(pages[k].version) + "*\n"
        && r[4 * k + 2] == pages[k].content + "\n"
        && r[4 * k + 3] == "---\n"
  {
    BlocksAt(pages, PageBlock);
    var r := MarkdownLines(pages);
    forall k | 0 <= k < |pages|
      ensures r[4 * k] == "# " + pages[k].title + "\n"
      ensures r[4 * k + 1] == "*Status: " + pages[k].status + " | Version: " + Text.IntToString(pages[k].version) + "*\n"
      ensures r[4 * k + 2] == pages[k].content + "\n"
      ensures r[4 * k + 3] == "---\n"
    {
      QuadAt(r, 4 * k, PageBlock(pages[k]));
    }
  }

  lemma QuadAt<T>(r: seq<T>, i: nat, b: seq<T>)
    requires i + 4 <= |r| && r[i..i + 4] == b
    ensures r[i] == b[0] && r[i + 1] == b[1] && r[i + 2] == b[2] && r[i + 3] == b[3]
  {
    assert r[i..i + 4][1] == r[i + 1];
  }

  function WikiMarkdown(pages: seq<Page>): string {
    Text.Join("\n", MarkdownLines(pages))
  }

  /** `export_wiki` with `format="md"`. */
  method ExportWikiMarkdown(pages: seq<Page>) returns (text: string)
    ensures text == WikiMarkdown(pages)
  {
    var lines: seq<string> := [];
    var i := 0;
    while i < |pages|
      invariant 0 <= i <= |pages|
      invariant lines == MarkdownLines(pages[..i])
    {
      var p := pages[i];
      assert pages[..i + 1][..i] == pages[..i];
      var block := ["# " + p.title + "\n",
                    "*Status: " + p.status + " | Version: " + Text.IntToString(p.version) + "*\n",
                    p.content + "\n",
                    "---\n"];
      assert block == PageBlock(p);
      lines := lines + block;
      i := i + 1;
    }
    assert pages[..|pages|] == pages;
    text := Text.Join("\n", lines);
  }

  // ---------------------------------------------------------------------------
  // JSON Lines
  // ---------------------------------------------------------------------------

  /** `json.dumps(v, ensure_ascii=False)` of each value, in order. */
  function DumpLines(vs: seq<Json.Value>): (r: seq<string>)
    ensures |r| == |vs|
  {
    if vs == [] then [] else DumpLines(vs[..|vs| - 1]) + [Json.Dumps(vs[|vs| - 1])]
  }

  /** One line per value, each the dump of its value. */
  lemma {:induction false} DumpLinesAt(vs: seq<Json.Value>)
    ensures |DumpLines(vs)| == |vs|
    ensures forall k :: 0 <= k < |vs| ==> DumpLines(vs)[k] == Json.Dumps(vs[k])
  {
    if vs != [] {
      DumpLinesAt(vs[..|vs| - 1]);
    }
  }

  lemma {:induction false} DumpLinesAppend(a: seq<Json.Value>, b: seq<Json.Value>)
    ensures DumpLines(a + b) == DumpLines(a) + DumpLines(b)
  {
    DumpLinesAt(a);
    DumpLinesAt(b);
    DumpLinesAt(a + b);
  }

  /** One record per row, in row order. */
  function Records<T>(rows: seq<T>, record: T -> Json.Value): (r: seq<Json.Value>)
    ensures |r| == |rows|
  {
    if rows == [] then [] else Records(rows[..|rows| - 1], record) + [record(rows[|rows| - 1])]
  }

  lemma {:induction false} RecordsAt<T>(rows: seq<T>, record: T -> Json.Value)
    ensures |Records(rows, record)| == |rows|
    ensures forall k :: 0 <= k < |rows| ==> Records(rows, record)[k] == record(rows[k])
  {
    if rows != [] {
      RecordsAt(rows[..|rows| - 1], record);
    }
  }

  /** Lines with no line feed in them, joined with line feeds, split back
      into the same lines. */
  lemma JsonLinesSplit(vs: seq<Json.Value>)
    requires vs != []
    requires forall k :: 0 <= k < |vs| ==> Json.PlainFloats(vs[k])
    ensures Text.Split(Text.Join("\n", DumpLines(vs)), '\n') == DumpLines(vs)
  {
    var lines := DumpLines(vs);
    DumpLinesAt(vs);
    forall p, i | p in lines && 0 <= i < |p| ensures p[i] != '\n' {
      var k :| 0 <= k < |lines| && lines[k] == p;
      Json.DumpsOneLine(vs[k]);
    }
    Text.SplitJoin(lines, '\n');
  }

  function Nullable(s: Option<string>): Json.Value {
    match s
    case None => Json.Null
    case Some(t) => Json.Str(t)
  }

  /** The object `export_conversations` writes for a conversation. */
  function ConversationRecord(c: Conversation): Json.Value {
    Json.Object([
      ("type", Json.Str("conversation")),
      ("epoch", Json.Int(c.epoch)),
      ("tick", Json.Int(c.tick)),
      ("topic", Json.Str(c.topic)),
      ("participants", c.participants),
      ("messages", c.messages),
      ("summary", Nullable(c.summary))])
  }

  /** `ORDER BY created_at`; rows created at the same instant keep their
      relative order. */
  function EarlierFirst(): (Conversation, Conversation) -> bool {
    (a: Conversation, b: Conversation) => a.createdAt <= b.createdAt
  }

  /** The conversations in the order the query returns them. */
  function ByCreation(convs: seq<Conversation>): seq<Conversation> {
    Sorting.Sort(convs, EarlierFirst())
  }

  function ConversationsJsonl(convs: seq<Conversation>): string {
    Text.Join("\n", DumpLines(Records(ByCreation(convs), ConversationRecord)))
  }

  /** The loop of `export_conversations` with `format="jsonl"`, over the
      rows as the query ordered them. */
  method DumpEach<T>(lines: seq<string>, rows: seq<T>, record: T -> Json.Value) returns (out: seq<string>)
    ensures out == lines + DumpLines(Records(rows, record))
  {
    out := lines;
    var i := 0;
    while i < |rows|
      invariant 0 <= i <= |rows|
      invariant out == lines + DumpLines(Records(rows[..i], record))
    {
      assert rows[..i + 1][..i] == rows[..i];
      out := out + [Json.Dumps(record(rows[i]))];
      i := i + 1;
    }
    assert rows[..|rows|] == rows;
  }

  /** `export_conversations` with `format="jsonl"`. */
  method ExportConversationsJsonl(convs: seq<Conversation>) returns (text: string)
    ensures text == ConversationsJsonl(convs)
  {
    var ordered := Sorting.Sort(convs, EarlierFirst());
    var lines := DumpEach([], ordered, ConversationRecord);
    assert lines == DumpLines(Records(ordered, ConversationRecord));
    text := Text.Join("\n", lines);
  }

  predicate PlainConversation(c: Conversation) {
    Json.PlainFloats(c.participants) && Json.PlainFloats(c.messages)
  }

  lemma ConversationPlain(c: Conversation)
    requires PlainConversation(c)
    ensures Json.PlainFloats(ConversationRecord(c))
  {
  }

  lemma EarlierFirstPreorder()
    ensures Sorting.TotalPreorder(EarlierFirst())
  {
  }

  /** Split at line feeds, the conversations export gives back the dump
      of each conversation's record, in query order. */
  lemma ConversationsJsonlLines(convs: seq<Conversation>)
    requires convs != []
    requires forall c :: c in convs ==> PlainConversation(c)
    ensures Text.Split(ConversationsJsonl(convs), '\n') == DumpLines(Records(ByCreation(convs), ConversationRecord))
  {
    var ordered := ByCreation(convs);
    var records := Records(ordered, ConversationRecord);
    RecordsAt(ordered, ConversationRecord);
    forall k | 0 <= k < |records| ensures Json.PlainFloats(records[k]) {
      assert ordered[k] in multiset(ordered);
      ConversationPlain(ordered[k]);
    }
    JsonLinesSplit(records);
  }

  /** The query's order holds every conversation once, earliest first. */
  lemma ByCreationSound(convs: seq<Conversation>)
    ensures var ordered := ByCreation(convs);
      && multiset(ordered) == multiset(convs)
      && (forall i, j :: 0 <= i < j < |ordered| ==> ordered[i].createdAt <= ordered[j].createdAt)
  {
    EarlierFirstPreorder();
    Sorting.SortSorted(convs, EarlierFirst());
  }

  /** One line per conversation, in order of creation, each the dump of
      its record. */
  lemma ConversationsJsonlSound(convs: seq<Conversation>)
    requires convs != []
    requires forall c :: c in convs ==> PlainConversation(c)
    ensures var ordered := ByCreation(convs);
      var lines := Text.Split(ConversationsJsonl(convs), '\n');
      && |lines| == |convs|
      && forall k :: 0 <= k < |convs| ==> lines[k] == Json.Dumps(ConversationRecord(ordered[k]))
  {
    var ordered := ByCreation(convs);
    ConversationsJsonlLines(convs);
    RecordsAt(ordered, ConversationRecord);
    DumpLinesAt(Records(ordered, ConversationRecord));
  }

  // ---------------------------------------------------------------------------
  // Everything as JSON Lines
  // ---------------------------------------------------------------------------

  function WorldRecord(w: World): Json.Value {
    Json.Object([
      ("type", Json.Str("world")),
      ("id", Json.Str(w.id)),
      ("seed_prompt", Json.Str(w.seedPrompt)),
      ("config", w.config),
      ("status", Json.Str(w.status))])
  }

  function AgentRecord(a: Agent): Json.Value {
    Json.Object([
      ("type", Json.Str("agent")),
      ("id", Json.Str(a.id)),
      ("name", Json.Str(a.name)),
      ("persona", a.persona),
      ("beliefs", a.beliefs)])
  }

  function PageRecord(p: Page): Json.Value {
    Json.Object([
      ("type", Json.Str("wiki_page")),
      ("id", Json.Str(p.id)),
      ("title", Json.Str(p.title)),
      ("content", Json.Str(p.content)),
      ("status", Json.Str(p.status))])
  }

  function ConversationSummaryRecord(c: Conversation): Json.Value {
    Json.Object([
      ("type", Json.Str("conversation")),
      ("epoch", Json.Int(c.epoch)),
      ("topic", Json.Str(c.topic)),
      ("messages", c.messages),
      ("summary", Nullable(c.summary))])
  }

  function EdgeRecord(e: Edge): Json.Value {
    Json.Object([
      ("type", Json.Str("knowledge_edge")),
      ("subject", Json.Str(e.subject)),
      ("predicate", Json.Str(e.pred)),
      ("object", Json.Str(e.obj)),
      ("confidence", Json.Float(e.confidence))])
  }

  /** The records of `export_all`: the world when its row exists, then its
      agents, wiki pages, conversations and knowledge edges. */
  function AllRecords(world: Option<World>, agents: seq<Agent>, pages: seq<Page>,
                      convs: seq<Conversation>, edges: seq<Edge>): seq<Json.Value> {
    (if world.Some? then [WorldRecord(world.value)] else [])
    + Records(agents, AgentRecord)
    + Records(pages, PageRecord)
    + Records(convs, ConversationSummaryRecord)
    + Records(edges, EdgeRecord)
  }

  function ExportAllText(world: Option<World>, agents: seq<Agent>, pages: seq<Page>,
                         convs: seq<Conversation>, edges: seq<Edge>): string {
    Text.Join("\n", DumpLines(AllRecords(world, agents, pages, convs, edges)))
  }

  /** `export_all`. */
  method ExportAll(world: Option<World>, agents: seq<Agent>, pages: seq<Page>,
                   convs: seq<Conversation>, edges: seq<Edge>) returns (text: string)
    ensures text == ExportAllText(world, agents, pages, convs, edges)
  {
    var head: seq<Json.Value> := if world.Some? then [WorldRecord(world.value)] else [];
    var lines: seq<string> := [];
    if world.Some? {
      lines := lines + [Json.Dumps(WorldRecord(world.value))];
    }
    assert lines == DumpLines(head);
    lines := DumpEach(lines, agents, AgentRecord);
    DumpLinesAppend(head, Records(agents, AgentRecord));
    var acc := head + Records(agents, AgentRecord);
    lines := DumpEach(lines, pages, PageRecord);
    DumpLinesAppend(acc, Records(pages, PageRecord));
    acc := acc + Records(pages, PageRecord);
    lines := DumpEach(lines, convs, ConversationSummaryRecord);
    DumpLinesAppend(acc, Records(convs, ConversationSummaryRecord));
    acc := acc + Records(convs, ConversationSummaryRecord);
    lines := DumpEach(lines, edges, EdgeRecord);
    DumpLinesAppend(acc, Records(edges, EdgeRecord));
    acc := acc + Records(edges, EdgeRecord);
    assert acc == AllRecords(world, agents, pages, convs, edges);
    text := Text.Join("\n", lines);
  }

  /** The `"type"` of a record. */
  function TypeOf(v: Json.Value): string {
    if v.Object? && |v.fields| > 0 && v.fields[0].0 == "type" && v.fields[0].1.Str?
    then v.fields[0].1.s else ""
  }

  /** The position of a record type in `export_all`. */
  function Section(t: string): nat {
    if t == "world" then 0
    else if t == "agent" then 1
    else if t == "wiki_page" then 2
    else if t == "conversation" then 3
    else 4
  }

  function SectionOf(v: Json.Value): nat {
    Section(TypeOf(v))
  }

  /** Records in section order. */
  predicate Ordered(r: seq<Json.Value>) {
    forall i, j :: 0 <= i < j < |r| ==> SectionOf(r[i]) <= SectionOf(r[j])
  }

  /** Records whose sections lie between `lo` and `hi`. */
  predicate Within(r: seq<Json.Value>, lo: nat, hi: nat) {
    forall k :: 0 <= k < |r| ==> lo <= SectionOf(r[k]) <= hi
  }

  /** Every record made from the rows has property `p` when every row's
      record has it. */
  lemma RecordsAll<T>(rows: seq<T>, record: T -> Json.Value, p: Json.Value -> bool)
    requires forall k :: 0 <= k < |rows| ==> p(record(rows[k]))
    ensures forall k :: 0 <= k < |Records(rows, record)| ==> p(Records(rows, record)[k])
  {
    RecordsAt(rows, record);
  }

  /** Appending a section's records after earlier sections keeps the order. */
  lemma Extend(x: seq<Json.Value>, y: seq<Json.Value>, lo: nat, s: nat)
    requires lo <= s
    requires Ordered(x) && Within(x, lo, s)
    requires Within(y, s, s)
    ensures Ordered(x + y) && Within(x + y, lo, s)
  {
    var r := x + y;
    forall i, j | 0 <= i < j < |r| ensures SectionOf(r[i]) <= SectionOf(r[j]) {
      if j < |x| {
        assert r[i] == x[i] && r[j] == x[j];
      } else if i < |x| {
        assert r[i] == x[i] && r[j] == y[j - |x|];
      } else {
        assert r[i] == y[i - |x|] && r[j] == y[j - |x|];
      }
    }
    forall k | 0 <= k < |r| ensures lo <= SectionOf(r[k]) <= s {
      if k < |x| {
        assert r[k] == x[k];
      } else {
        assert r[k] == y[k - |x|];
      }
    }
  }

  /** The records after the world's: agents, wiki pages, conversations and
      knowledge edges. */
  function RowRecords(agents: seq<Agent>, pages: seq<Page>, convs: seq<Conversation>, edges: seq<Edge>): seq<Json.Value> {
    Records(agents, AgentRecord) + Records(pages, PageRecord)
    + Records(convs, ConversationSummaryRecord) + Records(edges, EdgeRecord)
  }

  lemma SectionsWithin(agents: seq<Agent>, pages: seq<Page>, convs: seq<Conversation>, edges: seq<Edge>)
    ensures Ordered(Records(agents, AgentRecord)) && Within(Records(agents, AgentRecord), 1, 1)
    ensures Within(Records(pages, PageRecord), 2, 2)
    ensures Within(Records(convs, ConversationSummaryRecord), 3, 3)
    ensures Within(Records(edges, EdgeRecord), 4, 4)
  {
    RecordsAll(agents, AgentRecord, v => 1 <= SectionOf(v) <= 1);
    RecordsAll(pages, PageRecord, v => 2 <= SectionOf(v) <= 2);
    RecordsAll(convs, ConversationSummaryRecord, v => 3 <= SectionOf(v) <= 3);
    RecordsAll(edges, EdgeRecord, v => 4 <= SectionOf(v) <= 4);
  }

  lemma RowRecordsOrdered(agents: seq<Agent>, pages: seq<Page>, convs: seq<Conversation>, edges: seq<Edge>)
    ensures Ordered(RowRecords(agents, pages, convs, edges))
    ensures Within(RowRecords(agents, pages, convs, edges), 1, 4)
  {
    var a := Records(agents, AgentRecord);
    var p := Records(pages, PageRecord);
    var c := Records(convs, ConversationSummaryRecord);
    var e := Records(edges, EdgeRecord);
    SectionsWithin(agents, pages, convs, edges);
    Extend(a, p, 1, 2);
    Extend(a + p, c, 1, 3);
    Extend(a + p + c, e, 1, 4);
  }

  /** `export_all` puts its sections in the order world, agents, wiki
      pages, conversations, knowledge edges, and writes a world record,
      first, exactly when the world row exists. */
  lemma ExportAllOrder(world: Option<World>, agents: seq<Agent>, pages: seq<Page>,
                       convs: seq<Conversation>, edges: seq<Edge>)
    ensures var r := AllRecords(world, agents, pages, convs, edges);
      && (forall i, j :: 0 <= i < j < |r| ==> Section(TypeOf(r[i])) <= Section(TypeOf(r[j])))
      && (forall k :: 0 <= k < |r| ==> (TypeOf(r[k]) == "world" <==> world.Some? && k == 0))
  {
    var head: seq<Json.Value> := if world.Some? then [WorldRecord(world.value)] else [];
    var rows := RowRecords(agents, pages, convs, edges);
    RowRecordsOrdered(agents, pages, convs, edges);
    HeadFirst(head, rows);
    AllRecordsSplit(world, agents, pages, convs, edges);
  }

  lemma AllRecordsSplit(world: Option<World>, agents: seq<Agent>, pages: seq<Page>,
                        convs: seq<Conversation>, edges: seq<Edge>)
    ensures AllRecords(world, agents, pages, convs, edges)
         == (if world.Some? then [WorldRecord(world.value)] else []) + RowRecords(agents, pages, convs, edges)
  {
  }

  /** World records (section 0) ahead of the others keep the order, and
      are exactly the leading ones. */
  lemma HeadFirst(head: seq<Json.Value>, rows: seq<Json.Value>)
    requires Within(head, 0, 0)
    requires Ordered(rows) && Within(rows, 1, 4)
    ensures Ordered(head + rows)
    ensures forall k :: 0 <= k < |head + rows| ==> (SectionOf((head + rows)[k]) == 0 <==> k < |head|)
  {
    var r := head + rows;
    forall k | |head| <= k < |r| ensures r[k] == rows[k - |head|] {
    }
  }

  /** `export_all` writes one record per row, rows in query order within
      their section: the world's record (when the row exists), then the
      agents', the pages', the conversations' and the edges'. */
  lemma ExportAllContents(world: Option<World>, agents: seq<Agent>, pages: seq<Page>,
                          convs: seq<Conversation>, edges: seq<Edge>)
    ensures var r := AllRecords(world, agents, pages, convs, edges);
      var w := if world.Some? then 1 else 0;
      var a := w + |agents|;
      var p := a + |pages|;
      var c := p + |convs|;
      && |r| == c + |edges|
      && (world.Some? ==> r[0] == WorldRecord(world.value))
      && r[w..a] == Records(agents, AgentRecord)
      && r[a..p] == Records(pages, PageRecord)
      && r[p..c] == Records(convs, ConversationSummaryRecord)
      && r[c..] == Records(edges, EdgeRecord)
  {
    var head: seq<Json.Value> := if world.Some? then [WorldRecord(world.value)] else [];
    var ra := Records(agents, AgentRecord);
    var rp := Records(pages, PageRecord);
    var rc := Records(convs, ConversationSummaryRecord);
    var re := Records(edges, EdgeRecord);
    var r := head + ra + rp + rc + re;
    assert r == AllRecords(world, agents, pages, convs, edges);
    var w, a, p, c := |head|, |head| + |ra|, |head| + |ra| + |rp|, |head| + |ra| + |rp| + |rc|;
    assert r[c..] == re;
    assert r[..c] == head + ra + rp + rc;
    assert r[p..c] == rc;
    assert r[..p] == head + ra + rp;
    assert r[a..p] == rp;
    assert r[..a] == head + ra;
    assert r[w..a] == ra;
  }

  predicate PlainRows(world: Option<World>, agents: seq<Agent>, convs: seq<Conversation>) {
    && (world.Some? ==> Json.PlainFloats(world.value.config))
    && (forall k :: 0 <= k < |agents| ==> Json.PlainFloats(agents[k].persona) && Json.PlainFloats(agents[k].beliefs))
    && (forall k :: 0 <= k < |convs| ==> Json.PlainFloats(convs[k].messages))
  }

  predicate AllPlain(r: seq<Json.Value>) {
    forall k :: 0 <= k < |r| ==> Json.PlainFloats(r[k])
  }

  lemma PlainConcat(x: seq<Json.Value>, y: seq<Json.Value>)
    requires AllPlain(x) && AllPlain(y)
    ensures AllPlain(x + y)
  {
    forall k | |x| <= k < |x + y| ensures Json.PlainFloats((x + y)[k]) {
      assert (x + y)[k] == y[k - |x|];
    }
  }

  lemma RowRecordsPlain(agents: seq<Agent>, pages: seq<Page>, convs: seq<Conversation>, edges: seq<Edge>)
    requires PlainRows(None, agents, convs)
    requires forall k :: 0 <= k < |edges| ==> Json.Free(edges[k].confidence, '\n')
    ensures AllPlain(RowRecords(agents, pages, convs, edges))
  {
    var a := Records(agents, AgentRecord);
    var p := Records(pages, PageRecord);
    var c := Records(convs, ConversationSummaryRecord);
    var e := Records(edges, EdgeRecord);
    forall k | 0 <= k < |agents| ensures Json.PlainFloats(AgentRecord(agents[k])) {
      AgentRecordPlain(agents[k]);
    }
    forall k | 0 <= k < |pages| ensures Json.PlainFloats(PageRecord(pages[k])) {
      PageRecordPlain(pages[k]);
    }
    forall k | 0 <= k < |convs| ensures Json.PlainFloats(ConversationSummaryRecord(convs[k])) {
      ConversationRecordPlain(convs[k]);
    }
    forall k | 0 <= k < |edges| ensures Json.PlainFloats(EdgeRecord(edges[k])) {
      EdgeRecordPlain(edges[k]);
    }
    RecordsAll(agents, AgentRecord, Json.PlainFloats);
    RecordsAll(pages, PageRecord, Json.PlainFloats);
    RecordsAll(convs, ConversationSummaryRecord, Json.PlainFloats);
    RecordsAll(edges, EdgeRecord, Json.PlainFloats);
    PlainConcat(a, p);
    PlainConcat(a + p, c);
    PlainConcat(a + p + c, e);
  }

  lemma AgentRecordPlain(a: Agent)
    requires Json.PlainFloats(a.persona) && Json.PlainFloats(a.beliefs)
    ensures Json.PlainFloats(AgentRecord(a))
  {
    var fields := AgentRecord(a).fields;
    assert fields[3].1 == a.persona && fields[4].1 == a.beliefs;
  }

  lemma PageRecordPlain(p: Page)
    ensures Json.PlainFloats(PageRecord(p))
  {
  }

  lemma ConversationRecordPlain(c: Conversation)
    requires Json.PlainFloats(c.messages)
    ensures Json.PlainFloats(ConversationSummaryRecord(c))
  {
    var fields := ConversationSummaryRecord(c).fields;
    assert fields[3].1 == c.messages;
  }

  lemma EdgeRecordPlain(e: Edge)
    requires Json.Free(e.confidence, '\n')
    ensures Json.PlainFloats(EdgeRecord(e))
  {
    var fields := EdgeRecord(e).fields;
    assert fields[4].1 == Json.Float(e.confidence);
  }

  /** Split at line feeds, the `export_all` text gives back one JSON
      document per record. */
  lemma ExportAllLines(world: Option<World>, agents: seq<Agent>, pages: seq<Page>,
                       convs: seq<Conversation>, edges: seq<Edge>)
    requires PlainRows(world, agents, convs)
    requires forall k :: 0 <= k < |edges| ==> Json.Free(edges[k].confidence, '\n')
    requires world.Some? || agents != [] || pages != [] || convs != [] || edges != []
    ensures Text.Split(ExportAllText(world, agents, pages, convs, edges), '\n')
         == DumpLines(AllRecords(world, agents, pages, convs, edges))
  {
    var head: seq<Json.Value> := if world.Some? then [WorldRecord(world.value)] else [];
    var rows := RowRecords(agents, pages, convs, edges);
    assert PlainRows(None, agents, convs);
    RowRecordsPlain(agents, pages, convs, edges);
    assert AllPlain(head);
    PlainConcat(head, rows);
    AllRecordsSplit(world, agents, pages, convs, edges);
    ContentsSizes(world, agents, pages, convs, edges);
    JsonLinesSplit(AllRecords(world, agents, pages, convs, edges));
  }

  lemma ContentsSizes(world: Option<World>, agents: seq<Agent>, pages: seq<Page>,
                      convs: seq<Conversation>, edges: seq<Edge>)
    requires world.Some? || agents != [] || pages != [] || convs != [] || edges != []
    ensures AllRecords(world, agents, pages, convs, edges) != []
  {
    var r := AllRecords(world, agents, pages, convs, edges);
    assert |r| == (if world.Some? then 1 else 0) + |agents| + |pages| + |convs| + |edges|;
  }
}
