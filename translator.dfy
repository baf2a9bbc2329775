/** The background translator: conversations, wiki pages and strata whose
    Korean fields are still empty are translated in batches of five. The
    LLM is a parameter `llm` giving, for the text to translate, the text
    `generate_text` returned, or `None` when the call raised. */
module Translator {
  import opened Wrappers
  import Text
  import LlmRouter

  const BatchSize: nat := 5
  const ErrorPrefix: string := "(LLM error"

  type Llm = string -> Option<string>

  // ---------------------------------------------------------------------------
  // One text
  // ---------------------------------------------------------------------------

  /** `translate_to_korean`: nothing for an empty or blank text, nothing
      when the call raised, answered nothing or answered an error text, and
      otherwise the answer stripped of surrounding whitespace. */
  function TranslateToKorean(text: string, llm: Llm): Option<string> {
    if Text.IsBlank(text) then None
    else match llm(text)
      case None => None
      case Some(result) =>
        if result != [] && !Text.StartsWith(result, ErrorPrefix) then Some(Text.Strip(result)) else None
  }

  /** A blank text is never sent to the LLM: whatever it would answer, the
      result is nothing. */
  lemma BlankNotTranslated(text: string, llm: Llm, other: Llm)
    requires Text.IsBlank(text)
    ensures TranslateToKorean(text, llm) == None
    ensures TranslateToKorean(text, llm) == TranslateToKorean(text, other)
  {
  }

  /** A translation exists exactly when the text is not blank and the LLM
      gave a non-empty answer that is not an error text; it is that answer
      stripped, so it never starts or ends with whitespace. */
  lemma TranslationSound(text: string, llm: Llm)
    ensures var r := TranslateToKorean(text, llm);
      && (r.Some? <==> (!Text.IsBlank(text) && llm(text).Some? && llm(text).value != []
                        && !Text.StartsWith(llm(text).value, "(LLM error")))
      && (r.Some? ==> r.value == Text.Strip(llm(text).value))
      && (r.Some? && r.value != [] ==> !Text.IsSpace(r.value[0]) && !Text.IsSpace(r.value[|r.value| - 1]))
  {
    assert ErrorPrefix == "(LLM error";
    if !Text.IsBlank(text) && llm(text).Some? {
      var result := llm(text).value;
      assert TranslateToKorean(text, llm) ==
        if result != [] && !Text.StartsWith(result, ErrorPrefix) then Some(Text.Strip(result)) else None;
    }
  }

  lemma EmptyNotTranslated(llm: Llm)
    ensures TranslateToKorean("", llm) == None
  {
  }

  /** `translate_to_korean(x) if x else None`, the guard every row applies
      before calling: it changes nothing, as an empty text is never
      translated. */
  method TranslateIfPresent(text: string, llm: Llm) returns (r: Option<string>)
    ensures r == TranslateToKorean(text, llm)
  {
    if text != "" {
      r := TranslateToKorean(text, llm);
    } else {
      EmptyNotTranslated(llm);
      r := None;
    }
  }

  /** When the router's call fails, its "(LLM error" text is never taken
      for a translation. */
  lemma RouterFailureNotTranslated(text: string, useOllama: bool, budgetUsed: real, maxBudget: real)
    ensures var t := LlmRouter.Route(useOllama, "translator", budgetUsed, maxBudget);
      TranslateToKorean(text, (s: string) => Some(LlmRouter.TextOf(t, LlmRouter.Failure))) == None
  {
    LlmRouter.TextOfSound(useOllama, "translator", budgetUsed, maxBudget, LlmRouter.Failure);
  }

  // ---------------------------------------------------------------------------
  // Messages
  // ---------------------------------------------------------------------------

  /** A conversation message: a JSON object of string fields. */
  type Message = map<string, string>

  /** `msg.get("content", "")`. */
  function Content(msg: Message): string {
    if "content" in msg then msg["content"] else ""
  }

  /** The copy of one message: its content replaced by a non-empty
      translation, the message unchanged otherwise. */
  function TranslatedMessage(msg: Message, llm: Llm): Message {
    var content := Content(msg);
    if content == [] then msg
    else
      var ko := TranslateToKorean(content, llm);
      if ko.Some? && ko.value != [] then msg["content" := ko.value] else msg
  }

  function TranslatedMessages(msgs: seq<Message>, llm: Llm): seq<Message> {
    if msgs == [] then [] else TranslatedMessages(msgs[..|msgs| - 1], llm) + [TranslatedMessage(msgs[|msgs| - 1], llm)]
  }

  lemma {:induction false} TranslatedMessagesAt(msgs: seq<Message>, llm: Llm)
    ensures |TranslatedMessages(msgs, llm)| == |msgs|
    ensures forall k :: 0 <= k < |msgs| ==> TranslatedMessages(msgs, llm)[k] == TranslatedMessage(msgs[k], llm)
  {
    if msgs != [] {
      var init := msgs[..|msgs| - 1];
      TranslatedMessagesAt(init, llm);
      var front := TranslatedMessages(init, llm);
      var last := TranslatedMessage(msgs[|msgs| - 1], llm);
      assert TranslatedMessages(msgs, llm) == front + [last];
      forall k | 0 <= k < |msgs| - 1 ensures (front + [last])[k] == TranslatedMessage(msgs[k], llm) {
        assert msgs[k] == init[k];
      }
    }
  }

  /** The copy of one message has the same fields, and the same value in
      every field but `content`. */
  lemma TranslatedMessageSound(msg: Message, llm: Llm)
    ensures var r := TranslatedMessage(msg, llm);
      && r.Keys == msg.Keys
      && (forall f :: f in msg && f != "content" ==> r[f] == msg[f])
      && (var ko := TranslateToKorean(Content(msg), llm);
          if Content(msg) != [] && ko.Some? && ko.value != [] then Content(r) == ko.value
          else r == msg)
  {
    var content := Content(msg);
    if content != [] {
      assert "content" in msg;
      var ko := TranslateToKorean(content, llm);
      if ko.Some? && ko.value != [] {
        var r := msg["content" := ko.value];
        assert TranslatedMessage(msg, llm) == r;
        assert r.Keys == msg.Keys;
      }
    }
  }

  /** One copy per message, in order: each keeps every field but
      `content`, whose value becomes the translation when there is a
      non-empty one and stays the original otherwise. */
  lemma TranslatedMessagesSound(msgs: seq<Message>, llm: Llm)
    ensures var r := TranslatedMessages(msgs, llm);
      && |r| == |msgs|
      && (forall k :: 0 <= k < |msgs| ==> r[k].Keys == msgs[k].Keys)
      && (forall k, f :: 0 <= k < |msgs| && f in msgs[k] && f != "content" ==> r[k][f] == msgs[k][f])
      && (forall k :: 0 <= k < |msgs| ==>
            var ko := TranslateToKorean(Content(msgs[k]), llm);
            if Content(msgs[k]) != [] && ko.Some? && ko.value != [] then Content(r[k]) == ko.value
            else r[k] == msgs[k])
  {
    TranslatedMessagesAt(msgs, llm);
    var r := TranslatedMessages(msgs, llm);
    forall k | 0 <= k < |msgs|
      ensures r[k].Keys == msgs[k].Keys
      ensures forall f :: f in msgs[k] && f != "content" ==> r[k][f] == msgs[k][f]
      ensures var ko := TranslateToKorean(Content(msgs[k]), llm);
        if Content(msgs[k]) != [] && ko.Some? && ko.value != [] then Content(r[k]) == ko.value
        else r[k] == msgs[k]
    {
      TranslatedMessageSound(msgs[k], llm);
    }
  }

  /** `translate_messages`: nothing for an empty list, otherwise the list
      of copies. The input is a value and so is never altered. */
  method TranslateMessages(msgs: seq<Message>, llm: Llm) returns (r: Option<seq<Message>>)
    ensures msgs == [] <==> r.None?
    ensures r.Some? ==> r.value == TranslatedMessages(msgs, llm)
    ensures r == MessagesKo(msgs, llm)
  {
    if msgs == [] {
      return None;
    }
    var translated := CopyMessages(msgs, llm);
    r := Some(translated);
  }

  /** The loop of `translate_messages`. */
  method CopyMessages(msgs: seq<Message>, llm: Llm) returns (translated: seq<Message>)
    ensures translated == TranslatedMessages(msgs, llm)
  {
    translated := [];
    var i := 0;
    while i < |msgs|
      invariant 0 <= i <= |msgs|
      invariant translated == TranslatedMessages(msgs[..i], llm)
    {
      assert msgs[..i + 1][..i] == msgs[..i];
      var copy := CopyMessage(msgs[i], llm);
      translated := translated + [copy];
      i := i + 1;
    }
    assert msgs[..|msgs|] == msgs;
  }

  /** The body of that loop: `copy.copy(msg)`, its content replaced when
      the translation is non-empty. */
  method CopyMessage(msg: Message, llm: Llm) returns (copy: Message)
    ensures copy == TranslatedMessage(msg, llm)
  {
    copy := msg;
    var content := if "content" in msg then msg["content"] else "";
    if content != [] {
      var ko := TranslateToKorean(content, llm);
      if ko.Some? && ko.value != [] {
        copy := copy["content" := ko.value];
      }
    }
  }

  /** The translation of the messages, as the per-row code obtains it. */
  function MessagesKo(msgs: seq<Message>, llm: Llm): Option<seq<Message>> {
    if msgs == [] then None else Some(TranslatedMessages(msgs, llm))
  }

  // ---------------------------------------------------------------------------
  // Rows
  // ---------------------------------------------------------------------------

  /** `x if translated is not None`, else the field's present value. */
  function Assigned<T>(present: Option<T>, translated: Option<T>): Option<T> {
    if translated.Some? then translated else present
  }

  /** A field that marks the row processed: the value it got, or else the
      untranslated text. */
  function Marked(value: Option<string>, fallback: string): (r: Option<string>)
    ensures r.Some?
    ensures value.Some? ==> r == value
  {
    if value.Some? then value else Some(fallback)
  }

  /** The translator's columns of a `conversations` row. */
  datatype ConversationFields = ConversationFields(
    topic: string, topicKo: Option<string>,
    summary: string, summaryKo: Option<string>,
    messages: seq<Message>, messagesKo: Option<seq<Message>>)

  /** A conversation row once processed: each Korean field takes its
      translation where one was obtained, `topic_ko` falls back to the
      topic, and the original columns are kept. */
  function ConversationProcessed(f: ConversationFields, llm: Llm): (r: ConversationFields)
    ensures r.topic == f.topic && r.summary == f.summary && r.messages == f.messages
    ensures r.topicKo.Some?
  {
    ConversationFields(
      f.topic, Marked(Assigned(f.topicKo, TranslateToKorean(f.topic, llm)), f.topic),
      f.summary, Assigned(f.summaryKo, TranslateToKorean(f.summary, llm)),
      f.messages, Assigned(f.messagesKo, MessagesKo(f.messages, llm)))
  }

  /** Processing a row twice gives what processing it once does. */
  lemma ConversationProcessedIdempotent(f: ConversationFields, llm: Llm)
    ensures ConversationProcessed(ConversationProcessed(f, llm), llm) == ConversationProcessed(f, llm)
  {
  }

  /** The translator's columns of a `wiki_pages` row. */
  datatype WikiPageFields = WikiPageFields(title: string, titleKo: Option<string>, content: string, contentKo: Option<string>)

  /** A page once processed: `title_ko` and `content_ko` take their
      translations where obtained, `title_ko` falls back to the title. */
  function WikiPageProcessed(f: WikiPageFields, llm: Llm): (r: WikiPageFields)
    ensures r.title == f.title && r.content == f.content
    ensures r.titleKo.Some?
  {
    WikiPageFields(f.title, Marked(Assigned(f.titleKo, TranslateToKorean(f.title, llm)), f.title),
                   f.content, Assigned(f.contentKo, TranslateToKorean(f.content, llm)))
  }

  lemma WikiPageProcessedIdempotent(f: WikiPageFields, llm: Llm)
    ensures WikiPageProcessed(WikiPageProcessed(f, llm), llm) == WikiPageProcessed(f, llm)
  {
  }

  /** The translator's columns of a `strata` row. */
  datatype StratumFields = StratumFields(summary: string, summaryKo: Option<string>)

  /** A stratum once processed: `summary_ko` is the translation, or the
      summary itself, whatever it held before. */
  function StratumProcessed(f: StratumFields, llm: Llm): (r: StratumFields)
    ensures r.summary == f.summary
    ensures r.summaryKo.Some?
  {
    StratumFields(f.summary, Marked(TranslateToKorean(f.summary, llm), f.summary))
  }

  lemma StratumProcessedIdempotent(f: StratumFields, llm: Llm)
    ensures StratumProcessed(StratumProcessed(f, llm), llm) == StratumProcessed(f, llm)
  {
  }

  /** A row of `conversations`, as far as the translator reads and writes
      it; a null text or message list is held as empty. */
  class ConversationRow {
    var topic: string
    var topicKo: Option<string>
    var summary: string
    var summaryKo: Option<string>
    var messages: seq<Message>
    var messagesKo: Option<seq<Message>>

    function Fields(): ConversationFields
      reads this
    {
      ConversationFields(topic, topicKo, summary, summaryKo, messages, messagesKo)
    }

    /** The row is still waiting for a translation. */
    predicate Pending()
      reads this
    {
      topicKo.None? && topic != ""
    }

    /** The body of the loop in `_translate_conversations`: fields get
        their translations where one was obtained, and `topic_ko` is set
        in any case, so the row is no longer pending. */
    method Translate(llm: Llm)
      modifies this
      ensures Fields() == ConversationProcessed(old(Fields()), llm)
      ensures !Pending()
    {
      var newTopic := TranslateIfPresent(topic, llm);
      var newSummary := TranslateIfPresent(summary, llm);
      var newMessages: Option<seq<Message>> := None;
      if messages != [] {
        newMessages := TranslateMessages(messages, llm);
      }
      assert newMessages == MessagesKo(messages, llm);
      Store(newTopic, newSummary, newMessages);
    }

    /** The assignments that end that body: each translation obtained
        replaces its field, and `topic_ko` falls back to the topic. */
    method Store(newTopic: Option<string>, newSummary: Option<string>, newMessages: Option<seq<Message>>)
      modifies this
      ensures Fields() == old(ConversationFields(topic, Marked(Assigned(topicKo, newTopic), topic),
                                                 summary, Assigned(summaryKo, newSummary),
                                                 messages, Assigned(messagesKo, newMessages)))
    {
      if newTopic.Some? {
        topicKo := newTopic;
      }
      if newSummary.Some? {
        summaryKo := newSummary;
      }
      if newMessages.Some? {
        messagesKo := newMessages;
      }
      if topicKo.None? {
        topicKo := Some(topic);
      }
    }
  }

  /** A row of `wiki_pages`, as far as the translator uses it. */
  class WikiPageRow {
    var title: string
    var titleKo: Option<string>
    var content: string
    var contentKo: Option<string>

    function Fields(): WikiPageFields
      reads this
    {
      WikiPageFields(title, titleKo, content, contentKo)
    }

    predicate Pending()
      reads this
    {
      titleKo.None? && title != ""
    }

    /** The body of the loop in `_translate_wiki_pages`. */
    method Translate(llm: Llm)
      modifies this
      ensures Fields() == WikiPageProcessed(old(Fields()), llm)
      ensures !Pending()
    {
      var newTitle := TranslateIfPresent(title, llm);
      var newContent := TranslateIfPresent(content, llm);
      if newTitle.Some? {
        titleKo := newTitle;
      }
      if newContent.Some? {
        contentKo := newContent;
      }
      if titleKo.None? {
        titleKo := Some(title);
      }
    }
  }

  /** A row of `strata`, as far as the translator uses it. */
  class StratumRow {
    var summary: string
    var summaryKo: Option<string>

    function Fields(): StratumFields
      reads this
    {
      StratumFields(summary, summaryKo)
    }

    predicate Pending()
      reads this
    {
      summaryKo.None? && summary != ""
    }

    /** The body of the loop in `_translate_strata`: the translation, or
        else the summary itself, replaces whatever `summary_ko` held. */
    method Translate(llm: Llm)
      modifies this
      ensures Fields() == StratumProcessed(old(Fields()), llm)
      ensures !Pending()
    {
      var newSummary := TranslateIfPresent(summary, llm);
      if newSummary.Some? {
        summaryKo := newSummary;
      } else {
        summaryKo := Some(summary);
      }
    }
  }

  // ---------------------------------------------------------------------------
  // Batches
  // ---------------------------------------------------------------------------

  /** The pending conversations, in the order the table lists them (newest
      first, as the query orders them). */
  function PendingConversations(table: seq<ConversationRow>): (r: seq<ConversationRow>)
    reads table
    ensures |r| <= |table|
    ensures forall c :: c in r ==> c in table && c.Pending()
  {
    if table == [] then []
    else
      var last := table[|table| - 1];
      PendingConversations(table[..|table| - 1]) + (if last.Pending() then [last] else [])
  }

  function PendingWikiPages(table: seq<WikiPageRow>): (r: seq<WikiPageRow>)
    reads table
    ensures |r| <= |table|
    ensures forall p :: p in r ==> p in table && p.Pending()
  {
    if table == [] then []
    else
      var last := table[|table| - 1];
      PendingWikiPages(table[..|table| - 1]) + (if last.Pending() then [last] else [])
  }

  function PendingStrata(table: seq<StratumRow>): (r: seq<StratumRow>)
    reads table
    ensures |r| <= |table|
    ensures forall s :: s in r ==> s in table && s.Pending()
  {
    if table == [] then []
    else
      var last := table[|table| - 1];
      PendingStrata(table[..|table| - 1]) + (if last.Pending() then [last] else [])
  }

  /** `_translate_conversations`: the first five pending conversations are
      processed, each left with `topic_ko` set; no other row changes; the
      number processed is returned. */
  method TranslateConversations(table: seq<ConversationRow>, llm: Llm) returns (count: nat)
    modifies table
    ensures var batch := old(Text.Take(PendingConversations(table), BatchSize));
      && count == |batch| && count <= 5
      && (forall c :: c in batch ==> c.Fields() == ConversationProcessed(old(c.Fields()), llm) && !c.Pending())
      && (forall c :: c in table && c !in batch ==> unchanged(c))
  {
    var batch := Text.Take(PendingConversations(table), BatchSize);
    assert forall k :: 0 <= k < |batch| ==> batch[k] in PendingConversations(table);
    TranslateEachConversations(batch, table, llm);
    count := |batch|;
  }

  /** The loop over the batch: each row processed, no other row touched. */
  method TranslateEachConversations(batch: seq<ConversationRow>, table: seq<ConversationRow>, llm: Llm)
    requires forall k :: 0 <= k < |batch| ==> batch[k] in table
    modifies table
    ensures forall c :: c in batch ==> c.Fields() == ConversationProcessed(old(c.Fields()), llm) && !c.Pending()
    ensures forall c :: c in table && c !in batch ==> unchanged(c)
  {
    var i := 0;
    while i < |batch|
      invariant 0 <= i <= |batch|
      invariant forall c :: c in batch[..i] ==> c.Fields() == ConversationProcessed(old(c.Fields()), llm)
      invariant forall c :: c in table && c !in batch[..i] ==> unchanged(c)
    {
      assert batch[..i + 1] == batch[..i] + [batch[i]];
      TranslateConversationOnce(batch[i], llm, old(batch[i].Fields()));
      i := i + 1;
    }
    assert batch[..i] == batch;
  }

  /** A conversation met again in the batch is left as processing it once left
      it. */
  method TranslateConversationOnce(p: ConversationRow, llm: Llm, ghost original: ConversationFields)
    requires p.Fields() == original || p.Fields() == ConversationProcessed(original, llm)
    modifies p
    ensures p.Fields() == ConversationProcessed(original, llm)
  {
    ConversationProcessedIdempotent(original, llm);
    p.Translate(llm);
  }

  /** `_translate_wiki_pages`: the first five pending pages are processed,
      each left with `title_ko` set; no other row changes. */
  method TranslateWikiPages(table: seq<WikiPageRow>, llm: Llm) returns (count: nat)
    modifies table
    ensures var batch := old(Text.Take(PendingWikiPages(table), BatchSize));
      && count == |batch| && count <= 5
      && (forall p :: p in batch ==> p.Fields() == WikiPageProcessed(old(p.Fields()), llm) && !p.Pending())
      && (forall p :: p in table && p !in batch ==> unchanged(p))
  {
    var batch := Text.Take(PendingWikiPages(table), BatchSize);
    assert forall k :: 0 <= k < |batch| ==> batch[k] in PendingWikiPages(table);
    TranslateEachWikiPages(batch, table, llm);
    count := |batch|;
  }

  /** The loop over the batch: each row processed, no other row touched. */
  method TranslateEachWikiPages(batch: seq<WikiPageRow>, table: seq<WikiPageRow>, llm: Llm)
    requires forall k :: 0 <= k < |batch| ==> batch[k] in table
    modifies table
    ensures forall p :: p in batch ==> p.Fields() == WikiPageProcessed(old(p.Fields()), llm) && !p.Pending()
    ensures forall p :: p in table && p !in batch ==> unchanged(p)
  {
    var i := 0;
    while i < |batch|
      invariant 0 <= i <= |batch|
      invariant forall p :: p in batch[..i] ==> p.Fields() == WikiPageProcessed(old(p.Fields()), llm)
      invariant forall p :: p in table && p !in batch[..i] ==> unchanged(p)
    {
      assert batch[..i + 1] == batch[..i] + [batch[i]];
      TranslateWikiPageOnce(batch[i], llm, old(batch[i].Fields()));
      i := i + 1;
    }
    assert batch[..i] == batch;
  }

  /** A page met again in the batch is left as processing it once left
      it. */
  method TranslateWikiPageOnce(p: WikiPageRow, llm: Llm, ghost original: WikiPageFields)
    requires p.Fields() == original || p.Fields() == WikiPageProcessed(original, llm)
    modifies p
    ensures p.Fields() == WikiPageProcessed(original, llm)
  {
    WikiPageProcessedIdempotent(original, llm);
    p.Translate(llm);
  }

  /** `_translate_strata`: the first five pending strata are processed,
      each left with `summary_ko` set; no other row changes. */
  method TranslateStrata(table: seq<StratumRow>, llm: Llm) returns (count: nat)
    modifies table
    ensures var batch := old(Text.Take(PendingStrata(table), BatchSize));
      && count == |batch| && count <= 5
      && (forall s :: s in batch ==> s.Fields() == StratumProcessed(old(s.Fields()), llm) && !s.Pending())
      && (forall s :: s in table && s !in batch ==> unchanged(s))
  {
    var batch := Text.Take(PendingStrata(table), BatchSize);
    assert forall k :: 0 <= k < |batch| ==> batch[k] in PendingStrata(table);
    TranslateEachStrata(batch, table, llm);
    count := |batch|;
  }

  /** The loop over the batch: each row processed, no other row touched. */
  method TranslateEachStrata(batch: seq<StratumRow>, table: seq<StratumRow>, llm: Llm)
    requires forall k :: 0 <= k < |batch| ==> batch[k] in table
    modifies table
    ensures forall s :: s in batch ==> s.Fields() == StratumProcessed(old(s.Fields()), llm) && !s.Pending()
    ensures forall s :: s in table && s !in batch ==> unchanged(s)
  {
    var i := 0;
    while i < |batch|
      invariant 0 <= i <= |batch|
      invariant forall s :: s in batch[..i] ==> s.Fields() == StratumProcessed(old(s.Fields()), llm)
      invariant forall s :: s in table && s !in batch[..i] ==> unchanged(s)
    {
      assert batch[..i + 1] == batch[..i] + [batch[i]];
      TranslateStratumOnce(batch[i], llm, old(batch[i].Fields()));
      i := i + 1;
    }
    assert batch[..i] == batch;
  }

  /** A stratum met again in the batch is left as processing it once left
      it. */
  method TranslateStratumOnce(p: StratumRow, llm: Llm, ghost original: StratumFields)
    requires p.Fields() == original || p.Fields() == StratumProcessed(original, llm)
    modifies p
    ensures p.Fields() == StratumProcessed(original, llm)
  {
    StratumProcessedIdempotent(original, llm);
    p.Translate(llm);
  }
}
