/** Entity-mention detection: the names of a world's agents, wiki pages and
    factions are matched, ignoring case and surrounding whitespace, against
    a conversation's or a wiki page's text, and a mention is recorded for
    each match the source does not already have. */
module Mentions {
  import opened Wrappers
  import Text

  /** `_normalize`: lower case, then surrounding whitespace removed. */
  function Normalize(s: string): (r: string)
    ensures |r| <= |s|
    ensures r == [] <==> Text.IsBlank(Text.Lower(s))
  {
    Text.Strip(Text.Lower(s))
  }

  /** `_fuzzy_match`: a normalized needle of at least two characters that
      occurs in the normalized haystack. */
  predicate FuzzyMatch(needle: string, haystack: string) {
    var n := Normalize(needle);
    var h := Normalize(haystack);
    if |n| < 2 then false else Text.Contains(h, n)
  }

  /** A needle of fewer than two characters once normalized, in particular
      a blank one, matches nothing. */
  lemma ShortNeedleNeverMatches(needle: string, haystack: string)
    requires |Normalize(needle)| < 2 || Text.IsBlank(needle)
    ensures !FuzzyMatch(needle, haystack)
  {
    if Text.IsBlank(needle) {
      forall i | 0 <= i < |needle| ensures Text.IsSpace(Text.Lower(needle)[i]) {
        assert Text.IsSpace(needle[i]);
      }
    }
  }

  /** A name of at least two characters matches any text that is the name
      itself, whatever the case. */
  lemma NameMatchesItself(name: string)
    requires |Normalize(name)| >= 2
    ensures FuzzyMatch(name, name)
  {
    var n := Normalize(name);
    assert Text.OccursAt(n, n, 0);
  }

  lemma LowerIdempotent(s: string)
    ensures Text.Lower(Text.Lower(s)) == Text.Lower(s)
  {
  }

  /** The match ignores case on both sides. */
  lemma MatchIgnoresCase(needle: string, haystack: string)
    ensures FuzzyMatch(Text.Lower(needle), Text.Lower(haystack)) == FuzzyMatch(needle, haystack)
  {
    LowerIdempotent(needle);
    LowerIdempotent(haystack);
  }

  /** A known entity: an agent, a wiki page or a faction, by id and by the
      name (or title) that is searched for. */
  datatype Entity = Entity(id: string, name: string)

  /** An `entity_mentions` row to be added for the current source. */
  datatype Mention = Mention(mentionText: string, targetType: string, targetId: string, confidence: real)

  /** The mentions one kind of entity contributes, in list order: each
      entity whose name matches and whose `(kind, id)` is not already
      recorded, skipping the entity `skip` when given. */
  function Matches(es: seq<Entity>, kind: string, confidence: real, isMatch: string -> bool,
                   existing: set<(string, string)>, skip: Option<string>): seq<Mention>
  {
    if es == [] then []
    else
      var rest := Matches(es[..|es| - 1], kind, confidence, isMatch, existing, skip);
      var e := es[|es| - 1];
      if skip != Some(e.id) && isMatch(e.name) && (kind, e.id) !in existing
      then rest + [Mention(e.name, kind, e.id, confidence)]
      else rest
  }

  /** One loop yields at most one mention per entity: exactly those of its
      kind whose name matches, not already recorded and not skipped. */
  lemma {:induction false} MatchesSound(es: seq<Entity>, kind: string, confidence: real, isMatch: string -> bool,
                                        existing: set<(string, string)>, skip: Option<string>)
    ensures var r := Matches(es, kind, confidence, isMatch, existing, skip);
      && |r| <= |es|
      && (forall m :: m in r ==>
            && m.targetType == kind && m.confidence == confidence
            && (kind, m.targetId) !in existing && isMatch(m.mentionText)
            && skip != Some(m.targetId)
            && Entity(m.targetId, m.mentionText) in es)
      && (forall e :: e in es && isMatch(e.name) && (kind, e.id) !in existing && skip != Some(e.id) ==>
            Mention(e.name, kind, e.id, confidence) in r)
  {
    if es != [] {
      var init := es[..|es| - 1];
      MatchesSound(init, kind, confidence, isMatch, existing, skip);
      assert forall x :: x in es ==> x in init || x == es[|es| - 1];
      assert forall x :: x in init ==> x in es;
    }
  }

  const AgentConfidence: real := 0.9
  const PageConfidence: real := 0.85
  const FactionConfidence: real := 0.85

  /** The names that match `text`. */
  function MatchesText(text: string): string -> bool {
    (name: string) => FuzzyMatch(name, text)
  }

  /** The mentions `_extract_mentions` adds: agents, then wiki pages (a
      wiki source skips its own page), then factions. */
  function Extract(sourceType: string, sourceId: string, text: string,
                   agents: seq<Entity>, pages: seq<Entity>, factions: seq<Entity>,
                   existing: set<(string, string)>): seq<Mention> {
    Matches(agents, "agent", AgentConfidence, MatchesText(text), existing, None)
    + Matches(pages, "wiki_page", PageConfidence, MatchesText(text), existing, if sourceType == "wiki" then Some(sourceId) else None)
    + Matches(factions, "faction", FactionConfidence, MatchesText(text), existing, None)
  }

  /** One of the three loops of `_extract_mentions`: the matching entities
      of one kind not already recorded, `skip` left out. */
  method MatchLoop(es: seq<Entity>, kind: string, confidence: real, isMatch: string -> bool,
                   existing: set<(string, string)>, skip: Option<string>)
    returns (found: seq<Mention>)
    ensures found == Matches(es, kind, confidence, isMatch, existing, skip)
  {
    found := [];
    var i := 0;
    while i < |es|
      invariant 0 <= i <= |es|
      invariant found == Matches(es[..i], kind, confidence, isMatch, existing, skip)
    {
      var e := es[i];
      MatchesStep(es, i, kind, confidence, isMatch, existing, skip);
      if skip == Some(e.id) {
        i := i + 1;
        continue;
      }
      if isMatch(e.name) {
        if (kind, e.id) !in existing {
          found := found + [Mention(e.name, kind, e.id, confidence)];
        }
      }
      i := i + 1;
    }
    assert es[..|es|] == es;
  }

  lemma MatchesStep(es: seq<Entity>, i: nat, kind: string, confidence: real, isMatch: string -> bool,
                    existing: set<(string, string)>, skip: Option<string>)
    requires i < |es|
    ensures var e := es[i];
      Matches(es[..i + 1], kind, confidence, isMatch, existing, skip)
      == Matches(es[..i], kind, confidence, isMatch, existing, skip)
        + (if skip != Some(e.id) && isMatch(e.name) && (kind, e.id) !in existing
           then [Mention(e.name, kind, e.id, confidence)] else [])
  {
    assert es[..i + 1][..i] == es[..i];
  }

  /** `_extract_mentions` on the entities the queries loaded; `existing` is
      the set of `(target_type, target_id)` already recorded for this
      source. */
  method ExtractMentions(sourceType: string, sourceId: string, text: string,
                         agents: seq<Entity>, pages: seq<Entity>, factions: seq<Entity>,
                         existing: set<(string, string)>)
    returns (mentions: seq<Mention>)
    ensures mentions == Extract(sourceType, sourceId, text, agents, pages, factions, existing)
  {
    var fromAgents := MatchLoop(agents, "agent", AgentConfidence, MatchesText(text), existing, None);
    var skip := if sourceType == "wiki" then Some(sourceId) else None;
    var fromPages := MatchLoop(pages, "wiki_page", PageConfidence, MatchesText(text), existing, skip);
    var fromFactions := MatchLoop(factions, "faction", FactionConfidence, MatchesText(text), existing, None);
    mentions := fromAgents + fromPages + fromFactions;
  }

  /** The position of a kind in the order the loops run. */
  function KindRank(kind: string): nat {
    if kind == "agent" then 0 else if kind == "wiki_page" then 1 else 2
  }

  /** No new mention repeats one the source already has; a wiki page never
      mentions itself; agents come before pages and pages before factions,
      with confidences 0.9, 0.85 and 0.85; every mention's text matches. */
  lemma ExtractSound(sourceType: string, sourceId: string, text: string,
                     agents: seq<Entity>, pages: seq<Entity>, factions: seq<Entity>,
                     existing: set<(string, string)>)
    ensures var r := Extract(sourceType, sourceId, text, agents, pages, factions, existing);
      && (forall m :: m in r ==> (m.targetType, m.targetId) !in existing && FuzzyMatch(m.mentionText, text))
      && (sourceType == "wiki" ==> forall m :: m in r ==> !(m.targetType == "wiki_page" && m.targetId == sourceId))
      && (forall i, j :: 0 <= i < j < |r| ==> KindRank(r[i].targetType) <= KindRank(r[j].targetType))
      && (forall m :: m in r ==> m.confidence == (if m.targetType == "agent" then 0.9 else 0.85))
  {
    var skip: Option<string> := if sourceType == "wiki" then Some(sourceId) else None;
    var a := Matches(agents, "agent", AgentConfidence, MatchesText(text), existing, None);
    var p := Matches(pages, "wiki_page", PageConfidence, MatchesText(text), existing, skip);
    var f := Matches(factions, "faction", FactionConfidence, MatchesText(text), existing, None);
    MatchesSound(agents, "agent", AgentConfidence, MatchesText(text), existing, None);
    MatchesSound(pages, "wiki_page", PageConfidence, MatchesText(text), existing, skip);
    MatchesSound(factions, "faction", FactionConfidence, MatchesText(text), existing, None);
    KindsInOrder(a, p, f);
  }

  lemma KindsInOrder(a: seq<Mention>, p: seq<Mention>, f: seq<Mention>)
    requires forall m :: m in a ==> m.targetType == "agent"
    requires forall m :: m in p ==> m.targetType == "wiki_page"
    requires forall m :: m in f ==> m.targetType == "faction"
    ensures var r := a + p + f;
      forall i, j :: 0 <= i < j < |r| ==> KindRank(r[i].targetType) <= KindRank(r[j].targetType)
  {
    var r := a + p + f;
    forall i, j | 0 <= i < j < |r| ensures KindRank(r[i].targetType) <= KindRank(r[j].targetType) {
      if i < |a| {
        assert r[i] in a;
      } else if i < |a| + |p| {
        assert r[i] in p;
        if j < |a| + |p| {
          assert r[j] == p[j - |a|];
        } else {
          assert r[j] == f[j - |a| - |p|];
        }
      } else {
        assert r[i] == f[i - |a| - |p|] && r[j] == f[j - |a| - |p|];
      }
    }
  }

  /** Every agent, page (other than the source itself) and faction whose
      name matches and that is not already recorded is mentioned. */
  lemma ExtractComplete(sourceType: string, sourceId: string, text: string,
                        agents: seq<Entity>, pages: seq<Entity>, factions: seq<Entity>,
                        existing: set<(string, string)>, e: Entity)
    requires FuzzyMatch(e.name, text)
    ensures var r := Extract(sourceType, sourceId, text, agents, pages, factions, existing);
      && (e in agents && ("agent", e.id) !in existing ==> Mention(e.name, "agent", e.id, 0.9) in r)
      && (e in pages && ("wiki_page", e.id) !in existing && !(sourceType == "wiki" && e.id == sourceId) ==>
            Mention(e.name, "wiki_page", e.id, 0.85) in r)
      && (e in factions && ("faction", e.id) !in existing ==> Mention(e.name, "faction", e.id, 0.85) in r)
  {
    var isMatch := MatchesText(text);
    assert isMatch(e.name);
    var skip: Option<string> := if sourceType == "wiki" then Some(sourceId) else None;
    var a := Matches(agents, "agent", AgentConfidence, isMatch, existing, None);
    var p := Matches(pages, "wiki_page", PageConfidence, isMatch, existing, skip);
    var f := Matches(factions, "faction", FactionConfidence, isMatch, existing, None);
    MatchesSound(agents, "agent", AgentConfidence, isMatch, existing, None);
    MatchesSound(pages, "wiki_page", PageConfidence, isMatch, existing, skip);
    MatchesSound(factions, "faction", FactionConfidence, isMatch, existing, None);
    assert Extract(sourceType, sourceId, text, agents, pages, factions, existing) == a + p + f;
  }

  /** `" ".join(m.get("content", "") for m in messages)`, a missing content
      being given as the empty text. */
  function ConversationText(contents: seq<string>): string {
    Text.Join(" ", contents)
  }

  /** `extract_mentions_from_conversation` and `extract_mentions_from_wiki`:
      a blank text adds nothing and loads nothing; otherwise the mentions of
      `Extract`. */
  function FromSource(sourceType: string, sourceId: string, text: string,
                      agents: seq<Entity>, pages: seq<Entity>, factions: seq<Entity>,
                      existing: set<(string, string)>): (r: seq<Mention>)
    ensures Text.IsBlank(text) ==> r == []
    ensures !Text.IsBlank(text) ==> r == Extract(sourceType, sourceId, text, agents, pages, factions, existing)
  {
    if Text.Strip(text) == [] then [] else Extract(sourceType, sourceId, text, agents, pages, factions, existing)
  }

  /** A conversation whose messages are all blank records no mention. */
  lemma {:induction false} BlankConversation(contents: seq<string>)
    requires forall k :: 0 <= k < |contents| ==> Text.IsBlank(contents[k])
    ensures Text.IsBlank(ConversationText(contents))
  {
    if |contents| > 1 {
      BlankConversation(contents[1..]);
      var rest := Text.Join(" ", contents[1..]);
      assert ConversationText(contents) == contents[0] + " " + rest;
      assert Text.IsSpace(' ');
    }
  }
}
