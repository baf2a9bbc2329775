/** The browser's simulation store: a single mutable object whose actions
    replace some of its fields with values computed from the old ones.
    Network fetches are parameters (their response, or `None` when the
    request failed or raised); the fields the modelled actions never touch
    are left out. */
module SimulationStore {
  import opened Wrappers
  import Text

  /** The part of a world's data the store's actions change or read. */
  datatype World = World(id: string, status: string, currentEpoch: int, currentTick: int)

  /** The fields of a WebSocket event payload the store reads: `tick` is
      `None` for null or undefined, and so is `text`. */
  datatype Payload = Payload(tick: Option<int>, text: Option<string>)

  datatype Event = Event(kind: string, timestamp: string, epoch: int, payload: Payload)

  /** A herald message; its text is whatever the announcement carried. */
  datatype Herald = Herald(id: string, text: Option<string>, timestamp: int)

  datatype FeedItem = FeedItem(kind: string, id: string, createdAt: Option<string>)

  datatype Tag = Tag(tag: string, weight: real)

  /** A world in the auto-world list; `tags` is `None` when absent or null. */
  datatype WorldListing = WorldListing(id: string, tags: Option<seq<Tag>>)

  datatype IntelTab = AgentTab | WikiTab | LogTab | ResonanceTab | StrataTab | OpsTab | ExportTab | FeedTab

  /** A data refresh an action starts in the background. */
  datatype Refresh = WikiPages(worldId: string) | Relationships(worldId: string) | AutoWorlds

  /** How many old events `addEvent` keeps before the new one. */
  const EventWindow: nat := 500

  // ---------------------------------------------------------------------------
  // addEvent
  // ---------------------------------------------------------------------------

  /** `[...events.slice(-500), event]`. */
  function EventsAfter(events: seq<Event>, e: Event): seq<Event> {
    Text.Last(events, EventWindow) + [e]
  }

  /** The world after an event: epoch from the event, tick from the
      payload when it has one; no world stays no world. */
  function WorldAfter(world: Option<World>, e: Event): Option<World> {
    if world.None? then None
    else
      var w := world.value;
      Some(w.(currentEpoch := e.epoch, currentTick := if e.payload.tick.Some? then e.payload.tick.value else w.currentTick))
  }

  /** The refreshes `addEvent` starts, read against the world it just set. */
  function RefreshesAfter(world: Option<World>, e: Event): seq<Refresh> {
    if world.None? then []
    else if e.kind == "wiki.edit" || e.kind == "epoch.transition" then [WikiPages(world.value.id)]
    else if e.kind == "relation.update" then [Relationships(world.value.id)]
    else []
  }

  /** One event: at most 501 kept, the new one last, the others the most
      recent of the old ones in order. */
  lemma EventsAfterSound(events: seq<Event>, e: Event)
    ensures var r := EventsAfter(events, e);
      && |r| == (if |events| < EventWindow then |events| else EventWindow) + 1
      && |r| <= EventWindow + 1
      && r[|r| - 1] == e
      && r[..|r| - 1] == events[|events| - (|r| - 1)..]
  {
    var r := EventsAfter(events, e);
    assert r[..|r| - 1] == Text.Last(events, EventWindow);
  }

  /** The events after adding `es` one at a time. */
  function AddAll(events: seq<Event>, es: seq<Event>): seq<Event> {
    if es == [] then events else EventsAfter(AddAll(events, es[..|es| - 1]), es[|es| - 1])
  }

  /** After one or more events the store holds exactly the most recent
      501 of everything seen, or all of it when there were fewer. */
  lemma AddAllWindow(events: seq<Event>, es: seq<Event>)
    requires es != []
    ensures var all := events + es;
      var n := if |all| < EventWindow + 1 then |all| else EventWindow + 1;
      AddAll(events, es) == all[|all| - n..]
  {
    AddAllLast(events, es);
  }

  lemma {:induction false} AddAllLast(events: seq<Event>, es: seq<Event>)
    requires es != []
    ensures AddAll(events, es) == Text.Last(events + es, EventWindow + 1)
  {
    var init := es[..|es| - 1];
    var e := es[|es| - 1];
    var before := events + init;
    assert es == init + [e];
    assert events + es == before + [e];
    assert AddAll(events, es) == Text.Last(AddAll(events, init), EventWindow) + [e];
    if init == [] {
      assert AddAll(events, init) == before;
    } else {
      AddAllLast(events, init);
      LastLast(before, EventWindow);
    }
    LastSnoc(before, e, EventWindow);
  }

  /** The last `w + 1` of `s + [e]` are the last `w` of `s`, then `e`. */
  lemma LastSnoc<T>(s: seq<T>, e: T, w: nat)
    requires w > 0
    ensures Text.Last(s, w) + [e] == Text.Last(s + [e], w + 1)
  {
    var r := Text.Last(s + [e], w + 1);
    var k := Text.Last(s, w);
    assert |r| == |k| + 1;
    assert r[..|k|] == k;
  }

  /** Taking the last `w` of the last `w + 1` is taking the last `w`. */
  lemma LastLast<T>(s: seq<T>, w: nat)
    requires w > 0
    ensures Text.Last(Text.Last(s, w + 1), w) == Text.Last(s, w)
  {
    var m := Text.Last(s, w + 1);
    assert Text.Last(m, w) == m[|m| - |Text.Last(m, w)|..];
  }

  /** An event leaves a missing world missing; otherwise it keeps the
      world's id and status, takes the event's epoch, and takes the
      payload's tick exactly when there is one. */
  lemma WorldAfterSound(world: Option<World>, e: Event)
    ensures var r := WorldAfter(world, e);
      && (r.None? <==> world.None?)
      && (r.Some? ==>
        && r.value.id == world.value.id && r.value.status == world.value.status
        && r.value.currentEpoch == e.epoch
        && (e.payload.tick.Some? ==> r.value.currentTick == e.payload.tick.value)
        && (e.payload.tick.None? ==> r.value.currentTick == world.value.currentTick))
  {
  }

  // ---------------------------------------------------------------------------
  // Herald messages
  // ---------------------------------------------------------------------------

  /** `heraldMessages.filter((m) => m.id !== id)`. */
  function Without(msgs: seq<Herald>, id: string): seq<Herald> {
    if msgs == [] then []
    else Without(msgs[..|msgs| - 1], id) + (if msgs[|msgs| - 1].id != id then [msgs[|msgs| - 1]] else [])
  }

  /** How many messages carry `id`. */
  function CountId(msgs: seq<Herald>, id: string): nat {
    if msgs == [] then 0
    else CountId(msgs[..|msgs| - 1], id) + (if msgs[|msgs| - 1].id == id then 1 else 0)
  }

  /** Dismissing removes exactly the messages with that id: none is left,
      every other message stays, the count drops by their number, and a
      second dismissal changes nothing. */
  lemma {:induction false} WithoutSound(msgs: seq<Herald>, id: string)
    ensures forall m :: m in Without(msgs, id) <==> m in msgs && m.id != id
    ensures |Without(msgs, id)| == |msgs| - CountId(msgs, id)
    ensures Without(Without(msgs, id), id) == Without(msgs, id)
  {
    if msgs != [] {
      var init := msgs[..|msgs| - 1];
      var last := msgs[|msgs| - 1];
      WithoutSound(init, id);
      assert msgs == init + [last];
      var kept := Without(init, id);
      assert Without(msgs, id) == kept + (if last.id != id then [last] else []);
      forall m ensures m in Without(msgs, id) <==> m in msgs && m.id != id {
        assert m in msgs <==> m in init || m == last;
      }
      WithoutOthers(Without(msgs, id), id);
    }
  }

  /** Filtering a list with no message of that id changes nothing. */
  lemma {:induction false} WithoutOthers(msgs: seq<Herald>, id: string)
    requires forall m :: m in msgs ==> m.id != id
    ensures Without(msgs, id) == msgs
  {
    if msgs != [] {
      var init := msgs[..|msgs| - 1];
      assert msgs == init + [msgs[|msgs| - 1]];
      WithoutOthers(init, id);
    }
  }

  // ---------------------------------------------------------------------------
  // Auto-world tags
  // ---------------------------------------------------------------------------

  /** The tag map `fetchAutoWorlds` builds: each listed world with tags,
      a later listing of the same id overwriting an earlier one. */
  function TagMap(worlds: seq<WorldListing>): map<string, seq<Tag>> {
    if worlds == [] then map[]
    else
      var w := worlds[|worlds| - 1];
      var m := TagMap(worlds[..|worlds| - 1]);
      if w.tags.Some? then m[w.id := w.tags.value] else m
  }

  /** An id is in the map exactly when some listing of it has tags, and
      it maps to the tags of the last such listing. */
  lemma {:induction false} TagMapSound(worlds: seq<WorldListing>)
    ensures forall id :: id in TagMap(worlds) <==> exists k :: 0 <= k < |worlds| && worlds[k].id == id && worlds[k].tags.Some?
    ensures forall k ::
      (0 <= k < |worlds| && worlds[k].tags.Some? &&
       (forall j :: k < j < |worlds| ==> worlds[j].id != worlds[k].id || worlds[j].tags.None?)) ==>
      TagMap(worlds)[worlds[k].id] == worlds[k].tags.value
  {
    if worlds != [] {
      var init := worlds[..|worlds| - 1];
      TagMapSound(init);
      forall id ensures id in TagMap(worlds) <==> exists k :: 0 <= k < |worlds| && worlds[k].id == id && worlds[k].tags.Some? {
        if id in TagMap(init) {
          var k :| 0 <= k < |init| && init[k].id == id && init[k].tags.Some?;
          assert worlds[k] == init[k];
        }
        if exists k :: 0 <= k < |worlds| && worlds[k].id == id && worlds[k].tags.Some? {
          var k :| 0 <= k < |worlds| && worlds[k].id == id && worlds[k].tags.Some?;
          if k < |init| {
            assert init[k] == worlds[k];
          }
        }
      }
      forall k | 0 <= k < |worlds| && worlds[k].tags.Some? &&
        (forall j :: k < j < |worlds| ==> worlds[j].id != worlds[k].id || worlds[j].tags.None?)
        ensures TagMap(worlds)[worlds[k].id] == worlds[k].tags.value
      {
        if k < |init| {
          assert init[k] == worlds[k];
          forall j | k < j < |init| ensures init[j].id != init[k].id || init[j].tags.None? {
            assert init[j] == worlds[j];
          }
        }
      }
    }
  }

  // ---------------------------------------------------------------------------
  // The store
  // ---------------------------------------------------------------------------

  /** `useSimulationStore`, with the fields the modelled actions use. */
  class Store {
    var world: Option<World>
    var events: seq<Event>
    var selectedAgent: Option<string>
    var selectedConversation: Option<string>
    var intelTab: IntelTab
    var heraldMessages: seq<Herald>
    var feedItems: seq<FeedItem>
    var autoWorlds: seq<WorldListing>
    var worldTags: map<string, seq<Tag>>
    var tagFilter: Option<string>

    /** The initial state. */
    constructor()
      ensures world.None? && events == [] && selectedAgent.None? && selectedConversation.None?
      ensures intelTab == FeedTab && heraldMessages == [] && feedItems == []
      ensures autoWorlds == [] && worldTags == map[] && tagFilter.None?
    {
      world := None;
      events := [];
      selectedAgent := None;
      selectedConversation := None;
      intelTab := FeedTab;
      heraldMessages := [];
      feedItems := [];
      autoWorlds := [];
      worldTags := map[];
      tagFilter := None;
    }

    /** `addHeraldMessage`, with the random id and the clock as
        parameters; the 8-second dismissal timer is not modelled. */
    method AddHeraldMessage(text: Option<string>, id: string, now: int)
      modifies this
      ensures heraldMessages == old(heraldMessages) + [Herald(id, text, now)]
      ensures world == old(world) && events == old(events) && feedItems == old(feedItems)
      ensures selectedAgent == old(selectedAgent) && intelTab == old(intelTab)
      ensures selectedConversation == old(selectedConversation)
      ensures autoWorlds == old(autoWorlds) && worldTags == old(worldTags) && tagFilter == old(tagFilter)
    {
      heraldMessages := heraldMessages + [Herald(id, text, now)];
    }

    /** `addEvent`: keeps the last 500 old events and the new one, moves a
        loaded world to the event's epoch and tick, announces a herald
        message, and returns the refreshes it starts. `heraldId` and `now`
        stand for the random id and the clock. */
    method AddEvent(e: Event, heraldId: string, now: int) returns (refreshes: seq<Refresh>)
      modifies this
      ensures events == EventsAfter(old(events), e)
      ensures world == WorldAfter(old(world), e)
      ensures e.kind == "herald.announcement" ==> heraldMessages == old(heraldMessages) + [Herald(heraldId, e.payload.text, now)]
      ensures e.kind != "herald.announcement" ==> heraldMessages == old(heraldMessages)
      ensures refreshes == RefreshesAfter(world, e)
      ensures feedItems == old(feedItems) && selectedAgent == old(selectedAgent) && intelTab == old(intelTab)
      ensures selectedConversation == old(selectedConversation)
      ensures autoWorlds == old(autoWorlds) && worldTags == old(worldTags) && tagFilter == old(tagFilter)
    {
      events := Text.Last(events, EventWindow) + [e];
      if world.Some? {
        var w := world.value;
        var tick := if e.payload.tick.Some? then e.payload.tick.value else w.currentTick;
        world := Some(w.(currentEpoch := e.epoch, currentTick := tick));
      }
      if e.kind == "herald.announcement" {
        AddHeraldMessage(e.payload.text, heraldId, now);
      }
      refreshes := [];
      if world.Some? && (e.kind == "wiki.edit" || e.kind == "epoch.transition") {
        refreshes := refreshes + [WikiPages(world.value.id)];
      }
      if world.Some? && e.kind == "relation.update" {
        refreshes := refreshes + [Relationships(world.value.id)];
      }
    }

    /** `dismissHerald`. */
    method DismissHerald(id: string)
      modifies this
      ensures heraldMessages == Without(old(heraldMessages), id)
      ensures world == old(world) && events == old(events) && feedItems == old(feedItems)
      ensures selectedAgent == old(selectedAgent) && intelTab == old(intelTab)
      ensures selectedConversation == old(selectedConversation)
      ensures autoWorlds == old(autoWorlds) && worldTags == old(worldTags) && tagFilter == old(tagFilter)
    {
      heraldMessages := Without(heraldMessages, id);
    }

    /** `setSelectedAgent`: also switches to the agent tab. */
    method SetSelectedAgent(id: Option<string>)
      modifies this
      ensures selectedAgent == id && intelTab == AgentTab
      ensures world == old(world) && events == old(events) && feedItems == old(feedItems)
      ensures heraldMessages == old(heraldMessages) && selectedConversation == old(selectedConversation)
      ensures autoWorlds == old(autoWorlds) && worldTags == old(worldTags) && tagFilter == old(tagFilter)
    {
      selectedAgent := id;
      intelTab := AgentTab;
    }

    /** `setSelectedConversation`. */
    method SetSelectedConversation(id: Option<string>)
      modifies this
      ensures selectedConversation == id
      ensures world == old(world) && events == old(events) && feedItems == old(feedItems)
      ensures heraldMessages == old(heraldMessages) && selectedAgent == old(selectedAgent) && intelTab == old(intelTab)
      ensures autoWorlds == old(autoWorlds) && worldTags == old(worldTags) && tagFilter == old(tagFilter)
    {
      selectedConversation := id;
    }

    /** `setIntelTab`. */
    method SetIntelTab(tab: IntelTab)
      modifies this
      ensures intelTab == tab
      ensures world == old(world) && events == old(events) && feedItems == old(feedItems)
      ensures heraldMessages == old(heraldMessages) && selectedAgent == old(selectedAgent)
      ensures selectedConversation == old(selectedConversation)
      ensures autoWorlds == old(autoWorlds) && worldTags == old(worldTags) && tagFilter == old(tagFilter)
    {
      intelTab := tab;
    }

    /** `startSimulation` once its request returned: a loaded world is
        marked running. */
    method StartSimulation()
      modifies this
      ensures world == if old(world).Some? then Some(old(world).value.(status := "running")) else None
      ensures events == old(events) && feedItems == old(feedItems) && heraldMessages == old(heraldMessages)
      ensures selectedAgent == old(selectedAgent) && intelTab == old(intelTab)
      ensures selectedConversation == old(selectedConversation)
      ensures autoWorlds == old(autoWorlds) && worldTags == old(worldTags) && tagFilter == old(tagFilter)
    {
      if world.Some? {
        world := Some(world.value.(status := "running"));
      }
    }

    /** `stopSimulation` once its request returned: a loaded world is
        marked paused. */
    method StopSimulation()
      modifies this
      ensures world == if old(world).Some? then Some(old(world).value.(status := "paused")) else None
      ensures events == old(events) && feedItems == old(feedItems) && heraldMessages == old(heraldMessages)
      ensures selectedAgent == old(selectedAgent) && intelTab == old(intelTab)
      ensures selectedConversation == old(selectedConversation)
      ensures autoWorlds == old(autoWorlds) && worldTags == old(worldTags) && tagFilter == old(tagFilter)
    {
      if world.Some? {
        world := Some(world.value.(status := "paused"));
      }
    }

    /** `fetchFeed` given the page the server answered (`None` for a
        failed or raised request, which changes nothing): a page fetched
        with a non-empty `before` cursor is appended, any other replaces
        the feed. */
    method FetchFeed(before: Option<string>, response: Option<seq<FeedItem>>)
      modifies this
      ensures response.None? ==> feedItems == old(feedItems)
      ensures response.Some? && before.Some? && before.value != "" ==> feedItems == old(feedItems) + response.value
      ensures response.Some? && (before.None? || before.value == "") ==> feedItems == response.value
      ensures world == old(world) && events == old(events) && heraldMessages == old(heraldMessages)
      ensures selectedAgent == old(selectedAgent) && intelTab == old(intelTab)
      ensures selectedConversation == old(selectedConversation)
      ensures autoWorlds == old(autoWorlds) && worldTags == old(worldTags) && tagFilter == old(tagFilter)
    {
      if response.Some? {
        if before.Some? && before.value != "" {
          feedItems := feedItems + response.value;
        } else {
          feedItems := response.value;
        }
      }
    }

    /** `fetchAutoWorlds` given the list the server answered (`None` for
        a failed or raised request, which changes nothing). */
    method FetchAutoWorlds(response: Option<seq<WorldListing>>)
      modifies this
      ensures response.None? ==> autoWorlds == old(autoWorlds) && worldTags == old(worldTags)
      ensures response.Some? ==> autoWorlds == response.value && worldTags == TagMap(response.value)
      ensures world == old(world) && events == old(events) && heraldMessages == old(heraldMessages)
      ensures feedItems == old(feedItems) && selectedAgent == old(selectedAgent) && intelTab == old(intelTab)
      ensures selectedConversation == old(selectedConversation) && tagFilter == old(tagFilter)
    {
      if response.Some? {
        var tags := CollectTags(response.value);
        autoWorlds := response.value;
        worldTags := tags;
      }
    }

    /** `setTagFilter`: stores the filter and starts a refresh of the
        auto-world list. */
    method SetTagFilter(tag: Option<string>) returns (refreshes: seq<Refresh>)
      modifies this
      ensures tagFilter == tag && refreshes == [AutoWorlds]
      ensures world == old(world) && events == old(events) && heraldMessages == old(heraldMessages)
      ensures feedItems == old(feedItems) && selectedAgent == old(selectedAgent) && intelTab == old(intelTab)
      ensures selectedConversation == old(selectedConversation)
      ensures autoWorlds == old(autoWorlds) && worldTags == old(worldTags)
    {
      tagFilter := tag;
      refreshes := [AutoWorlds];
    }
  }

  /** The loop over the listed worlds that fills the tag map. */
  method CollectTags(worlds: seq<WorldListing>) returns (tags: map<string, seq<Tag>>)
    ensures tags == TagMap(worlds)
  {
    tags := map[];
    var i := 0;
    while i < |worlds|
      invariant 0 <= i <= |worlds|
      invariant tags == TagMap(worlds[..i])
    {
      assert worlds[..i + 1][..i] == worlds[..i];
      if worlds[i].tags.Some? {
        tags := tags[worlds[i].id := worlds[i].tags.value];
      }
      i := i + 1;
    }
    assert worlds[..|worlds|] == worlds;
  }
}
