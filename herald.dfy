/** The herald: a per-world buffer of notable events which, at the end of an
    epoch, is summarised into one dramatic announcement and then emptied. */
module Herald {
  import opened Wrappers
  import opened Envelopes
  import Text

  /** A buffered event dictionary. `None` means the key is absent; the
      runner always fills both keys. */
  datatype HeraldEvent = HeraldEvent(description: Option<string>, kind: Option<string>)

  /** `e.get('description', e.get('type', 'unknown event'))`. */
  function Label(e: HeraldEvent): (r: string)
    ensures e.description.Some? ==> r == e.description.value
    ensures e.description.None? && e.kind.Some? ==> r == e.kind.value
    ensures e.description.None? && e.kind.None? ==> r == "unknown event"
  {
    e.description.GetOr(e.kind.GetOr("unknown event"))
  }

  /** The prompt lists at most this many of the most recent events. */
  const ListedEvents: nat := 5

  /** The lines of the prompt: "- label" for each of the last five events, oldest first. */
  function ListedLines(events: seq<HeraldEvent>): (r: seq<string>)
    ensures |r| == if |events| < ListedEvents then |events| else ListedEvents
    ensures forall k :: 0 <= k < |r| ==> r[k] == "- " + Label(events[|events| - |r| + k])
  {
    var recent := Text.Last(events, ListedEvents);
    seq(|recent|, k requires 0 <= k < |recent| => "- " + Label(recent[k]))
  }

  /** The events block handed to the language model. */
  function Prompt(events: seq<HeraldEvent>): string {
    Text.Join("\n", ListedLines(events))
  }

  /** The outcome of `announce` on a buffer map: the new buffers, the events
      block the language model was asked about (`None` when it was not
      asked) and the envelopes broadcast. */
  datatype Announcement = Announcement(
    buffers: map<WorldId, seq<HeraldEvent>>,
    prompt: Option<string>,
    emitted: seq<Envelope>)

  function Buffered(buffers: map<WorldId, seq<HeraldEvent>>, world: WorldId): seq<HeraldEvent> {
    if world in buffers then buffers[world] else []
  }

  /** `announce(world, epoch)`, where `narration` is the model's answer. */
  function AnnounceOn(buffers: map<WorldId, seq<HeraldEvent>>, world: WorldId, epoch: int, narration: string): Announcement {
    var events := Buffered(buffers, world);
    if events == [] then Announcement(buffers, None, [])
    else Announcement(
      buffers[world := []],
      Some(Prompt(events)),
      [Envelope(epoch, HeraldAnnouncement(narration, |events|))])
  }

  /** An empty or missing buffer: no model call, nothing broadcast, nothing changed. */
  lemma AnnounceEmptyIsNoOp(buffers: map<WorldId, seq<HeraldEvent>>, world: WorldId, epoch: int, narration: string)
    requires Buffered(buffers, world) == []
    ensures AnnounceOn(buffers, world, epoch, narration) == Announcement(buffers, None, [])
  {
  }

  /** A non-empty buffer: one `herald.announcement` carrying the narration and
      the full buffer length (which may exceed the five events listed), then
      the world's buffer is empty and every other world's is untouched. */
  lemma AnnounceFlushes(buffers: map<WorldId, seq<HeraldEvent>>, world: WorldId, epoch: int, narration: string)
    requires Buffered(buffers, world) != []
    ensures var a := AnnounceOn(buffers, world, epoch, narration);
      a.emitted == [Envelope(epoch, HeraldAnnouncement(narration, |Buffered(buffers, world)|))]
      && a.emitted[0].Kind() == "herald.announcement"
      && Buffered(a.buffers, world) == []
      && (forall w :: w != world ==> Buffered(a.buffers, w) == Buffered(buffers, w))
      && a.prompt.Some?
  {
  }

  /** Announcing twice in a row: the second call does nothing. */
  lemma AnnounceTwiceIsNoOp(buffers: map<WorldId, seq<HeraldEvent>>, world: WorldId, epoch: int, narration: string, epoch2: int, narration2: string)
    ensures var a := AnnounceOn(buffers, world, epoch, narration);
      AnnounceOn(a.buffers, world, epoch2, narration2) == Announcement(a.buffers, None, [])
  {
  }

  class Herald {
    var buffers: map<WorldId, seq<HeraldEvent>>

    constructor()
      ensures buffers == map[]
    {
      buffers := map[];
    }

    /** Appends `e` to the world's buffer, creating the buffer if needed. */
    method BufferEvent(world: WorldId, e: HeraldEvent)
      modifies this
      ensures buffers == old(buffers)[world := Buffered(old(buffers), world) + [e]]
    {
      if world !in buffers {
        buffers := buffers[world := []];
      }
      buffers := buffers[world := buffers[world] + [e]];
    }

    /** Announces the world's buffered events; `narration` is the text the
        language model answers with. */
    method Announce(world: WorldId, epoch: int, narration: string) returns (prompt: Option<string>, emitted: seq<Envelope>)
      modifies this
      ensures var a := AnnounceOn(old(buffers), world, epoch, narration);
        buffers == a.buffers && prompt == a.prompt && emitted == a.emitted
    {
      var events := if world in buffers then buffers[world] else [];
      if events == [] {
        return None, [];
      }
      var lines: seq<string> := [];
      var recent := Text.Last(events, ListedEvents);
      var i := 0;
      while i < |recent|
        invariant 0 <= i <= |recent|
        invariant lines == seq(i, k requires 0 <= k < i => "- " + Label(recent[k]))
      {
        lines := lines + ["- " + Label(recent[i])];
        i := i + 1;
      }
      prompt := Some(Text.Join("\n", lines));
      emitted := [Envelope(epoch, HeraldAnnouncement(narration, |events|))];
      buffers := buffers[world := []];
    }
  }
}
