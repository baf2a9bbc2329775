/** The WebSocket hub: observers connect to a world and receive every
    envelope broadcast to it. A connection whose send fails is dropped. */
module Broadcast {
  import opened Envelopes

  /** A WebSocket connection, identified by an opaque number. */
  type ConnId = nat

  /** The set of observers of `world`; the default dictionary gives an empty
      set for a world nobody has joined. */
  function Observers(conns: map<WorldId, set<ConnId>>, world: WorldId): set<ConnId> {
    if world in conns then conns[world] else {}
  }

  function ConnectOn(conns: map<WorldId, set<ConnId>>, world: WorldId, ws: ConnId): map<WorldId, set<ConnId>> {
    conns[world := Observers(conns, world) + {ws}]
  }

  function DisconnectOn(conns: map<WorldId, set<ConnId>>, world: WorldId, ws: ConnId): map<WorldId, set<ConnId>> {
    conns[world := Observers(conns, world) - {ws}]
  }

  /** `broadcast` where `failing` holds the connections whose send raises. */
  function BroadcastOn(conns: map<WorldId, set<ConnId>>, world: WorldId, failing: set<ConnId>): map<WorldId, set<ConnId>> {
    if Observers(conns, world) == {} then conns
    else conns[world := Observers(conns, world) - failing]
  }

  /** Connect then disconnect of a new socket restores the world's observers,
      and neither touches another world. */
  lemma ConnectDisconnect(conns: map<WorldId, set<ConnId>>, world: WorldId, ws: ConnId, other: WorldId)
    requires ws !in Observers(conns, world)
    requires other != world
    ensures Observers(DisconnectOn(ConnectOn(conns, world, ws), world, ws), world) == Observers(conns, world)
    ensures ws in Observers(ConnectOn(conns, world, ws), world)
    ensures ws !in Observers(DisconnectOn(conns, world, ws), world)
    ensures Observers(ConnectOn(conns, world, ws), other) == Observers(conns, other)
    ensures Observers(DisconnectOn(conns, world, ws), other) == Observers(conns, other)
  {
  }

  /** After a broadcast, exactly the observers whose send failed are gone, all
      the others remain, and other worlds keep their observers. A world with
      no observers is left exactly as it was. */
  lemma BroadcastPrunesExactlyFailed(conns: map<WorldId, set<ConnId>>, world: WorldId, failing: set<ConnId>, ws: ConnId, other: WorldId)
    requires other != world
    ensures ws in Observers(BroadcastOn(conns, world, failing), world)
      <==> ws in Observers(conns, world) && ws !in failing
    ensures Observers(BroadcastOn(conns, world, failing), other) == Observers(conns, other)
    ensures Observers(conns, world) == {} ==> BroadcastOn(conns, world, failing) == conns
  {
  }

  /** A socket that joined and whose send then fails is no longer an observer. */
  lemma FailedSendAfterConnect(conns: map<WorldId, set<ConnId>>, world: WorldId, ws: ConnId)
    ensures ws !in Observers(BroadcastOn(ConnectOn(conns, world, ws), world, {ws}), world)
    ensures Observers(BroadcastOn(ConnectOn(conns, world, ws), world, {ws}), world) == Observers(conns, world) - {ws}
  {
  }

  /** The sockets a sequence of send attempts went to. */
  function Targets(attempts: seq<(ConnId, Envelope)>): set<ConnId> {
    if attempts == [] then {}
    else Targets(attempts[..|attempts| - 1]) + {attempts[|attempts| - 1].0}
  }

  lemma TargetsSnoc(attempts: seq<(ConnId, Envelope)>, a: (ConnId, Envelope))
    ensures Targets(attempts + [a]) == Targets(attempts) + {a.0}
  {
    assert (attempts + [a])[..|attempts|] == attempts;
  }

  lemma RemoveOne(conns: set<ConnId>, remaining: set<ConnId>, ws: ConnId)
    requires ws in remaining && remaining <= conns
    ensures conns - (remaining - {ws}) == (conns - remaining) + {ws}
    ensures |remaining - {ws}| == |remaining| - 1
  {
  }

  /** The send loop of `broadcast`: one attempt per socket in `conns`, in
      some order, collecting the sockets whose send raised. */
  method SendAll(conns: set<ConnId>, env: Envelope, failing: set<ConnId>)
    returns (attempts: seq<(ConnId, Envelope)>, dead: set<ConnId>)
    ensures dead == conns * failing
    ensures |attempts| == |conns|
    ensures forall a :: a in attempts ==> a.1 == env
    ensures Targets(attempts) == conns
  {
    var remaining := conns;
    dead := {};
    attempts := [];
    while remaining != {}
      invariant remaining <= conns
      invariant dead == (conns - remaining) * failing
      invariant Targets(attempts) == conns - remaining
      invariant |attempts| + |remaining| == |conns|
      invariant forall a :: a in attempts ==> a.1 == env
      decreases |remaining|
    {
      var ws :| ws in remaining;
      TargetsSnoc(attempts, (ws, env));
      attempts := attempts + [(ws, env)];
      if ws in failing {
        dead := dead + {ws};
      }
      RemoveOne(conns, remaining, ws);
      remaining := remaining - {ws};
    }
  }

  class Hub {
    var connections: map<WorldId, set<ConnId>>

    constructor()
      ensures connections == map[]
    {
      connections := map[];
    }

    /** A socket joins the world (`websocket_endpoint` after `accept`). */
    method Connect(world: WorldId, ws: ConnId)
      modifies this
      ensures connections == ConnectOn(old(connections), world, ws)
    {
      var current := if world in connections then connections[world] else {};
      connections := connections[world := current + {ws}];
    }

    /** A socket leaves the world (`WebSocketDisconnect`). */
    method Disconnect(world: WorldId, ws: ConnId)
      modifies this
      ensures connections == DisconnectOn(old(connections), world, ws)
    {
      var current := if world in connections then connections[world] else {};
      connections := connections[world := current - {ws}];
    }

    /** Sends the one serialised `env` to each observer of `world`, recording
        every attempt; the sends to the sockets in `failing` raise and those
        sockets are discarded afterwards. Nothing escapes to the caller. */
    method Broadcast(world: WorldId, env: Envelope, failing: set<ConnId>) returns (attempts: seq<(ConnId, Envelope)>)
      modifies this
      ensures connections == BroadcastOn(old(connections), world, failing)
      ensures |attempts| == |Observers(old(connections), world)|
      ensures forall a :: a in attempts ==> a.1 == env
      ensures Targets(attempts) == Observers(old(connections), world)
    {
      var conns := if world in connections then connections[world] else {};
      if conns == {} {
        attempts := [];
        assert Targets(attempts) == {};
        return;
      }
      var dead;
      attempts, dead := SendAll(conns, env, failing);
      assert conns - dead == conns - failing;
      connections := connections[world := conns - dead];
    }
  }
}
