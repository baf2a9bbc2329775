/** The WebSocket envelope `{type, epoch, payload}` in which the backend
    pushes every live event to the observers of a world (its wall-clock
    `timestamp` is not modelled). The `type` string is determined by the
    payload shape, since every call site pairs a fixed type with a fixed
    payload. */
module Envelopes {

  type WorldId = string
  type AgentId = string
  type FactionId = string

  datatype Payload =
    | EpochTransition(newEpoch: int, totalAgents: nat)
    | ConsensusReached(claim: string, votes: nat)
    | HeraldAnnouncement(text: string, eventCount: nat)
    | AgentMessage(agentId: AgentId, agentName: string, content: string, tick: int, round: nat)

  /** The envelope's `epoch` defaults to 0 where the sender does not pass one. */
  datatype Envelope = Envelope(epoch: int, payload: Payload) {
    function Kind(): string {
      match payload
      case EpochTransition(_, _) => "epoch.transition"
      case ConsensusReached(_, _) => "consensus.reached"
      case HeraldAnnouncement(_, _) => "herald.announcement"
      case AgentMessage(_, _, _, _, _) => "agent.message"
    }
  }
}
