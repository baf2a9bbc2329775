/** Database rows that the orchestration layer updates in place. The session
    that loads and commits them is not modelled: a row is an object whose
    fields the code assigns. */
module Rows {
  import opened Envelopes

  /** A `worlds` row: its lifecycle status and its simulation clock. */
  class WorldRow {
    const id: WorldId
    var status: string
    var currentEpoch: int
    var currentTick: int

    /** A freshly inserted row: status "created", epoch 0, tick 0. */
    constructor(id: WorldId)
      ensures this.id == id
      ensures status == "created" && currentEpoch == 0 && currentTick == 0
    {
      this.id := id;
      status := "created";
      currentEpoch := 0;
      currentTick := 0;
    }
  }
}
