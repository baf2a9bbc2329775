/** The world routes' in-memory registry: one simulation runner per world id
    and the set of worlds whose genesis is still in flight, with the guards of
    the start and stop routes and the status each route writes to the world
    row. */
module Worlds {
  import opened Wrappers
  import opened Envelopes
  import Runner

  /** An HTTP error answer: its status code. */
  type HttpError = int

  /** How a background genesis ended: it succeeded, the population step
      raised, or a later step raised after the runner was already started. */
  datatype GenesisOutcome = Succeeded | PopulateFailed | FailedAfterStart

  class Registry {
    /** `_runners`. */
    var runners: map<WorldId, Runner.SimulationRunner>
    /** The keys of `_genesis_tasks`. */
    var genesisTasks: set<WorldId>
    /** The world rows' `status` column; a world without a row is absent. */
    var statuses: map<WorldId, string>

    /** Every registered runner drives the world it is registered under. */
    ghost predicate Valid()
      reads this, runners.Values
    {
      forall w :: w in runners ==> runners[w].worldId == w
    }

    constructor(statuses: map<WorldId, string>)
      ensures Valid()
      ensures runners == map[] && genesisTasks == {} && this.statuses == statuses
    {
      runners := map[];
      genesisTasks := {};
      this.statuses := statuses;
    }

    /** The flags `active_runners` counts. */
    function RunningFlags(): (r: map<WorldId, bool>)
      reads this, runners.Values
      ensures r.Keys == runners.Keys
      ensures forall w :: w in r ==> r[w] == runners[w].running
    {
      map w | w in runners :: runners[w].running
    }

    /** `create_world_endpoint`: the row is created in status "generating"
        and a background genesis is launched for it. */
    method CreateWorld(w: WorldId) returns (status: string)
      modifies this
      ensures status == "generating"
      ensures statuses == old(statuses)[w := "generating"]
      ensures genesisTasks == old(genesisTasks) + {w}
      ensures runners == old(runners)
    {
      statuses := statuses[w := "generating"];
      genesisTasks := genesisTasks + {w};
      status := "generating";
    }

    /** `_background_genesis`: on success a fresh runner is registered and
        started, replacing whatever was registered, and the row becomes
        "running"; on failure the row becomes "error". The background job is always
        removed. */
    method BackgroundGenesis(w: WorldId, outcome: GenesisOutcome)
      requires Valid()
      modifies this
      ensures Valid()
      ensures genesisTasks == old(genesisTasks) - {w}
      ensures outcome == PopulateFailed ==> runners == old(runners)
      ensures outcome != PopulateFailed ==>
        && w in runners && fresh(runners[w]) && runners[w].running
        && runners == old(runners)[w := runners[w]]
      ensures statuses == (if w !in old(statuses) then old(statuses)
                           else old(statuses)[w := if outcome == Succeeded then "running" else "error"])
    {
      if outcome != PopulateFailed {
        var r := new Runner.SimulationRunner(w);
        runners := runners[w := r];
        var _ := r.Start();
      }
      if w in statuses {
        statuses := statuses[w := if outcome == Succeeded then "running" else "error"];
      }
      genesisTasks := genesisTasks - {w};
    }

    /** `start_simulation`: 404 without a row, 409 while the registered
        runner is running, otherwise a fresh running runner replaces any
        registered one and the row becomes "running". */
    method StartSimulation(w: WorldId) returns (r: Result<string, HttpError>)
      requires Valid()
      modifies this
      ensures Valid()
      ensures w !in old(statuses) ==> r == Err(404)
      ensures w in old(statuses) && w in old(runners) && old(runners[w].running) ==> r == Err(409)
      ensures r.Err? ==> runners == old(runners) && statuses == old(statuses)
      ensures r.Ok? <==> w in old(statuses) && !(w in old(runners) && old(runners[w].running))
      ensures r.Ok? ==>
        && r.value == "started"
        && w in runners && fresh(runners[w]) && runners[w].running
        && runners == old(runners)[w := runners[w]]
        && statuses == old(statuses)[w := "running"]
      ensures genesisTasks == old(genesisTasks)
    {
      if w !in statuses {
        return Err(404);
      }
      if w in runners && runners[w].running {
        return Err(409);
      }
      var runner := new Runner.SimulationRunner(w);
      runners := runners[w := runner];
      var _ := runner.Start();
      statuses := statuses[w := "running"];
      return Ok("started");
    }

    /** `stop_simulation`: 409 unless the registered runner is running;
        otherwise the runner is stopped and an existing row becomes "paused". */
    method StopSimulation(w: WorldId) returns (r: Result<string, HttpError>)
      requires Valid()
      modifies this, runners.Values
      ensures Valid()
      ensures runners == old(runners) && genesisTasks == old(genesisTasks)
      ensures r.Err? <==> w !in runners || !old(runners[w].running)
      ensures r.Err? ==> r == Err(409) && statuses == old(statuses)
      ensures r.Ok? ==> r.value == "stopped" && !runners[w].running
      ensures r.Ok? ==> statuses == if w in old(statuses) then old(statuses)[w := "paused"] else old(statuses)
      ensures r.Ok? ==> forall v :: v in runners && runners[v] != runners[w] ==> runners[v].running == old(runners[v].running)
      ensures r.Err? ==> forall v :: v in runners ==> runners[v].running == old(runners[v].running)
    {
      if w !in runners || !runners[w].running {
        return Err(409);
      }
      var runner := runners[w];
      var _ := runner.Stop();
      if w in statuses {
        statuses := statuses[w := "paused"];
      }
      return Ok("stopped");
    }
  }

  /** Create, then start, then stop: "generating", "started", "stopped", and
      the row ends "paused" with the runner stopped. */
  method CreateStartStop(w: WorldId) returns (created: string, started: Result<string, HttpError>, stopped: Result<string, HttpError>, final: string)
    ensures created == "generating"
    ensures started == Ok("started") && stopped == Ok("stopped")
    ensures final == "paused"
  {
    var reg := new Registry(map[]);
    created := reg.CreateWorld(w);
    started := reg.StartSimulation(w);
    stopped := reg.StopSimulation(w);
    final := reg.statuses[w];
  }

  /** Starting twice answers 409 the second time; stopping a world that never
      started answers 409. */
  method GuardsRefuse(w: WorldId, other: WorldId) returns (second: Result<string, HttpError>, stopIdle: Result<string, HttpError>, startMissing: Result<string, HttpError>)
    requires other != w
    ensures second == Err(409) && stopIdle == Err(409) && startMissing == Err(404)
  {
    var reg := new Registry(map[w := "created"]);
    var _ := reg.StartSimulation(w);
    second := reg.StartSimulation(w);
    stopIdle := reg.StopSimulation(other);
    startMissing := reg.StartSimulation(other);
  }

  /** A world started by hand while its genesis is still running: when the
      genesis finishes it registers a second runner over the first one, which
      keeps running but is no longer reachable by `stop`. */
  method StartDuringGenesis(w: WorldId) returns (orphan: Runner.SimulationRunner, current: Runner.SimulationRunner)
    ensures orphan.running && current.running && orphan != current
  {
    var reg := new Registry(map[]);
    var _ := reg.CreateWorld(w);
    var started := reg.StartSimulation(w);
    orphan := reg.runners[w];
    reg.BackgroundGenesis(w, Succeeded);
    current := reg.runners[w];
  }
}
