/**
 * The distribution hub (`TelemetryHub`): it keeps the latest frame and the
 * set of live clients, pushes each new frame to every client and writes it
 * to the time-series sink. Clients are identified by ids; whether a send
 * to a client fails and whether the sink write fails are parameters.
 */
module Hub {
  import opened Common
  import opened Telemetry
  import Coaching

  type ClientId = nat

  /** What happened to the sink write of one broadcast. */
  datatype SinkOutcome = NotAttempted | Written | WriteFailed

  class TelemetryHub {
    var clients: set<ClientId>
    var latest: Option<UnifiedTelemetry>
    /** Whether the sink's write API exists: the database client and its write API were both created. */
    const writeApi: bool

    /**
     * `__init__`: `sinkAvailable` is whether creating the database client
     * and then its write API both succeeded; if either raises, no write API.
     */
    constructor (sinkAvailable: bool)
      ensures clients == {} && latest == None && writeApi == sinkAvailable
    {
      clients := {};
      latest := None;
      writeApi := sinkAvailable;
    }

    /**
     * `broadcast_telemetry(f)`. `failing` holds the clients whose send
     * raises; `sinkOk` says whether the sink write succeeds. Returns the
     * clients that received the frame and what became of the sink write.
     */
    method BroadcastTelemetry(f: UnifiedTelemetry, failing: set<ClientId>, sinkOk: bool)
      returns (delivered: set<ClientId>, sink: SinkOutcome)
      modifies this
      ensures latest == Some(f.(coachingMessages := Coaching.Analyze(f)))
      ensures delivered == old(clients) - failing
      ensures clients == old(clients) - failing
      ensures sink == if !writeApi then NotAttempted else if sinkOk then Written else WriteFailed
    {
      var annotated := f.(coachingMessages := Coaching.Analyze(f));
      latest := Some(annotated);
      // iterate over a snapshot of the client set
      var snapshot := clients;
      var remaining := snapshot;
      var disconnected: set<ClientId> := {};
      delivered := {};
      while remaining != {}
        invariant remaining <= snapshot
        invariant disconnected == (snapshot - remaining) * failing
        invariant delivered == (snapshot - remaining) - failing
        invariant clients == snapshot && latest == Some(annotated)
        decreases remaining
      {
        var c :| c in remaining;
        if c in failing {
          disconnected := disconnected + {c};
        } else {
          delivered := delivered + {c};
        }
        remaining := remaining - {c};
      }
      clients := clients - disconnected;
      if writeApi {
        // a failed write is caught and only logged
        sink := if sinkOk then Written else WriteFailed;
      } else {
        sink := NotAttempted;
      }
    }

    /** `add_websocket_client`. */
    method AddClient(c: ClientId)
      modifies this
      ensures clients == old(clients) + {c} && latest == old(latest)
    {
      clients := clients + {c};
    }

    /** `remove_websocket_client`: `discard`, so removing an absent client changes nothing. */
    method RemoveClient(c: ClientId)
      modifies this
      ensures clients == old(clients) - {c} && latest == old(latest)
    {
      clients := clients - {c};
    }
  }
}
