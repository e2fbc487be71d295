/**
 * The run loop shared by every telemetry reader (`BaseTelemetryReader.start`
 * and `stop`). The reader's own `connect`, `read_telemetry` and `disconnect`
 * are supplied as oracle results: whether `connect` succeeded and the
 * sequence of values `read_telemetry` returned, one per loop iteration. The
 * end of that sequence is the point where `stop()` has cleared `running` and
 * the loop check observes it.
 */
module BaseReader {
  import opened Common
  import opened ReaderData

  /** The frames among the read results, in read order (`if data:` filters out `None`). */
  function Frames(results: seq<Option<UnifiedTelemetryData>>): seq<UnifiedTelemetryData> {
    if results == [] then []
    else (if results[0].Some? then [results[0].value] else []) + Frames(results[1..])
  }

  /** `latest_data` after the results, starting from `prior`. */
  function LastFrame(prior: Option<UnifiedTelemetryData>, results: seq<Option<UnifiedTelemetryData>>): Option<UnifiedTelemetryData>
    decreases |results|
  {
    if results == [] then prior
    else LastFrame(if results[0].Some? then results[0] else prior, results[1..])
  }

  /** Appending one read result extends the frames by that frame, if any. */
  lemma {:induction false} FramesSnoc(results: seq<Option<UnifiedTelemetryData>>, r: Option<UnifiedTelemetryData>)
    ensures Frames(results + [r]) == Frames(results) + (if r.Some? then [r.value] else [])
  {
    if results == [] {
      assert [] + [r] == [r];
    } else {
      assert (results + [r])[1..] == results[1..] + [r];
      FramesSnoc(results[1..], r);
    }
  }

  /** Appending one read result makes it the latest data if it is a frame. */
  lemma {:induction false} LastFrameSnoc(prior: Option<UnifiedTelemetryData>, results: seq<Option<UnifiedTelemetryData>>, r: Option<UnifiedTelemetryData>)
    ensures LastFrame(prior, results + [r]) == if r.Some? then r else LastFrame(prior, results)
    decreases |results|
  {
    if results == [] {
      assert [] + [r] == [r];
    } else {
      assert (results + [r])[1..] == results[1..] + [r];
      LastFrameSnoc(if results[0].Some? then results[0] else prior, results[1..], r);
    }
  }

  /** No more callbacks than results. */
  lemma {:induction false} FramesBounded(results: seq<Option<UnifiedTelemetryData>>)
    ensures |Frames(results)| <= |results|
  {
    if results != [] {
      FramesBounded(results[1..]);
    }
  }

  /** Every frame handed to the callback is one that a read returned. */
  lemma {:induction false} FramesAreReads(results: seq<Option<UnifiedTelemetryData>>, d: UnifiedTelemetryData)
    ensures d in Frames(results) <==> Some(d) in results
  {
    if results != [] {
      FramesAreReads(results[1..], d);
      assert results == [results[0]] + results[1..];
    }
  }

  /** Only `None` results: no callback. */
  lemma {:induction false} NoFramesWhenAllNone(results: seq<Option<UnifiedTelemetryData>>)
    requires forall i :: 0 <= i < |results| ==> results[i] == None
    ensures Frames(results) == []
  {
    if results != [] {
      NoFramesWhenAllNone(results[1..]);
    }
  }

  /** `latest_data` ends as the last frame handed to the callback, or keeps its value when there was none. */
  lemma {:induction false} LastFrameIsLastCallback(prior: Option<UnifiedTelemetryData>, results: seq<Option<UnifiedTelemetryData>>)
    ensures Frames(results) == [] ==> LastFrame(prior, results) == prior
    ensures Frames(results) != [] ==> LastFrame(prior, results) == Some(Frames(results)[|Frames(results)| - 1])
    decreases |results|
  {
    if results != [] {
      var next := if results[0].Some? then results[0] else prior;
      LastFrameIsLastCallback(next, results[1..]);
    }
  }

  /**
   * Whether the callback raises during the run: `failAt` names the read whose
   * callback raises, and that read must have returned a frame for the
   * callback to be called at all.
   */
  predicate CallbackRaises(results: seq<Option<UnifiedTelemetryData>>, failAt: Option<nat>) {
    failAt.Some? && failAt.value < |results| && results[failAt.value].Some?
  }

  /** The reads the loop performs: all of them, or up to and including the one whose callback raises. */
  function Performed(results: seq<Option<UnifiedTelemetryData>>, failAt: Option<nat>): (done: seq<Option<UnifiedTelemetryData>>)
    ensures |done| <= |results| && done == results[..|done|]
    ensures CallbackRaises(results, failAt) ==> |done| == failAt.value + 1 && done[failAt.value].Some?
    ensures !CallbackRaises(results, failAt) ==> done == results
  {
    if CallbackRaises(results, failAt) then results[..failAt.value + 1] else results
  }

  /**
   * When the callback raises, the frame it was handed is both the last
   * callback and `latest_data`: the assignment precedes the call.
   */
  lemma {:induction false} RaisingFrameIsLatest(prior: Option<UnifiedTelemetryData>, results: seq<Option<UnifiedTelemetryData>>, failAt: Option<nat>)
    requires CallbackRaises(results, failAt)
    ensures var done := Performed(results, failAt);
      && |done| == failAt.value + 1
      && LastFrame(prior, done) == results[failAt.value]
      && Frames(done) == Frames(results[..failAt.value]) + [results[failAt.value].value]
  {
    var k := failAt.value;
    assert results[..k + 1] == results[..k] + [results[k]];
    FramesSnoc(results[..k], results[k]);
    LastFrameSnoc(prior, results[..k], results[k]);
  }

  /**
   * The state of `BaseTelemetryReader` plus a record of what the loop did
   * to the outside: the frames handed to the callback and the number of
   * `connect`, `read_telemetry` and `disconnect` calls.
   */
  class ReaderLoop {
    var running: bool
    var latestData: Option<UnifiedTelemetryData>
    var callbacks: seq<UnifiedTelemetryData>
    var connectCalls: nat
    var readCalls: nat
    var disconnectCalls: nat

    constructor ()
      ensures !running && latestData == None
      ensures callbacks == [] && connectCalls == 0 && readCalls == 0 && disconnectCalls == 0
    {
      running := false;
      latestData := None;
      callbacks := [];
      connectCalls := 0;
      readCalls := 0;
      disconnectCalls := 0;
    }

    /**
     * `start(callback)`: set `running`, connect once, and if that succeeded
     * read until the loop check sees `running` cleared or the callback
     * raises, then disconnect (the `finally`). `raised` says whether the
     * callback's exception leaves `start`; on that path `running` is still
     * set, since `stop()` was never called.
     */
    method Start(connectOk: bool, results: seq<Option<UnifiedTelemetryData>>, failAt: Option<nat>)
      returns (raised: bool)
      modifies this
      ensures connectCalls == old(connectCalls) + 1
      ensures !connectOk ==>
        !raised && running && latestData == old(latestData) && callbacks == old(callbacks) &&
        readCalls == old(readCalls) && disconnectCalls == old(disconnectCalls)
      ensures connectOk ==>
        (raised <==> CallbackRaises(results, failAt)) &&
        (running <==> raised) &&
        latestData == LastFrame(old(latestData), Performed(results, failAt)) &&
        callbacks == old(callbacks) + Frames(Performed(results, failAt)) &&
        readCalls == old(readCalls) + |Performed(results, failAt)| &&
        disconnectCalls == old(disconnectCalls) + 1
    {
      running := true;
      connectCalls := connectCalls + 1;
      raised := false;
      if !connectOk {
        return;
      }
      ghost var n := |Performed(results, failAt)|;
      var i := 0;
      // stop() may already have been called while connect was in progress
      running := i < |results|;
      while running && !raised
        invariant 0 <= i <= n <= |results|
        invariant raised <==> CallbackRaises(results, failAt) && i == n
        invariant !raised ==> (running <==> i < |results|)
        invariant raised ==> running
        invariant latestData == LastFrame(old(latestData), results[..i])
        invariant callbacks == old(callbacks) + Frames(results[..i])
        invariant readCalls == old(readCalls) + i
        invariant connectCalls == old(connectCalls) + 1
        invariant disconnectCalls == old(disconnectCalls)
        decreases |results| - i
      {
        var data := results[i];
        readCalls := readCalls + 1;
        assert results[..i + 1] == results[..i] + [data];
        FramesSnoc(results[..i], data);
        LastFrameSnoc(old(latestData), results[..i], data);
        if data.Some? {
          latestData := data;
          callbacks := callbacks + [data.value];
          // the callback raises: the exception skips the rest of the loop
          raised := failAt == Some(i);
        }
        i := i + 1;
        if !raised {
          // the end of the oracle: stop() has run during this iteration
          running := i < |results|;
        }
      }
      assert results[..i] == Performed(results, failAt);
      // finally: disconnect, whether the loop ended or the callback raised
      disconnectCalls := disconnectCalls + 1;
    }

    /** `stop()`: only clears `running`; a running loop exits at its next check. */
    method Stop()
      modifies this
      ensures !running
      ensures latestData == old(latestData) && callbacks == old(callbacks)
      ensures connectCalls == old(connectCalls) && readCalls == old(readCalls) && disconnectCalls == old(disconnectCalls)
    {
      running := false;
    }
  }
}
