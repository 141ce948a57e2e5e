/**
 * Any sequence of connectivity events and speed-test presses, replayed through the
 * App's handlers from the initial state, and what holds after every such history.
 * Each handler runs to completion before the next event.
 */
module AppHistory {
  import opened Wrappers
  import NetInfo
  import opened NetworkSpeed
  import opened MonitorApp

  /** One input to the App: a connectivity event, or a press with the test's outcome. */
  datatype Event =
    | NetworkChanged(snapshot: NetInfo.State)
    | SpeedTestPressed(outcome: Option<real>)

  /** The handler an event runs. */
  function Step(st: AppState, e: Event): AppState {
    match e
    case NetworkChanged(state) => ReceiveSnapshot(st, state)
    case SpeedTestPressed(outcome) => SpeedTest(st, outcome)
  }

  /** The state after replaying `events` from the initial state. */
  function Run(events: seq<Event>): AppState
    decreases |events|
  {
    if events == [] then Initial
    else Step(Run(events[..|events| - 1]), events[|events| - 1])
  }

  /** The most recent connectivity snapshot among `events`, if any. */
  function LatestSnapshot(events: seq<Event>): Option<NetInfo.State>
    decreases |events|
  {
    if events == [] then None
    else match events[|events| - 1]
      case NetworkChanged(state) => Some(state)
      case SpeedTestPressed(_) => LatestSnapshot(events[..|events| - 1])
  }

  /** The events after the most recent connectivity snapshot (all of them if there is none). */
  function SinceLatestSnapshot(events: seq<Event>): seq<Event>
    decreases |events|
  {
    if events == [] then []
    else match events[|events| - 1]
      case NetworkChanged(_) => []
      case SpeedTestPressed(_) => SinceLatestSnapshot(events[..|events| - 1]) + [events[|events| - 1]]
  }

  /** The outcome of the last successful press among `events`, if any. */
  function LastMeasured(events: seq<Event>): Option<real>
    decreases |events|
  {
    if events == [] then None
    else match events[|events| - 1]
      case SpeedTestPressed(Some(speed)) => Some(speed)
      case _ => LastMeasured(events[..|events| - 1])
  }

  /**
   * The outcome of the last press that the handler accepted, that is, one made while
   * the latest snapshot before it was connected.
   */
  function LastAcceptedOutcome(events: seq<Event>): Option<real>
    decreases |events|
  {
    if events == [] then None
    else
      var prefix := events[..|events| - 1];
      match events[|events| - 1]
      case NetworkChanged(_) => LastAcceptedOutcome(prefix)
      case SpeedTestPressed(outcome) =>
        if LatestSnapshot(prefix).Some? && NetInfo.IsConnected(LatestSnapshot(prefix).value)
        then outcome
        else LastAcceptedOutcome(prefix)
  }

  /**
   * The stored snapshot is always the most recent one delivered: speed tests never
   * touch it. Between events no test is in progress; this half holds by construction,
   * because a history runs each press's start and finish as one step, with no event
   * arriving during the download.
   */
  lemma {:induction false} RunTracksLatestSnapshot(events: seq<Event>)
    ensures Run(events).networkState == LatestSnapshot(events)
    ensures !Run(events).isTesting
    decreases |events|
  {
    if events != [] {
      RunTracksLatestSnapshot(events[..|events| - 1]);
    }
  }

  /** Until the first connectivity event, every speed-test press is refused and the state stays initial. */
  lemma {:induction false} NothingBeforeFirstSnapshot(events: seq<Event>)
    requires LatestSnapshot(events) == None
    ensures Run(events) == Initial
    decreases |events|
  {
    if events != [] {
      NothingBeforeFirstSnapshot(events[..|events| - 1]);
    }
  }

  /**
   * While the latest snapshot is not connected the label is Bad, whatever presses
   * follow it: every press is refused.
   */
  lemma {:induction false} OfflineShowsBad(events: seq<Event>)
    requires LatestSnapshot(events).Some? && !NetInfo.IsConnected(LatestSnapshot(events).value)
    ensures Run(events).networkQuality == Bad
    decreases |events|
  {
    var prefix := events[..|events| - 1];
    match events[|events| - 1]
    case NetworkChanged(state) =>
    case SpeedTestPressed(outcome) =>
      RunTracksLatestSnapshot(prefix);
      OfflineShowsBad(prefix);
  }

  /**
   * The label shown after any history: Unknown before any snapshot; otherwise the band
   * of the last successful test since the latest snapshot if that snapshot is connected
   * and such a test exists, and the classifier's verdict on the latest snapshot if not.
   */
  lemma {:induction false} LabelProvenance(events: seq<Event>)
    ensures Run(events).networkQuality ==
      match LatestSnapshot(events)
      case None => Unknown
      case Some(snapshot) =>
        var measured := LastMeasured(SinceLatestSnapshot(events));
        if NetInfo.IsConnected(snapshot) && measured.Some? then SpeedQuality(measured.value)
        else CalculateNetworkQuality(snapshot)
    decreases |events|
  {
    if events != [] {
      var prefix := events[..|events| - 1];
      var last := events[|events| - 1];
      LabelProvenance(prefix);
      RunTracksLatestSnapshot(prefix);
      match last
      case NetworkChanged(state) =>
      case SpeedTestPressed(outcome) =>
        var before, after := SinceLatestSnapshot(prefix), SinceLatestSnapshot(events);
        assert after == before + [last];
        assert after[..|after| - 1] == before;
    }
  }

  /**
   * The speed shown after any history is the outcome of the last accepted press: the
   * measured speed after a success, none after a failure, and none if no press was
   * accepted. Refused presses and connectivity events leave it alone.
   */
  lemma {:induction false} SpeedIsLastAcceptedOutcome(events: seq<Event>)
    ensures Run(events).speedMbps == LastAcceptedOutcome(events)
    decreases |events|
  {
    if events != [] {
      var prefix := events[..|events| - 1];
      RunTracksLatestSnapshot(prefix);
      SpeedIsLastAcceptedOutcome(prefix);
    }
  }

  /**
   * After a failed test the label still shows the band of an earlier measurement while
   * the speed is cleared: it does not fall back to the connectivity-derived label.
   */
  lemma FailedTestKeepsMeasuredLabel()
    ensures var fourG := NetInfo.State(Some(true), NetInfo.Cellular(NetInfo.CellularDetails(Some(NetInfo.Gen4), false)));
      var events := [NetworkChanged(fourG), SpeedTestPressed(Some(20.0)), SpeedTestPressed(None)];
      CalculateNetworkQuality(fourG) == Good &&
      Run(events).networkQuality == Excellent &&
      Run(events).speedMbps == None
  {
    var fourG := NetInfo.State(Some(true), NetInfo.Cellular(NetInfo.CellularDetails(Some(NetInfo.Gen4), false)));
    var events := [NetworkChanged(fourG), SpeedTestPressed(Some(20.0)), SpeedTestPressed(None)];
    assert events[..1] == [NetworkChanged(fourG)] && events[..2] == events[..1] + [events[1]];
    assert events[..1][..0] == [];
    assert Run(events[..1]).networkState == Some(fourG);
    assert Run(events[..2]).networkQuality == Excellent;
  }
}
