/**
 * The state held by the `App` component of src/App.tsx and the two handlers that
 * update it: the connectivity listener and the speed-test button handler. The
 * download itself is not performed here; its outcome is passed in.
 */
module MonitorApp {
  import opened Wrappers
  import NetInfo
  import opened NetworkSpeed

  /** The component's four pieces of state, as one value. */
  datatype AppState = AppState(
    networkState: Option<NetInfo.State>,
    networkQuality: NetworkQuality,
    speedMbps: Option<real>,
    isTesting: bool)

  /** The state before any event: no snapshot, label Unknown, no speed, not testing. */
  const Initial := AppState(None, Unknown, None, false)

  /** The speed-to-label cascade applied to a measured speed in megabits per second. */
  function SpeedQuality(speed: real): (q: NetworkQuality)
    ensures q == Excellent <==> speed > 10.0
    ensures q == Good <==> 2.0 <= speed <= 10.0
    ensures q == Bad <==> speed < 2.0
  {
    if speed > 10.0 then Excellent
    else if speed >= 2.0 then Good
    else Bad
  }

  /** The connectivity listener: store the snapshot, then derive the label from it. */
  function ReceiveSnapshot(st: AppState, state: NetInfo.State): AppState {
    st.(networkState := Some(state), networkQuality := CalculateNetworkQuality(state))
  }

  /** The guard of the speed-test handler: a snapshot is present and it is connected. */
  predicate CanStartTest(st: AppState) {
    st.networkState.Some? && NetInfo.IsConnected(st.networkState.value)
  }

  /** The speed-test handler up to its `await`: raise the in-progress flag. */
  function BeginTest(st: AppState): AppState {
    st.(isTesting := true)
  }

  /**
   * The speed-test handler after its `await`: record a measured speed and its label,
   * or clear the speed on failure; lower the in-progress flag in either case.
   */
  function FinishTest(st: AppState, outcome: Option<real>): AppState {
    match outcome
    case Some(speed) =>
      st.(speedMbps := Some(speed), networkQuality := SpeedQuality(speed), isTesting := false)
    case None =>
      st.(speedMbps := None, isTesting := false)
  }

  /** The whole speed-test handler: refused without a connection, otherwise begin and finish. */
  function SpeedTest(st: AppState, outcome: Option<real>): AppState {
    if CanStartTest(st) then FinishTest(BeginTest(st), outcome) else st
  }

  /** What a speed-test press does, stated field by field. */
  lemma SpeedTestEffect(st: AppState, outcome: Option<real>)
    ensures var r := SpeedTest(st, outcome);
      r.networkState == st.networkState &&
      (!CanStartTest(st) ==> r == st) &&
      (CanStartTest(st) ==> !r.isTesting) &&
      (CanStartTest(st) && outcome.Some? ==>
        r.speedMbps == outcome &&
        (r.networkQuality == Excellent <==> outcome.value > 10.0) &&
        (r.networkQuality == Good <==> 2.0 <= outcome.value <= 10.0) &&
        (r.networkQuality == Bad <==> outcome.value < 2.0)) &&
      (CanStartTest(st) && outcome.None? ==>
        r.speedMbps == None && r.networkQuality == st.networkQuality)
  {
  }

  /** The `App` component's state, updated in place by its handlers. */
  class App {
    var networkState: Option<NetInfo.State>
    var networkQuality: NetworkQuality
    var speedMbps: Option<real>
    var isTesting: bool

    /** The four fields as one value. */
    function Model(): AppState
      reads this
    {
      AppState(networkState, networkQuality, speedMbps, isTesting)
    }

    /** The initial values of the four `useState` hooks. */
    constructor ()
      ensures Model() == Initial
      ensures networkState == None && networkQuality == Unknown
      ensures speedMbps == None && !isTesting
    {
      networkState := None;
      networkQuality := Unknown;
      speedMbps := None;
      isTesting := false;
    }

    /** `updateNetworkQuality`: set the label to the classifier's verdict on `state`. */
    method UpdateNetworkQuality(state: NetInfo.State)
      modifies this`networkQuality
      ensures networkQuality == CalculateNetworkQuality(state)
    {
      var quality := CalculateNetworkQuality(state);
      networkQuality := quality;
    }

    /** The connectivity listener: store the new snapshot, then update the label from it. */
    method OnNetworkChange(state: NetInfo.State)
      modifies this
      ensures Model() == ReceiveSnapshot(old(Model()), state)
      ensures networkState == Some(state)
      ensures networkQuality == CalculateNetworkQuality(state)
      ensures speedMbps == old(speedMbps) && isTesting == old(isTesting)
    {
      networkState := Some(state);
      UpdateNetworkQuality(state);
    }

    /**
     * The speed-test handler up to its `await`: refuse without a connected snapshot,
     * otherwise raise the in-progress flag.
     */
    method StartSpeedTest() returns (started: bool)
      modifies this`isTesting
      ensures started == CanStartTest(old(Model()))
      ensures Model() == if started then BeginTest(old(Model())) else old(Model())
      ensures started ==> isTesting
    {
      if networkState.None? || networkState.value.isConnected != Some(true) {
        return false;
      }
      isTesting := true;
      return true;
    }

    /**
     * The speed-test handler after its `await`: on success record the speed and the
     * label its band gives, on failure clear the speed; then lower the flag.
     */
    method FinishSpeedTest(outcome: Option<real>)
      modifies this`speedMbps, this`networkQuality, this`isTesting
      ensures Model() == FinishTest(old(Model()), outcome)
      ensures !isTesting && networkState == old(networkState)
      ensures outcome.Some? ==> speedMbps == outcome && networkQuality == SpeedQuality(outcome.value)
      ensures outcome.None? ==> speedMbps == None && networkQuality == old(networkQuality)
    {
      match outcome {
        case Some(speed) =>
          speedMbps := Some(speed);
          if speed > 10.0 {
            networkQuality := Excellent;
          } else if speed >= 2.0 {
            networkQuality := Good;
          } else {
            networkQuality := Bad;
          }
        case None =>
          speedMbps := None;
      }
      isTesting := false;
    }

    /** `handleSpeedTest`, with the measured outcome given instead of downloaded. */
    method HandleSpeedTest(outcome: Option<real>)
      modifies this
      ensures Model() == SpeedTest(old(Model()), outcome)
      ensures networkState == old(networkState)
      ensures !CanStartTest(old(Model())) ==> Model() == old(Model())
      ensures CanStartTest(old(Model())) ==> !isTesting
    {
      var started := StartSpeedTest();
      if started {
        FinishSpeedTest(outcome);
      }
    }
  }
}
