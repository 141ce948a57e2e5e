/**
 * The connectivity quality classifier of src/utils/networkSpeed.ts: a total map from a
 * connectivity snapshot to a coarse label.
 */
module NetworkSpeed {
  import opened Wrappers
  import NetInfo

  /** The `NetworkQuality` label shown to the user. */
  datatype NetworkQuality = Excellent | Good | Bad | Unknown

  /**
   * `calculateNetworkQuality`: an ordered chain of early returns over the snapshot.
   * The contract describes each label by the snapshots that receive it.
   */
  function CalculateNetworkQuality(state: NetInfo.State): (q: NetworkQuality)
    ensures q == Excellent <==>
      NetInfo.IsConnected(state) &&
      (state.connectionType.Wifi? || NetInfo.OnGeneration(state, NetInfo.Gen5))
    ensures q == Good <==>
      NetInfo.IsConnected(state) &&
      (NetInfo.OnGeneration(state, NetInfo.Gen4) ||
       (NetInfo.OnGeneration(state, NetInfo.Gen3) && !NetInfo.IsExpensive(state)))
    ensures q == Bad <==>
      !NetInfo.IsConnected(state) ||
      NetInfo.OnGeneration(state, NetInfo.Gen2) ||
      (NetInfo.OnGeneration(state, NetInfo.Gen3) && NetInfo.IsExpensive(state))
    ensures q == Unknown <==>
      NetInfo.IsConnected(state) &&
      !state.connectionType.Wifi? &&
      !NetInfo.OnGeneration(state, NetInfo.Gen2) &&
      !NetInfo.OnGeneration(state, NetInfo.Gen3) &&
      !NetInfo.OnGeneration(state, NetInfo.Gen4) &&
      !NetInfo.OnGeneration(state, NetInfo.Gen5)
  {
    if !NetInfo.IsConnected(state) then Bad
    else if state.connectionType.Wifi? then Excellent
    else if state.connectionType.Cellular? then
      var details := state.connectionType.details;
      var generation := details.cellularGeneration;
      if generation == Some(NetInfo.Gen5) then Excellent
      else if generation == Some(NetInfo.Gen4) then Good
      else if generation == Some(NetInfo.Gen3) then
        (if details.isConnectionExpensive then Bad else Good)
      else if generation == Some(NetInfo.Gen2) then Bad
      else Unknown
    else Unknown
  }

  /** A snapshot that is not connected (`false` or `null`) is Bad whatever its type. */
  lemma DisconnectedIsBad(state: NetInfo.State)
    requires state.isConnected != Some(true)
    ensures CalculateNetworkQuality(state) == Bad
  {
  }

  /** A connected wifi snapshot is Excellent. */
  lemma ConnectedWifiIsExcellent(state: NetInfo.State)
    requires NetInfo.IsConnected(state) && state.connectionType == NetInfo.Wifi
    ensures CalculateNetworkQuality(state) == Excellent
  {
  }

  /** The generation table of a connected cellular snapshot, 3g aside. */
  lemma CellularGenerationTable(state: NetInfo.State)
    requires NetInfo.IsConnected(state) && state.connectionType.Cellular?
    ensures NetInfo.OnGeneration(state, NetInfo.Gen5) ==> CalculateNetworkQuality(state) == Excellent
    ensures NetInfo.OnGeneration(state, NetInfo.Gen4) ==> CalculateNetworkQuality(state) == Good
    ensures NetInfo.OnGeneration(state, NetInfo.Gen2) ==> CalculateNetworkQuality(state) == Bad
  {
  }

  /** A connected 3g snapshot is Bad exactly when the connection is expensive, Good otherwise. */
  lemma Cellular3gDependsOnCost(state: NetInfo.State)
    requires NetInfo.IsConnected(state) && NetInfo.OnGeneration(state, NetInfo.Gen3)
    ensures CalculateNetworkQuality(state) == Bad <==> state.connectionType.details.isConnectionExpensive
    ensures CalculateNetworkQuality(state) == Good <==> !state.connectionType.details.isConnectionExpensive
  {
  }

  /** A connected cellular snapshot with a null or unrecognised generation falls through to Unknown. */
  lemma UnrecognisedGenerationIsUnknown(state: NetInfo.State)
    requires NetInfo.IsConnected(state) && state.connectionType.Cellular?
    requires state.connectionType.details.cellularGeneration in {None, Some(NetInfo.Unrecognised)}
    ensures CalculateNetworkQuality(state) == Unknown
  {
  }

  /** A connected snapshot of any type other than wifi or cellular is Unknown. */
  lemma OtherTypesAreUnknown(state: NetInfo.State)
    requires NetInfo.IsConnected(state)
    requires !state.connectionType.Wifi? && !state.connectionType.Cellular?
    ensures CalculateNetworkQuality(state) == Unknown
  {
  }
}
