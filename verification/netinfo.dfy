/**
 * The part of the host platform's connectivity snapshot (NetInfo's `NetInfoState`)
 * that the app reads. The snapshot is delivered by the platform and never built or
 * changed by the app.
 */
module NetInfo {
  import opened Wrappers

  /**
   * `details.cellularGeneration` of a cellular snapshot. The platform reports one of
   * "2g", "3g", "4g", "5g" or null; `Unrecognised` stands for any other string.
   */
  datatype CellularGeneration = Gen2 | Gen3 | Gen4 | Gen5 | Unrecognised

  /** The cellular `details` record; null is `None` for the generation. */
  datatype CellularDetails = CellularDetails(
    cellularGeneration: Option<CellularGeneration>,
    isConnectionExpensive: bool)

  /**
   * The snapshot's `type` field. `NoNetwork` is the platform's "none". Only a cellular
   * snapshot carries details the app reads.
   */
  datatype StateType =
    | Unknown
    | NoNetwork
    | Cellular(details: CellularDetails)
    | Wifi
    | Bluetooth
    | Ethernet
    | Wimax
    | Vpn
    | Other

  /** `isConnected` is `true`, `false` or `null` (`None`). */
  datatype State = State(isConnected: Option<bool>, connectionType: StateType)

  /** JavaScript truthiness of `isConnected`: `false` and `null` both read as not connected. */
  predicate IsConnected(s: State) {
    s.isConnected == Some(true)
  }

  /** A cellular snapshot whose generation is `g`. */
  predicate OnGeneration(s: State, g: CellularGeneration) {
    s.connectionType.Cellular? && s.connectionType.details.cellularGeneration == Some(g)
  }

  /** A cellular snapshot whose connection is flagged as expensive. */
  predicate IsExpensive(s: State) {
    s.connectionType.Cellular? && s.connectionType.details.isConnectionExpensive
  }
}
