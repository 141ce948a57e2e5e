# Network monitor: quality classifier and App state, in Dafny

A model of the decision logic of a React Native network-monitor app. The app
receives connectivity snapshots from the platform (NetInfo), turns each into a
coarse quality label (Excellent, Good, Bad, Unknown), and on request runs a
download speed test whose result in Mbps replaces the label through fixed
thresholds.

- `wrappers.dfy` — `Option`, standing for JavaScript's `null`.
- `netinfo.dfy` — the fields of a connectivity snapshot that the app reads:
  `isConnected` (`true`, `false` or `null`), the connection `type`, and for
  cellular the generation and the expensive-connection flag.
- `network_speed.dfy` — `calculateNetworkQuality` as a total function, its
  contract describing each label by the snapshots that get it, and one lemma
  per branch of the source.
- `app.dfy` — the `App` component's four pieces of state (`networkState`,
  `networkQuality`, `speedMbps`, `isTesting`) as a class whose methods are the
  handlers, each tied to a pure transition function on an `AppState` value.
  `handleSpeedTest` is split at its `await` into `StartSpeedTest` and
  `FinishSpeedTest`, so that "the flag is up while the test runs" can be stated;
  `HandleSpeedTest` runs both. The speed test's outcome is a parameter
  (`Some(mbps)` on success, `None` on failure).
- `app_history.dfy` — arbitrary sequences of connectivity events and speed-test
  presses replayed from the initial state, and the invariants that hold after
  every such history, proved by induction.

One might expect a failed speed test to reset the label to the
connectivity-derived value; the program does not: the label keeps whatever it
showed, which may be the band of an earlier measurement whose speed is no
longer displayed (`FailedTestKeepsMeasuredLabel`). Likewise a new connectivity
event re-derives the label but leaves an earlier measured speed on display.

## Model

| member | source | states |
|---|---|---|
| `NetworkSpeed.CalculateNetworkQuality` | src/utils/networkSpeed.ts:5-30 | total over all snapshots; Excellent exactly for connected wifi or connected cellular 5g; Good exactly for connected 4g or connected non-expensive 3g; Bad exactly when not connected, or connected 2g, or connected expensive 3g; Unknown exactly for connected snapshots that are neither wifi nor cellular with a recognised generation (so never for a disconnected one) |
| `NetworkSpeed.DisconnectedIsBad` | src/utils/networkSpeed.ts:8-10 | `isConnected` false or null gives Bad whatever the type and details |
| `NetworkSpeed.ConnectedWifiIsExcellent` | src/utils/networkSpeed.ts:12-14 | a connected wifi snapshot gives Excellent |
| `NetworkSpeed.CellularGenerationTable` | src/utils/networkSpeed.ts:16-25 | connected cellular: 5g gives Excellent, 4g Good, 2g Bad |
| `NetworkSpeed.Cellular3gDependsOnCost` | src/utils/networkSpeed.ts:22-23 | connected cellular 3g gives Bad iff the connection is expensive and Good iff it is not |
| `NetworkSpeed.UnrecognisedGenerationIsUnknown` | src/utils/networkSpeed.ts:16-29 | connected cellular with a null or unrecognised generation falls through to Unknown |
| `NetworkSpeed.OtherTypesAreUnknown` | src/utils/networkSpeed.ts:12-29 | a connected snapshot of any type other than wifi or cellular gives Unknown |
| `MonitorApp.SpeedQuality` | src/App.tsx:50-56 | a measured speed gives Excellent iff above 10, Good iff between 2 and 10 with both ends included, Bad iff below 2; never Unknown |
| `MonitorApp.SpeedTestEffect` | src/App.tsx:38-64 | a press never changes the snapshot; without a connected snapshot it changes nothing; a started test ends with the flag down; success stores the speed and its band, failure clears the speed and keeps the label |
| `MonitorApp.App.constructor` | src/App.tsx:11-15 | initial state: no snapshot, label Unknown, no speed, not testing |
| `MonitorApp.App.UpdateNetworkQuality` | src/App.tsx:27-36 | the label becomes the classifier's verdict on the snapshot; nothing else changes |
| `MonitorApp.App.OnNetworkChange` | src/App.tsx:19-21 | a connectivity event stores the snapshot and sets the label from it; speed and in-progress flag untouched |
| `MonitorApp.App.StartSpeedTest` | src/App.tsx:39-44 | refuses (changes nothing) when there is no snapshot or it is not connected; otherwise raises the in-progress flag |
| `MonitorApp.App.FinishSpeedTest` | src/App.tsx:45-63 | success stores the speed and the label of its band, failure clears the speed and keeps the label; the flag is lowered in both cases; the snapshot is untouched |
| `MonitorApp.App.HandleSpeedTest` | src/App.tsx:38-64 | the whole handler: refused without a connected snapshot, otherwise start then finish; the snapshot is never modified and a started test leaves the flag down |
| `AppHistory.RunTracksLatestSnapshot` | src/App.tsx:10-64 | after any history the stored snapshot is the latest one delivered and no test is in progress |
| `AppHistory.NothingBeforeFirstSnapshot` | src/App.tsx:11-42 | before the first connectivity event every press is refused and the state is the initial one |
| `AppHistory.OfflineShowsBad` | src/App.tsx:27-42 | while the latest snapshot is not connected the label is Bad, whatever presses follow |
| `AppHistory.LabelProvenance` | src/App.tsx:27-60 | the label after any history is exactly: Unknown before any snapshot; the band of the last successful test since the latest snapshot when that snapshot is connected and such a test exists; otherwise the classifier's verdict on the latest snapshot |
| `AppHistory.SpeedIsLastAcceptedOutcome` | src/App.tsx:38-60 | the speed after any history is exactly the outcome of the last accepted press (a speed after success, none after failure), and none if no press was accepted; refused presses and connectivity events leave it alone |
| `AppHistory.FailedTestKeepsMeasuredLabel` | src/App.tsx:57-60 | on a connected 4g snapshot (Good), a 20 Mbps test then a failed one leave the label Excellent with no speed shown |

## Left out

- `performSpeedTest` (src/utils/networkSpeed.ts:32-54): an HTTP download with a clock and floating-point division and rounding; its result enters the model as the `outcome` parameter.
- Speeds are exact reals: the NaN and Infinity a zero-duration download could produce are not modelled.
- The NetInfo subscription and unsubscription (src/App.tsx:17-25): event delivery is modelled as calls of `OnNetworkChange`, or as `NetworkChanged` events in a history.
- Interleaving at the `await` of the two asynchronous handlers: each handler runs to completion before the next event; `StartSpeedTest` and `FinishSpeedTest` are separate methods but histories do not interleave other events between them. `AppHistory.RunTracksLatestSnapshot` (its "no test in progress" half), `AppHistory.OfflineShowsBad`, `AppHistory.LabelProvenance` and `AppHistory.SpeedIsLastAcceptedOutcome` rest on this: in the program a connectivity event can arrive during the download (src/App.tsx:46), and a download that then succeeds overwrites the label derived from the newer snapshot (src/App.tsx:48-56).
- The `catch` branch of `updateNetworkQuality` (src/App.tsx:31-35): unreachable, because the classifier never fails; it would set Unknown.
- `Alert.alert` and console logging: user-interface and logging side effects.
- src/components/NetworkStatus.tsx and src/components/SpeedTestButton.tsx (label colours, the button disabled while testing, animations) and all JSX and styles: presentation.
- src/types/network is not part of this model beyond the four labels of `NetworkQuality`.
