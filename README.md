# BLE controller app: the Redux state slices

This project models the three Redux Toolkit slices of a phone app that finds,
connects to and drives a single Bluetooth Low Energy motor controller:

- **bluetooth** (`BluetoothSlice`): the radio-enabled and scanning flags, the
  registry of discovered peripherals keyed by `id`, the connected peripheral,
  the connection status and the last error;
- **device** (`DeviceSlice`): the controller's latest mode, speed, voltage and
  pressure (stored in BAR), the pressure display unit, the connected and
  controlling flags, the last error and the time of the last update;
- **ui** (`UiSlice`): theme, loading flag, UI error and two panel flags.

Each slice is one module. A datatype is the value of the slice (its TypeScript
state interface) and a constant is its `initialState`. A class with the same
fields stands for the Immer draft that the reducers mutate, and `State()` reads
it back as a value. Each reducer is a method of the class. Its postcondition
gives the new state as the old state with exactly the changed fields replaced,
so it says what changes and, implicitly, what does not.

The device registry also has specification functions on `seq<Device>`:

- `FindIndex` is `Array.prototype.find` and returns the first match.
- `Upsert` is `addDevice`.
- `MarkConnected` is the `forEach` of `setConnectedDevice`.
- `PatchRssi` is `updateDeviceRSSI`.

Lemmas about these functions prove three facts:

- the registry never gains a duplicate id;
- rediscovery replaces the matching entry in place;
- with distinct ids, exactly the matching entry is flagged connected.

`BluetoothStore.Valid()` (ids pairwise distinct) holds initially. Every reducer
preserves it.

Modelling decisions:

- `BluetoothDevice` and `DeviceMode` are defined in `services/BluetoothService`,
  which is not part of this model. A device is the record of the fields the
  slice touches: `id`, optional `name`, `rssi`, `isConnected`. A payload is
  taken to carry all four fields. `Object.assign` then copies every field, so
  the entry `find` returned becomes equal to the payload.
- `DeviceMode` is the enumeration `E | N | S | SPlus | R` (ECO, NORMAL, SPORT,
  SPORT+, REVERSE). The slice only stores it.
- `setConnectedDevice(null)`: `payload?.id` is `undefined`, and no string id
  equals it, so every entry is flagged disconnected. The model writes this as
  "the payload is present and its id matches".
- JavaScript numbers that are only stored (speed, voltage, pressure) are `real`.
  The time stamp is `int`. A device's `rssi` is `int`: it is a whole dBm value and
  is only stored. `Date.now()` becomes a `now: int` parameter of the
  reducers that stamp `lastUpdate`.
- `string | null` and `T | null` are `Option`.

## Model

| member | source | states |
|---|---|---|
| BluetoothSlice.FindIndex | store/slices/bluetoothSlice.ts:46 | finds an entry exactly when some entry has the id; the index it returns holds the id, and no earlier entry does (first match) |
| BluetoothSlice.Upsert | store/slices/bluetoothSlice.ts:45-53 | for a new id, the payload is appended at the end and earlier entries keep their order and contents; for a known id, the length and the id sequence are unchanged and the first entry with that id (the one `find` returns) is replaced by the payload, every other entry kept; the id is registered afterwards |
| BluetoothSlice.UpsertKeepsIdsDistinct | store/slices/bluetoothSlice.ts:45-53 | if ids are pairwise distinct before addDevice, they are still distinct after it |
| BluetoothSlice.UpsertReplacesMatch | store/slices/bluetoothSlice.ts:46-51 | with distinct ids, rediscovering the id of entry i replaces exactly entry i with the payload |
| BluetoothSlice.MarkConnected | store/slices/bluetoothSlice.ts:67-69 | length, ids, names and rssi are unchanged; entry k is flagged connected iff the payload is non-null and its id equals entry k's id (the per-entry assignment of line 68 is the helper `Flagged`, which the loop of SetConnectedDevice applies) |
| BluetoothSlice.MarkConnectedCount | store/slices/bluetoothSlice.ts:63-76 | with distinct ids, exactly one entry is flagged connected when the payload's id is registered, and none otherwise (including a null payload) |
| BluetoothSlice.MarkConnectedKeepsIdsDistinct | store/slices/bluetoothSlice.ts:67-69 | setConnectedDevice preserves pairwise-distinct ids |
| BluetoothSlice.PatchRssi | store/slices/bluetoothSlice.ts:78-83 | length and ids unchanged; an absent id changes nothing; when the id is present, exactly the first entry with that id (the one `find` returns) takes the new rssi and every other entry and field is kept |
| BluetoothSlice.PatchRssiKeepsIdsDistinct | store/slices/bluetoothSlice.ts:78-83 | updateDeviceRSSI preserves pairwise-distinct ids |
| BluetoothSlice.IdsDistinctByIds | store/slices/bluetoothSlice.ts:63-83 | two registries with the same id sequence are distinct-id alike, which is why in-place patches keep the registry free of duplicates |
| BluetoothSlice.BluetoothStore.constructor | store/slices/bluetoothSlice.ts:20-27 | the store starts at initialState: disabled, not scanning, empty registry, no connected device, DISCONNECTED, no error |
| BluetoothSlice.BluetoothStore.SetBluetoothEnabled | store/slices/bluetoothSlice.ts:33-35 | only isEnabled changes |
| BluetoothSlice.BluetoothStore.SetScanning | store/slices/bluetoothSlice.ts:37-43 | starting a scan sets the flag, empties the registry and clears the error; stopping changes only the flag |
| BluetoothSlice.BluetoothStore.AddDevice | store/slices/bluetoothSlice.ts:45-53 | the registry becomes Upsert of the old one, nothing else changes, and distinct ids stay distinct |
| BluetoothSlice.BluetoothStore.ClearDevices | store/slices/bluetoothSlice.ts:55-57 | only the registry changes, to empty |
| BluetoothSlice.BluetoothStore.SetConnectionStatus | store/slices/bluetoothSlice.ts:59-61 | only the status changes, to any value whatever the old one |
| BluetoothSlice.BluetoothStore.SetConnectedDevice | store/slices/bluetoothSlice.ts:63-76 | connectedDevice becomes the payload, the registry becomes MarkConnected of the old one (the loop), the status becomes CONNECTED for a payload and DISCONNECTED for null; nothing else changes |
| BluetoothSlice.BluetoothStore.UpdateDeviceRssi | store/slices/bluetoothSlice.ts:78-83 | the registry becomes PatchRssi of the old one; nothing else changes |
| BluetoothSlice.BluetoothStore.SetError | store/slices/bluetoothSlice.ts:85-87 | only the error changes |
| BluetoothSlice.BluetoothStore.ClearError | store/slices/bluetoothSlice.ts:89-91 | only the error changes, to null |
| BluetoothSlice.BluetoothStore.ResetBluetoothState | store/slices/bluetoothSlice.ts:93 | the state becomes initialState |
| DeviceSlice.OtherUnit | store/slices/deviceSlice.ts:59-61 | the toggled unit always differs from the current one (BAR and PSI swap) |
| DeviceSlice.OtherUnitInvolution | store/slices/deviceSlice.ts:59-61 | toggling the unit twice restores it |
| DeviceSlice.Disconnected | store/slices/deviceSlice.ts:63-73 | after a disconnect: not connected, not controlling, mode null, speed, voltage and pressure 0; unit, error and lastUpdate kept |
| DeviceSlice.DisconnectedIdempotent | store/slices/deviceSlice.ts:63-73 | a second disconnect changes nothing |
| DeviceSlice.DeviceStore.constructor | store/slices/deviceSlice.ts:18-28 | the store starts at initialState: mode null, zeros, BAR, not connected, time 0, not controlling, no error |
| DeviceSlice.DeviceStore.SetCurrentMode | store/slices/deviceSlice.ts:34-38 | only the mode (set), lastUpdate (the given time) and error (cleared) change |
| DeviceSlice.DeviceStore.SetCurrentSpeed | store/slices/deviceSlice.ts:40-43 | only the speed and lastUpdate change |
| DeviceSlice.DeviceStore.SetCurrentVoltage | store/slices/deviceSlice.ts:45-48 | only the voltage and lastUpdate change |
| DeviceSlice.DeviceStore.SetCurrentPressure | store/slices/deviceSlice.ts:50-53 | only the pressure (in BAR) and lastUpdate change |
| DeviceSlice.DeviceStore.SetPressureUnit | store/slices/deviceSlice.ts:55-57 | only the unit changes |
| DeviceSlice.DeviceStore.TogglePressureUnit | store/slices/deviceSlice.ts:59-61 | the unit flips BAR and PSI; nothing else changes |
| DeviceSlice.DeviceStore.SetDeviceConnected | store/slices/deviceSlice.ts:63-73 | connecting changes only the flag; disconnecting yields Disconnected of the old state |
| DeviceSlice.DeviceStore.SetControlling | store/slices/deviceSlice.ts:75-77 | only isControlling changes |
| DeviceSlice.DeviceStore.SetDeviceError | store/slices/deviceSlice.ts:79-82 | the error is set and isControlling becomes false whatever it was; nothing else changes |
| DeviceSlice.DeviceStore.ClearDeviceError | store/slices/deviceSlice.ts:84-86 | only the error changes, to null |
| DeviceSlice.DeviceStore.UpdateLastUpdate | store/slices/deviceSlice.ts:88-90 | only lastUpdate changes, to the given time |
| DeviceSlice.DeviceStore.ResetDeviceState | store/slices/deviceSlice.ts:92 | the state becomes initialState |
| UiSlice.OtherTheme | store/slices/uiSlice.ts:49-51 | the toggled theme always differs from the current one (light and dark swap) |
| UiSlice.OtherThemeInvolution | store/slices/uiSlice.ts:49-51 | toggling the theme twice restores it |
| UiSlice.UiStore.constructor | store/slices/uiSlice.ts:13-19 | the store starts at initialState: light, not loading, no error, both panels hidden |
| UiSlice.UiStore.SetTheme | store/slices/uiSlice.ts:25-27 | only the theme changes |
| UiSlice.UiStore.SetLoading | store/slices/uiSlice.ts:29-31 | only isLoading changes |
| UiSlice.UiStore.SetUiError | store/slices/uiSlice.ts:33-35 | only the error changes |
| UiSlice.UiStore.ClearUiError | store/slices/uiSlice.ts:37-39 | only the error changes, to null |
| UiSlice.UiStore.SetShowDeviceList | store/slices/uiSlice.ts:41-43 | only showDeviceList changes |
| UiSlice.UiStore.SetShowSettings | store/slices/uiSlice.ts:45-47 | only showSettings changes |
| UiSlice.UiStore.ToggleTheme | store/slices/uiSlice.ts:49-51 | the theme flips light and dark; nothing else changes |
| UiSlice.UiStore.ResetUiState | store/slices/uiSlice.ts:53 | the state becomes initialState |

## Left out

- The BLE scanner, connection manager, command/telemetry codec and the filtering of unnamed advertisements live in `services/BluetoothService`, which is not part of this model. No frame format and no connection-state transition rule is modelled: `setConnectionStatus` accepts every value.
- Store wiring (`combineReducers`), redux-persist and AsyncStorage persistence in `store/index.ts` are library configuration and storage I/O.
- UI rendering, the toast dispatcher and its timers, navigation, the splash screen and keep-awake are presentation code.
- The configuration constants (timeouts, retry counts, delays) are only used by the BLE service, which is not modelled.
- BAR-to-PSI conversion is not in the slices; it is floating-point display logic. Speed, voltage and pressure are modelled as exact reals, without IEEE-754 rounding.
- `Date.now()` is replaced by a `now` parameter; the clock itself is not modelled.
- Immer's copy-on-write and structural sharing are not modelled. Each reducer is modelled as updating the draft in place.
- The alternative where a payload omits some optional fields, so that `Object.assign` keeps the old value of those fields, is not modelled.
