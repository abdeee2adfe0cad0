/** The "bluetooth" slice: radio flags, the registry of discovered peripherals,
    the connected peripheral, the connection status and the last error. */
module BluetoothSlice {
  import opened Wrappers

  /** The four values of the ConnectionStatus enum. */
  datatype ConnectionStatus = Disconnected | Connecting | Connected | Disconnecting

  /** A discovered peripheral: the fields of BluetoothDevice the slice reads or writes. */
  datatype Device = Device(id: string, name: Option<string>, rssi: int, isConnected: bool)

  /** The value of the slice (the BluetoothState interface). */
  datatype BluetoothState = BluetoothState(
    isEnabled: bool,
    isScanning: bool,
    devices: seq<Device>,
    connectedDevice: Option<Device>,
    connectionStatus: ConnectionStatus,
    error: Option<string>)

  const InitialState := BluetoothState(false, false, [], None, Disconnected, None)

  // ---------------------------------------------------------------------------
  // The device registry as a value

  predicate Contains(ds: seq<Device>, id: string) {
    exists k :: 0 <= k < |ds| && ds[k].id == id
  }

  /** No two entries of the registry share an id. */
  predicate IdsDistinct(ds: seq<Device>) {
    forall i, j :: 0 <= i < j < |ds| ==> ds[i].id != ds[j].id
  }

  /** The ids of the registry, in list order. */
  function Ids(ds: seq<Device>): seq<string> {
    seq(|ds|, k requires 0 <= k < |ds| => ds[k].id)
  }

  /** `devices.find(d => d.id === id)`, as the index of the entry it returns. */
  function FindIndex(ds: seq<Device>, id: string): (r: Option<nat>)
    ensures r.Some? <==> Contains(ds, id)
    ensures r.Some? ==> r.value < |ds| && ds[r.value].id == id
    ensures r.Some? ==> forall j :: 0 <= j < r.value ==> ds[j].id != id
  {
    if |ds| == 0 then None
    else if ds[0].id == id then Some(0)
    else
      match FindIndex(ds[1..], id)
      case None =>
        assert forall k :: 1 <= k < |ds| ==> ds[k] == ds[1..][k - 1];
        None
      case Some(i) =>
        assert ds[i + 1] == ds[1..][i];
        Some(i + 1)
  }

  /** The registry after `addDevice(d)`: the entry `find` returns takes every
      field of `d` (Object.assign of a whole record), or `d` is pushed at the end. */
  function Upsert(ds: seq<Device>, d: Device): (r: seq<Device>)
    ensures Contains(r, d.id)
    ensures !Contains(ds, d.id) ==> r == ds + [d]
    ensures Contains(ds, d.id) ==> |r| == |ds| && Ids(r) == Ids(ds)
    ensures Contains(ds, d.id) ==>
      forall k :: 0 <= k < |ds| ==> r[k] == ds[k] || (ds[k].id == d.id && r[k] == d)
    ensures Contains(ds, d.id) ==>
      exists i :: 0 <= i < |ds| && ds[i].id == d.id &&
        (forall j :: 0 <= j < i ==> ds[j].id != d.id) && r == ds[i := d]
  {
    match FindIndex(ds, d.id)
    case None =>
      assert (ds + [d])[|ds|] == d;
      ds + [d]
    case Some(i) =>
      assert ds[i := d][i] == d;
      ds[i := d]
  }

  /** One entry after the `forEach` of `setConnectedDevice(payload)` has visited it. */
  function Flagged(dev: Device, payload: Option<Device>): Device {
    dev.(isConnected := payload.Some? && dev.id == payload.value.id)
  }

  /** The registry after `setConnectedDevice(payload)`: an entry is flagged
      connected exactly when its id is the payload's; nothing else changes. */
  function MarkConnected(ds: seq<Device>, payload: Option<Device>): (r: seq<Device>)
    ensures |r| == |ds| && Ids(r) == Ids(ds)
    ensures forall k :: 0 <= k < |ds| ==>
      r[k].name == ds[k].name && r[k].rssi == ds[k].rssi
    ensures forall k :: 0 <= k < |ds| ==>
      (r[k].isConnected <==> payload.Some? && ds[k].id == payload.value.id)
  {
    if ds == [] then []
    else
      var rest := MarkConnected(ds[1..], payload);
      assert forall k :: 1 <= k < |ds| ==> ds[k] == ds[1..][k - 1];
      assert forall k :: 0 <= k < |rest| ==> rest[k].id == Ids(rest)[k];
      [Flagged(ds[0], payload)] + rest
  }

  /** The registry after `updateDeviceRSSI(id, rssi)`: only the rssi of the entry
      `find` returns changes; an absent id changes nothing. */
  function PatchRssi(ds: seq<Device>, id: string, rssi: int): (r: seq<Device>)
    ensures |r| == |ds| && Ids(r) == Ids(ds)
    ensures !Contains(ds, id) ==> r == ds
    ensures forall k :: 0 <= k < |ds| ==>
      r[k] == ds[k] || (ds[k].id == id && r[k] == ds[k].(rssi := rssi))
    ensures Contains(ds, id) ==>
      exists i :: 0 <= i < |ds| && ds[i].id == id &&
        (forall j :: 0 <= j < i ==> ds[j].id != id) && r == ds[i := ds[i].(rssi := rssi)]
  {
    match FindIndex(ds, id)
    case None => ds
    case Some(i) => ds[i := ds[i].(rssi := rssi)]
  }

  /** How many entries are flagged connected. */
  function ConnectedCount(ds: seq<Device>): nat {
    if ds == [] then 0 else (if ds[0].isConnected then 1 else 0) + ConnectedCount(ds[1..])
  }

  // ---------------------------------------------------------------------------
  // Properties of the registry operations

  /** Same ids in the same order means the same distinctness. */
  lemma IdsDistinctByIds(ds: seq<Device>, es: seq<Device>)
    requires Ids(ds) == Ids(es)
    ensures IdsDistinct(ds) <==> IdsDistinct(es)
  {
    assert |ds| == |Ids(ds)| == |Ids(es)| == |es|;
    assert forall k :: 0 <= k < |ds| ==> ds[k].id == Ids(ds)[k] == es[k].id;
  }

  /** addDevice never introduces a duplicate id. */
  lemma UpsertKeepsIdsDistinct(ds: seq<Device>, d: Device)
    requires IdsDistinct(ds)
    ensures IdsDistinct(Upsert(ds, d))
  {
  }

  /** With distinct ids, rediscovering entry i replaces that entry and nothing else. */
  lemma UpsertReplacesMatch(ds: seq<Device>, d: Device, i: nat)
    requires IdsDistinct(ds) && i < |ds| && ds[i].id == d.id
    ensures Upsert(ds, d) == ds[i := d]
  {
  }

  /** updateDeviceRSSI never introduces a duplicate id. */
  lemma PatchRssiKeepsIdsDistinct(ds: seq<Device>, id: string, rssi: int)
    requires IdsDistinct(ds)
    ensures IdsDistinct(PatchRssi(ds, id, rssi))
  {
  }

  /** setConnectedDevice never introduces a duplicate id. */
  lemma MarkConnectedKeepsIdsDistinct(ds: seq<Device>, payload: Option<Device>)
    requires IdsDistinct(ds)
    ensures IdsDistinct(MarkConnected(ds, payload))
  {
    IdsDistinctByIds(ds, MarkConnected(ds, payload));
  }

  /** With distinct ids, exactly the matching entry is flagged connected:
      one entry when the payload's id is registered, none otherwise. */
  lemma {:induction false} MarkConnectedCount(ds: seq<Device>, payload: Option<Device>)
    requires IdsDistinct(ds)
    ensures ConnectedCount(MarkConnected(ds, payload)) ==
      if payload.Some? && Contains(ds, payload.value.id) then 1 else 0
  {
    if ds != [] {
      var r := MarkConnected(ds, payload);
      var tail := ds[1..];
      assert forall k :: 1 <= k < |ds| ==> ds[k] == tail[k - 1];
      assert IdsDistinct(tail);
      MarkConnectedCount(tail, payload);
      assert r[1..] == MarkConnected(tail, payload);
      if payload.Some? && ds[0].id == payload.value.id {
        assert !Contains(tail, payload.value.id);
      } else {
        assert payload.Some? ==> (Contains(ds, payload.value.id) <==> Contains(tail, payload.value.id));
      }
    }
  }

  // ---------------------------------------------------------------------------
  // The slice state, updated in place by its reducers

  class BluetoothStore {
    var isEnabled: bool
    var isScanning: bool
    var devices: seq<Device>
    var connectedDevice: Option<Device>
    var connectionStatus: ConnectionStatus
    var error: Option<string>

    function State(): BluetoothState
      reads this
    {
      BluetoothState(isEnabled, isScanning, devices, connectedDevice, connectionStatus, error)
    }

    /** The registry holds at most one entry per id. */
    predicate Valid()
      reads this
    {
      IdsDistinct(devices)
    }

    /** The store starts from `initialState`. */
    constructor ()
      ensures State() == InitialState && Valid()
    {
      isEnabled, isScanning, devices := false, false, [];
      connectedDevice, connectionStatus, error := None, Disconnected, None;
    }

    method SetBluetoothEnabled(enabled: bool)
      modifies this
      ensures State() == old(State()).(isEnabled := enabled)
    {
      isEnabled := enabled;
    }

    /** Starting a scan empties the registry and clears the error; stopping
        one changes only the flag. */
    method SetScanning(scanning: bool)
      modifies this
      ensures scanning ==> State() == old(State()).(isScanning := true, devices := [], error := None)
      ensures !scanning ==> State() == old(State()).(isScanning := false)
      ensures scanning || old(Valid()) ==> Valid()
    {
      isScanning := scanning;
      if scanning {
        devices := [];
        error := None;
      }
    }

    method AddDevice(d: Device)
      modifies this
      ensures State() == old(State()).(devices := Upsert(old(devices), d))
      ensures old(Valid()) ==> Valid()
    {
      var found := FindIndex(devices, d.id);
      if found.None? {
        devices := devices + [d];
      } else {
        devices := devices[found.value := d];
      }
      if old(Valid()) {
        UpsertKeepsIdsDistinct(old(devices), d);
      }
    }

    method ClearDevices()
      modifies this
      ensures State() == old(State()).(devices := [])
      ensures Valid()
    {
      devices := [];
    }

    /** Any status may follow any other: the reducer enforces no transition order. */
    method SetConnectionStatus(status: ConnectionStatus)
      modifies this
      ensures State() == old(State()).(connectionStatus := status)
    {
      connectionStatus := status;
    }

    method SetConnectedDevice(payload: Option<Device>)
      modifies this
      ensures State() == old(State()).(
        connectedDevice := payload,
        devices := MarkConnected(old(devices), payload),
        connectionStatus := if payload.Some? then Connected else Disconnected)
      ensures old(Valid()) ==> Valid()
    {
      connectedDevice := payload;
      var i := 0;
      while i < |devices|
        invariant i <= |devices| == |old(devices)|
        invariant forall k :: 0 <= k < i ==> devices[k] == Flagged(old(devices)[k], payload)
        invariant forall k :: i <= k < |devices| ==> devices[k] == old(devices)[k]
        invariant State() == old(State()).(connectedDevice := payload, devices := devices)
      {
        devices := devices[i := Flagged(devices[i], payload)];
        i := i + 1;
      }
      ghost var marked := MarkConnected(old(devices), payload);
      forall k | 0 <= k < |devices| ensures devices[k] == marked[k] {
        assert marked[k].id == Ids(marked)[k] == Ids(old(devices))[k];
      }
      assert devices == marked;
      if payload.Some? {
        connectionStatus := Connected;
      } else {
        connectionStatus := Disconnected;
      }
      if old(Valid()) {
        MarkConnectedKeepsIdsDistinct(old(devices), payload);
      }
    }

    method UpdateDeviceRssi(deviceId: string, rssi: int)
      modifies this
      ensures State() == old(State()).(devices := PatchRssi(old(devices), deviceId, rssi))
      ensures old(Valid()) ==> Valid()
    {
      var found := FindIndex(devices, deviceId);
      if found.Some? {
        devices := devices[found.value := devices[found.value].(rssi := rssi)];
      }
      if old(Valid()) {
        PatchRssiKeepsIdsDistinct(old(devices), deviceId, rssi);
      }
    }

    method SetError(e: Option<string>)
      modifies this
      ensures State() == old(State()).(error := e)
    {
      error := e;
    }

    method ClearError()
      modifies this
      ensures State() == old(State()).(error := None)
    {
      error := None;
    }

    /** `resetBluetoothState` returns `initialState`. */
    method ResetBluetoothState()
      modifies this
      ensures State() == InitialState && Valid()
    {
      isEnabled, isScanning, devices := false, false, [];
      connectedDevice, connectionStatus, error := None, Disconnected, None;
    }
  }
}
