/** The "device" slice: the latest telemetry of the connected controller
    (mode, speed, voltage, pressure in BAR), the display unit for pressure,
    the connection and control flags, the last error and the time of the
    last telemetry update. */
module DeviceSlice {
  import opened Wrappers

  /** The controller's drive modes (ECO, NORMAL, SPORT, SPORT+, REVERSE); the
      slice only stores them. */
  datatype DeviceMode = E | N | S | SPlus | R

  datatype PressureUnit = Bar | Psi

  /** The unit `togglePressureUnit` switches to. */
  function OtherUnit(u: PressureUnit): (r: PressureUnit)
    ensures r != u
  {
    if u == Bar then Psi else Bar
  }

  /** Toggling the unit twice gives back the unit. */
  lemma OtherUnitInvolution(u: PressureUnit)
    ensures OtherUnit(OtherUnit(u)) == u
  {
  }

  /** The value of the slice (the DeviceState interface). Numbers are only
      stored, so they are reals without rounding; `lastUpdate` is a time in
      milliseconds. */
  datatype DeviceState = DeviceState(
    currentMode: Option<DeviceMode>,
    currentSpeed: real,
    currentVoltage: real,
    currentPressure: real,
    pressureUnit: PressureUnit,
    isConnected: bool,
    lastUpdate: int,
    isControlling: bool,
    error: Option<string>)

  const InitialState := DeviceState(None, 0.0, 0.0, 0.0, Bar, false, 0, false, None)

  /** The state after the peripheral is reported gone: telemetry and control
      are reset, the unit, the error and the update time are kept. */
  function Disconnected(s: DeviceState): (r: DeviceState)
    ensures !r.isConnected && !r.isControlling && r.currentMode.None?
    ensures r.currentSpeed == r.currentVoltage == r.currentPressure == 0.0
    ensures r.pressureUnit == s.pressureUnit && r.error == s.error && r.lastUpdate == s.lastUpdate
  {
    s.(isConnected := false, currentMode := None, currentSpeed := 0.0,
       currentVoltage := 0.0, currentPressure := 0.0, isControlling := false)
  }

  /** Losing the connection is idempotent. */
  lemma DisconnectedIdempotent(s: DeviceState)
    ensures Disconnected(Disconnected(s)) == Disconnected(s)
  {
  }

  // ---------------------------------------------------------------------------
  // The slice state, updated in place by its reducers. Each reducer that
  // stamps the update time takes the current time `now` as a parameter.

  class DeviceStore {
    var currentMode: Option<DeviceMode>
    var currentSpeed: real
    var currentVoltage: real
    var currentPressure: real
    var pressureUnit: PressureUnit
    var isConnected: bool
    var lastUpdate: int
    var isControlling: bool
    var error: Option<string>

    function State(): DeviceState
      reads this
    {
      DeviceState(currentMode, currentSpeed, currentVoltage, currentPressure,
                  pressureUnit, isConnected, lastUpdate, isControlling, error)
    }

    /** The store starts from `initialState`. */
    constructor ()
      ensures State() == InitialState
    {
      currentMode, currentSpeed, currentVoltage, currentPressure := None, 0.0, 0.0, 0.0;
      pressureUnit, isConnected, lastUpdate, isControlling, error := Bar, false, 0, false, None;
    }

    /** A new mode clears the error and stamps the update time. */
    method SetCurrentMode(mode: DeviceMode, now: int)
      modifies this
      ensures State() == old(State()).(currentMode := Some(mode), lastUpdate := now, error := None)
    {
      currentMode := Some(mode);
      lastUpdate := now;
      error := None;
    }

    method SetCurrentSpeed(speed: real, now: int)
      modifies this
      ensures State() == old(State()).(currentSpeed := speed, lastUpdate := now)
    {
      currentSpeed := speed;
      lastUpdate := now;
    }

    method SetCurrentVoltage(voltage: real, now: int)
      modifies this
      ensures State() == old(State()).(currentVoltage := voltage, lastUpdate := now)
    {
      currentVoltage := voltage;
      lastUpdate := now;
    }

    /** The pressure is stored in BAR whatever the display unit. */
    method SetCurrentPressure(pressure: real, now: int)
      modifies this
      ensures State() == old(State()).(currentPressure := pressure, lastUpdate := now)
    {
      currentPressure := pressure;
      lastUpdate := now;
    }

    method SetPressureUnit(unit: PressureUnit)
      modifies this
      ensures State() == old(State()).(pressureUnit := unit)
    {
      pressureUnit := unit;
    }

    method TogglePressureUnit()
      modifies this
      ensures State() == old(State()).(pressureUnit := OtherUnit(old(pressureUnit)))
    {
      pressureUnit := OtherUnit(pressureUnit);
    }

    /** Connecting changes only the flag; disconnecting also resets the
        telemetry and the control flag. */
    method SetDeviceConnected(connected: bool)
      modifies this
      ensures connected ==> State() == old(State()).(isConnected := true)
      ensures !connected ==> State() == Disconnected(old(State()))
    {
      isConnected := connected;
      if !connected {
        currentMode := None;
        currentSpeed := 0.0;
        currentVoltage := 0.0;
        currentPressure := 0.0;
        isControlling := false;
      }
    }

    method SetControlling(controlling: bool)
      modifies this
      ensures State() == old(State()).(isControlling := controlling)
    {
      isControlling := controlling;
    }

    /** Any error report, even a null one, ends control. */
    method SetDeviceError(e: Option<string>)
      modifies this
      ensures State() == old(State()).(error := e, isControlling := false)
    {
      error := e;
      isControlling := false;
    }

    method ClearDeviceError()
      modifies this
      ensures State() == old(State()).(error := None)
    {
      error := None;
    }

    method UpdateLastUpdate(now: int)
      modifies this
      ensures State() == old(State()).(lastUpdate := now)
    {
      lastUpdate := now;
    }

    /** `resetDeviceState` returns `initialState`. */
    method ResetDeviceState()
      modifies this
      ensures State() == InitialState
    {
      currentMode, currentSpeed, currentVoltage, currentPressure := None, 0.0, 0.0, 0.0;
      pressureUnit, isConnected, lastUpdate, isControlling, error := Bar, false, 0, false, None;
    }
  }
}
