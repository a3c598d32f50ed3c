/** The device controller: four on/off flags, flipped one at a time by the
    control cards. */
module Devices {

  datatype DeviceStatus = DeviceStatus(
    waterPump: bool,
    motor3Phase: bool,
    irrigation: bool,
    ventilation: bool)

  /** The controllable devices, one per flag. */
  datatype Device = WaterPump | Motor3Phase | Irrigation | Ventilation

  /** The state the dashboard starts with. */
  const InitialDevices: DeviceStatus := DeviceStatus(false, true, false, true)

  function IsOn(s: DeviceStatus, d: Device): bool {
    match d
    case WaterPump => s.waterPump
    case Motor3Phase => s.motor3Phase
    case Irrigation => s.irrigation
    case Ventilation => s.ventilation
  }

  /** `prev => ({ ...prev, flag: !prev.flag })`: flip the flag of `d` and
      leave the other three as they were. */
  function Toggle(s: DeviceStatus, d: Device): (r: DeviceStatus)
    ensures IsOn(r, d) == !IsOn(s, d)
    ensures forall e :: e != d ==> IsOn(r, e) == IsOn(s, e)
  {
    match d
    case WaterPump => s.(waterPump := !s.waterPump)
    case Motor3Phase => s.(motor3Phase := !s.motor3Phase)
    case Irrigation => s.(irrigation := !s.irrigation)
    case Ventilation => s.(ventilation := !s.ventilation)
  }

  /** A device state is determined by its four flags. */
  lemma SameFlagsSameStatus(s: DeviceStatus, t: DeviceStatus)
    requires forall e :: IsOn(s, e) == IsOn(t, e)
    ensures s == t
  {
    assert IsOn(s, WaterPump) == IsOn(t, WaterPump);
    assert IsOn(s, Motor3Phase) == IsOn(t, Motor3Phase);
    assert IsOn(s, Irrigation) == IsOn(t, Irrigation);
    assert IsOn(s, Ventilation) == IsOn(t, Ventilation);
  }

  /** Toggling the same device twice restores the original state. */
  lemma ToggleTwiceRestores(s: DeviceStatus, d: Device)
    ensures Toggle(Toggle(s, d), d) == s
  {
    SameFlagsSameStatus(Toggle(Toggle(s, d), d), s);
  }

  /** Toggles of two devices can be applied in either order. */
  lemma TogglesCommute(s: DeviceStatus, d: Device, e: Device)
    ensures Toggle(Toggle(s, d), e) == Toggle(Toggle(s, e), d)
  {
    SameFlagsSameStatus(Toggle(Toggle(s, d), e), Toggle(Toggle(s, e), d));
  }

  /** Starting with the pump off, one toggle turns it on and a second one
      turns it off again. */
  lemma PumpScenario()
    ensures !IsOn(InitialDevices, WaterPump)
    ensures IsOn(Toggle(InitialDevices, WaterPump), WaterPump)
    ensures Toggle(Toggle(InitialDevices, WaterPump), WaterPump) == InitialDevices
  {
    ToggleTwiceRestores(InitialDevices, WaterPump);
  }
}
