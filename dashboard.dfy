/** The dashboard's state: the three state cells the component owns and the
    transitions its interval callback and click handlers apply to them. Each
    method overwrites one field with the pure transition of its old value, as
    the matching `set...` call does. */
module Dashboard {
  import Telemetry
  import Alerts
  import Devices

  class Dashboard {
    var sensor: Telemetry.SensorData
    var alerts: seq<Alerts.Alert>
    var devices: Devices.DeviceStatus

    /** The reading is within every clamp range and alert ids are unique. */
    ghost predicate Valid()
      reads this
    {
      Telemetry.InRange(sensor) && Alerts.UniqueIds(alerts)
    }

    /** The initial values of the three state cells. */
    constructor ()
      ensures Valid()
      ensures sensor == Telemetry.InitialReading
      ensures alerts == Alerts.SeedAlerts
      ensures devices == Devices.InitialDevices
      ensures Alerts.ActiveCount(alerts) == 2
    {
      sensor := Telemetry.InitialReading;
      alerts := Alerts.SeedAlerts;
      devices := Devices.InitialDevices;
      Telemetry.InitialReadingInRange();
      Alerts.SeedAlertsFacts();
    }

    /** One firing of the interval callback with the given random draws. */
    method Tick(draws: Telemetry.Draws)
      requires Valid()
      modifies this
      ensures Valid()
      ensures sensor == Telemetry.Tick(old(sensor), draws)
      ensures Telemetry.SameStaticFields(old(sensor), sensor)
      ensures alerts == old(alerts) && devices == old(devices)
    {
      sensor := Telemetry.Tick(sensor, draws);
    }

    /** The Acknowledge button of the alert with id `id`. */
    method Acknowledge(id: string)
      requires Valid()
      modifies this
      ensures Valid()
      ensures alerts == Alerts.Acknowledge(old(alerts), id)
      ensures sensor == old(sensor) && devices == old(devices)
      ensures Alerts.ActiveCount(alerts) ==
        if exists i :: 0 <= i < |old(alerts)| && old(alerts)[i].id == id && !old(alerts)[i].acknowledged
        then Alerts.ActiveCount(old(alerts)) - 1 else Alerts.ActiveCount(old(alerts))
    {
      Alerts.AcknowledgeKeepsUniqueIds(alerts, id);
      Alerts.AcknowledgePendingDecrementsByOne(alerts, id);
      alerts := Alerts.Acknowledge(alerts, id);
    }

    /** The toggle switch of device `d`. Only the water pump and the
        3-phase motor have a control card, so only they can be toggled;
        irrigation and ventilation keep their initial flags. */
    method Toggle(d: Devices.Device)
      requires Valid()
      requires d == Devices.WaterPump || d == Devices.Motor3Phase
      modifies this
      ensures Valid()
      ensures devices == Devices.Toggle(old(devices), d)
      ensures Devices.IsOn(devices, d) == !Devices.IsOn(old(devices), d)
      ensures devices.irrigation == old(devices.irrigation)
      ensures devices.ventilation == old(devices.ventilation)
      ensures sensor == old(sensor) && alerts == old(alerts)
    {
      devices := Devices.Toggle(devices, d);
    }
  }
}
