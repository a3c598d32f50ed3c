# Smart-Argo-Care telemetry and alerting core, in Dafny

Smart-Argo-Care is a dashboard for a simulated agricultural IoT site. A single
React component holds three state cells and changes them in four places.

- **Telemetry tick.** Every three seconds an interval callback replaces the
  sensor reading. Seven fields (temperature, humidity, soil moisture, the two
  tank levels, motor current and power) each take a random step of
  `(Math.random() - 0.5) * d`, clamped to a fixed range. The other five fields
  (nitrogen, phosphorus, potassium, pH, voltage) are copied unchanged.
- **Status classifier.** Threshold rules written inline in the markup map the
  reading to `normal | warning | critical` (four sensor cards and two tank bars),
  and the three nutrient readings to `Low | Good | Optimal`.
- **Alert log.** A seeded list of alerts. The Acknowledge button maps over the
  list and sets `acknowledged` on the entries with the clicked id. The
  "Active" badge counts the unacknowledged entries.
- **Device controller.** Four on/off flags. A control card flips one flag.

Files:

- `telemetry.dfy` (module `Telemetry`): the `SensorData` record, the per-field
  walk constants, `Clamp`, the pure `Tick`, repeated ticks (`Run`) and the
  range and step-size lemmas.
- `status.dfy` (module `Status`): `Severity`, the per-metric classifiers, the
  three-band nutrient labels, the combined `Classify` report and lemmas that
  relate the classifier to the tick.
- `alerts.dfy` (module `Alerts`): the `Alert` record, the seed log,
  `Acknowledge`, the `Active` filter and its count, and their lemmas.
- `devices.dfy` (module `Devices`): the four flags, `Toggle` and its lemmas.
- `dashboard.dfy` (module `Dashboard`): the class `Dashboard`. It holds the
  three state cells as fields. Its methods `Tick`, `Acknowledge` and `Toggle`
  overwrite one field with the pure transition, as the `set...` calls do. Its
  invariant `Valid()` says that the reading is in range and that alert ids are
  unique.

Modelling choices:

- Every numeric field is a Dafny `real`, not an IEEE double.
- Each `Math.random()` call is a parameter. `Draws` holds one per perturbed
  field, and `ValidDraws` says that each lies in [0, 1). `Tick` is total: the
  clamp bound holds whatever the draws are. The step-size bound needs valid
  draws and an in-range previous reading.
- Device identifiers are the closed enumeration `Device`.

What the code does, where one might expect more. The model follows the code.

- One might expect every device to be switchable. The code wires toggle
  handlers only for the water pump and the 3-phase motor (`src/App.tsx:497`,
  `504`). The pure updater `Devices.Toggle` is stated for all four flags, but
  the click handler `Dashboard.Toggle` accepts only the two wired devices.
  Irrigation and ventilation therefore keep their initial flags in every
  reachable state.
- One might expect a `raise` operation, or alerts raised automatically when a
  status worsens. The code never creates an alert: the log is the static seed,
  and acknowledgement is its only change.
- One might expect an error for an unknown device. Device keys are typed object
  fields, so an unknown device cannot be named.
- One might expect alert timestamps to be creation times. They are display
  strings such as "2 minutes ago", and the model keeps them as strings.
- One might expect nitrogen, phosphorus, potassium, pH and voltage to be fed
  from outside. Nothing sets them after start-up; a tick copies them through.
- One might expect streams of readings or alerts. The component only holds its
  current state and re-renders it.

## Model

| member | source | states |
|---|---|---|
| Telemetry.Clamp | src/App.tsx:128-134 | `Math.max(lo, Math.min(hi, x))` lies in [lo, hi], is x when x is in range, and is the nearer bound otherwise |
| Telemetry.Tick | src/App.tsx:126-135 | for any draws, every perturbed field lands in its clamp range (temperature [20,35], humidity [40,90], soil moisture [20,80], tanks [10,100], current [8,20], power [5,15]), and nitrogen, phosphorus, potassium, pH and voltage are copied unchanged |
| Telemetry.Step | src/App.tsx:128-134 | one field's update `Math.max(lo, Math.min(hi, prev + (r - 0.5) * d))` always lands in [lo, hi], whatever prev and r are |
| Telemetry.StepBounded | src/App.tsx:128-134 | one clamped step with a draw in [0,1), from a value inside the range, stays in range and moves by at most half the step width |
| Telemetry.TickStepBounded | src/App.tsx:126-135 | from an in-range reading and valid draws, each perturbed field moves by at most d/2 (1, 2.5, 1.5, 1, 1, 0.5, 0.25) |
| Telemetry.Run | src/App.tsx:124-139 | the reading after the interval callback has fired once per draw: with no firing it is the start reading, after at least one firing it is in range, and the static fields are always the start reading's |
| Telemetry.RunStaysInRange | src/App.tsx:124-139 | repeated ticks from an in-range reading stay in range for every sequence of draws, and never change the static fields |
| Telemetry.InitialReadingInRange | src/App.tsx:77-90 | the initial reading is in range, so every reading the dashboard shows after any number of ticks is in range |
| Status.TemperatureStatus | src/App.tsx:395 | critical iff t > 30, warning iff 28 < t <= 30, normal iff t <= 28 |
| Status.HumidityStatus | src/App.tsx:403 | never critical; warning iff humidity > 80 |
| Status.SoilMoistureStatus | src/App.tsx:411 | critical iff m < 40, warning iff 40 <= m < 50, normal iff m >= 50 |
| Status.PhStatus | src/App.tsx:419 | never critical; warning iff pH < 6.0 or pH > 7.5 |
| Status.WaterLevelStatus | src/App.tsx:435-436 | the rule both tank bars use: green (normal) iff level > 50, yellow (warning) iff 25 < level <= 50, red (critical) iff level <= 25 |
| Status.CriticalTakesPrecedence | src/App.tsx:395-454 | each two-threshold classifier returns the worst of its table conditions that hold, so a value meeting both the warning and the critical condition is critical |
| Status.StatusMonotone | src/App.tsx:395-454 | a higher temperature or humidity never gives a better status; a higher soil moisture or tank level never gives a worse one |
| Status.ThreeBand | src/App.tsx:539-573 | the nutrient rule: Optimal iff above the upper threshold, Good iff between the thresholds (upper inclusive), Low otherwise |
| Status.NitrogenLabel | src/App.tsx:539 | Optimal iff nitrogen > 150, Good iff 100 < nitrogen <= 150, Low iff nitrogen <= 100 |
| Status.PhosphorusLabel | src/App.tsx:556 | Optimal iff phosphorus > 100, Good iff 60 < phosphorus <= 100, Low iff phosphorus <= 60 |
| Status.PotassiumLabel | src/App.tsx:573 | Optimal iff potassium > 180, Good iff 120 < potassium <= 180, Low iff potassium <= 120 |
| Status.Classify | src/App.tsx:395-573 | every status and label the dashboard shows for one reading, each in terms of its own field: temperature critical > 30 / warning (28,30] / normal <= 28; humidity warning > 80, never critical; soil moisture critical < 40 / warning [40,50) / normal >= 50; pH warning < 6.0 or > 7.5, never critical; each tank normal > 50 / warning (25,50] / critical <= 25; nitrogen, phosphorus and potassium at 100/150, 60/100 and 120/180 |
| Status.SoilMoistureScenario | src/App.tsx:411 | soil moisture 35 gives a critical soil card and 55 a normal one, whatever the other fields |
| Status.NpkLabelsMonotone | src/App.tsx:539-573 | raising a nutrient reading never lowers its label |
| Status.TickKeepsStaticStatuses | src/App.tsx:126-135 | a tick never changes the pH status or any nutrient label |
| Status.TickMovesAtMostOneBand | src/App.tsx:126-135 | from an in-range reading with valid draws, one tick moves the temperature, soil-moisture and tank statuses by at most one band |
| Alerts.AcknowledgeEntry | src/App.tsx:650 | the map callback keeps id, type, message and timestamp; the result is acknowledged iff the entry already was or its id matches; an entry with another id is returned unchanged |
| Alerts.Acknowledge | src/App.tsx:649-651 | keeps the log's length and order; entries with the id become acknowledged with all other fields kept; all other entries are unchanged; no entry is ever un-acknowledged |
| Alerts.AcknowledgeIdempotent | src/App.tsx:649-651 | acknowledging the same id twice equals acknowledging it once |
| Alerts.AcknowledgeUnknownId | src/App.tsx:649-651 | an id no entry carries leaves the log unchanged |
| Alerts.AcknowledgeCommutes | src/App.tsx:649-651 | two acknowledgements give the same log in either order |
| Alerts.AcknowledgeKeepsUniqueIds | src/App.tsx:649-651 | acknowledging keeps ids unique |
| Alerts.Active | src/App.tsx:612 | the filter keeps exactly the unacknowledged alerts of the log and is no longer than the log |
| Alerts.ActiveCount | src/App.tsx:612 | the badge count is at most the log's length, and is 0 iff every alert is acknowledged |
| Alerts.ActiveCountIsPending | src/App.tsx:612 | the badge count equals the number of positions of the log holding an unacknowledged alert |
| Alerts.AcknowledgeActiveCount | src/App.tsx:612-651 | acknowledging an id lowers the badge by exactly the number of unacknowledged entries carrying that id |
| Alerts.AcknowledgeNeverIncreasesActive | src/App.tsx:612-651 | acknowledging never raises the badge count |
| Alerts.PendingWithUniqueId | src/App.tsx:649-651 | with unique ids, at most one unacknowledged entry carries a given id |
| Alerts.AcknowledgePendingDecrementsByOne | src/App.tsx:612-651 | with unique ids, acknowledging an unacknowledged alert lowers the badge by exactly 1, and any other id leaves it unchanged |
| Alerts.SeedAlertsFacts | src/App.tsx:99-121 | the seeded log has unique ids and two active alerts |
| Devices.Toggle | src/App.tsx:497-504 | flips the flag of the chosen device and leaves the other three unchanged |
| Devices.ToggleTwiceRestores | src/App.tsx:497-504 | toggling the same device twice restores the original state |
| Devices.TogglesCommute | src/App.tsx:497-504 | toggles of two devices commute |
| Devices.PumpScenario | src/App.tsx:92-97 | from the initial state the pump is off, one toggle turns it on, and a second toggle restores the initial state |
| Dashboard.Dashboard.constructor | src/App.tsx:77-121 | the three state cells start at the initial reading, the seed log and the initial device flags; the invariant holds and the badge shows 2 |
| Dashboard.Dashboard.Tick | src/App.tsx:125-136 | the reading becomes the tick of the old reading, stays in range and keeps its static fields; the alerts and devices are unchanged |
| Dashboard.Dashboard.Acknowledge | src/App.tsx:649-651 | the log becomes its acknowledged form, ids stay unique, the badge drops by exactly 1 when a pending alert with the id existed and is otherwise unchanged; the reading and devices are unchanged |
| Dashboard.Dashboard.Toggle | src/App.tsx:497-504 | accepts only the water pump and the 3-phase motor, the two devices with a control card; the device flags become the toggle of the old flags, so the chosen flag flips while irrigation and ventilation keep their values; the reading and alerts are unchanged |

## Left out

- Timer scheduling: `setInterval`, `clearInterval` and the 3000 ms cadence. One tick is one call, and `Run` applies any number of ticks.
- `Math.random`: replaced by an explicit draw per call. Real numbers replace IEEE doubles, so rounding is not modelled.
- Display formatting: `toFixed(1)`, the percentage widths of the bars, colours and icons.
- Login: a hard-coded placeholder with a timer and a browser alert, not a security boundary.
- Other UI: navigation, tabs, the mobile menu, the static status tiles, and the connection flag, which is never changed.
- Settings inputs: they are not wired to any state, and the classifier's thresholds do not depend on them.
- Alert raising: the code never creates an alert, so `raise` and edge-triggered raising have nothing to model.
- Unknown device errors: device ids are a closed enumeration, so a toggle of an unknown device cannot be expressed.
- Concurrency: React applies the state updaters one at a time, and the model's methods are sequential.
