# UdaSecurity alarm core in Dafny

This project models the alarm state machine of the UdaSecurity home-security application. It has two parts:

- `SecurityService`, the controller that reacts to arming changes, sensor changes and camera classifications;
- `FakeDatabaseSecurityRepository`, the in-memory store behind it. It holds a `TreeSet` of sensors, the alarm status (NO_ALARM, PENDING_ALARM, ALARM) and the arming status (DISARMED, ARMED_HOME, ARMED_AWAY).

Both Java classes work by changing state, so both are Dafny classes with `modifies` frames.

- **Sensors.** A `Sensor` is an object with a fixed identity (name and type) and a mutable `active` flag.
- **The sensor set.** The repository holds a `set<Sensor>` of references, so a flag written on a held sensor shows through `GetSensors()` without any write, as in Java.
- **Set operations.** The `TreeSet` operations add, remove by identity, and remove-then-add are the functions `Inserted`, `Removed` and `Replaced`. They keep one element per identity.
- **Alarm rules.** The rules of `handleSensorActivated`, `handleSensorDeactivated` and `changeSensorActivationStatus` are factored into pure next-status functions (module `Rules`). The service methods are proved against those functions.
- **Listener calls.** These are recorded in a ghost log of `Notice`s. Each notice holds the listeners registered at the time, the message, and the alarm status stored while the listeners ran. The log shows that a status is stored before it is announced, and what each listener receives.
- **The arming sweep.** The sweep over a snapshot of the sensors visits them in an arbitrary order (`:|` choice). So the proved outcome holds for every order. It is also stated as a fold over the sensors' flags, which is proved independent of order.

Modules, in dependency order:

| module | file | contents |
|---|---|---|
| `Data` | data.dfy | the status enums, the sensor identity, the `Sensor` class, `Option` and the `Outcome` of a repository call |
| `Repository` | repository.dfy | the set operations and the `FakeDatabaseSecurityRepository` class |
| `Rules` | rules.dfy | the next-status rules, the sweep and the writes of `setArmingStatus` |
| `Notifications` | notifications.dfy | the notice log and the per-listener view of it |
| `Services` | service.dfy | the `SecurityService` class |
| `Scenarios` | scenarios.dfy | the situations of the unit tests, stated over the in-memory repository |

### Where the code and its stated rules differ

The unit tests in `SecurityServices/src/test/java/com/mukhtar/UdaSecurity/SecurityServiceTest.java` number the rules the service is meant to follow. The model follows the code where the two part ways.

- **Disarming** (rule 9, SecurityServiceTest.java:178-180: "if the system is disarmed, set the status to no alarm"). The `switch` at SecurityService.java:41-47 has no `break` after the DISARMED case. So disarming writes NO_ALARM and then runs the stored-cat check and the sensor sweep. With a stored cat flag, the system ends disarmed in ALARM (`Scenarios.DisarmWithStoredCat`).
- **Stored cat flag** (rule 11, SecurityServiceTest.java:202-204, names ARMED_HOME only). The code forces ALARM for every arming target, ARMED_AWAY and DISARMED included (`Rules.ArmingWrites`).
- **Cat seen while not ARMED_HOME** (rule 7, SecurityServiceTest.java:152-155, covers ARMED_HOME only). The code at SecurityService.java:65-67 re-arms to ARMED_HOME, which runs the whole arming path, and then sets ALARM (`Services.SecurityService.CatDetected`).
- **Image without a cat** (rule 8, SecurityServiceTest.java:165-168: "change the status to no alarm as long as the sensors are not active"). The code at SecurityService.java:61-71 has no such branch. It changes no status and only notifies.
- **Pending alarm with all sensors inactive** (rule 3, SecurityServiceTest.java:94-96). On the real repository, the test's situation ends in ALARM when armed, not NO_ALARM (`Scenarios.ActivateThenDeactivateFromPending`). The test passes only because its mock returns PENDING_ALARM on every read.
- **ALARM to PENDING_ALARM.** The deactivation rule's ALARM→PENDING_ALARM branch (SecurityService.java:113) can never run. `changeSensorActivationStatus` evaluates no rule while the status is ALARM (:124), as `Rules.SensorChangeWrite` proves.

## Model

Source paths are relative to the repository root.

| member | source | states |
|---|---|---|
| Repository.Inserted | SecurityServices/src/main/java/com/mukhtar/UdaSecurity/data/FakeDatabaseSecurityRepository.java:26-30 | adding a sensor adds its identity to the set; if that identity is already held the set is unchanged; nothing else leaves or joins; one element per identity is kept |
| Repository.Removed | SecurityServices/src/main/java/com/mukhtar/UdaSecurity/data/FakeDatabaseSecurityRepository.java:33-36 | removing drops exactly the sensor's identity; every other member stays; removing an absent identity is a no-op; one element per identity is kept |
| Repository.Replaced | SecurityServices/src/main/java/com/mukhtar/UdaSecurity/data/FakeDatabaseSecurityRepository.java:39-43 | remove-then-add leaves the argument object a member in place of its same-identity element; other members are unchanged; re-adding a held object changes nothing |
| Repository.RemovedSize | SecurityServices/src/main/java/com/mukhtar/UdaSecurity/data/FakeDatabaseSecurityRepository.java:33-36 | removal shrinks the set by one exactly when the identity was held, otherwise the size is unchanged |
| Repository.ReplacedSize | SecurityServices/src/main/java/com/mukhtar/UdaSecurity/data/FakeDatabaseSecurityRepository.java:39-43 | an update keeps the size when the identity was held and adds one otherwise |
| Repository.FakeDatabaseSecurityRepository.constructor | SecurityServices/src/main/java/com/mukhtar/UdaSecurity/data/FakeDatabaseSecurityRepository.java:18-23 | a fresh repository is NO_ALARM and DISARMED and holds exactly two new inactive sensors, "Window Sensor"/WINDOW and "Door Sensor"/DOOR |
| Repository.FakeDatabaseSecurityRepository.AddSensor | SecurityServices/src/main/java/com/mukhtar/UdaSecurity/data/FakeDatabaseSecurityRepository.java:26-30 | null is rejected with no state change; otherwise the set becomes `Inserted`; the statuses are untouched |
| Repository.FakeDatabaseSecurityRepository.RemoveSensor | SecurityServices/src/main/java/com/mukhtar/UdaSecurity/data/FakeDatabaseSecurityRepository.java:33-36 | null is rejected with no state change; otherwise the set becomes `Removed`; the statuses are untouched |
| Repository.FakeDatabaseSecurityRepository.UpdateSensor | SecurityServices/src/main/java/com/mukhtar/UdaSecurity/data/FakeDatabaseSecurityRepository.java:38-43 | null is rejected with no state change; otherwise the set becomes `Replaced`; the statuses are untouched |
| Repository.FakeDatabaseSecurityRepository.SetAlarmStatus | SecurityServices/src/main/java/com/mukhtar/UdaSecurity/data/FakeDatabaseSecurityRepository.java:46-49 | the alarm status read back is the one written; sensors and arming status are unchanged |
| Repository.FakeDatabaseSecurityRepository.SetArmingStatus | SecurityServices/src/main/java/com/mukhtar/UdaSecurity/data/FakeDatabaseSecurityRepository.java:52-55 | the arming status read back is the one written; sensors and alarm status are unchanged |
| Rules.OnActivated | SecurityServices/src/main/java/com/mukhtar/UdaSecurity/Services/SecurityService.java:97-105 | an activation writes nothing exactly when disarmed or already in ALARM, and otherwise raises the alarm by exactly one level |
| Rules.OnDeactivated | SecurityServices/src/main/java/com/mukhtar/UdaSecurity/Services/SecurityService.java:110-115 | a deactivation writes nothing exactly at NO_ALARM, and otherwise lowers the alarm by exactly one level |
| Rules.SensorChangeWrite | SecurityServices/src/main/java/com/mukhtar/UdaSecurity/Services/SecurityService.java:122-131 | ALARM is sticky in both directions; disarmed activation writes nothing; armed activation escalates one level even for an already active sensor; deactivating an inactive sensor writes nothing; a real deactivation clears PENDING_ALARM and leaves NO_ALARM; PENDING_ALARM is only ever written by an activation from NO_ALARM |
| Rules.SweepClosedForm | SecurityServices/src/main/java/com/mukhtar/UdaSecurity/Services/SecurityService.java:48-49 | deactivating sensors one by one turns PENDING_ALARM into NO_ALARM exactly when one of them was active and leaves every other status, for any arming status and visiting order |
| Rules.SweepOrderIndependent | SecurityServices/src/main/java/com/mukhtar/UdaSecurity/Services/SecurityService.java:48-49 | two visiting orders of the same sensors end in the same alarm status |
| Rules.ArmingWrites | SecurityServices/src/main/java/com/mukhtar/UdaSecurity/Services/SecurityService.java:40-50 | arming with a stored cat flag ends in ALARM for every target; without it, DISARMED ends in NO_ALARM and an armed target ends in the sweep outcome; disarming writes NO_ALARM first; only NO_ALARM and ALARM are ever written |
| Notifications.AlarmNoticesHeard | SecurityServices/src/main/java/com/mukhtar/UdaSecurity/Services/SecurityService.java:89-92 | for any run of alarm writes, every registered listener hears every written status, in order, and a listener that is not registered hears nothing; each announced status is the stored one |
| Notifications.RefreshOncePerListener | SecurityServices/src/main/java/com/mukhtar/UdaSecurity/Services/SecurityService.java:53 | after the alarm notices of an arming change, each registered listener has received exactly one sensor-status refresh and an unregistered one none |
| Services.SecurityService.constructor | SecurityServices/src/main/java/com/mukhtar/UdaSecurity/Services/SecurityService.java:28-34 | a new service uses the given repository, has no cat flag and no listeners, and has sent nothing |
| Services.SecurityService.SetAlarmStatus | SecurityServices/src/main/java/com/mukhtar/UdaSecurity/Services/SecurityService.java:89-92 | the status is stored, then every registered listener is notified of it; the stored-before-notified invariant is kept |
| Services.SecurityService.HandleSensorActivated | SecurityServices/src/main/java/com/mukhtar/UdaSecurity/Services/SecurityService.java:97-105 | the alarm and the notices follow `OnActivated`; nothing else changes |
| Services.SecurityService.HandleSensorDeactivated | SecurityServices/src/main/java/com/mukhtar/UdaSecurity/Services/SecurityService.java:110-115 | the alarm and the notices follow `OnDeactivated`; nothing else changes |
| Services.SecurityService.ChangeSensorActivationStatus | SecurityServices/src/main/java/com/mukhtar/UdaSecurity/Services/SecurityService.java:122-134 | the sensor's flag becomes the argument and the repository holds that object in place of its identity, whichever branch ran; the alarm and the notices follow `SensorChangeWrite`, judged on the argument's own previous flag; the arming status is untouched |
| Services.SecurityService.DeactivateAll | SecurityServices/src/main/java/com/mukhtar/UdaSecurity/Services/SecurityService.java:48-49 | for any visiting order, every held sensor ends inactive, the set is unchanged, and the alarm and notices are those of `SweepOutcome` on whether any sensor was active |
| Services.SecurityService.SweepMember | SecurityServices/src/main/java/com/mukhtar/UdaSecurity/Services/SecurityService.java:49 | deactivating one more held sensor advances the sweep's outcome and notices by that sensor's flag |
| Services.SecurityService.ApplyArmingSwitch | SecurityServices/src/main/java/com/mukhtar/UdaSecurity/Services/SecurityService.java:41-47 | the switch writes NO_ALARM for DISARMED and then, falling through, ALARM for a stored cat flag, each announced |
| Services.SecurityService.SetArmingStatus | SecurityServices/src/main/java/com/mukhtar/UdaSecurity/Services/SecurityService.java:40-54 | the arming status becomes the target; every held sensor ends inactive; the alarm and notices are `ArmingWrites`; each registered listener then receives exactly one sensor-status refresh |
| Services.SecurityService.CatDetected | SecurityServices/src/main/java/com/mukhtar/UdaSecurity/Services/SecurityService.java:61-71 | the cat flag is stored; a cat ends ARMED_HOME in ALARM whatever the previous arming, re-arming (and clearing all sensors) unless already ARMED_HOME; no cat changes no status and no sensor; the exact notices of each case end with the classification |
| Services.SecurityService.ProcessImage | SecurityServices/src/main/java/com/mukhtar/UdaSecurity/Services/SecurityService.java:141-143 | the classifier's verdict has the effects of `CatDetected`: flag stored, a cat ends ARMED_HOME in ALARM, no cat leaves both statuses, the classification is announced last |
| Services.SecurityService.AddStatusListener | SecurityServices/src/main/java/com/mukhtar/UdaSecurity/Services/SecurityService.java:77-79 | registration is set insertion; nothing is sent |
| Services.SecurityService.RemoveStatusListener | SecurityServices/src/main/java/com/mukhtar/UdaSecurity/Services/SecurityService.java:81-83 | removal is set deletion; nothing is sent |
| Services.SecurityService.AddSensor | SecurityServices/src/main/java/com/mukhtar/UdaSecurity/Services/SecurityService.java:153-155 | passes through to the repository: null rejected, otherwise `Inserted`; statuses untouched |
| Services.SecurityService.RemoveSensor | SecurityServices/src/main/java/com/mukhtar/UdaSecurity/Services/SecurityService.java:157-159 | passes through to the repository: null rejected, otherwise `Removed`; statuses untouched |
| Scenarios.ArmedActivationEscalates | SecurityServices/src/test/java/com/mukhtar/UdaSecurity/SecurityServiceTest.java:64-92 | armed and not in ALARM, activating a new sensor raises the alarm exactly one level |
| Scenarios.ActivateThenDeactivateFromPending | SecurityServices/src/test/java/com/mukhtar/UdaSecurity/SecurityServiceTest.java:97-110 | from PENDING_ALARM, activating then deactivating a sensor ends in NO_ALARM when disarmed and in ALARM when armed |
| Scenarios.CatWhileDisarmedThenArmHome | SecurityServices/src/test/java/com/mukhtar/UdaSecurity/SecurityServiceTest.java:206-214 | a cat seen while disarmed, then arming ARMED_HOME, ends ARMED_HOME in ALARM |
| Scenarios.DisarmWithStoredCat | SecurityServices/src/main/java/com/mukhtar/UdaSecurity/Services/SecurityService.java:41-47 | disarming with a stored cat flag ends DISARMED in ALARM |
| Scenarios.ArmingClearsSensorView | SecurityServices/src/test/java/com/mukhtar/UdaSecurity/SecurityServiceTest.java:191-200 | a sensor set obtained before arming shows every sensor inactive afterwards, for every target |
| Scenarios.ListenerAddTwiceRemoveOnce | SecurityServices/src/main/java/com/mukhtar/UdaSecurity/Services/SecurityService.java:77-92 | a listener added twice and removed once is not registered and hears nothing of a later alarm change |

## Left out

- Camera image and classifier: the `BufferedImage`, the classifier call and its `50.0f` threshold are outside the model. `ProcessImage` takes the classifier's verdict as a `bool`. `FakeImageService` returns a random verdict, which the `bool` argument covers.
- Swing GUI (`CatpointGui`) and the wiring of the application are not part of this model.
- `SecurityRepository` interface: the service is modelled over `FakeDatabaseSecurityRepository` only. Other implementations are not part of this model.
- `Sensor.java` is not part of this model; of a sensor, only its identity and its `active` flag are modelled (`Data.Sensor`). Identity is taken to be the pair (name, type). The ordering `compareTo` imposes on the `TreeSet` and the sweep's `ConcurrentSkipListSet` is not modelled: the sweep visits sensors in an arbitrary order, and its results are proved for every order.
- Null enum arguments (`Objects.requireNonNull` in the status setters) cannot arise, because the statuses are datatypes. Only null sensors are modelled, as the `NullPointer` outcome.
- Null arguments to the service's own methods are not modelled. For example, `changeSensorActivationStatus(null, true)` would write the alarm before failing.
- Status listeners are opaque ids. What a listener does when called, exceptions it throws and the order in which the `HashSet` calls the listeners of one notice are not modelled. Listener identity is id equality.
- Concurrency: the `ConcurrentSkipListSet` copy is modelled as a snapshot of the set taken before the sweep. Nothing runs concurrently.
- GetSensors: returns the set of sensor references held at the time of the call, not the live `TreeSet` object. Flag changes on held sensors show through it, but a later `addSensor`/`removeSensor` does not, and callers cannot change the repository through the result. The service copies the set at once (SecurityService.java:48), so nothing in the core depends on this.
- The getters `getAlarmStatus`, `getArmingStatus` and `getSensors` of both classes are plain functions with no contract of their own. The setters' contracts state what they read back.
