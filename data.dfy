/** Value types of the security system's data package, and the sensor entity. */
module Data {

  /** Alert level of the system. */
  datatype AlarmStatus = NoAlarm | PendingAlarm | Alarm

  /** Whether, and how, the system is monitoring its sensors. */
  datatype ArmingStatus = Disarmed | ArmedHome | ArmedAway

  datatype SensorType = Door | Window | Motion

  /** The identity of a sensor: two sensors with the same key are the same
      element of the repository's ordered set; the active flag takes no part. */
  datatype SensorKey = SensorKey(name: string, sensorType: SensorType)

  datatype Option<T> = None | Some(value: T)

  /** Result of a repository mutator: a null argument is rejected with a
      NullPointerException before any state changes. */
  datatype Outcome = Ok | NullPointer

  /** Severity order of the alarm levels, used to say that a transition moves
      exactly one level up or down. */
  function Severity(a: AlarmStatus): nat
  {
    match a
    case NoAlarm => 0
    case PendingAlarm => 1
    case Alarm => 2
  }

  /** A sensor is an object: the service flips its flag in place, and every
      holder of a reference (the repository's set, a snapshot of it) sees it. */
  class Sensor {
    const key: SensorKey
    var active: bool

    constructor (name: string, sensorType: SensorType)
      ensures key == SensorKey(name, sensorType) && !active
    {
      key := SensorKey(name, sensorType);
      active := false;
    }
  }
}
