/** The in-memory repository: an ordered set of sensors (at most one per
    identity), the alarm status and the arming status. */
module Repository {
  import opened Data

  /** An ordered set keyed by sensor identity holds at most one sensor per key. */
  ghost predicate UniqueKeys(ss: set<Sensor>)
  {
    forall a, b {:trigger a.key, b.key} :: a in ss && b in ss && a.key == b.key ==> a == b
  }

  function KeysOf(ss: set<Sensor>): set<SensorKey>
  {
    set s | s in ss :: s.key
  }

  /** Set insertion: the sensor joins unless one with its identity is already
      held, in which case the held element stays and the set is unchanged. */
  function Inserted(ss: set<Sensor>, s: Sensor): (r: set<Sensor>)
    ensures KeysOf(r) == KeysOf(ss) + {s.key}
    ensures s.key in KeysOf(ss) ==> r == ss
    ensures ss <= r <= ss + {s}
    ensures UniqueKeys(ss) ==> UniqueKeys(r)
  {
    if s.key in KeysOf(ss) then ss else ss + {s}
  }

  /** Set removal by identity: drops the element with key `k`, if any. */
  function Removed(ss: set<Sensor>, k: SensorKey): (r: set<Sensor>)
    ensures KeysOf(r) == KeysOf(ss) - {k}
    ensures r <= ss
    ensures forall x :: x in ss && x.key != k ==> x in r
    ensures k !in KeysOf(ss) ==> r == ss
    ensures UniqueKeys(ss) ==> UniqueKeys(r)
  {
    set x | x in ss && x.key != k
  }

  /** Remove-then-add: the argument object replaces the element with its
      identity, or joins the set if there was none. */
  function Replaced(ss: set<Sensor>, s: Sensor): (r: set<Sensor>)
    ensures s in r
    ensures KeysOf(r) == KeysOf(ss) + {s.key}
    ensures forall x :: x in r && x != s ==> x in ss && x.key != s.key
    ensures forall x :: x in ss && x.key != s.key ==> x in r
    ensures UniqueKeys(ss) ==> UniqueKeys(r)
    ensures UniqueKeys(ss) && s in ss ==> r == ss
  {
    Removed(ss, s.key) + {s}
  }

  /** Removing a present identity shrinks the set by one; an absent one leaves it. */
  lemma RemovedSize(ss: set<Sensor>, k: SensorKey)
    requires UniqueKeys(ss)
    ensures |Removed(ss, k)| == if k in KeysOf(ss) then |ss| - 1 else |ss|
  {
    if k in KeysOf(ss) {
      var x :| x in ss && x.key == k;
      assert Removed(ss, k) == ss - {x};
    }
  }

  /** Updating keeps the size when the identity was held and adds one otherwise. */
  lemma ReplacedSize(ss: set<Sensor>, s: Sensor)
    requires UniqueKeys(ss)
    ensures |Replaced(ss, s)| == if s.key in KeysOf(ss) then |ss| else |ss| + 1
  {
    RemovedSize(ss, s.key);
    assert s.key !in KeysOf(Removed(ss, s.key));
    assert s !in Removed(ss, s.key);
  }

  /** The repository used by the service. The set holds references, so a flag
      written on a member sensor is visible through it without any write. */
  class FakeDatabaseSecurityRepository {
    var sensors: set<Sensor>
    var alarmStatus: AlarmStatus
    var armingStatus: ArmingStatus

    ghost predicate Valid()
      reads this
    {
      UniqueKeys(sensors)
    }

    /** True when some held sensor is currently active. */
    ghost predicate AnyActive()
      reads this, sensors
    {
      exists s :: s in sensors && s.active
    }

    constructor ()
      ensures Valid()
      ensures alarmStatus == NoAlarm && armingStatus == Disarmed
      ensures KeysOf(sensors) == {SensorKey("Window Sensor", Window), SensorKey("Door Sensor", Door)}
      ensures |sensors| == 2 && fresh(sensors)
      ensures forall s :: s in sensors ==> !s.active
    {
      alarmStatus := NoAlarm;
      armingStatus := Disarmed;
      var window := new Sensor("Window Sensor", Window);
      var door := new Sensor("Door Sensor", Door);
      sensors := Inserted(Inserted({}, window), door);
    }

    method AddSensor(sensor: Sensor?) returns (o: Outcome)
      requires Valid()
      modifies this
      ensures Valid()
      ensures sensor == null ==> o == NullPointer && sensors == old(sensors)
      ensures sensor != null ==> o == Ok && sensors == Inserted(old(sensors), sensor)
      ensures alarmStatus == old(alarmStatus) && armingStatus == old(armingStatus)
    {
      if sensor == null {
        return NullPointer;
      }
      sensors := Inserted(sensors, sensor);
      o := Ok;
    }

    method RemoveSensor(sensor: Sensor?) returns (o: Outcome)
      requires Valid()
      modifies this
      ensures Valid()
      ensures sensor == null ==> o == NullPointer && sensors == old(sensors)
      ensures sensor != null ==> o == Ok && sensors == Removed(old(sensors), sensor.key)
      ensures alarmStatus == old(alarmStatus) && armingStatus == old(armingStatus)
    {
      if sensor == null {
        return NullPointer;
      }
      sensors := Removed(sensors, sensor.key);
      o := Ok;
    }

    method UpdateSensor(sensor: Sensor?) returns (o: Outcome)
      requires Valid()
      modifies this
      ensures Valid()
      ensures sensor == null ==> o == NullPointer && sensors == old(sensors)
      ensures sensor != null ==> o == Ok && sensors == Replaced(old(sensors), sensor)
      ensures alarmStatus == old(alarmStatus) && armingStatus == old(armingStatus)
    {
      if sensor == null {
        return NullPointer;
      }
      sensors := Removed(sensors, sensor.key);
      sensors := Inserted(sensors, sensor);
      o := Ok;
    }

    method SetAlarmStatus(status: AlarmStatus)
      requires Valid()
      modifies this
      ensures Valid()
      ensures alarmStatus == status
      ensures sensors == old(sensors) && armingStatus == old(armingStatus)
    {
      alarmStatus := status;
    }

    method SetArmingStatus(status: ArmingStatus)
      requires Valid()
      modifies this
      ensures Valid()
      ensures armingStatus == status
      ensures sensors == old(sensors) && alarmStatus == old(alarmStatus)
    {
      armingStatus := status;
    }

    /** The stored set itself, not a copy. */
    function GetSensors(): set<Sensor>
      reads this
    {
      sensors
    }

    function GetAlarmStatus(): AlarmStatus
      reads this
    {
      alarmStatus
    }

    function GetArmingStatus(): ArmingStatus
      reads this
    {
      armingStatus
    }
  }
}
