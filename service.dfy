/** The security service: receives arming changes, sensor changes and image
    classifications, decides the alarm status, writes it to the repository
    and fans the result out to the registered status listeners. */
module Services {
  import opened Data
  import opened Repository
  import opened Rules
  import opened Notifications

  class SecurityService {
    const repo: FakeDatabaseSecurityRepository
    var catDetection: bool
    var listeners: set<ListenerId>
    /** Every listener call made so far. */
    ghost var log: seq<Notice>

    ghost predicate Valid()
      reads this, repo
    {
      repo.Valid() && PersistedBeforeNotified(log)
    }

    constructor (repository: FakeDatabaseSecurityRepository)
      requires repository.Valid()
      ensures Valid()
      ensures repo == repository && !catDetection && listeners == {} && log == []
    {
      repo := repository;
      catDetection := false;
      listeners := {};
      log := [];
    }

    /** The single funnel for alarm writes: store, then notify every listener. */
    method SetAlarmStatus(status: AlarmStatus)
      requires Valid()
      modifies this, repo
      ensures Valid()
      ensures repo.alarmStatus == status
      ensures repo.sensors == old(repo.sensors) && repo.armingStatus == old(repo.armingStatus)
      ensures catDetection == old(catDetection) && listeners == old(listeners)
      ensures log == old(log) + [Notice(listeners, AlarmChanged(status), status)]
    {
      repo.SetAlarmStatus(status);
      log := log + [Notice(listeners, AlarmChanged(status), repo.GetAlarmStatus())];
    }

    method HandleSensorActivated()
      requires Valid()
      modifies this, repo
      ensures Valid()
      ensures var w := OnActivated(old(repo.armingStatus), old(repo.alarmStatus));
              repo.alarmStatus == Apply(old(repo.alarmStatus), w) &&
              log == old(log) + AlarmNotices(listeners, AsWrites(w))
      ensures repo.sensors == old(repo.sensors) && repo.armingStatus == old(repo.armingStatus)
      ensures catDetection == old(catDetection) && listeners == old(listeners)
    {
      if repo.GetArmingStatus() == Disarmed {
        return;
      }
      match repo.GetAlarmStatus()
      case NoAlarm => SetAlarmStatus(PendingAlarm);
      case PendingAlarm => SetAlarmStatus(Alarm);
      case Alarm =>
    }

    method HandleSensorDeactivated()
      requires Valid()
      modifies this, repo
      ensures Valid()
      ensures var w := OnDeactivated(old(repo.alarmStatus));
              repo.alarmStatus == Apply(old(repo.alarmStatus), w) &&
              log == old(log) + AlarmNotices(listeners, AsWrites(w))
      ensures repo.sensors == old(repo.sensors) && repo.armingStatus == old(repo.armingStatus)
      ensures catDetection == old(catDetection) && listeners == old(listeners)
    {
      match repo.GetAlarmStatus()
      case PendingAlarm => SetAlarmStatus(NoAlarm);
      case Alarm => SetAlarmStatus(PendingAlarm);
      case NoAlarm =>
    }

    /** The flag before the change is read from the argument object, not from
        the repository; the argument then replaces its identity in the set. */
    method ChangeSensorActivationStatus(sensor: Sensor, active: bool)
      requires Valid()
      modifies this, repo, sensor
      ensures Valid()
      ensures sensor.active == active
      ensures repo.sensors == Replaced(old(repo.sensors), sensor)
      ensures var w := SensorChangeWrite(old(repo.armingStatus), old(repo.alarmStatus), old(sensor.active), active);
              repo.alarmStatus == Apply(old(repo.alarmStatus), w) &&
              log == old(log) + AlarmNotices(listeners, AsWrites(w))
      ensures repo.armingStatus == old(repo.armingStatus)
      ensures catDetection == old(catDetection) && listeners == old(listeners)
    {
      var currentAlarmStatus := repo.GetAlarmStatus();
      if currentAlarmStatus != Alarm {
        if active {
          HandleSensorActivated();
        } else if sensor.active {
          HandleSensorDeactivated();
        }
      }
      sensor.active := active;
      var o := repo.UpdateSensor(sensor);
    }

    /** The arming sweep: every sensor of a snapshot of the set goes through
        ChangeSensorActivationStatus(sensor, false), in an unspecified order. */
    method DeactivateAll()
      requires Valid()
      modifies this, repo, repo.sensors
      ensures Valid()
      ensures repo.sensors == old(repo.sensors)
      ensures forall s :: s in repo.sensors ==> !s.active
      ensures repo.alarmStatus == SweepOutcome(old(repo.alarmStatus), old(repo.AnyActive()))
      ensures log == old(log) + AlarmNotices(listeners, SweepWrites(old(repo.alarmStatus), old(repo.AnyActive())))
      ensures repo.armingStatus == old(repo.armingStatus)
      ensures catDetection == old(catDetection) && listeners == old(listeners)
    {
      var snapshot := repo.GetSensors();
      var todo := snapshot;
      ghost var anyDone := false;
      ghost var activeSeen: Sensor? := null;
      ghost var alarm0 := repo.alarmStatus;
      ghost var log0 := log;
      while todo != {}
        invariant todo <= snapshot
        invariant repo.sensors == snapshot
        invariant Valid()
        invariant forall s :: s in snapshot && s !in todo ==> !s.active
        invariant forall s :: s in todo ==> s.active == old(s.active)
        invariant anyDone ==> activeSeen != null && activeSeen in snapshot && old(activeSeen.active)
        invariant !anyDone ==> forall s :: s in snapshot && s !in todo ==> !old(s.active)
        invariant repo.alarmStatus == SweepOutcome(alarm0, anyDone)
        invariant log == log0 + AlarmNotices(listeners, SweepWrites(alarm0, anyDone))
        invariant repo.armingStatus == old(repo.armingStatus)
        invariant catDetection == old(catDetection) && listeners == old(listeners)
        decreases |todo|
      {
        var s :| s in todo;
        ghost var flag := s.active;
        SweepMember(s, alarm0, anyDone, log0);
        if flag {
          activeSeen := s;
        }
        anyDone := anyDone || flag;
        todo := todo - {s};
      }
    }

    /** One step of the sweep, on a sensor the repository holds. */
    method SweepMember(s: Sensor, ghost alarm0: AlarmStatus, ghost anyDone: bool, ghost log0: seq<Notice>)
      requires Valid() && s in repo.sensors
      requires repo.alarmStatus == SweepOutcome(alarm0, anyDone)
      requires log == log0 + AlarmNotices(listeners, SweepWrites(alarm0, anyDone))
      modifies this, repo, s
      ensures Valid() && !s.active
      ensures repo.sensors == old(repo.sensors) && repo.armingStatus == old(repo.armingStatus)
      ensures repo.alarmStatus == SweepOutcome(alarm0, anyDone || old(s.active))
      ensures log == log0 + AlarmNotices(listeners, SweepWrites(alarm0, anyDone || old(s.active)))
      ensures catDetection == old(catDetection) && listeners == old(listeners)
    {
      ghost var wrote := AsWrites(SensorChangeWrite(repo.armingStatus, repo.alarmStatus, s.active, false));
      SweepStep(repo.armingStatus, alarm0, anyDone, s.active);
      AlarmNoticesAppend(listeners, SweepWrites(alarm0, anyDone), wrote);
      ChangeSensorActivationStatus(s, false);
    }

    /** setArmingStatus: the DISARMED case has no `break` and falls into the
        armed case, so every target runs the stored-cat check and the sweep;
        the arming status is stored only after the sweep. */
    method SetArmingStatus(target: ArmingStatus)
      requires Valid()
      modifies this, repo, repo.sensors
      ensures Valid()
      ensures repo.armingStatus == target
      ensures repo.sensors == old(repo.sensors)
      ensures forall s :: s in repo.sensors ==> !s.active
      ensures var ws := ArmingWrites(target, catDetection, old(repo.alarmStatus), old(repo.AnyActive()));
              repo.alarmStatus == Last(old(repo.alarmStatus), ws) &&
              log == old(log) + AlarmNotices(listeners, ws) + [Notice(listeners, SensorStatusChanged, repo.alarmStatus)]
      ensures forall l :: Count(Received(log[|old(log)|..], l), SensorStatusChanged) == if l in listeners then 1 else 0
      ensures catDetection == old(catDetection) && listeners == old(listeners)
    {
      ghost var alarm0, any0, log0 := repo.alarmStatus, repo.AnyActive(), log;
      ghost var forced := ForcedWrites(target, catDetection);
      ghost var swept := SweepWrites(Last(alarm0, forced), any0);
      ApplyArmingSwitch(target);
      ghost var log1 := log;
      assert repo.AnyActive() == any0;
      DeactivateAll();
      AlarmNoticesAppend(listeners, forced, swept);
      ConcatAssoc(log0, AlarmNotices(listeners, forced), AlarmNotices(listeners, swept));
      repo.SetArmingStatus(target);
      ghost var refresh := Notice(listeners, SensorStatusChanged, repo.alarmStatus);
      log := log + [Notice(listeners, SensorStatusChanged, repo.GetAlarmStatus())];
      assert log == log0 + AlarmNotices(listeners, forced + swept) + [refresh];
      ConcatAssoc(log0, AlarmNotices(listeners, forced + swept), [refresh]);
      SuffixOfConcat(log0, AlarmNotices(listeners, forced + swept) + [refresh]);
      RefreshOncePerListener(listeners, forced + swept, repo.alarmStatus);
    }

    /** The case bodies of setArmingStatus's switch: DISARMED writes NO_ALARM
        and falls through into the stored-cat check shared with the armed cases. */
    method ApplyArmingSwitch(target: ArmingStatus)
      requires Valid()
      modifies this, repo
      ensures Valid()
      ensures repo.alarmStatus == Last(old(repo.alarmStatus), ForcedWrites(target, catDetection))
      ensures log == old(log) + AlarmNotices(listeners, ForcedWrites(target, catDetection))
      ensures repo.sensors == old(repo.sensors) && repo.armingStatus == old(repo.armingStatus)
      ensures catDetection == old(catDetection) && listeners == old(listeners)
    {
      if target == Disarmed {
        SetAlarmStatus(NoAlarm);
      }
      if catDetection {
        SetAlarmStatus(Alarm);
      }
    }

    /** catDetected: store the flag; a cat raises ALARM, re-arming to
        ARMED_HOME first when the system is armed otherwise or disarmed;
        listeners always hear the classification last. */
    method CatDetected(cat: bool)
      requires Valid()
      modifies this, repo, repo.sensors
      ensures Valid()
      ensures catDetection == cat && listeners == old(listeners)
      ensures repo.sensors == old(repo.sensors)
      ensures cat ==> repo.armingStatus == ArmedHome && repo.alarmStatus == Alarm
      ensures !cat ==> repo.armingStatus == old(repo.armingStatus) && repo.alarmStatus == old(repo.alarmStatus)
      ensures cat && old(repo.armingStatus) != ArmedHome ==> forall s :: s in repo.sensors ==> !s.active
      ensures !cat || old(repo.armingStatus) == ArmedHome ==> forall s :: s in repo.sensors ==> s.active == old(s.active)
      ensures cat && old(repo.armingStatus) == ArmedHome ==>
                log == old(log) + [Notice(listeners, AlarmChanged(Alarm), Alarm), Notice(listeners, CatSeen(true), Alarm)]
      ensures cat && old(repo.armingStatus) != ArmedHome ==>
                log == old(log) + [Notice(listeners, AlarmChanged(Alarm), Alarm), Notice(listeners, SensorStatusChanged, Alarm),
                                   Notice(listeners, AlarmChanged(Alarm), Alarm), Notice(listeners, CatSeen(true), Alarm)]
      ensures !cat ==> log == old(log) + [Notice(listeners, CatSeen(false), repo.alarmStatus)]
    {
      catDetection := cat;
      if cat && repo.GetArmingStatus() == ArmedHome {
        SetAlarmStatus(Alarm);
      } else if cat && repo.GetArmingStatus() != ArmedHome {
        SetArmingStatus(ArmedHome);
        SetAlarmStatus(Alarm);
      }
      log := log + [Notice(listeners, CatSeen(cat), repo.GetAlarmStatus())];
    }

    /** processImage: the classifier's verdict on the camera image is the
        argument `containsCat`. */
    method ProcessImage(containsCat: bool)
      requires Valid()
      modifies this, repo, repo.sensors
      ensures Valid()
      ensures catDetection == containsCat && listeners == old(listeners)
      ensures repo.sensors == old(repo.sensors)
      ensures containsCat ==> repo.armingStatus == ArmedHome && repo.alarmStatus == Alarm
      ensures !containsCat ==> repo.armingStatus == old(repo.armingStatus) && repo.alarmStatus == old(repo.alarmStatus)
      ensures containsCat && old(repo.armingStatus) != ArmedHome ==> forall s :: s in repo.sensors ==> !s.active
      ensures !containsCat || old(repo.armingStatus) == ArmedHome ==> forall s :: s in repo.sensors ==> s.active == old(s.active)
      ensures containsCat && old(repo.armingStatus) == ArmedHome ==>
                log == old(log) + [Notice(listeners, AlarmChanged(Alarm), Alarm), Notice(listeners, CatSeen(true), Alarm)]
      ensures containsCat && old(repo.armingStatus) != ArmedHome ==>
                log == old(log) + [Notice(listeners, AlarmChanged(Alarm), Alarm), Notice(listeners, SensorStatusChanged, Alarm),
                                   Notice(listeners, AlarmChanged(Alarm), Alarm), Notice(listeners, CatSeen(true), Alarm)]
      ensures !containsCat ==> log == old(log) + [Notice(listeners, CatSeen(false), repo.alarmStatus)]
    {
      CatDetected(containsCat);
    }

    method AddStatusListener(listener: ListenerId)
      requires Valid()
      modifies this
      ensures Valid()
      ensures listeners == old(listeners) + {listener}
      ensures catDetection == old(catDetection) && log == old(log)
    {
      listeners := listeners + {listener};
    }

    method RemoveStatusListener(listener: ListenerId)
      requires Valid()
      modifies this
      ensures Valid()
      ensures listeners == old(listeners) - {listener}
      ensures catDetection == old(catDetection) && log == old(log)
    {
      listeners := listeners - {listener};
    }

    function GetAlarmStatus(): AlarmStatus
      reads this, repo
    {
      repo.GetAlarmStatus()
    }

    function GetArmingStatus(): ArmingStatus
      reads this, repo
    {
      repo.GetArmingStatus()
    }

    function GetSensors(): set<Sensor>
      reads this, repo
    {
      repo.GetSensors()
    }

    method AddSensor(sensor: Sensor?) returns (o: Outcome)
      requires Valid()
      modifies repo
      ensures Valid()
      ensures sensor == null ==> o == NullPointer && repo.sensors == old(repo.sensors)
      ensures sensor != null ==> o == Ok && repo.sensors == Inserted(old(repo.sensors), sensor)
      ensures repo.alarmStatus == old(repo.alarmStatus) && repo.armingStatus == old(repo.armingStatus)
    {
      o := repo.AddSensor(sensor);
    }

    method RemoveSensor(sensor: Sensor?) returns (o: Outcome)
      requires Valid()
      modifies repo
      ensures Valid()
      ensures sensor == null ==> o == NullPointer && repo.sensors == old(repo.sensors)
      ensures sensor != null ==> o == Ok && repo.sensors == Removed(old(repo.sensors), sensor.key)
      ensures repo.alarmStatus == old(repo.alarmStatus) && repo.armingStatus == old(repo.armingStatus)
    {
      o := repo.RemoveSensor(sensor);
    }
  }
}
