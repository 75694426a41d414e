/** Clients of the service, each built on a fresh repository and proved from
    the service's contracts alone: the situations the unit tests set up,
    stated over the in-memory repository instead of mocks. */
module Scenarios {
  import opened Data
  import opened Repository
  import opened Notifications
  import opened Services

  /** Armed, not in ALARM: activating a sensor raises the alarm one level. */
  method ArmedActivationEscalates(arming: ArmingStatus, start: AlarmStatus) returns (after: AlarmStatus)
    requires arming != Disarmed && start != Alarm
    ensures Severity(after) == Severity(start) + 1
  {
    var repo := new FakeDatabaseSecurityRepository();
    repo.SetArmingStatus(arming);
    repo.SetAlarmStatus(start);
    var service := new SecurityService(repo);
    var sensor := new Sensor("Hall Sensor", Window);
    service.ChangeSensorActivationStatus(sensor, true);
    after := service.GetAlarmStatus();
  }

  /** From PENDING_ALARM, activating and then deactivating the same sensor
      returns to NO_ALARM only when disarmed: armed, the activation reaches
      ALARM, which the deactivation then leaves alone. */
  method ActivateThenDeactivateFromPending(arming: ArmingStatus) returns (after: AlarmStatus)
    ensures after == if arming == Disarmed then NoAlarm else Alarm
  {
    var repo := new FakeDatabaseSecurityRepository();
    repo.SetArmingStatus(arming);
    repo.SetAlarmStatus(PendingAlarm);
    var service := new SecurityService(repo);
    var sensor := new Sensor("Hall Sensor", Window);
    service.ChangeSensorActivationStatus(sensor, true);
    service.ChangeSensorActivationStatus(sensor, false);
    after := service.GetAlarmStatus();
  }

  /** A cat seen while disarmed re-arms the system to ARMED_HOME in ALARM, and
      arming ARMED_HOME afterwards keeps ALARM through the stored flag. */
  method CatWhileDisarmedThenArmHome() returns (arming: ArmingStatus, alarm: AlarmStatus)
    ensures arming == ArmedHome && alarm == Alarm
  {
    var repo := new FakeDatabaseSecurityRepository();
    var service := new SecurityService(repo);
    service.ProcessImage(true);
    service.SetArmingStatus(ArmedHome);
    arming, alarm := service.GetArmingStatus(), service.GetAlarmStatus();
  }

  /** Disarming with a stored cat flag ends disarmed but in ALARM: the
      DISARMED case falls through into the stored-cat check. */
  method DisarmWithStoredCat() returns (arming: ArmingStatus, alarm: AlarmStatus)
    ensures arming == Disarmed && alarm == Alarm
  {
    var repo := new FakeDatabaseSecurityRepository();
    var service := new SecurityService(repo);
    service.ProcessImage(true);
    service.SetArmingStatus(Disarmed);
    arming, alarm := service.GetArmingStatus(), service.GetAlarmStatus();
  }

  /** A set obtained from getSensors before arming shows every sensor inactive
      afterwards: it is the repository's own set of the same objects. */
  method ArmingClearsSensorView(target: ArmingStatus) returns (allInactive: bool)
    ensures allInactive
  {
    var repo := new FakeDatabaseSecurityRepository();
    var service := new SecurityService(repo);
    var motion := new Sensor("Motion Sensor", Motion);
    motion.active := true;
    var o := service.AddSensor(motion);
    var view := service.GetSensors();
    service.SetArmingStatus(target);
    allInactive := forall s | s in view :: !s.active;
  }

  /** Listener registration is a set: adding twice and removing once leaves the
      listener out, and a later alarm change does not reach it. */
  method ListenerAddTwiceRemoveOnce(listener: ListenerId) returns (registered: bool, ghost heard: seq<Message>)
    ensures !registered && heard == []
  {
    var repo := new FakeDatabaseSecurityRepository();
    var service := new SecurityService(repo);
    service.AddStatusListener(listener);
    service.AddStatusListener(listener);
    service.RemoveStatusListener(listener);
    ghost var before := service.log;
    service.SetAlarmStatus(Alarm);
    registered := listener in service.listeners;
    heard := Received(service.log[|before|..], listener);
    ghost var sent := Notice({}, AlarmChanged(Alarm), Alarm);
    assert service.log[|before|..] == [sent];
    assert [sent][1..] == [];
    assert heard == [] + Received([sent][1..], listener);
  }
}
