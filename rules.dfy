/** The fixed transition rules of the security service, as pure functions of
    the statuses they read. Each returns the alarm status the service writes
    through its single setter, or None when it writes nothing. */
module Rules {
  import opened Data

  /** The status after applying an optional write. */
  function Apply(alarm: AlarmStatus, w: Option<AlarmStatus>): AlarmStatus
  {
    match w
    case None => alarm
    case Some(x) => x
  }

  /** An optional write as the sequence of statuses it writes. */
  function AsWrites(w: Option<AlarmStatus>): seq<AlarmStatus>
  {
    match w
    case None => []
    case Some(x) => [x]
  }

  /** The status left after a sequence of writes starting from `alarm`. */
  function Last(alarm: AlarmStatus, ws: seq<AlarmStatus>): AlarmStatus
  {
    if ws == [] then alarm else ws[|ws| - 1]
  }

  /** A sensor was activated: nothing when disarmed, otherwise one level up;
      there is no level above ALARM. */
  function OnActivated(arming: ArmingStatus, alarm: AlarmStatus): (w: Option<AlarmStatus>)
    ensures w.None? <==> arming == Disarmed || alarm == Alarm
    ensures w.Some? ==> Severity(w.value) == Severity(alarm) + 1
  {
    if arming == Disarmed then None
    else
      match alarm
      case NoAlarm => Some(PendingAlarm)
      case PendingAlarm => Some(Alarm)
      case Alarm => None
  }

  /** A sensor was deactivated: one level down, nothing below NO_ALARM. */
  function OnDeactivated(alarm: AlarmStatus): (w: Option<AlarmStatus>)
    ensures w.None? <==> alarm == NoAlarm
    ensures w.Some? ==> Severity(w.value) + 1 == Severity(alarm)
  {
    match alarm
    case PendingAlarm => Some(NoAlarm)
    case Alarm => Some(PendingAlarm)
    case NoAlarm => None
  }

  /** The write made by changeSensorActivationStatus(sensor, active), given
      the arming and alarm statuses it reads and the flag the argument sensor
      carried before the call. */
  function SensorChangeWrite(arming: ArmingStatus, alarm: AlarmStatus, wasActive: bool, active: bool): (w: Option<AlarmStatus>)
    // ALARM is sticky: no transition is evaluated in either direction
    ensures alarm == Alarm ==> w == None
    // activation never raises the alarm while disarmed
    ensures active && arming == Disarmed ==> w == None
    // otherwise activation escalates one level, even for a sensor already active
    ensures active && arming != Disarmed && alarm != Alarm ==>
              w.Some? && Severity(w.value) == Severity(alarm) + 1
    // deactivating an inactive sensor writes nothing
    ensures !active && !wasActive ==> w == None
    // a genuine deactivation clears a pending alarm and leaves NO_ALARM alone
    ensures !active && wasActive && alarm == PendingAlarm ==> w == Some(NoAlarm)
    ensures !active && alarm == NoAlarm ==> w == None
    // the ALARM-to-PENDING_ALARM branch of the deactivation rule is unreachable
    ensures w == Some(PendingAlarm) ==> alarm == NoAlarm && active
  {
    if alarm == Alarm then None
    else if active then OnActivated(arming, alarm)
    else if wasActive then OnDeactivated(alarm)
    else None
  }

  /** The alarm status after the arming sweep deactivates, one after another,
      sensors whose flags before the sweep are `flags`, in visiting order. */
  function SweepAlarm(arming: ArmingStatus, alarm: AlarmStatus, flags: seq<bool>): AlarmStatus
    decreases |flags|
  {
    if flags == [] then alarm
    else SweepAlarm(arming, Apply(alarm, SensorChangeWrite(arming, alarm, flags[0], false)), flags[1..])
  }

  /** The order-free outcome of the sweep. */
  function SweepOutcome(alarm: AlarmStatus, anyActive: bool): AlarmStatus
  {
    if alarm == PendingAlarm && anyActive then NoAlarm else alarm
  }

  /** The statuses the sweep writes: one NO_ALARM, when it clears a pending alarm. */
  function SweepWrites(alarm: AlarmStatus, anyActive: bool): seq<AlarmStatus>
  {
    if alarm == PendingAlarm && anyActive then [NoAlarm] else []
  }

  /** One more sensor of the sweep, whose flag before the sweep was `flag`. */
  lemma SweepStep(arming: ArmingStatus, alarm: AlarmStatus, anyDone: bool, flag: bool)
    ensures var w := SensorChangeWrite(arming, SweepOutcome(alarm, anyDone), flag, false);
            Apply(SweepOutcome(alarm, anyDone), w) == SweepOutcome(alarm, anyDone || flag) &&
            SweepWrites(alarm, anyDone) + AsWrites(w) == SweepWrites(alarm, anyDone || flag)
  {
  }

  /** Whatever the visiting order, the sweep turns PENDING_ALARM into NO_ALARM
      exactly when some sensor was active, and leaves every other status. */
  lemma {:induction false} SweepClosedForm(arming: ArmingStatus, alarm: AlarmStatus, flags: seq<bool>)
    ensures SweepAlarm(arming, alarm, flags) == SweepOutcome(alarm, true in flags)
    decreases |flags|
  {
    if flags != [] {
      var next := Apply(alarm, SensorChangeWrite(arming, alarm, flags[0], false));
      SweepClosedForm(arming, next, flags[1..]);
      assert (true in flags) == (flags[0] || true in flags[1..]);
    }
  }

  /** Two visiting orders of the same sensors give the same alarm status. */
  lemma SweepOrderIndependent(arming: ArmingStatus, alarm: AlarmStatus, f1: seq<bool>, f2: seq<bool>)
    requires multiset(f1) == multiset(f2)
    ensures SweepAlarm(arming, alarm, f1) == SweepAlarm(arming, alarm, f2)
  {
    SweepClosedForm(arming, alarm, f1);
    SweepClosedForm(arming, alarm, f2);
    assert (true in f1) == (true in multiset(f1));
    assert (true in f2) == (true in multiset(f2));
  }

  /** The alarm statuses setArmingStatus(target) writes, in order, before it
      stores the arming status: the switch has no `break`, so DISARMED runs
      its own case, then the stored-cat check, then the sweep. */
  function ArmingWrites(target: ArmingStatus, cat: bool, alarm: AlarmStatus, anyActive: bool): (ws: seq<AlarmStatus>)
    // a stored cat flag ends in ALARM for every target, DISARMED included
    ensures cat ==> Last(alarm, ws) == Alarm
    ensures !cat && target == Disarmed ==> Last(alarm, ws) == NoAlarm
    ensures !cat && target != Disarmed ==> Last(alarm, ws) == SweepOutcome(alarm, anyActive)
    // disarming always writes NO_ALARM first
    ensures target == Disarmed ==> |ws| >= 1 && ws[0] == NoAlarm
    // the sweep writes at most one status, NO_ALARM
    ensures forall i :: 0 <= i < |ws| ==> ws[i] in {NoAlarm, Alarm}
  {
    var forced := ForcedWrites(target, cat);
    forced + SweepWrites(Last(alarm, forced), anyActive)
  }

  /** The writes of the switch itself, before the sweep: NO_ALARM for DISARMED,
      then ALARM for a stored cat flag, whatever the target. */
  function ForcedWrites(target: ArmingStatus, cat: bool): seq<AlarmStatus>
  {
    (if target == Disarmed then [NoAlarm] else []) + (if cat then [Alarm] else [])
  }
}
