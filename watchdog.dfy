/** The charging watchdog as plain state: the boot-time alarm, the acknowledge
    work it schedules, and the wake lock held in between
    (max77665_charger_wdt_timer, max77665_charger_wdt_ack_work_handler,
    max77665_charger_disable_wdt). */
module WatchdogState {

  datatype Watchdog = Watchdog(alarmArmed: bool, ackPending: bool, wakeLockHeld: bool)

  /** alarm_start: the alarm is armed (again). */
  function Arm(w: Watchdog): Watchdog
  {
    w.(alarmArmed := true)
  }

  /** The alarm fires (max77665_charger_wdt_timer): it is spent, the wake
      lock is taken and the acknowledge work is queued. */
  function AlarmFires(w: Watchdog): Watchdog
  {
    Watchdog(false, true, true)
  }

  /** The acknowledge work runs: whatever the WDTCLR write did, the alarm
      is re-armed and the wake lock released. */
  function AckRuns(w: Watchdog): Watchdog
  {
    Watchdog(true, false, false)
  }

  /** max77665_charger_disable_wdt: cancel the queued acknowledge and the
      alarm. The wake lock is not touched. */
  function Cancel(w: Watchdog): Watchdog
  {
    w.(alarmArmed := false, ackPending := false)
  }

  /** The wake lock is held only while an acknowledge is queued to release
      it. */
  predicate LockReleasable(w: Watchdog)
  {
    w.wakeLockHeld ==> w.ackPending
  }

  /** Firing, acknowledging and re-arming keep the wake lock releasable. */
  lemma AlarmCyclePreservesReleasable(w: Watchdog)
    requires LockReleasable(w)
    ensures LockReleasable(AlarmFires(w))
    ensures LockReleasable(AckRuns(w))
    ensures LockReleasable(Arm(w))
  {
  }

  /** The watchdog's events: the alarm fires, the acknowledge work runs,
      enable_charger arms the alarm, disable_wdt cancels. */
  datatype WdtEvent = AlarmFired | AckRan | Armed | Cancelled

  function Step(w: Watchdog, e: WdtEvent): Watchdog
  {
    match e
    case AlarmFired => AlarmFires(w)
    case AckRan => AckRuns(w)
    case Armed => Arm(w)
    case Cancelled => Cancel(w)
  }

  /** An alarm can only fire while armed, and the acknowledge only runs
      while queued. */
  predicate Enabled(w: Watchdog, e: WdtEvent)
  {
    match e
    case AlarmFired => w.alarmArmed
    case AckRan => w.ackPending
    case _ => true
  }

  /** The state after a sequence of events. */
  function Run(w: Watchdog, evs: seq<WdtEvent>): Watchdog
    decreases |evs|
  {
    if evs == [] then w else Run(Step(w, evs[0]), evs[1..])
  }

  /** Every event of the sequence is enabled when it happens. */
  predicate ValidTrace(w: Watchdog, evs: seq<WdtEvent>)
    decreases |evs|
  {
    evs == [] || (Enabled(w, evs[0]) && ValidTrace(Step(w, evs[0]), evs[1..]))
  }

  /** As long as nothing is cancelled, any sequence of alarms,
      acknowledges and re-arms keeps the wake lock releasable. */
  lemma {:induction false} RunKeepsReleasable(w: Watchdog, evs: seq<WdtEvent>)
    requires LockReleasable(w)
    requires Cancelled !in evs
    ensures LockReleasable(Run(w, evs))
    decreases |evs|
  {
    if evs != [] {
      AlarmCyclePreservesReleasable(w);
      assert evs[0] in evs;
      assert forall e :: e in evs[1..] ==> e in evs;
      RunKeepsReleasable(Step(w, evs[0]), evs[1..]);
    }
  }

  /** A wake lock held with no acknowledge queued and no alarm armed (the
      state a cancel after an alarm leaves) stays held through every
      possible sequence of events until the alarm is armed again. */
  lemma {:induction false} LeakedLockStaysHeld(w: Watchdog, evs: seq<WdtEvent>)
    requires w.wakeLockHeld && !w.ackPending && !w.alarmArmed
    requires ValidTrace(w, evs)
    requires Armed !in evs
    ensures Run(w, evs).wakeLockHeld
    ensures !Run(w, evs).ackPending && !Run(w, evs).alarmArmed
    decreases |evs|
  {
    if evs != [] {
      assert evs[0] in evs;
      assert forall e :: e in evs[1..] ==> e in evs;
      LeakedLockStaysHeld(Step(w, evs[0]), evs[1..]);
    }
  }

  /** Cancelling keeps nothing armed or queued, but if the alarm fired
      before the cancel its wake lock stays held with no work left to
      release it. */
  lemma CancelAfterAlarmLeavesLock(w: Watchdog)
    ensures var c := Cancel(AlarmFires(w));
            && !c.alarmArmed && !c.ackPending && c.wakeLockHeld
            && !LockReleasable(c)
  {
  }
}
