/** The charger's pure decisions: which configuration an attached cable
    calls for (max77665_enable_charger), what a settled cable event does
    (charger_extcon_handle_notifier), and the per-cable debounce record kept
    by charger_extcon_notifier. */
module Policy {
  import opened Optional

  /** enum max77665_mode. */
  datatype Mode = Off | Charger | Otg

  /** The extcon cables the driver asks about, by name. */
  datatype Cable = UsbHost | Usb | ChargeDownstream | Ta | FastCharger | SlowCharger

  /** Which power-supply channel reports online. */
  datatype Online = NoChannel | UsbChannel | AcChannel

  /** The configuration chosen for a cable: mode, nominal input current
      ceiling in mA, and online channel. */
  datatype Plan = Plan(mode: Mode, currentMA: int, online: Online)

  /** The order in which max77665_enable_charger asks about the cables. */
  const CablePriority: seq<Cable> := [UsbHost, Usb, ChargeDownstream, Ta, FastCharger, SlowCharger]

  /** The nominal configuration for each cable on its own. */
  function NominalPlan(c: Cable): Plan
  {
    match c
    case UsbHost => Plan(Otg, 0, NoChannel)
    case Usb => Plan(Charger, 500, UsbChannel)
    case ChargeDownstream => Plan(Charger, 1500, UsbChannel)
    case Ta => Plan(Charger, 2000, AcChannel)
    case FastCharger => Plan(Charger, 2200, AcChannel)
    case SlowCharger => Plan(Charger, 500, AcChannel)
  }

  /** The cable test chain of max77665_enable_charger; None when no cable
      is attached (the `goto done` path). */
  function CablePolicy(attached: set<Cable>): (p: Option<Plan>)
    ensures p.Some? ==> p.value.mode != Off
    ensures p.Some? && p.value.mode == Otg ==> p.value.currentMA == 0 && p.value.online == NoChannel
    ensures p.Some? && p.value.mode == Charger ==> 500 <= p.value.currentMA <= 2200 && p.value.online != NoChannel
  {
    if UsbHost in attached then Some(Plan(Otg, 0, NoChannel))
    else if Usb in attached then Some(Plan(Charger, 500, UsbChannel))
    else if ChargeDownstream in attached then Some(Plan(Charger, 1500, UsbChannel))
    else if Ta in attached then Some(Plan(Charger, 2000, AcChannel))
    else if FastCharger in attached then Some(Plan(Charger, 2200, AcChannel))
    else if SlowCharger in attached then Some(Plan(Charger, 500, AcChannel))
    else None
  }

  /** The first attached cable in priority order decides the plan. */
  lemma CablePolicyFirstMatch(attached: set<Cable>, i: int)
    requires 0 <= i < |CablePriority| && CablePriority[i] in attached
    requires forall j :: 0 <= j < i ==> CablePriority[j] !in attached
    ensures CablePolicy(attached) == Some(NominalPlan(CablePriority[i]))
  {
    if i > 0 { assert CablePriority[0] !in attached; }
    if i > 1 { assert CablePriority[1] !in attached; }
    if i > 2 { assert CablePriority[2] !in attached; }
    if i > 3 { assert CablePriority[3] !in attached; }
    if i > 4 { assert CablePriority[4] !in attached; }
  }

  /** There is no plan exactly when no cable is attached. */
  lemma CablePolicyNone(attached: set<Cable>)
    ensures CablePolicy(attached).None? <==> attached == {}
  {
    if attached != {} {
      var c :| c in attached;
      match c
      case UsbHost =>
      case Usb =>
      case ChargeDownstream =>
      case Ta =>
      case FastCharger =>
      case SlowCharger =>
    }
  }

  /** What charger_extcon_handle_notifier does once the quiet window has
      passed and CHG_DTLS_01 has been read. */
  datatype Action = Ignore | Disable | Enable

  /** The settle decision: a detach (event 0) disables and an attach
      (event 1) enables, but only while the hardware reports charging off;
      any other combination leaves the charger alone. */
  function SettleAction(event: int, chargingOn: bool): (a: Action)
    ensures chargingOn ==> a == Ignore
    ensures a == Disable <==> event == 0 && !chargingOn
    ensures a == Enable <==> event == 1 && !chargingOn
  {
    if event == 0 && !chargingOn then Disable
    else if event == 1 && !chargingOn then Enable
    else Ignore
  }

  /** The debounce state of the platform's cables, by slot: the last event
      each cable's notifier recorded (cable->event) and the slots whose
      settle work is scheduled. A delayed work item is either pending or
      not, so re-scheduling it replaces it instead of stacking a second. */
  datatype Debouncer = Debouncer(events: map<nat, int>, pending: set<nat>)

  /** charger_extcon_notifier: record the event, cancel and reschedule. */
  function Notify(d: Debouncer, slot: nat, event: int): Debouncer
  {
    Debouncer(d.events[slot := event], d.pending + {slot})
  }

  /** A burst of notifications for one cable, in arrival order. */
  function NotifyAll(d: Debouncer, slot: nat, evs: seq<int>): Debouncer
    decreases |evs|
  {
    if evs == [] then d else NotifyAll(Notify(d, slot, evs[0]), slot, evs[1..])
  }

  /** The settle work for `slot` starts running: it is no longer pending. */
  function Fire(d: Debouncer, slot: nat): Debouncer
  {
    Debouncer(d.events, d.pending - {slot})
  }

  /** A burst of notifications leaves one pending settle for the cable,
      carrying the burst's last event; other cables are untouched. */
  lemma {:induction false} BurstKeepsLast(d: Debouncer, slot: nat, evs: seq<int>)
    requires |evs| > 0
    ensures NotifyAll(d, slot, evs).events == d.events[slot := evs[|evs| - 1]]
    ensures NotifyAll(d, slot, evs).pending == d.pending + {slot}
    decreases |evs|
  {
    if |evs| > 1 {
      BurstKeepsLast(Notify(d, slot, evs[0]), slot, evs[1..]);
      assert evs[1..][|evs[1..]| - 1] == evs[|evs| - 1];
    }
  }

  /** After a burst, the one settle that runs sees the last event, and
      nothing is left pending for that cable: the burst causes exactly one
      settle action. */
  lemma BurstSettlesOnce(d: Debouncer, slot: nat, evs: seq<int>)
    requires |evs| > 0
    ensures var after := NotifyAll(d, slot, evs);
            && slot in after.pending
            && slot in after.events
            && after.events[slot] == evs[|evs| - 1]
            && slot !in Fire(after, slot).pending
            && Fire(after, slot).pending == d.pending - {slot}
  {
    BurstKeepsLast(d, slot, evs);
  }
}
