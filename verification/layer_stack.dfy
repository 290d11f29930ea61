/**
 * The nine-slot layer stack that CarDrawable.update computes from one
 * telemetry snapshot, as a pure function, and the properties of that stack.
 *
 * Slots: 0 car body, 1 doors (front-left door in the four-door layout),
 * 2 hood, 3 trunk, 4 engine or ignition, 5 lock indicator, 6-8 the other
 * three doors of the four-door layout.
 */
module LayerStack {
  import opened Optional
  import opened Telemetry
  import opened LayerNames

  const SlotCount: nat := 9

  type Stack = seq<Option<string>>

  /** The stack for stale data: the black car body alone. */
  function StaleStack(doors4: bool): (r: Stack)
    ensures |r| == SlotCount && r[0] == Some(StaleCarName(doors4))
    ensures forall i :: 1 <= i < SlotCount ==> r[i] == None
  {
    [Some(StaleCarName(doors4)), None, None, None, None, None, None, None, None]
  }

  /**
   * Alarm suppression for an opening in the light palette: an alarmed zone
   * is drawn as merely open. Returns the (open, alarm) pair actually drawn.
   */
  function Suppress(white: bool, open: bool, alarm: bool): (r: (bool, bool))
    ensures white ==> !r.1
    ensures r.0 || r.1 <==> open || alarm
    ensures !(white && alarm) ==> r == (open, alarm)
  {
    if white && alarm then (true, false) else (open, alarm)
  }

  /** Slot 1 in the two-door layout. */
  function DoorsName(s: Snapshot, white: bool): string {
    var (open, alarm) := Suppress(white, s.input1, s.zoneDoor);
    OpenName("doors", !white, open, alarm, false)
  }

  /** Slot 2. */
  function HoodName(s: Snapshot, white: bool): string {
    var (open, alarm) := Suppress(white, s.input4, s.zoneHood);
    OpenName("hood", !white, open, alarm, s.doors4)
  }

  /** Slot 3. */
  function TrunkName(s: Snapshot, white: bool): string {
    var (open, alarm) := Suppress(white, s.input2, s.zoneTrunk);
    OpenName("trunk", !white, open, alarm, s.doors4)
  }

  /** One door of the four-door layout: alarmed when open while armed, never suppressed. */
  function DoorName(group: string, open: bool, s: Snapshot, white: bool): string {
    OpenName(group, !white, open, open && s.guard, false)
  }

  /** Slot 4: the running engine takes precedence over the ignition key. */
  function IgnitionSlot(s: Snapshot, white: bool): Option<string> {
    if s.az then Some(Tinted("engine1", !white))
    else if !s.az && (s.input3 || s.zoneIgnition) then Some(IgnitionName(s.guard, white))
    else None
  }

  /** The stack for fresh data, slot by slot. */
  function FreshStack(s: Snapshot): Stack {
    var white := IsWhite(s);
    [ Some(CarName(!white, s.zoneAccessory, s.doors4)),
      Some(if s.doors4 then DoorName("door_fl", s.doorFl, s, white) else DoorsName(s, white)),
      Some(HoodName(s, white)),
      Some(TrunkName(s, white)),
      IgnitionSlot(s, white),
      LockName(s.guard, s.guard0, s.guard1, CardUsed(s), white),
      if s.doors4 then Some(DoorName("door_fr", s.doorFr, s, white)) else None,
      if s.doors4 then Some(DoorName("door_bl", s.doorBl, s, white)) else None,
      if s.doors4 then Some(DoorName("door_br", s.doorBr, s, white)) else None ]
  }

  /** The slots of the fresh stack one by one, for callers that build it slot by slot. */
  lemma FreshSlots(s: Snapshot, white: bool)
    requires white == IsWhite(s)
    ensures |FreshStack(s)| == SlotCount
    ensures FreshStack(s)[0] == Some(CarName(!white, s.zoneAccessory, s.doors4))
    ensures FreshStack(s)[1] == Some(if s.doors4 then DoorName("door_fl", s.doorFl, s, white) else DoorsName(s, white))
    ensures FreshStack(s)[2] == Some(HoodName(s, white)) && FreshStack(s)[3] == Some(TrunkName(s, white))
    ensures FreshStack(s)[4] == IgnitionSlot(s, white)
    ensures FreshStack(s)[5] == LockName(s.guard, s.guard0, s.guard1, CardUsed(s), white)
    ensures FreshStack(s)[6] == (if s.doors4 then Some(DoorName("door_fr", s.doorFr, s, white)) else None)
    ensures FreshStack(s)[7] == (if s.doors4 then Some(DoorName("door_bl", s.doorBl, s, white)) else None)
    ensures FreshStack(s)[8] == (if s.doors4 then Some(DoorName("door_br", s.doorBr, s, white)) else None)
  {
  }

  /** The stack `update` leaves behind for snapshot `s` at time `now`, whatever the stack held before. */
  function ExpectedStack(s: Snapshot, now: Long): (r: Stack)
    ensures |r| == SlotCount
    ensures r[0].Some?
    ensures IsStale(s.eventTime, now) ==> r == StaleStack(s.doors4)
  {
    if IsStale(s.eventTime, now) then StaleStack(s.doors4) else FreshStack(s)
  }

  /** The names painted, in slot order: the non-empty slots, skipping the empty ones. */
  function DrawOrder(stack: Stack): (r: seq<string>)
    ensures |r| <= |stack|
    ensures forall i :: 0 <= i < |r| ==> Some(r[i]) in stack
    ensures (forall i :: 0 <= i < |stack| ==> stack[i].Some?) ==> |r| == |stack|
    ensures (forall i :: 0 <= i < |stack| ==> stack[i].None?) ==> r == []
  {
    if stack == [] then []
    else
      var last := stack[|stack| - 1];
      DrawOrder(stack[..|stack| - 1]) + (if last.Some? then [last.value] else [])
  }
}
