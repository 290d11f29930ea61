/**
 * CarDrawable: a nine-slot array of drawable names that each refresh
 * rewrites in place, slot by slot, reporting whether anything changed.
 */
module Compositor {
  import opened Optional
  import opened Telemetry
  import opened LayerNames
  import opened LayerStack

  /** What `getBitmap` hands back: the cached bitmap untouched, or a fresh paint of these layers in order. */
  datatype Paint = KeepCached | Redraw(layers: seq<string>)

  class CarDrawable {
    var parts: array<Option<string>>
    /** Whether the host's resources were ever found; a failed lookup keeps the previous answer. */
    var resourcesLoaded: bool

    ghost predicate Valid()
      reads this
    {
      parts.Length == SlotCount
    }

    constructor ()
      ensures Valid() && fresh(parts) && !resourcesLoaded
      ensures forall i :: 0 <= i < SlotCount ==> parts[i] == None
    {
      parts := new Option<string>[SlotCount](_ => None);
      resourcesLoaded := false;
    }

    /** `setLayer(n)`: empties slot `n`; true when it held a name. */
    method ClearLayer(n: nat) returns (changed: bool)
      requires Valid() && n < SlotCount
      modifies parts
      ensures parts[n] == None
      ensures forall i :: 0 <= i < SlotCount && i != n ==> parts[i] == old(parts[i])
      ensures changed == old(parts[n]).Some?
    {
      if parts[n] == None {
        return false;
      }
      parts[n] := None;
      return true;
    }

    /** `setLayer(n, name)`: stores `name` (None for null) in slot `n`; true when the slot's old value differed. */
    method SetLayer(n: nat, name: Option<string>) returns (changed: bool)
      requires Valid() && n < SlotCount
      modifies parts
      ensures parts[n] == name
      ensures forall i :: 0 <= i < SlotCount && i != n ==> parts[i] == old(parts[i])
      ensures changed == (old(parts[n]) != name)
    {
      if name == None {
        if parts[n] == None {
          return false;
        }
        parts[n] := None;
        return true;
      }
      if parts[n] == None {
        parts[n] := name;
        return true;
      }
      if parts[n].value == name.value {
        return false;
      }
      parts[n] := name;
      return true;
    }

    /** `setLayer(n, name, white)`: as SetLayer, with "_blue" appended when `white` is false. */
    method SetTintedLayer(n: nat, name: string, white: bool) returns (changed: bool)
      requires Valid() && n < SlotCount
      modifies parts
      ensures parts[n] == Some(Tinted(name, white))
      ensures forall i :: 0 <= i < SlotCount && i != n ==> parts[i] == old(parts[i])
      ensures changed == (old(parts[n]) != parts[n])
    {
      var tinted := if !white then name + "_blue" else name;
      changed := SetLayer(n, Some(tinted));
    }

    /** `setModeCar`: the car body in slot 0. */
    method SetModeCar(guard: bool, alarm: bool, doors4: bool) returns (changed: bool)
      requires Valid()
      modifies parts
      ensures parts[0] == Some(CarName(guard, alarm, doors4))
      ensures forall i :: 0 <= i < SlotCount && i != 0 ==> parts[i] == old(parts[i])
      ensures changed == (old(parts[0]) != parts[0])
    {
      var pos := if guard then "car_blue" else "car_white";
      if alarm {
        pos := "car_red";
      }
      if doors4 {
        pos := pos + "4";
      }
      changed := SetLayer(0, Some(pos));
    }

    /** `setModeOpen`: an opening layer of `group` in slot `pos`. */
    method SetModeOpen(pos: nat, group: string, guard: bool, open: bool, alarm: bool, doors4: bool)
      returns (changed: bool)
      requires Valid() && pos < SlotCount
      modifies parts
      ensures parts[pos] == Some(OpenName(group, guard, open, alarm, doors4))
      ensures forall i :: 0 <= i < SlotCount && i != pos ==> parts[i] == old(parts[i])
      ensures changed == (old(parts[pos]) != parts[pos])
    {
      var name := group;
      if alarm {
        name := name + "_red";
      } else if guard {
        name := name + "_blue";
      } else {
        name := name + "_white";
      }
      if open || alarm {
        name := name + "_open";
      }
      if doors4 {
        name := name + "4";
      }
      changed := SetLayer(pos, Some(name));
    }

    /**
     * `update`: rewrites every slot from the snapshot and reports whether the
     * stack changed. The result does not depend on what the stack held.
     */
    method Update(s: Snapshot, now: Long) returns (changed: bool)
      requires Valid()
      modifies parts
      ensures parts[..] == ExpectedStack(s, now)
      ensures changed == (old(parts[..]) != parts[..])
    {
      var doors4 := s.doors4;
      if s.eventTime < StaleThreshold(now) {
        changed := ShowStale(doors4);
      } else {
        ghost var before := parts[..];
        changed := ShowFresh(s);
        FreshSlots(s, IsWhite(s));
        SameStack(parts[..], FreshStack(s));
        StackDiffers(before, parts[..]);
      }
    }

    /**
     * The fresh branch of `update`: the palette and card override computed
     * once, then the car body and each group of slots in the source's order.
     */
    method ShowFresh(s: Snapshot) returns (changed: bool)
      requires Valid()
      modifies parts
      ensures var white := IsWhite(s);
        parts[0] == Some(CarName(!white, s.zoneAccessory, s.doors4)) &&
        parts[1] == Some(if s.doors4 then DoorName("door_fl", s.doorFl, s, white) else DoorsName(s, white)) &&
        parts[2] == Some(HoodName(s, white)) && parts[3] == Some(TrunkName(s, white)) &&
        parts[4] == IgnitionSlot(s, white) &&
        parts[5] == LockName(s.guard, s.guard0, s.guard1, CardUsed(s), white) &&
        parts[6] == (if s.doors4 then Some(DoorName("door_fr", s.doorFr, s, white)) else None) &&
        parts[7] == (if s.doors4 then Some(DoorName("door_bl", s.doorBl, s, white)) else None) &&
        parts[8] == (if s.doors4 then Some(DoorName("door_br", s.doorBr, s, white)) else None)
      ensures changed ==
        (old(parts[0]) != parts[0] || old(parts[1]) != parts[1] || old(parts[2]) != parts[2] ||
         old(parts[3]) != parts[3] || old(parts[4]) != parts[4] || old(parts[5]) != parts[5] ||
         old(parts[6]) != parts[6] || old(parts[7]) != parts[7] || old(parts[8]) != parts[8])
    {
      var guard, guard0, guard1 := s.guard, s.guard0, s.guard1;
      var card := false;
      if guard {
        if s.guardTime > 0 && s.cardTime > 0 && s.cardTime < s.guardTime {
          card := true;
        }
      }
      var white := !guard || (guard0 && guard1) || card;
      assert white == IsWhite(s) && card == CardUsed(s);
      changed := SetModeCar(!white, s.zoneAccessory, s.doors4);
      var c := ShowDoors(s, white);
      changed := changed || c;
      c := ShowHoodAndTrunk(s, white);
      changed := changed || c;
      c := ShowIgnition(s, white);
      changed := changed || c;
      c := ShowLock(s, white, card);
      changed := changed || c;
    }

    /** The stale branch of `update`: the black car body, every other slot cleared. */
    method ShowStale(doors4: bool) returns (changed: bool)
      requires Valid()
      modifies parts
      ensures parts[..] == StaleStack(doors4)
      ensures changed == (old(parts[..]) != parts[..])
    {
      ghost var before := parts[..];
      changed := SetLayer(0, Some(if doors4 then "car_black4" else "car_black"));
      var c := ClearLayer(1); changed := changed || c;
      c := ClearLayer(2); changed := changed || c;
      c := ClearLayer(3); changed := changed || c;
      c := ClearLayer(4); changed := changed || c;
      c := ClearLayer(5); changed := changed || c;
      c := ClearLayer(6); changed := changed || c;
      c := ClearLayer(7); changed := changed || c;
      c := ClearLayer(8); changed := changed || c;
      SameStack(parts[..], StaleStack(doors4));
      StackDiffers(before, parts[..]);
    }

    /** Slots 1 and 6-8: the four doors one by one, or the doors as one opening and three empty slots. */
    method ShowDoors(s: Snapshot, white: bool) returns (changed: bool)
      requires Valid() && white == IsWhite(s)
      modifies parts
      ensures parts[1] == Some(if s.doors4 then DoorName("door_fl", s.doorFl, s, white) else DoorsName(s, white))
      ensures parts[6] == (if s.doors4 then Some(DoorName("door_fr", s.doorFr, s, white)) else None)
      ensures parts[7] == (if s.doors4 then Some(DoorName("door_bl", s.doorBl, s, white)) else None)
      ensures parts[8] == (if s.doors4 then Some(DoorName("door_br", s.doorBr, s, white)) else None)
      ensures forall i :: 0 <= i < SlotCount && i != 1 && i < 6 ==> parts[i] == old(parts[i])
      ensures changed == (old(parts[1]) != parts[1] || old(parts[6]) != parts[6] ||
                          old(parts[7]) != parts[7] || old(parts[8]) != parts[8])
    {
      var guard := s.guard;
      if s.doors4 {
        var fl := s.doorFl;
        changed := SetModeOpen(1, "door_fl", !white, fl, fl && guard, false);
        var fr := s.doorFr;
        var c := SetModeOpen(6, "door_fr", !white, fr, fr && guard, false); changed := changed || c;
        var bl := s.doorBl;
        c := SetModeOpen(7, "door_bl", !white, bl, bl && guard, false); changed := changed || c;
        var br := s.doorBr;
        c := SetModeOpen(8, "door_br", !white, br, br && guard, false); changed := changed || c;
      } else {
        var doorsOpen, doorsAlarm := s.input1, s.zoneDoor;
        if white && doorsAlarm {
          doorsAlarm := false;
          doorsOpen := true;
        }
        changed := SetModeOpen(1, "doors", !white, doorsOpen, doorsAlarm, false);
        var c := ClearLayer(6); changed := changed || c;
        c := ClearLayer(7); changed := changed || c;
        c := ClearLayer(8); changed := changed || c;
      }
    }

    /** Slots 2 and 3: hood and trunk, an alarm drawn as merely open in the light palette. */
    method ShowHoodAndTrunk(s: Snapshot, white: bool) returns (changed: bool)
      requires Valid() && white == IsWhite(s)
      modifies parts
      ensures parts[2] == Some(HoodName(s, white)) && parts[3] == Some(TrunkName(s, white))
      ensures forall i :: 0 <= i < SlotCount && i != 2 && i != 3 ==> parts[i] == old(parts[i])
      ensures changed == (old(parts[2]) != parts[2] || old(parts[3]) != parts[3])
    {
      var hoodOpen, hoodAlarm := s.input4, s.zoneHood;
      if white && hoodAlarm {
        hoodAlarm := false;
        hoodOpen := true;
      }
      changed := SetModeOpen(2, "hood", !white, hoodOpen, hoodAlarm, s.doors4);
      var trunkOpen, trunkAlarm := s.input2, s.zoneTrunk;
      if white && trunkAlarm {
        trunkAlarm := false;
        trunkOpen := true;
      }
      var c := SetModeOpen(3, "trunk", !white, trunkOpen, trunkAlarm, s.doors4);
      changed := changed || c;
    }

    /** Slot 4: the running engine, else the ignition key when it is on, else nothing. */
    method ShowIgnition(s: Snapshot, white: bool) returns (changed: bool)
      requires Valid() && white == IsWhite(s)
      modifies parts
      ensures parts[4] == IgnitionSlot(s, white)
      ensures forall i :: 0 <= i < SlotCount && i != 4 ==> parts[i] == old(parts[i])
      ensures changed == (old(parts[4]) != parts[4])
    {
      var az := s.az;
      if az {
        changed := SetTintedLayer(4, "engine1", !white);
      } else {
        var ignition: Option<string> := None;
        if !az && (s.input3 || s.zoneIgnition) {
          ignition := Some(if s.guard then "ignition_red" else if white then "ignition_blue" else "ignition");
        }
        changed := SetLayer(4, ignition);
      }
    }

    /** Slot 5: the lock indicator; valet and block override the guard state. */
    method ShowLock(s: Snapshot, white: bool, card: bool) returns (changed: bool)
      requires Valid() && white == IsWhite(s) && card == CardUsed(s)
      modifies parts
      ensures parts[5] == LockName(s.guard, s.guard0, s.guard1, card, white)
      ensures forall i :: 0 <= i < SlotCount && i != 5 ==> parts[i] == old(parts[i])
      ensures changed == (old(parts[5]) != parts[5])
    {
      var guard, guard0, guard1 := s.guard, s.guard0, s.guard1;
      var state: Option<string> := None;
      if guard {
        state := if white then Some("lock_blue") else Some("lock_white");
        if card {
          state := Some("lock_red");
        }
      }
      if guard0 && !guard1 {
        state := Some("valet");
      }
      if !guard0 && guard1 {
        state := Some("block");
      }
      changed := SetLayer(5, state);
    }

    /** The slot-order walk of `getBitmap`: the names to paint, empty slots skipped. */
    method DrawLayers() returns (layers: seq<string>)
      requires Valid()
      ensures layers == DrawOrder(parts[..])
    {
      layers := [];
      var i := 0;
      while i < parts.Length
        invariant 0 <= i <= parts.Length
        invariant layers == DrawOrder(parts[..i])
      {
        assert parts[..i + 1][..i] == parts[..i];
        if parts[i].Some? {
          layers := layers + [parts[i].value];
        }
        i := i + 1;
      }
      assert parts[..i] == parts[..];
    }

    /**
     * `getBitmap` without the drawing: `lookupOk` says whether the host's
     * resources were found this time, `hasBitmap` whether a cached bitmap
     * exists. Without resources the stack is not even refreshed.
     */
    method GetBitmap(lookupOk: bool, hasBitmap: bool, s: Snapshot, now: Long) returns (paint: Paint)
      requires Valid()
      modifies this, parts
      ensures Valid() && parts == old(parts)
      ensures resourcesLoaded == (old(resourcesLoaded) || lookupOk)
      ensures !resourcesLoaded ==> parts[..] == old(parts[..]) && paint == KeepCached
      ensures resourcesLoaded ==> parts[..] == ExpectedStack(s, now)
      ensures resourcesLoaded ==>
        paint == if old(parts[..]) == ExpectedStack(s, now) && hasBitmap then KeepCached
                 else Redraw(DrawOrder(ExpectedStack(s, now)))
    {
      if lookupOk {
        resourcesLoaded := true;
      }
      if !resourcesLoaded {
        return KeepCached;
      }
      var changed := Update(s, now);
      if !changed && hasBitmap {
        return KeepCached;
      }
      var layers := DrawLayers();
      paint := Redraw(layers);
    }
  }

  /** Two nine-slot stacks differ exactly when some slot differs. */
  lemma StackDiffers(a: Stack, b: Stack)
    requires |a| == SlotCount && |b| == SlotCount
    ensures a != b <==>
      a[0] != b[0] || a[1] != b[1] || a[2] != b[2] || a[3] != b[3] || a[4] != b[4] ||
      a[5] != b[5] || a[6] != b[6] || a[7] != b[7] || a[8] != b[8]
  {
    if a != b {
      var i :| 0 <= i < SlotCount && a[i] != b[i];
    }
  }

  /** Two nine-slot stacks that agree slot by slot are equal. */
  lemma SameStack(a: Stack, b: Stack)
    requires |a| == SlotCount && |b| == SlotCount
    requires a[0] == b[0] && a[1] == b[1] && a[2] == b[2] && a[3] == b[3] && a[4] == b[4]
    requires a[5] == b[5] && a[6] == b[6] && a[7] == b[7] && a[8] == b[8]
    ensures a == b
  {
  }

  /** Refreshing twice with the same snapshot and clock: the second refresh changes nothing. */
  method RefreshTwice(d: CarDrawable, s: Snapshot, now: Long) returns (first: bool, second: bool)
    requires d.Valid()
    modifies d.parts
    ensures d.parts[..] == ExpectedStack(s, now)
    ensures first == (old(d.parts[..]) != ExpectedStack(s, now))
    ensures !second
  {
    first := d.Update(s, now);
    second := d.Update(s, now);
  }
}
