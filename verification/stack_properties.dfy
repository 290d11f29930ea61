/** Properties of the layer stack that CarDrawable.update computes. */
module StackProperties {
  import opened Optional
  import opened Telemetry
  import opened LayerNames
  import opened LayerStack

  /** Staleness overrides every other field: only the event time and the door layout matter. */
  lemma StaleOverridesAll(s: Snapshot, t: Snapshot, now: Long)
    requires IsStale(s.eventTime, now)
    requires t.eventTime == s.eventTime && t.doors4 == s.doors4
    ensures ExpectedStack(s, now) == ExpectedStack(t, now)
    ensures DrawOrder(ExpectedStack(s, now)) == [StaleCarName(s.doors4)]
  {
    var r := StaleStack(s.doors4);
    assert r == r[..1] + r[1..];
    DrawOrderAppend(r[..1], r[1..]);
    assert DrawOrder(r[..1]) == [StaleCarName(s.doors4)];
  }

  /** The car body: black when stale, otherwise red on an accessory alarm, else blue when armed, else white. */
  lemma CarBody(s: Snapshot, now: Long)
    ensures var r := ExpectedStack(s, now);
      Parse("car", r[0].value) ==
        Some(if IsStale(s.eventTime, now) then Look(Black, false, s.doors4)
             else CarLook(!IsWhite(s), s.zoneAccessory, s.doors4))
  {
    if IsStale(s.eventTime, now) {
      StaleCarNameLook(s.doors4);
      ParseName("car", Look(Black, false, s.doors4));
    } else {
      FreshSlots(s, IsWhite(s));
      CarNameLook(!IsWhite(s), s.zoneAccessory, s.doors4);
      ParseName("car", CarLook(!IsWhite(s), s.zoneAccessory, s.doors4));
    }
  }

  /** A suppressed opening in the light palette is drawn white, and open exactly when its input or zone is set. */
  lemma SuppressedOpenName(group: string, open: bool, alarm: bool, doors4: bool)
    ensures var (o, a) := Suppress(true, open, alarm);
      OpenName(group, false, o, a, doors4) == Name(group, Look(White, open || alarm, doors4))
    ensures var (o, a) := Suppress(true, open, alarm);
      alarm ==> OpenName(group, false, o, a, doors4) == group + "_white_open" + (if doors4 then "4" else "")
  {
    assert Tail(Look(White, true, doors4)) == "_white_open" + (if doors4 then "4" else "");
  }

  /**
   * In the light palette the two-door doors, the hood and the trunk are never
   * drawn red: an alarmed zone is drawn as a white open layer.
   */
  lemma AlarmSuppressedWhenWhite(s: Snapshot, now: Long)
    requires !IsStale(s.eventTime, now) && IsWhite(s)
    ensures var r := ExpectedStack(s, now);
      && r[2] == Some(Name("hood", Look(White, s.input4 || s.zoneHood, s.doors4)))
      && r[3] == Some(Name("trunk", Look(White, s.input2 || s.zoneTrunk, s.doors4)))
      && (!s.doors4 ==> r[1] == Some(Name("doors", Look(White, s.input1 || s.zoneDoor, false))))
  {
    var r := ExpectedStack(s, now);
    assert r[1] == Some(if s.doors4 then DoorName("door_fl", s.doorFl, s, true) else DoorsName(s, true));
    assert r[2] == Some(HoodName(s, true)) && r[3] == Some(TrunkName(s, true));
    SuppressedOpenName("hood", s.input4, s.zoneHood, s.doors4);
    SuppressedOpenName("trunk", s.input2, s.zoneTrunk, s.doors4);
    SuppressedOpenName("doors", s.input1, s.zoneDoor, false);
  }

  /**
   * In the dark palette nothing is suppressed: the hood, the trunk and the
   * two-door doors group are drawn red exactly when their zone is set,
   * otherwise blue, and open when their input or zone is set.
   */
  lemma DarkAlarmShownRed(s: Snapshot, now: Long)
    requires !IsStale(s.eventTime, now) && !IsWhite(s)
    ensures var r := ExpectedStack(s, now);
      && r[2].Some? && Parse("hood", r[2].value) ==
           Some(Look(if s.zoneHood then Red else Blue, s.input4 || s.zoneHood, s.doors4))
      && r[3].Some? && Parse("trunk", r[3].value) ==
           Some(Look(if s.zoneTrunk then Red else Blue, s.input2 || s.zoneTrunk, s.doors4))
      && (!s.doors4 ==>
            r[1].Some? &&
            Parse("doors", r[1].value) == Some(Look(if s.zoneDoor then Red else Blue, s.input1 || s.zoneDoor, false)))
  {
    FreshSlots(s, false);
    OpenNameLook("hood", true, s.input4, s.zoneHood, s.doors4);
    ParseName("hood", OpenLook(true, s.input4, s.zoneHood, s.doors4));
    OpenNameLook("trunk", true, s.input2, s.zoneTrunk, s.doors4);
    ParseName("trunk", OpenLook(true, s.input2, s.zoneTrunk, s.doors4));
    OpenNameLook("doors", true, s.input1, s.zoneDoor, false);
    ParseName("doors", OpenLook(true, s.input1, s.zoneDoor, false));
  }

  /** The same, spelled out: an alarmed hood zone in the light palette shows `hood_white_open`. */
  lemma HoodAlarmShownAsWhiteOpen(s: Snapshot, now: Long)
    requires !IsStale(s.eventTime, now) && IsWhite(s) && s.zoneHood
    ensures ExpectedStack(s, now)[2] == Some(if s.doors4 then "hood_white_open4" else "hood_white_open")
  {
    FreshSlots(s, true);
    WhiteOpenSpelling("hood", s.doors4);
    if s.doors4 {
      assert "hood" + "_white_open4" == "hood_white_open4";
    } else {
      assert "hood" + "_white_open" == "hood_white_open";
    }
  }

  /** An alarmed trunk zone in the light palette shows `trunk_white_open`. */
  lemma TrunkAlarmShownAsWhiteOpen(s: Snapshot, now: Long)
    requires !IsStale(s.eventTime, now) && IsWhite(s) && s.zoneTrunk
    ensures ExpectedStack(s, now)[3] == Some(if s.doors4 then "trunk_white_open4" else "trunk_white_open")
  {
    FreshSlots(s, true);
    WhiteOpenSpelling("trunk", s.doors4);
    if s.doors4 {
      assert "trunk" + "_white_open4" == "trunk_white_open4";
    } else {
      assert "trunk" + "_white_open" == "trunk_white_open";
    }
  }

  /** An alarmed door zone in the light two-door layout shows `doors_white_open`. */
  lemma DoorsAlarmShownAsWhiteOpen(s: Snapshot, now: Long)
    requires !IsStale(s.eventTime, now) && IsWhite(s) && !s.doors4 && s.zoneDoor
    ensures ExpectedStack(s, now)[1] == Some("doors_white_open")
  {
    FreshSlots(s, true);
    WhiteOpenSpelling("doors", false);
    assert "doors" + "_white_open" == "doors_white_open";
  }

  /** A white opening drawn open, spelled out. */
  lemma WhiteOpenSpelling(group: string, doors4: bool)
    ensures OpenName(group, false, true, false, doors4) == group + (if doors4 then "_white_open4" else "_white_open")
  {
    assert group + "_white" + "_open" == group + "_white_open";
    assert group + "_white" + "_open" + "4" == group + "_white_open4";
  }

  /**
   * The four doors of the four-door layout are not suppressed: an open door
   * while armed is drawn red even in the light palette.
   */
  lemma FourDoorAlarmNotSuppressed(s: Snapshot, now: Long)
    requires !IsStale(s.eventTime, now) && s.doors4
    requires s.guard && s.guard0 && s.guard1 && s.doorFl
    ensures IsWhite(s)
    ensures ExpectedStack(s, now)[1] == Some("door_fl_red_open")
  {
    assert OpenName("door_fl", false, true, true, false) == "door_fl" + "_red" + "_open";
    assert "door_fl" + "_red" + "_open" == "door_fl_red_open";
  }

  /** Two-door layout: the doors group in slot 1, slots 6-8 cleared. */
  lemma TwoDoorLayout(s: Snapshot, now: Long)
    requires !IsStale(s.eventTime, now) && !s.doors4
    ensures var r := ExpectedStack(s, now);
      && r[6] == None && r[7] == None && r[8] == None
      && r[1].Some? && Parse("doors", r[1].value).Some?
      && !Parse("doors", r[1].value).value.four
  {
    var white := IsWhite(s);
    var (o, a) := Suppress(white, s.input1, s.zoneDoor);
    FreshSlots(s, white);
    OpenNameLook("doors", !white, o, a, false);
    ParseName("doors", OpenLook(!white, o, a, false));
  }

  /**
   * Four-door layout: the four doors in slots 1, 6, 7 and 8, each alarmed
   * exactly when open while armed, none with the four-door suffix.
   */
  lemma FourDoorLayout(s: Snapshot, now: Long)
    requires !IsStale(s.eventTime, now) && s.doors4
    ensures var r := ExpectedStack(s, now); var armed := !IsWhite(s);
      && r[1] == Some(Name("door_fl", OpenLook(armed, s.doorFl, s.doorFl && s.guard, false)))
      && r[6] == Some(Name("door_fr", OpenLook(armed, s.doorFr, s.doorFr && s.guard, false)))
      && r[7] == Some(Name("door_bl", OpenLook(armed, s.doorBl, s.doorBl && s.guard, false)))
      && r[8] == Some(Name("door_br", OpenLook(armed, s.doorBr, s.doorBr && s.guard, false)))
  {
    var armed := !IsWhite(s);
    FreshSlots(s, IsWhite(s));
    OpenNameLook("door_fl", armed, s.doorFl, s.doorFl && s.guard, false);
    OpenNameLook("door_fr", armed, s.doorFr, s.doorFr && s.guard, false);
    OpenNameLook("door_bl", armed, s.doorBl, s.doorBl && s.guard, false);
    OpenNameLook("door_br", armed, s.doorBr, s.doorBr && s.guard, false);
  }

  /** The hood name reads back as the look `update` computes for it. */
  lemma HoodLook(s: Snapshot, white: bool)
    ensures var (o, a) := Suppress(white, s.input4, s.zoneHood);
      Parse("hood", HoodName(s, white)) == Some(OpenLook(!white, o, a, s.doors4))
  {
    var (o, a) := Suppress(white, s.input4, s.zoneHood);
    OpenNameLook("hood", !white, o, a, s.doors4);
    ParseName("hood", OpenLook(!white, o, a, s.doors4));
  }

  /** The trunk name reads back as the look `update` computes for it. */
  lemma TrunkLook(s: Snapshot, white: bool)
    ensures var (o, a) := Suppress(white, s.input2, s.zoneTrunk);
      Parse("trunk", TrunkName(s, white)) == Some(OpenLook(!white, o, a, s.doors4))
  {
    var (o, a) := Suppress(white, s.input2, s.zoneTrunk);
    OpenNameLook("trunk", !white, o, a, s.doors4);
    ParseName("trunk", OpenLook(!white, o, a, s.doors4));
  }

  /** Hood and trunk carry the four-door variant exactly in four-door mode. */
  lemma HoodTrunkVariant(s: Snapshot, now: Long)
    requires !IsStale(s.eventTime, now)
    ensures var r := ExpectedStack(s, now);
      && r[2].Some? && Parse("hood", r[2].value).Some? && Parse("hood", r[2].value).value.four == s.doors4
      && r[3].Some? && Parse("trunk", r[3].value).Some? && Parse("trunk", r[3].value).value.four == s.doors4
  {
    var white := IsWhite(s);
    FreshSlots(s, white);
    HoodLook(s, white);
    TrunkLook(s, white);
  }

  /**
   * Lock slot 5: valet and block override each other's absence and the
   * lock icon; the plain white lock means armed with both guard bits clear
   * and no card override.
   */
  lemma LockSlot(s: Snapshot, now: Long)
    requires !IsStale(s.eventTime, now)
    ensures var r := ExpectedStack(s, now);
      && (r[5] == Some("valet") <==> s.guard0 && !s.guard1)
      && (r[5] == Some("block") <==> !s.guard0 && s.guard1)
      && (r[5] == None <==> !s.guard && s.guard0 == s.guard1)
      && (r[5] == Some("lock_red") <==> s.guard0 == s.guard1 && CardUsed(s))
      && (r[5] == Some("lock_white") <==> s.guard && !s.guard0 && !s.guard1 && !CardUsed(s))
      && (r[5] == Some("lock_blue") <==> s.guard && s.guard0 && s.guard1 && !CardUsed(s))
  {
  }

  /**
   * Ignition slot 4: the running engine is drawn "engine1", tinted blue
   * exactly in the light palette; otherwise a set ignition input or zone
   * draws the red key when armed and the blue key when not, so the plain
   * "ignition" name is never produced.
   */
  lemma IgnitionSlotCases(s: Snapshot, now: Long)
    requires !IsStale(s.eventTime, now)
    ensures var r := ExpectedStack(s, now);
      && (s.az ==> r[4] == Some(if IsWhite(s) then "engine1_blue" else "engine1"))
      && (!s.az && (s.input3 || s.zoneIgnition) ==> r[4] == Some(if s.guard then "ignition_red" else "ignition_blue"))
      && (r[4] == None <==> !s.az && !s.input3 && !s.zoneIgnition)
      && r[4] != Some("ignition")
  {
    assert "engine1" + "_blue" == "engine1_blue";
  }

  /** Painting one stack after another paints the two orders one after the other. */
  lemma {:induction false} DrawOrderAppend(a: Stack, b: Stack)
    ensures DrawOrder(a + b) == DrawOrder(a) + DrawOrder(b)
    decreases |b|
  {
    if b == [] {
      assert a + b == a;
    } else {
      var c := a + b;
      assert c[..|c| - 1] == a + b[..|b| - 1];
      DrawOrderAppend(a, b[..|b| - 1]);
    }
  }

  /** The car body is always painted first, under every other layer. */
  lemma BodyPaintedFirst(s: Snapshot, now: Long)
    ensures var r := ExpectedStack(s, now);
      |DrawOrder(r)| > 0 && DrawOrder(r)[0] == r[0].value
  {
    var r := ExpectedStack(s, now);
    assert r == r[..1] + r[1..];
    DrawOrderAppend(r[..1], r[1..]);
    assert DrawOrder(r[..1]) == [r[0].value];
  }
}
