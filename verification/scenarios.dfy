/** Two concrete refreshes: an armed car whose guard bits make it light, and the same car fully armed. */
module Scenarios {
  import opened Optional
  import opened Telemetry
  import opened LayerNames
  import opened LayerStack

  /** An armed two-door car one second old, door zone set, door input clear. */
  function ArmedCar(now: Long, guard0: bool, guard1: bool): Snapshot
    requires MinLong + DayMillis <= now
  {
    Snapshot(
      eventTime := now - 1000, guardTime := 0, cardTime := 0,
      guard := true, guard0 := guard0, guard1 := guard1,
      zoneAccessory := false, zoneDoor := true, zoneHood := false, zoneTrunk := false, zoneIgnition := false,
      input1 := false, input2 := false, input3 := false, input4 := false,
      az := false, doors4 := false,
      doorFl := false, doorFr := false, doorBl := false, doorBr := false)
  }

  /** Both guard bits set: light palette, the door alarm drawn as merely open, the blue lock. */
  lemma LightArmedCar(now: Long)
    requires MinLong + DayMillis <= now
    ensures IsWhite(ArmedCar(now, true, true))
    ensures ExpectedStack(ArmedCar(now, true, true), now) ==
      [Some("car_white"), Some("doors_white_open"), Some("hood_white"), Some("trunk_white"),
       None, Some("lock_blue"), None, None, None]
  {
    var s := ArmedCar(now, true, true);
    StaleBoundary(s.eventTime, now);
    assert OpenName("doors", false, true, false, false) == "doors" + "_white" + "_open";
    assert "doors" + "_white" + "_open" == "doors_white_open";
    assert OpenName("hood", false, false, false, false) == "hood" + "_white" == "hood_white";
    assert OpenName("trunk", false, false, false, false) == "trunk" + "_white" == "trunk_white";
    assert !IsStale(s.eventTime, now);
    var r := FreshStack(s);
    assert r[0] == Some("car_white") && r[1] == Some("doors_white_open");
    assert r[2] == Some("hood_white") && r[3] == Some("trunk_white");
    assert r[4] == None && r[5] == Some("lock_blue");
  }

  /** Both guard bits clear: armed palette, the door alarm drawn red, the white lock. */
  lemma DarkArmedCar(now: Long)
    requires MinLong + DayMillis <= now
    ensures !IsWhite(ArmedCar(now, false, false))
    ensures ExpectedStack(ArmedCar(now, false, false), now) ==
      [Some("car_blue"), Some("doors_red_open"), Some("hood_blue"), Some("trunk_blue"),
       None, Some("lock_white"), None, None, None]
  {
    var s := ArmedCar(now, false, false);
    StaleBoundary(s.eventTime, now);
    assert OpenName("doors", true, false, true, false) == "doors" + "_red" + "_open";
    assert "doors" + "_red" + "_open" == "doors_red_open";
    assert OpenName("hood", true, false, false, false) == "hood" + "_blue" == "hood_blue";
    assert OpenName("trunk", true, false, false, false) == "trunk" + "_blue" == "trunk_blue";
    assert !IsStale(s.eventTime, now);
    var r := FreshStack(s);
    assert r[0] == Some("car_blue") && r[1] == Some("doors_red_open");
    assert r[2] == Some("hood_blue") && r[3] == Some("trunk_blue");
    assert r[4] == None && r[5] == Some("lock_white");
  }
}
