# CarDrawable layer compositor, modelled in Dafny

The smartwatch extension draws the car's alarm status as a stack of
drawable layers: a car body plus overlays for the doors, hood, trunk,
engine or ignition key, and lock state. `CarDrawable` keeps the layer
names in a fixed nine-slot array, `parts_id`. On every refresh, `update`
reads one row of telemetry and rewrites each slot through `setLayer`.
`setLayer` reports whether its slot changed, and `update` ORs those
reports into one "stack changed" flag. `getBitmap` repaints only when
that flag is set or no bitmap is cached. It paints the non-empty slots
in index order.

The model has five modules.

- `Telemetry` (telemetry.dfy) holds the decoded telemetry row
  (`Snapshot`), Java `long` arithmetic with explicit two's-complement wrap,
  the 24-hour staleness test, the card override and the light ("white")
  palette.
- `LayerNames` (layer_names.dfy) builds each name the way the source
  does, with literals and suffix appends. Next to those builders is an
  independent reference: a structured `Look` (colour, open, four-door),
  its spelling `Name`, and the inverse `Parse`. Lemmas connect the
  builders to the reference.
- `LayerStack` (layer_stack.dfy) gives the pure specification:
  `ExpectedStack(snapshot, now)` is the nine slots `update` must leave
  behind, and `DrawOrder` is the list of names painted.
- `Compositor` (compositor.dfy) is the imperative `CarDrawable` class.
  - It holds an `array<Option<string>>` of nine slots; `None` stands for
    Java `null`.
  - The three `setLayer` overloads, `setModeCar` and `setModeOpen` are
    methods that write one slot in place.
  - `Update` is proved to leave `parts[..] == ExpectedStack(s, now)` and
    to return exactly `old(parts[..]) != parts[..]`.
  - `Update`'s body is split into one method per block of the source:
    `ShowStale`, `ShowFresh`, `ShowDoors`, `ShowHoodAndTrunk`,
    `ShowIgnition` and `ShowLock`. They make the same `setLayer` calls in
    the same order as lines 48-134.
  - `GetBitmap` keeps `getBitmap`'s decision to skip the refresh, keep
    the cached bitmap, or repaint. Its slot loop is `DrawLayers`.
- `StackProperties` and `Scenarios` (stack_properties.dfy,
  scenarios.dfy) prove what the stack looks like:
  - staleness overrides everything;
  - colour precedence;
  - alarm suppression in the light palette, and none in the dark one;
  - the two door layouts;
  - the lock and ignition slots;
  - paint order;
  - two concrete snapshots.

Two behaviours of the code are easy to misread, and the model follows
the code in both.

- The four doors of the four-door layout are not alarm-suppressed in the
  light palette (lines 75-83). An open door while armed is drawn red even
  when both guard bits are set. Only the two-door doors group, the hood
  and the trunk are suppressed (`FourDoorAlarmNotSuppressed`).
- An armed car in the dark palette without a card override shows
  `lock_white`, not a blue lock (line 126; `DarkArmedCar`).

## Model

| member | source | states |
|---|---|---|
| Telemetry.WrapLong | src/main/java/net/ugona/plus/watch/CarDrawable.java:48 | the `long` subtraction `now - 86400000` wraps modulo 2^64: in range it is the plain difference, below `Long.MIN_VALUE` it gains 2^64 |
| Telemetry.CardUsed | src/main/java/net/ugona/plus/watch/CarDrawable.java:63-69 | the card override holds exactly when armed and 0 < card time < guard time |
| Telemetry.IsWhite | src/main/java/net/ugona/plus/watch/CarDrawable.java:71 | not armed implies the light palette; the dark palette implies armed, not both guard bits, and no card override |
| Telemetry.StaleThreshold | src/main/java/net/ugona/plus/watch/CarDrawable.java:48 | `now - 86400000` in `long` arithmetic; its properties are stated by `StaleBoundary` and `StaleThresholdWraps` |
| Telemetry.IsStale | src/main/java/net/ugona/plus/watch/CarDrawable.java:48 | the staleness test `last < threshold`; stated by `StaleBoundary` and `StaleThresholdWraps`, and used by `ExpectedStack` and `StaleOverridesAll` |
| Telemetry.StaleBoundary | src/main/java/net/ugona/plus/watch/CarDrawable.java:48 | when the threshold does not wrap, data is stale exactly when its event is before now minus 24 h; an event exactly 24 h old is fresh |
| Telemetry.StaleThresholdWraps | src/main/java/net/ugona/plus/watch/CarDrawable.java:48 | within a day of `Long.MIN_VALUE` the threshold wraps to a huge value, so every event up to `Long.MAX_VALUE` minus a day counts as stale |
| LayerNames.ParseTail_Tail | src/main/java/net/ugona/plus/watch/CarDrawable.java:209-222 | the suffix part of a name (colour, "_open", "4") reads back as the look it spells |
| LayerNames.ParseName | src/main/java/net/ugona/plus/watch/CarDrawable.java:209-222 | `Parse` inverts `Name`: every look of a group is recovered from its name |
| LayerNames.NameInjective | src/main/java/net/ugona/plus/watch/CarDrawable.java:188-191 | two looks of one group have equal names exactly when the looks are equal, so the string comparison in `setLayer` detects exactly a change of look |
| LayerNames.CarNameLook | src/main/java/net/ugona/plus/watch/CarDrawable.java:200-207 | `setModeCar`'s name is the reference name of the car look: red on alarm, else blue when armed, else white, "4" exactly for four doors |
| LayerNames.StaleCarNameLook | src/main/java/net/ugona/plus/watch/CarDrawable.java:49 | `car_black`/`car_black4` is the reference name of the black car look |
| LayerNames.OpenNameLook | src/main/java/net/ugona/plus/watch/CarDrawable.java:209-222 | `setModeOpen`'s name is the reference name of the opening look: `_red` over `_blue` over `_white`, `_open` exactly when open or alarmed, `4` exactly when asked |
| LayerNames.CarName | src/main/java/net/ugona/plus/watch/CarDrawable.java:200-206 | `setModeCar`'s spelling of the body name; `CarNameLook` proves it is the reference name of `CarLook` |
| LayerNames.StaleCarName | src/main/java/net/ugona/plus/watch/CarDrawable.java:49 | `car_black4` or `car_black`; `StaleCarNameLook` proves it is the black car look |
| LayerNames.OpenName | src/main/java/net/ugona/plus/watch/CarDrawable.java:209-221 | `setModeOpen`'s spelling of an opening name; `OpenNameLook` proves it is the reference name of `OpenLook` |
| LayerNames.Tinted | src/main/java/net/ugona/plus/watch/CarDrawable.java:195-196 | the three-argument `setLayer`'s name, `_blue` appended when its flag is false; `IgnitionSlotCases` states the resulting `engine1`/`engine1_blue` |
| LayerNames.IgnitionName | src/main/java/net/ugona/plus/watch/CarDrawable.java:120 | the key is `ignition_red` exactly when armed |
| LayerNames.LockName | src/main/java/net/ugona/plus/watch/CarDrawable.java:124-133 | `valet` exactly for guard0 without guard1; `block` exactly for guard1 without guard0; empty exactly when disarmed with equal guard bits; `lock_red` exactly when armed, equal guard bits and card override |
| LayerStack.StaleStack | src/main/java/net/ugona/plus/watch/CarDrawable.java:48-57 | nine slots, the black body in slot 0, slots 1-8 empty |
| LayerStack.Suppress | src/main/java/net/ugona/plus/watch/CarDrawable.java:88-91 | in the light palette the alarm flag is always cleared; the opening is shown (open or alarmed) exactly when its input or zone was set; unless the palette is light and the zone is set, open and alarm pass through unchanged |
| LayerStack.DoorsName | src/main/java/net/ugona/plus/watch/CarDrawable.java:86-92 | the two-door doors name after suppression; stated by `TwoDoorLayout`, `AlarmSuppressedWhenWhite` and `DarkAlarmShownRed` |
| LayerStack.DoorName | src/main/java/net/ugona/plus/watch/CarDrawable.java:76-83 | one door of the four-door layout, alarmed when open while armed; stated by `FourDoorLayout` and `FourDoorAlarmNotSuppressed` |
| LayerStack.HoodName | src/main/java/net/ugona/plus/watch/CarDrawable.java:98-104 | the hood name after suppression; stated by `HoodLook`, `AlarmSuppressedWhenWhite` and `DarkAlarmShownRed` |
| LayerStack.TrunkName | src/main/java/net/ugona/plus/watch/CarDrawable.java:106-112 | the trunk name after suppression; stated by `TrunkLook`, `AlarmSuppressedWhenWhite` and `DarkAlarmShownRed` |
| LayerStack.IgnitionSlot | src/main/java/net/ugona/plus/watch/CarDrawable.java:114-121 | the engine, the key or nothing for slot 4; stated by `IgnitionSlotCases` |
| LayerStack.FreshStack | src/main/java/net/ugona/plus/watch/CarDrawable.java:58-135 | the nine slots of a fresh refresh; `FreshSlots` lists them slot by slot, and the StackProperties lemmas state what each holds |
| LayerStack.ExpectedStack | src/main/java/net/ugona/plus/watch/CarDrawable.java:43-137 | always nine slots with a car body in slot 0; stale data gives the stale stack |
| LayerStack.DrawOrder | src/main/java/net/ugona/plus/watch/CarDrawable.java:156-166 | every painted name comes from a slot; no more names than slots; all slots full paints all, all empty paints nothing |
| StackProperties.StaleOverridesAll | src/main/java/net/ugona/plus/watch/CarDrawable.java:48-57 | stale data ignores every field but the event time and the door layout, and paints only the black body |
| StackProperties.CarBody | src/main/java/net/ugona/plus/watch/CarDrawable.java:48-73 | slot 0 reads back as black when stale, else as the car look of (armed, accessory alarm, four doors) |
| StackProperties.SuppressedOpenName | src/main/java/net/ugona/plus/watch/CarDrawable.java:88-92 | a suppressed opening is the white look, open exactly when input or zone is set; with the zone set it is `<group>_white_open[4]` |
| StackProperties.AlarmSuppressedWhenWhite | src/main/java/net/ugona/plus/watch/CarDrawable.java:86-112 | in the light palette the hood, the trunk and the two-door doors group are white looks, open exactly when input or zone is set, never red |
| StackProperties.DarkAlarmShownRed | src/main/java/net/ugona/plus/watch/CarDrawable.java:86-112 | in the dark palette nothing is suppressed: the hood, the trunk and the two-door doors group read back red exactly when their zone is set, else blue, open when input or zone is set |
| StackProperties.HoodAlarmShownAsWhiteOpen | src/main/java/net/ugona/plus/watch/CarDrawable.java:98-104 | an alarmed hood zone in the light palette shows `hood_white_open` (`hood_white_open4` for four doors) |
| StackProperties.TrunkAlarmShownAsWhiteOpen | src/main/java/net/ugona/plus/watch/CarDrawable.java:106-112 | an alarmed trunk zone in the light palette shows `trunk_white_open` (`trunk_white_open4` for four doors) |
| StackProperties.DoorsAlarmShownAsWhiteOpen | src/main/java/net/ugona/plus/watch/CarDrawable.java:86-92 | an alarmed door zone in the light two-door layout shows `doors_white_open` |
| StackProperties.WhiteOpenSpelling | src/main/java/net/ugona/plus/watch/CarDrawable.java:209-222 | a white open opening is spelled `<group>_white_open`, plus `4` for four doors |
| StackProperties.FourDoorAlarmNotSuppressed | src/main/java/net/ugona/plus/watch/CarDrawable.java:75-83 | armed with both guard bits set (light palette) and the front-left door open, slot 1 is `door_fl_red_open` |
| StackProperties.TwoDoorLayout | src/main/java/net/ugona/plus/watch/CarDrawable.java:85-96 | two-door layout: slot 1 is a `doors` name without the four-door suffix, slots 6-8 are empty |
| StackProperties.FourDoorLayout | src/main/java/net/ugona/plus/watch/CarDrawable.java:75-83 | four-door layout: slots 1, 6, 7, 8 are the four doors, each alarmed exactly when open while armed, none with the `4` suffix |
| StackProperties.HoodLook | src/main/java/net/ugona/plus/watch/CarDrawable.java:98-104 | the hood name reads back as the look computed for it |
| StackProperties.TrunkLook | src/main/java/net/ugona/plus/watch/CarDrawable.java:106-112 | the trunk name reads back as the look computed for it |
| StackProperties.HoodTrunkVariant | src/main/java/net/ugona/plus/watch/CarDrawable.java:98-112 | hood and trunk carry the four-door variant exactly in four-door mode |
| StackProperties.LockSlot | src/main/java/net/ugona/plus/watch/CarDrawable.java:124-134 | slot 5 is `valet`, `block`, empty, `lock_red`, `lock_white` or `lock_blue`, each exactly under its condition |
| StackProperties.IgnitionSlotCases | src/main/java/net/ugona/plus/watch/CarDrawable.java:114-122 | the running engine is `engine1`, with `_blue` exactly in the light palette; otherwise a set ignition input or zone gives `ignition_red` when armed and `ignition_blue` when not; empty exactly when none is set; plain `ignition` never appears |
| StackProperties.DrawOrderAppend | src/main/java/net/ugona/plus/watch/CarDrawable.java:156-166 | painting two stacks one after the other paints the two orders concatenated |
| StackProperties.BodyPaintedFirst | src/main/java/net/ugona/plus/watch/CarDrawable.java:156-166 | the car body is always painted, and painted first |
| Scenarios.LightArmedCar | src/main/java/net/ugona/plus/watch/CarDrawable.java:60-134 | armed with both guard bits and the door zone set: white body, `doors_white_open`, white hood and trunk, `lock_blue` |
| Scenarios.DarkArmedCar | src/main/java/net/ugona/plus/watch/CarDrawable.java:60-134 | armed with neither guard bit and the door zone set: blue body, `doors_red_open`, blue hood and trunk, `lock_white` |
| Compositor.CarDrawable.constructor | src/main/java/net/ugona/plus/watch/CarDrawable.java:22-24 | a fresh array of nine empty slots |
| Compositor.CarDrawable.ClearLayer | src/main/java/net/ugona/plus/watch/CarDrawable.java:170-175 | slot n becomes empty, every other slot is untouched, and the result is true exactly when slot n held a name |
| Compositor.CarDrawable.SetLayer | src/main/java/net/ugona/plus/watch/CarDrawable.java:177-192 | slot n becomes `name` (or empty for null), every other slot is untouched, and the result is true exactly when slot n's old value differed |
| Compositor.CarDrawable.SetTintedLayer | src/main/java/net/ugona/plus/watch/CarDrawable.java:194-198 | slot n becomes the name with `_blue` appended when `white` is false; other slots untouched; true exactly when slot n changed |
| Compositor.CarDrawable.SetModeCar | src/main/java/net/ugona/plus/watch/CarDrawable.java:200-207 | slot 0 becomes the car-body name; other slots untouched; true exactly when slot 0 changed |
| Compositor.CarDrawable.SetModeOpen | src/main/java/net/ugona/plus/watch/CarDrawable.java:209-222 | slot `pos` becomes the opening name; other slots untouched; true exactly when that slot changed |
| Compositor.CarDrawable.Update | src/main/java/net/ugona/plus/watch/CarDrawable.java:43-137 | the stack afterwards is `ExpectedStack(s, now)` whatever it held before, and the result is true exactly when the stack changed |
| Compositor.CarDrawable.ShowStale | src/main/java/net/ugona/plus/watch/CarDrawable.java:48-57 | the stack becomes the stale stack; true exactly when it changed |
| Compositor.CarDrawable.ShowFresh | src/main/java/net/ugona/plus/watch/CarDrawable.java:58-135 | each of the nine slots holds its fresh name; true exactly when some slot changed |
| Compositor.CarDrawable.ShowDoors | src/main/java/net/ugona/plus/watch/CarDrawable.java:75-96 | slots 1 and 6-8 hold the doors of the current layout; slots 0, 2-5 untouched; true exactly when one of the four changed |
| Compositor.CarDrawable.ShowHoodAndTrunk | src/main/java/net/ugona/plus/watch/CarDrawable.java:98-112 | slots 2 and 3 hold the hood and trunk names after suppression; other slots untouched; true exactly when either changed |
| Compositor.CarDrawable.ShowIgnition | src/main/java/net/ugona/plus/watch/CarDrawable.java:114-122 | slot 4 holds the engine, key or nothing; other slots untouched; true exactly when it changed |
| Compositor.CarDrawable.ShowLock | src/main/java/net/ugona/plus/watch/CarDrawable.java:124-134 | slot 5 holds the lock indicator; other slots untouched; true exactly when it changed |
| Compositor.CarDrawable.DrawLayers | src/main/java/net/ugona/plus/watch/CarDrawable.java:156-166 | the loop yields `DrawOrder` of the stack: the non-empty slots in index order |
| Compositor.CarDrawable.GetBitmap | src/main/java/net/ugona/plus/watch/CarDrawable.java:139-168 | without resources the stack is not refreshed and the cache is returned; otherwise the stack is refreshed, and the cache is kept exactly when the stack did not change and a bitmap exists, else the new stack is painted in slot order |
| Compositor.StackDiffers | src/main/java/net/ugona/plus/watch/CarDrawable.java:46-134 | two nine-slot stacks differ exactly when one of their slots differs, which is how the ORed flags add up to "the stack changed" |
| Compositor.RefreshTwice | src/main/java/net/ugona/plus/watch/CarDrawable.java:43-137 | a second refresh with the same row and clock reports no change and leaves the same stack |

## Left out

- Cursor decoding is not modelled (`getLong`, `getBoolean`, `getString`, lines 26-41). A `Snapshot` is the already-decoded row. So the model does not cover a null cursor (`getLong` gives 0, `getBoolean` throws), a missing column, or a column text other than "true" being read as false.
- The clock `new Date()` (line 45) is the parameter `now`.
- The Android resource lookup (lines 140-145) is not modelled. It becomes the parameter `lookupOk` and the sticky field `resourcesLoaded`: a failed lookup keeps the previous resources.
- The process-wide static bitmap cache (lines 18, 150-154) becomes the parameter `hasBitmap`. The model does not cover allocating or erasing it, or sharing it between instances.
- Drawing is not modelled (`getIdentifier`, `getDrawable`, `setBounds`, `draw`, lines 160-165). `DrawLayers` returns the names handed to the host in order. A name the host cannot resolve (id 0) is skipped by the host, and the model does not cover that.
- Compositor.CarDrawable.SetLayer: the slot index is required to be in 0..8. Java would throw for any other index, and every call site passes a constant in range.
- `ControlSmartWatch2`, `SampleWidget`, the preference activities and `Registration` are not part of this model. They are Android lifecycle, UI and constant glue.
