/**
 * Drawable names of the car-status layers. The builders below spell the names
 * the way CarDrawable does (literals and suffix appends); `Look` and `Name`
 * are an independent, structured reference for the car body and the opening
 * layers, and `Parse` is the inverse of `Name`.
 */
module LayerNames {
  import opened Optional

  datatype Colour = Black | White | Blue | Red

  /** What an opening or car-body layer shows: its palette, whether it is drawn open, the four-door variant. */
  datatype Look = Look(colour: Colour, open: bool, four: bool)

  function ColourSuffix(c: Colour): string {
    match c
    case Black => "_black"
    case White => "_white"
    case Blue => "_blue"
    case Red => "_red"
  }

  /** The part of a name after its group: colour suffix, "_open" when open, "4" for the four-door variant. */
  function Tail(look: Look): string {
    ColourSuffix(look.colour) + (if look.open then "_open" else "") + (if look.four then "4" else "")
  }

  /** Reference spelling of an opening or car-body name. */
  function Name(group: string, look: Look): string {
    group + Tail(look)
  }

  function ColourOf(suffix: string): Option<Colour> {
    if suffix == "_black" then Some(Black)
    else if suffix == "_white" then Some(White)
    else if suffix == "_blue" then Some(Blue)
    else if suffix == "_red" then Some(Red)
    else None
  }

  /** Reads the part of a name after its group back into a look. */
  function ParseTail(rest: string): Option<Look> {
    var four := |rest| > 0 && rest[|rest| - 1] == '4';
    var body := if four then rest[..|rest| - 1] else rest;
    var open := |body| >= 5 && body[|body| - 5..] == "_open";
    var colour := if open then body[..|body| - 5] else body;
    match ColourOf(colour)
    case None => None
    case Some(c) => Some(Look(c, open, four))
  }

  /** Reads a name of `group` back into the look it shows, or None when it is not such a name. */
  function Parse(group: string, name: string): Option<Look> {
    if |name| < |group| || name[..|group|] != group then None
    else ParseTail(name[|group|..])
  }

  /** Facts about each colour suffix that make a tail unambiguous. */
  lemma ColourSuffixFacts(c: Colour)
    ensures ColourOf(ColourSuffix(c)) == Some(c)
    ensures |ColourSuffix(c)| >= 4 && ColourSuffix(c)[|ColourSuffix(c)| - 1] != '4'
    ensures |ColourSuffix(c)| >= 5 ==> ColourSuffix(c)[|ColourSuffix(c)| - 5..] != "_open"
  {
    match c
    case Black => assert "_black"[1] != '_';
    case White => assert "_white"[1] != '_';
    case Blue => assert "_blue"[0] == '_' && "_blue"[1] != 'o';
    case Red =>
  }

  lemma ParseTail_Tail(look: Look)
    ensures ParseTail(Tail(look)) == Some(look)
  {
    var s := ColourSuffix(look.colour);
    var body := s + (if look.open then "_open" else "");
    var t := Tail(look);
    assert t == body + (if look.four then "4" else "");
    ColourSuffixFacts(look.colour);
    assert |t| > 0 && (t[|t| - 1] == '4' <==> look.four);
    assert (if look.four then t[..|t| - 1] else t) == body;
    if look.open {
      assert body[|body| - 5..] == "_open";
      assert body[..|body| - 5] == s;
    } else {
      assert body == s;
    }
  }

  /** `Parse` inverts `Name`: every look is recovered from its name. */
  lemma ParseName(group: string, look: Look)
    ensures Parse(group, Name(group, look)) == Some(look)
  {
    var name := Name(group, look);
    assert name[..|group|] == group;
    assert name[|group|..] == Tail(look);
    ParseTail_Tail(look);
  }

  /** Two looks of one group share a name exactly when they are the same look. */
  lemma NameInjective(group: string, a: Look, b: Look)
    ensures Name(group, a) == Name(group, b) <==> a == b
  {
    ParseName(group, a);
    ParseName(group, b);
  }

  /** Car-body colour precedence: alarm (red) over armed (blue) over white. */
  function CarLook(armed: bool, alarm: bool, doors4: bool): Look {
    Look(if alarm then Red else if armed then Blue else White, false, doors4)
  }

  /** Opening colour precedence as for the car body; drawn open when open or alarmed. */
  function OpenLook(armed: bool, open: bool, alarm: bool, doors4: bool): Look {
    Look(if alarm then Red else if armed then Blue else White, open || alarm, doors4)
  }

  /** The car-body name `setModeCar` writes to slot 0. */
  function CarName(armed: bool, alarm: bool, doors4: bool): string {
    var pos := if armed then "car_blue" else "car_white";
    var pos := if alarm then "car_red" else pos;
    if doors4 then pos + "4" else pos
  }

  /** The car body drawn for stale data. */
  function StaleCarName(doors4: bool): string {
    if doors4 then "car_black4" else "car_black"
  }

  /** The name `setModeOpen` writes for an opening of `group`. */
  function OpenName(group: string, armed: bool, open: bool, alarm: bool, doors4: bool): string {
    var name :=
      if alarm then group + "_red"
      else if armed then group + "_blue"
      else group + "_white";
    var name := if open || alarm then name + "_open" else name;
    if doors4 then name + "4" else name
  }

  /** `setModeCar` spells the reference name of the car-body look, so its colour precedence is CarLook's. */
  lemma CarNameLook(armed: bool, alarm: bool, doors4: bool)
    ensures CarName(armed, alarm, doors4) == Name("car", CarLook(armed, alarm, doors4))
  {
  }

  /** The stale car body is the black look. */
  lemma StaleCarNameLook(doors4: bool)
    ensures StaleCarName(doors4) == Name("car", Look(Black, false, doors4))
  {
  }

  /** `setModeOpen` spells the reference name of the opening look, so its colour precedence is OpenLook's. */
  lemma OpenNameLook(group: string, armed: bool, open: bool, alarm: bool, doors4: bool)
    ensures OpenName(group, armed, open, alarm, doors4) == Name(group, OpenLook(armed, open, alarm, doors4))
  {
  }

  /** The three-argument `setLayer`: "_blue" is appended exactly when `white` is false. */
  function Tinted(name: string, white: bool): string {
    if !white then name + "_blue" else name
  }

  /** The ignition-key name: red while armed, otherwise blue or plain by the palette. */
  function IgnitionName(guard: bool, white: bool): (r: string)
    ensures guard <==> r == "ignition_red"
  {
    if guard then "ignition_red" else if white then "ignition_blue" else "ignition"
  }

  /**
   * The lock-indicator name: valet and block override the lock icon, which
   * is shown only while armed.
   */
  function LockName(guard: bool, guard0: bool, guard1: bool, card: bool, white: bool): (r: Option<string>)
    ensures guard0 && !guard1 <==> r == Some("valet")
    ensures !guard0 && guard1 <==> r == Some("block")
    ensures r == None <==> !guard && guard0 == guard1
    ensures r == Some("lock_red") <==> guard && guard0 == guard1 && card
  {
    var state := if guard then (if card then Some("lock_red") else if white then Some("lock_blue") else Some("lock_white")) else None;
    var state := if guard0 && !guard1 then Some("valet") else state;
    if !guard0 && guard1 then Some("block") else state
  }
}
