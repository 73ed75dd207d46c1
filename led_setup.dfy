/** The LED setup page (src/pages/LedSetupPage.jsx): LED counts, the strip direction and its
    label and arrow, the four TV sides each with an on/off flag and a brightness, and the reset
    to defaults. */
module LedSetup {
  import opened Wrappers
  import opened Strings
  import opened Js
  import opened ParamUtils
  import opened Client
  import opened WriteSequence
  import opened ApplyDefaults

  /** `directionLabel(value)`: `Unknown` exactly outside 1..8. */
  function DirectionLabel(v: int): (r: string)
    ensures r == "Unknown" <==> !(1 <= v <= 8)
  {
    match v
    case 1 => "Bottom Right (CCW)"
    case 2 => "Top Right (CCW)"
    case 3 => "Top Left (CCW)"
    case 4 => "Bottom Left (CCW)"
    case 5 => "Top Right (CW)"
    case 6 => "Top Left (CW)"
    case 7 => "Bottom Left (CW)"
    case 8 => "Bottom Right (CW)"
    case _ => "Unknown"
  }

  /** Where the strip starts and which way it runs. */
  datatype Hint = Hint(start: string, flow: string)

  /** `directionHint(value)`: directions 1..4 run counter-clockwise, 5..8 clockwise, and any
      other value has no hint. */
  function DirectionHint(v: int): (r: Hint)
    ensures 1 <= v <= 4 ==> r.flow == "CCW"
    ensures 5 <= v <= 8 ==> r.flow == "CW"
    ensures !(1 <= v <= 8) ==> r == Hint("-", "-")
  {
    match v
    case 1 => Hint("Bottom Right", "CCW")
    case 2 => Hint("Top Right", "CCW")
    case 3 => Hint("Top Left", "CCW")
    case 4 => Hint("Bottom Left", "CCW")
    case 5 => Hint("Top Right", "CW")
    case 6 => Hint("Top Left", "CW")
    case 7 => Hint("Bottom Left", "CW")
    case 8 => Hint("Bottom Right", "CW")
    case _ => Hint("-", "-")
  }

  /** The label is the hint written out. */
  lemma LabelMatchesHint(v: int)
    ensures 1 <= v <= 8 ==> DirectionLabel(v) == DirectionHint(v).start + " (" + DirectionHint(v).flow + ")"
  {
    match v
    case 1 => LabelSpelled(1, "Bottom Right", "CCW");
    case 2 => LabelSpelled(2, "Top Right", "CCW");
    case 3 => LabelSpelled(3, "Top Left", "CCW");
    case 4 => LabelSpelled(4, "Bottom Left", "CCW");
    case 5 => LabelSpelled(5, "Top Right", "CW");
    case 6 => LabelSpelled(6, "Top Left", "CW");
    case 7 => LabelSpelled(7, "Bottom Left", "CW");
    case 8 => LabelSpelled(8, "Bottom Right", "CW");
    case _ =>
  }

  /** Direction `v`'s label spells out its hint: `<start> (<flow>)`. */
  lemma LabelSpelled(v: int, start: string, flow: string)
    requires DirectionHint(v) == Hint(start, flow)
    requires DirectionLabel(v) == start + " (" + flow + ")"
    ensures DirectionLabel(v) == DirectionHint(v).start + " (" + DirectionHint(v).flow + ")"
    ensures DirectionLabel(v) != "Unknown"
  {
    assert |DirectionLabel(v)| > |"Unknown"|;
  }

  /** Every corner a counter-clockwise direction starts from is also the start of a
      clockwise one. */
  lemma EachCornerBothWays(v: int)
    requires 1 <= v <= 4
    ensures DirectionHint(v).flow == "CCW"
    ensures exists w :: 5 <= w <= 8 && DirectionHint(w).start == DirectionHint(v).start
  {
    var w := match v case 1 => 8 case 2 => 5 case 3 => 6 case _ => 7;
    assert DirectionHint(w).start == DirectionHint(v).start;
  }

  const ArrowPathCW := "M 60 35 H 340 V 205 H 60 Z"
  const ArrowPathCCW := "M 60 35 V 205 H 340 V 35 H 60 Z"

  /** The arrow drawn on the TV: the clockwise path for a `CW` flow, the counter-clockwise one
      otherwise. */
  function ArrowPath(flow: string): (r: string)
    ensures r == ArrowPathCW <==> flow == "CW"
    ensures r == ArrowPathCW || r == ArrowPathCCW
  {
    if flow == "CW" then ArrowPathCW else ArrowPathCCW
  }

  /** The clockwise arrow is drawn exactly for directions 5..8. */
  lemma ArrowFollowsDirection(v: int)
    ensures ArrowPath(DirectionHint(v).flow) == ArrowPathCW <==> 5 <= v <= 8
  {
  }

  /** The four sides of the TV. */
  datatype Side = Top | Left | Right | Bottom

  /** One value per side. */
  datatype PerSide<T> = PerSide(top: T, left: T, right: T, bottom: T) {
    function Get(s: Side): T {
      match s
      case Top => top
      case Left => left
      case Right => right
      case Bottom => bottom
    }

    /** `{ ...sides, [s]: v }`. */
    function With(s: Side, v: T): (r: PerSide<T>)
      ensures r.Get(s) == v
      ensures forall o :: o != s ==> r.Get(o) == Get(o)
    {
      match s
      case Top => this.(top := v)
      case Left => this.(left := v)
      case Right => this.(right := v)
      case Bottom => this.(bottom := v)
    }
  }

  /** The key a side's flag is read from, and the parameter its toggle writes. */
  function SideKey(s: Side): string {
    match s
    case Top => "sidetop"
    case Left => "sideleft"
    case Right => "sideright"
    case Bottom => "sidebottom"
  }

  function ToggleParam(s: Side): string {
    match s
    case Top => "setsidetop"
    case Left => "setsideleft"
    case Right => "setsideright"
    case Bottom => "setsidebottom"
  }

  /** The key a side's brightness is read from, and the parameter its slider writes. */
  function BrightnessKey(s: Side): string {
    match s
    case Top => "sidetopbrightness"
    case Left => "sideleftbrightness"
    case Right => "siderightbrightness"
    case Bottom => "sidebottombrightness"
  }

  function BrightnessParam(s: Side): string {
    match s
    case Top => "settopbrightness"
    case Left => "setleftbrightness"
    case Right => "setrightbrightness"
    case Bottom => "setbottombrightness"
  }

  /** Each side writes its own parameters. */
  lemma SideParamsDistinct(a: Side, b: Side)
    requires a != b
    ensures ToggleParam(a) != ToggleParam(b) && BrightnessParam(a) != BrightnessParam(b)
    ensures SideKey(a) != SideKey(b) && BrightnessKey(a) != BrightnessKey(b)
  {
  }

  /** The form's settings. */
  datatype LedSettings = LedSettings(vertical: int, horizontal: int, direction: int,
                                     sides: PerSide<bool>, brightness: PerSide<int>)

  /** The form before any snapshot. */
  const InitialLedSettings := LedSettings(20, 30, 1, PerSide(true, true, true, true), PerSide(100, 100, 100, 100))

  /** The params effect's reads. */
  function ReadLedSettings(p: Snapshot): (s: LedSettings)
    ensures "vertical" !in p ==> s.vertical == 20
    ensures "horizontal" !in p ==> s.horizontal == 30
    ensures "direction" !in p ==> s.direction == 1
  {
    var q := Some(p);
    LedSettings(
      ReadNumber(q, "vertical", 20), ReadNumber(q, "horizontal", 30), ReadNumber(q, "direction", 1),
      PerSide(ReadBool(q, "sidetop", true), ReadBool(q, "sideleft", true),
              ReadBool(q, "sideright", true), ReadBool(q, "sidebottom", true)),
      PerSide(ReadNumber(q, "sidetopbrightness", 100), ReadNumber(q, "sideleftbrightness", 100),
              ReadNumber(q, "siderightbrightness", 100), ReadNumber(q, "sidebottombrightness", 100)))
  }

  /** Each side's flag and brightness are read from that side's keys; a missing key reads as
      on, and as brightness 100. */
  lemma SideRead(p: Snapshot, side: Side)
    ensures ReadLedSettings(p).sides.Get(side) == ReadBool(Some(p), SideKey(side), true)
    ensures ReadLedSettings(p).brightness.Get(side) == ReadNumber(Some(p), BrightnessKey(side), 100)
    ensures SideKey(side) !in p ==> ReadLedSettings(p).sides.Get(side)
    ensures BrightnessKey(side) !in p ==> ReadLedSettings(p).brightness.Get(side) == 100
  {
  }

  /** The initial form is what an empty snapshot reads as. */
  lemma InitialIsEmptyRead()
    ensures ReadLedSettings(map[]) == InitialLedSettings
  {
  }

  /** The three layout controls and the parameters they write. */
  datatype LayoutControl = Vertical | Horizontal | Direction

  function LayoutParam(c: LayoutControl): string {
    match c
    case Vertical => "setvertical"
    case Horizontal => "sethorizontal"
    case Direction => "setdirection"
  }

  const LedUpdated := "LED setup updated"
  const LedFailed := "Failed to update LED setup"
  const LedReset := "LED setup reset to defaults"
  const LedResetFailed := "Failed to reset LED setup"

  /** The page's form and its message line. */
  class LedSetupForm {
    var settings: LedSettings
    var message: string

    constructor()
      ensures settings == InitialLedSettings && message == ""
    {
      settings := InitialLedSettings;
      message := "";
    }

    /** The params effect: nothing while the snapshot is null, otherwise every setting is read. */
    method OnParams(params: Params)
      modifies this
      ensures params.None? ==> settings == old(settings)
      ensures params.Some? ==> settings == ReadLedSettings(params.value)
      ensures message == old(message)
    {
      if params.Some? {
        settings := ReadLedSettings(params.value);
      }
    }

    /** A layout slider or the direction select: the form shows `next` and the write starts
        with the message cleared. */
    method SetLayout(c: LayoutControl, next: int) returns (request: string)
      modifies this
      ensures request == SetParamPath(LayoutParam(c), IntToDecimal(next))
      ensures c == Vertical ==> settings == old(settings).(vertical := next)
      ensures c == Horizontal ==> settings == old(settings).(horizontal := next)
      ensures c == Direction ==> settings == old(settings).(direction := next)
      ensures message == ""
    {
      match c {
        case Vertical => settings := settings.(vertical := next);
        case Horizontal => settings := settings.(horizontal := next);
        case Direction => settings := settings.(direction := next);
      }
      request := SetParamPath(LayoutParam(c), IntToDecimal(next));
      message := "";
    }

    /** A tap on a side: that side's flag flips, every other setting stays, and the new flag
        is sent as 1 or 0. */
    method ToggleSide(s: Side) returns (request: string)
      modifies this
      ensures settings.sides.Get(s) == !old(settings).sides.Get(s)
      ensures forall o :: o != s ==> settings.sides.Get(o) == old(settings).sides.Get(o)
      ensures settings == old(settings).(sides := settings.sides)
      ensures request == SetParamPath(ToggleParam(s), BitString(settings.sides.Get(s)))
      ensures message == ""
    {
      var next := !settings.sides.Get(s);
      settings := settings.(sides := settings.sides.With(s, next));
      request := SetParamPath(ToggleParam(s), BitString(next));
      message := "";
    }

    /** A side's brightness slider: only that side's brightness changes. */
    method SetSideBrightness(s: Side, next: int) returns (request: string)
      modifies this
      ensures settings.brightness.Get(s) == next
      ensures forall o :: o != s ==> settings.brightness.Get(o) == old(settings).brightness.Get(o)
      ensures settings == old(settings).(brightness := settings.brightness)
      ensures request == SetParamPath(BrightnessParam(s), IntToDecimal(next))
      ensures message == ""
    {
      settings := settings.(brightness := settings.brightness.With(s, next));
      request := SetParamPath(BrightnessParam(s), IntToDecimal(next));
      message := "";
    }

    /** The write of `updateParam` settles. */
    method Settle(reply: Reply<string>)
      modifies this
      ensures reply.Replied? ==> message == LedUpdated
      ensures reply.Failed? ==> message == ErrorText(reply.message, LedFailed)
      ensures settings == old(settings)
    {
      message := if reply.Replied? then LedUpdated else ErrorText(reply.message, LedFailed);
    }
  }

  /** Tapping a side twice restores its flag and sends 0 and 1 in turn (or 1 and 0). */
  method ToggleTwice(s: Side) returns (first: string, second: string)
    ensures {first, second} == {SetParamPath(ToggleParam(s), "0"), SetParamPath(ToggleParam(s), "1")}
    ensures first != second
  {
    var form := new LedSetupForm();
    var before := form.settings;
    first := form.ToggleSide(s);
    second := form.ToggleSide(s);
    assert form.settings.sides.Get(s) == before.sides.Get(s);
    SetParamRoundTrip(ToggleParam(s), "0");
    SetParamRoundTrip(ToggleParam(s), "1");
  }

  /** "Reset to default": the defaults written in order, stopping at the first failure; the
      message says the reset worked or gives the error. The snapshot reload that follows a
      success cannot fail. */
  method ResetToDefaults(defaults: seq<DefaultEntry>, device: nat -> Reply<string>)
    returns (sent: seq<string>, message: string)
    ensures sent == Requests(defaults)[..SentCount(device, |defaults|)]
    ensures Outcome(device, |defaults|).None? ==> message == LedReset
    ensures Outcome(device, |defaults|).Some? ==> message == ErrorText(Outcome(device, |defaults|).value, LedResetFailed)
  {
    var failure;
    sent, failure := ApplyDefaults.ApplyDefaults(defaults, device);
    message := if failure.None? then LedReset else ErrorText(failure.value, LedResetFailed);
  }
}
