/** The LED mode selector (src/components/ModeControls.jsx): which modes are offered, which
    tile is active, and the `setMode` request. */
module ModeControls {
  import opened Wrappers
  import opened Strings
  import opened Js
  import opened Lists
  import opened ParamUtils
  import opened Capabilities
  import opened Client

  datatype Mode = Mode(value: int, name: string, sub: string)

  /** The modes the firmware knows, in display order. */
  const Modes: seq<Mode> := [
    Mode(0, "Off", "Fade out & switch off"),
    Mode(1, "Video", "Network / sync"),
    Mode(2, "Ambient", "Static or scenes"),
    Mode(3, "Camera", "Screen capture"),
    Mode(4, "Relay", "Forward to device"),
    Mode(5, "Demo", "Test pattern")]

  /** Video only without a camera, camera only with one, relay never. */
  predicate Offered(camera: bool, m: Mode) {
    !(m.value == 1 && camera) && !(m.value == 3 && !camera) && m.value != 4
  }

  /** `availableModes`: a mode is offered exactly when it is in the table and passes the
      camera and relay rules. */
  function AvailableModes(caps: Caps): (r: seq<Mode>)
    ensures forall m {:trigger m in r} :: m in r <==> m in Modes && Offered(caps.camera, m)
  {
    FilterSpec(Modes, (m: Mode) => Offered(caps.camera, m));
    Filter(Modes, (m: Mode) => Offered(caps.camera, m))
  }

  function Values(ms: seq<Mode>): seq<int> {
    if ms == [] then [] else [ms[0].value] + Values(ms[1..])
  }

  /** On a camera module the tiles are Off, Ambient, Camera and Demo; elsewhere Off, Video,
      Ambient and Demo. Relay is never offered and the order is kept. */
  lemma AvailableModeList(caps: Caps)
    ensures caps.camera ==> AvailableModes(caps) == [Modes[0], Modes[2], Modes[3], Modes[5]]
    ensures !caps.camera ==> AvailableModes(caps) == [Modes[0], Modes[1], Modes[2], Modes[5]]
  {
    assert Modes[1..] == Modes[1..6];
    assert Modes[1..][1..] == Modes[2..6];
    assert Modes[2..6][1..] == Modes[3..6];
    assert Modes[3..6][1..] == Modes[4..6];
    assert Modes[4..6][1..] == Modes[5..6];
    assert Modes[5..6][1..] == [];
  }

  lemma AvailableModeValues(caps: Caps)
    ensures caps.camera ==> Values(AvailableModes(caps)) == [0, 2, 3, 5]
    ensures !caps.camera ==> Values(AvailableModes(caps)) == [0, 1, 2, 5]
  {
    AvailableModeList(caps);
    ValuesOfFour(AvailableModes(caps));
  }

  lemma ValuesOfFour(r: seq<Mode>)
    requires |r| == 4
    ensures Values(r) == [r[0].value, r[1].value, r[2].value, r[3].value]
  {
    assert r[1..] == r[1..4] && r[1..4][1..] == r[2..4] && r[2..4][1..] == r[3..4];
    assert r[3..4][1..] == [];
    assert Values(r[3..4]) == [r[3].value];
    assert Values(r[2..4]) == [r[2].value, r[3].value];
    assert Values(r[1..4]) == [r[1].value, r[2].value, r[3].value];
  }

  /** A tile is active exactly when `ledmode` reads (with no fallback) as its value; without
      a snapshot or without the key, no tile is. */
  function IsActive(params: Params, m: Mode): (r: bool)
    ensures r <==> params.Some? && "ledmode" in params.value && ToNumber(params.value["ledmode"]) == Some(m.value)
  {
    NumberAt(params, "ledmode") == Some(m.value)
  }

  /** At most one tile is active, since the values are distinct. */
  lemma AtMostOneActive(params: Params, a: Mode, b: Mode)
    requires a in Modes && b in Modes && IsActive(params, a) && IsActive(params, b)
    ensures a == b
  {
    assert a.value == b.value;
    ValueIdentifiesMode(a, b);
  }

  /** No two modes of the table share a value. */
  lemma ValueIdentifiesMode(a: Mode, b: Mode)
    requires a in Modes && b in Modes && a.value == b.value
    ensures a == b
  {
  }

  /** The request `setMode(mode)` sends. */
  function SetModeRequest(mode: int): (r: string)
    ensures ParseQuery(r) == Some([("mode", IntToDecimal(mode))])
  {
    SetColorModeRoundTrip(IntToDecimal(mode));
    SetColorModePath(IntToDecimal(mode))
  }

  class ModeSelector {
    var loading: bool
    var message: string
    /** Requests sent to the device, oldest first. */
    var sent: seq<string>

    constructor()
      ensures !loading && message == "" && sent == []
    {
      loading := false;
      message := "";
      sent := [];
    }

    /** The start of `setMode`: busy, message cleared, request sent. */
    method BeginSetMode(mode: int)
      modifies this
      ensures loading && message == ""
      ensures sent == old(sent) + [SetModeRequest(mode)]
    {
      loading := true;
      message := "";
      sent := sent + [SetModeRequest(mode)];
    }

    /** The end of `setMode`: idle again whatever the outcome; the message is the reply or
        the error. */
    method CompleteSetMode(reply: Reply<string>)
      modifies this
      ensures !loading && sent == old(sent)
      ensures reply.Replied? ==> message == reply.data
      ensures reply.Failed? ==> message == ErrorText(reply.message, "Failed to set mode")
    {
      match reply {
        case Replied(text) => message := text;
        case Failed(err) => message := ErrorText(err, "Failed to set mode");
      }
      loading := false;
    }
  }
}
