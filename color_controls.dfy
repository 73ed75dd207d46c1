/** The colour and brightness card (src/components/ColorControls.jsx): the colour taken once
    from the snapshot as `#rrggbb`, the debounced colour and brightness writes, and the
    three-step colour send. */
module ColorControls {
  import opened Wrappers
  import opened Strings
  import opened Js
  import opened ParamUtils
  import opened UriEncoding
  import opened Client
  import opened WriteSequence

  /** The lower-case hexadecimal digit for `d`, as `Number.prototype.toString(16)` writes it. */
  function HexLower(d: nat): (c: char)
    requires d < 16
    ensures HexValue(c) == Some(d)
    ensures '0' <= c <= '9' || 'a' <= c <= 'f'
  {
    if d < 10 then (d + '0' as int) as char else (d - 10 + 'a' as int) as char
  }

  /** `n.toString(16)` for a natural number: lower-case digits, no leading zeros. */
  function NatToHex(n: nat): (r: string)
    ensures |r| >= 1
    ensures n < 16 <==> |r| == 1
    ensures n < 16 ==> r == [HexLower(n)]
    ensures 16 <= n < 256 ==> r == [HexLower(n / 16), HexLower(n % 16)]
  {
    if n < 16 then [HexLower(n)] else NatToHex(n / 16) + [HexLower(n % 16)]
  }

  /** `x.toString(16).padStart(2, '0')` for an integer channel. */
  function ChannelHex(x: int): (r: string)
    ensures |r| >= 2
    ensures 0 <= x < 256 ==> r == [HexLower(x / 16), HexLower(x % 16)]
  {
    var digits := if x < 0 then "-" + NatToHex(-x) else NatToHex(x);
    if |digits| < 2 then "0" + digits else digits
  }

  /** The colour the card shows for three channels: `#` and the padded hex of each. */
  function ColorHex(r: int, g: int, b: int): (hex: string)
    ensures |hex| >= 7 && hex[0] == '#'
    ensures DropHash(hex) == hex[1..]
  {
    "#" + ChannelHex(r) + ChannelHex(g) + ChannelHex(b)
  }

  /** `parseInt(s, 16)` for two hexadecimal digits. */
  function ParseHexPair(s: string): (r: Option<nat>)
    requires |s| == 2
    ensures r.Some? <==> HexValue(s[0]).Some? && HexValue(s[1]).Some?
    ensures r.Some? ==> r.value == 16 * HexValue(s[0]).value + HexValue(s[1]).value < 256
  {
    match (HexValue(s[0]), HexValue(s[1]))
    case (Some(hi), Some(lo)) => Some(16 * hi + lo)
    case _ => None
  }

  /** `hex.replace('#', '')`: the first `#` removed. */
  function DropHash(s: string): (r: string)
    ensures '#' !in s ==> r == s
    ensures s != [] && s[0] == '#' ==> r == s[1..]
  {
    var i := IndexOf(s, '#');
    if i < |s| then s[..i] + s[i + 1..] else s
  }

  /** Every character is a lower-case hexadecimal digit. */
  predicate LowerHex(s: string) {
    forall i :: 0 <= i < |s| ==> '0' <= s[i] <= '9' || 'a' <= s[i] <= 'f'
  }

  /** For channels in 0..255 the colour is `#` and six lower-case hex digits, and the slicing
      in `hexToHsl` reads each channel back. */
  lemma ColorHexRoundTrip(r: int, g: int, b: int)
    requires 0 <= r < 256 && 0 <= g < 256 && 0 <= b < 256
    ensures |ColorHex(r, g, b)| == 7 && ColorHex(r, g, b)[0] == '#'
    ensures LowerHex(ColorHex(r, g, b)[1..])
    ensures var n := DropHash(ColorHex(r, g, b));
      |n| == 6 && ParseHexPair(n[0..2]) == Some(r) && ParseHexPair(n[2..4]) == Some(g) && ParseHexPair(n[4..6]) == Some(b)
  {
    ChannelRoundTrip(r);
    ChannelRoundTrip(g);
    ChannelRoundTrip(b);
    SixDigits(ChannelHex(r), ChannelHex(g), ChannelHex(b));
  }

  /** `#` followed by three two-digit groups: dropping the `#` leaves the groups, and each
      group is the slice at its position. */
  lemma SixDigits(x: string, y: string, z: string)
    requires |x| == 2 && |y| == 2 && |z| == 2
    requires LowerHex(x) && LowerHex(y) && LowerHex(z)
    ensures var hex := "#" + x + y + z;
      |hex| == 7 && hex[0] == '#' && hex[1..] == x + y + z && LowerHex(hex[1..])
      && DropHash(hex) == x + y + z
    ensures var n := x + y + z; n[0..2] == x && n[2..4] == y && n[4..6] == z
  {
    var hex := "#" + x + y + z;
    var n := x + y + z;
    assert hex == "#" + n;
    assert hex[1..] == n;
    assert forall i :: 0 <= i < 6 ==> n[i] == (if i < 2 then x[i] else if i < 4 then y[i - 2] else z[i - 4]);
    assert n[0..2] == x && n[2..4] == y && n[4..6] == z;
  }

  /** One channel in 0..255 is two lower-case hex digits that parse back to it. */
  lemma ChannelRoundTrip(x: int)
    requires 0 <= x < 256
    ensures |ChannelHex(x)| == 2 && LowerHex(ChannelHex(x))
    ensures ParseHexPair(ChannelHex(x)) == Some(x)
  {
    var c := ChannelHex(x);
    assert HexValue(c[0]) == Some(x / 16) && HexValue(c[1]) == Some(x % 16);
  }

  /** A channel outside 0..255 breaks the six-digit form: 256 is written `100`. */
  lemma ChannelOutOfRange()
    ensures ChannelHex(256) == "100"
    ensures |ColorHex(256, 0, 0)| == 8
  {
    assert NatToHex(16) == NatToHex(1) + [HexLower(0)];
    assert NatToHex(256) == NatToHex(16) + [HexLower(0)];
  }

  const ColorFailed := "Failed to set color"
  const BrightnessFailed := "Failed to set brightness"

  /** The requests of one colour send: switch to solid colour mode, clear the ambient preset,
      then set the colour with full alpha; each is stated as what the controller reads from it. */
  function ColorRequests(hexNoHash: string): (rs: seq<string>)
    ensures |rs| == 3
    ensures ParseQuery(rs[0]) == Some([("mode", "2")])
    ensures ParseQuery(rs[1]) == Some([("param", "setambientpreset"), ("value", "0")])
    ensures ParseQuery(rs[2]) == Some([("color", "FF" + hexNoHash)])
  {
    var rs := [SetColorModePath("2"), SetParamPath("setambientpreset", "0"), SetColorPath("FF" + hexNoHash)];
    ColorRequestsRead(rs, hexNoHash);
    rs
  }

  /** What the controller reads from each of the three colour requests. */
  lemma ColorRequestsRead(rs: seq<string>, hexNoHash: string)
    requires rs == [SetColorModePath("2"), SetParamPath("setambientpreset", "0"), SetColorPath("FF" + hexNoHash)]
    ensures ParseQuery(rs[0]) == Some([("mode", "2")])
    ensures ParseQuery(rs[1]) == Some([("param", "setambientpreset"), ("value", "0")])
    ensures ParseQuery(rs[2]) == Some([("color", "FF" + hexNoHash)])
  {
    SetColorModeRoundTrip("2");
    SetParamRoundTrip("setambientpreset", "0");
    SetColorRoundTrip("FF" + hexNoHash);
  }

  /** The brightness write for `level`. */
  function BrightnessRequest(level: int): string {
    SetParamPath("setbrightness", IntToDecimal(level))
  }

  /** The message a colour send leaves: the colour write's answer when all three writes
      succeeded, otherwise the first error's text. */
  function SendMessage(device: nat -> Reply<string>): (m: string)
    ensures (forall j :: 0 <= j < 3 ==> device(j).Replied?) ==> m == device(2).data
    ensures device(0).Failed? ==> m == ErrorText(device(0).message, ColorFailed)
    ensures device(0).Replied? && device(1).Failed? ==> m == ErrorText(device(1).message, ColorFailed)
    ensures device(0).Replied? && device(1).Replied? && device(2).Failed? ==> m == ErrorText(device(2).message, ColorFailed)
  {
    match Outcome(device, 3)
    case None => device(2).data
    case Some(e) => ErrorText(e, ColorFailed)
  }

  /** Three awaited writes in a row: each is issued only after the previous succeeded; the
      message is the last write's answer, or the first error. */
  method SendThree(rs: seq<string>, device: nat -> Reply<string>) returns (sent: seq<string>, message: string)
    requires |rs| == 3
    ensures sent == rs[..SentCount(device, 3)]
    ensures message == SendMessage(device)
  {
    sent := [rs[0]];
    assert rs[..1] == [rs[0]] && rs[..2] == [rs[0], rs[1]] && rs[..3] == rs;
    if device(0).Failed? {
      FirstFailureAt(device, 3, 0);
      message := ErrorText(device(0).message, ColorFailed);
      return;
    }
    sent := sent + [rs[1]];
    if device(1).Failed? {
      FirstFailureAt(device, 3, 1);
      message := ErrorText(device(1).message, ColorFailed);
      return;
    }
    sent := sent + [rs[2]];
    if device(2).Failed? {
      FirstFailureAt(device, 3, 2);
      message := ErrorText(device(2).message, ColorFailed);
      return;
    }
    NoFailure(device, 3);
    message := device(2).data;
  }

  /** `sendColorAndSwitchToSolid`: the three colour requests in order, stopping at the first
      failure; the message is the colour write's answer or the error. */
  method SendColor(hexNoHash: string, device: nat -> Reply<string>) returns (sent: seq<string>, message: string)
    ensures sent == ColorRequests(hexNoHash)[..SentCount(device, 3)]
    ensures message == SendMessage(device)
  {
    sent, message := SendThree(ColorRequests(hexNoHash), device);
  }

  /** The card's state. A pending timer is its id and the value it will send. */
  class ColorCard {
    var color: string
    var brightness: int
    var message: string
    var synced: bool
    var colorTimer: Option<(nat, string)>
    var brightnessTimer: Option<(nat, int)>
    var nextId: nat

    /** Every pending timer has an id handed out before. */
    ghost predicate Valid()
      reads this
    {
      (colorTimer.Some? ==> colorTimer.value.0 < nextId) && (brightnessTimer.Some? ==> brightnessTimer.value.0 < nextId)
    }

    constructor()
      ensures Valid()
      ensures color == "#ffffff" && brightness == 128 && message == "" && !synced
      ensures colorTimer.None? && brightnessTimer.None?
    {
      color := "#ffffff";
      brightness := 128;
      message := "";
      synced := false;
      colorTimer := None;
      brightnessTimer := None;
      nextId := 0;
    }

    /** The params effect: brightness follows every snapshot, the colour only the first. */
    method OnParams(params: Params)
      modifies this`brightness, this`synced, this`color
      requires Valid()
      ensures Valid()
      ensures params.None? ==> color == old(color) && brightness == old(brightness) && synced == old(synced)
      ensures params.Some? ==> brightness == ReadNumber(params, "brightness", 128) && synced
      ensures params.Some? && !old(synced) ==>
        color == ColorHex(ReadNumber(params, "colorred", 255), ReadNumber(params, "colorgreen", 255),
                          ReadNumber(params, "colorblue", 255))
      ensures old(synced) ==> color == old(color)
      ensures message == old(message) && colorTimer == old(colorTimer) && brightnessTimer == old(brightnessTimer)
    {
      if params.Some? {
        brightness := ReadNumber(params, "brightness", 128);
        if !synced {
          synced := true;
          color := ColorHex(ReadNumber(params, "colorred", 255), ReadNumber(params, "colorgreen", 255),
                            ReadNumber(params, "colorblue", 255));
        }
      }
    }

    /** `queueColorUpdate(next)`: the colour shows at once, the pending colour send is
        replaced by one for `next`. */
    method QueueColorUpdate(next: string) returns (id: nat)
      modifies this`nextId, this`color, this`colorTimer
      ensures colorTimer == Some((id, next)) && color == next
      ensures old(colorTimer).Some? ==> id != old(colorTimer).value.0
      ensures brightnessTimer == old(brightnessTimer) && brightness == old(brightness) && message == old(message)
      ensures synced == old(synced)
      requires Valid()
      ensures Valid()
    {
      id := NewId();
      color := next;
      colorTimer := Some((id, next));
    }

    /** `queueBrightnessUpdate(next)`: the pending brightness write is replaced by one for
        `next`. */
    method QueueBrightnessUpdate(next: int) returns (id: nat)
      modifies this`nextId, this`brightnessTimer
      ensures brightnessTimer == Some((id, next))
      ensures old(brightnessTimer).Some? ==> id != old(brightnessTimer).value.0
      ensures colorTimer == old(colorTimer) && color == old(color) && message == old(message)
      ensures brightness == old(brightness) && synced == old(synced)
      requires Valid()
      ensures Valid()
    {
      id := NewId();
      brightnessTimer := Some((id, next));
    }

    /** The brightness slider: the value shows at once and its write is queued. */
    method SlideBrightness(next: int) returns (id: nat)
      modifies this`nextId, this`brightness, this`brightnessTimer
      requires Valid()
      ensures Valid()
      ensures brightness == next && brightnessTimer == Some((id, next))
      ensures old(brightnessTimer).Some? ==> id != old(brightnessTimer).value.0
      ensures colorTimer == old(colorTimer) && color == old(color) && message == old(message)
      ensures synced == old(synced)
    {
      brightness := next;
      id := QueueBrightnessUpdate(next);
    }

    /** A fresh timer id, larger than every id handed out before. */
    method NewId() returns (id: nat)
      modifies this`nextId
      ensures id == old(nextId) && nextId == id + 1
      ensures colorTimer == old(colorTimer) && brightnessTimer == old(brightnessTimer)
      ensures color == old(color) && brightness == old(brightness) && message == old(message) && synced == old(synced)
    {
      id := nextId;
      nextId := nextId + 1;
    }

    /** The pending colour timer fires: the colour send starts with the message cleared and
        the queued colour without its `#`; `SendColor` then issues the requests. */
    method FireColor(id: nat) returns (hexNoHash: string)
      requires Valid() && colorTimer.Some? && colorTimer.value.0 == id
      modifies this`colorTimer, this`message
      ensures Valid()
      ensures hexNoHash == DropHash(old(colorTimer).value.1)
      ensures colorTimer.None? && message == ""
      ensures brightnessTimer == old(brightnessTimer) && color == old(color) && brightness == old(brightness)
      ensures synced == old(synced)
    {
      hexNoHash := DropHash(colorTimer.value.1);
      colorTimer := None;
      message := "";
    }

    /** The colour send settles with the message `SendColor` computed. */
    method SettleColor(text: string)
      modifies this`message
      requires Valid()
      ensures Valid()
      ensures message == text
    {
      message := text;
    }

    /** The pending brightness timer fires: the message is cleared and `setbrightness` is sent
        with the last queued value. */
    method FireBrightness(id: nat) returns (request: string)
      requires Valid() && brightnessTimer.Some? && brightnessTimer.value.0 == id
      modifies this`brightnessTimer, this`message
      ensures Valid()
      ensures brightnessTimer.None? && message == ""
      ensures request == BrightnessRequest(old(brightnessTimer).value.1)
    {
      var level := brightnessTimer.value.1;
      brightnessTimer := None;
      message := "";
      assert Valid();
      request := BrightnessRequest(level);
    }

    /** The brightness write settles. */
    method SettleBrightness(reply: Reply<string>)
      modifies this`message
      requires Valid()
      ensures Valid()
      ensures reply.Replied? ==> message == reply.data
      ensures reply.Failed? ==> message == ErrorText(reply.message, BrightnessFailed)
      ensures colorTimer == old(colorTimer) && brightnessTimer == old(brightnessTimer) && color == old(color)
      ensures brightness == old(brightness) && synced == old(synced)
    {
      match reply {
        case Replied(text) => message := text;
        case Failed(msg) => message := ErrorText(msg, BrightnessFailed);
      }
    }

    /** A click on the wheel or the lightness bar: the colour it picked shows at once, the
        pending colour send is cancelled, and a send of the picked colour starts at once. */
    method PickColor(hex: string) returns (hexNoHash: string)
      modifies this`color, this`colorTimer, this`message
      requires Valid()
      ensures Valid()
      ensures hexNoHash == DropHash(hex)
      ensures color == hex && colorTimer.None? && message == ""
      ensures brightnessTimer == old(brightnessTimer) && brightness == old(brightness)
      ensures synced == old(synced)
    {
      color := hex;
      colorTimer := None;
      hexNoHash := DropHash(hex);
      message := "";
    }
  }

  /** A click followed by the send settling: the card shows the colour picked, and its message
      is the colour write's answer or the first error. */
  method ClickAndSend(hex: string, device: nat -> Reply<string>) returns (sent: seq<string>, message: string)
    ensures sent == ColorRequests(DropHash(hex))[..SentCount(device, 3)]
    ensures message == SendMessage(device)
  {
    var card := new ColorCard();
    var h := card.PickColor(hex);
    var text;
    sent, text := SendColor(h, device);
    card.SettleColor(text);
    message := card.message;
  }

  /** Two brightness values queued before the delay: only the second is sent. */
  method BrightnessTwice(first: int, second: int) returns (request: string)
    ensures request == BrightnessRequest(second)
  {
    var card := new ColorCard();
    var a := card.QueueBrightnessUpdate(first);
    var b := card.QueueBrightnessUpdate(second);
    request := card.FireBrightness(b);
  }

  /** Later snapshots leave the colour alone. */
  method ColorSyncedOnce(first: Snapshot, later: Snapshot) returns (before: string, after: string)
    ensures before == after
  {
    var card := new ColorCard();
    card.OnParams(Some(first));
    before := card.color;
    card.OnParams(Some(later));
    after := card.color;
  }
}
