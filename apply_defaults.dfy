/** `applyDefaults` (src/utils/applyDefaults.js): a list of parameter or preset writes sent
    one at a time, in order, rejecting at the first failure. */
module ApplyDefaults {
  import opened Wrappers
  import opened Strings
  import opened Js
  import opened Client
  import opened WriteSequence

  /** One entry of a defaults list; `preset` absent is `false`. */
  datatype DefaultEntry = DefaultEntry(param: string, value: JsValue, preset: bool)

  /** The request for one entry: a preset write or a parameter write, the value as
      `String(value)`. */
  function EntryRequest(e: DefaultEntry): (r: string)
    ensures e.preset <==> StartsWith(r, "/setpreset?")
    ensures ParseQuery(r) == Some([("param", e.param), ("value", ToJsString(e.value))])
  {
    var v := ToJsString(e.value);
    var r := if e.preset then SetPresetPath(e.param, v) else SetParamPath(e.param, v);
    SetParamRoundTrip(e.param, v);
    assert r[..11] == (if e.preset then "/setpreset?" else "/setparam?" + [r[10]]);
    r
  }

  /** The requests of a whole list, in list order. */
  function Requests(entries: seq<DefaultEntry>): (rs: seq<string>)
    ensures |rs| == |entries|
    ensures forall i :: 0 <= i < |entries| ==> rs[i] == EntryRequest(entries[i])
  {
    seq(|entries|, (i: int) requires 0 <= i < |entries| => EntryRequest(entries[i]))
  }

  /** `applyDefaults(entries)`: each entry's request awaited in list order, rejecting at the
      first failure; `sent` lists the requests issued, `failure` the rejection. */
  method ApplyDefaults(entries: seq<DefaultEntry>, device: nat -> Reply<string>)
    returns (sent: seq<string>, failure: Option<string>)
    ensures sent == Requests(entries)[..SentCount(device, |entries|)]
    ensures failure == Outcome(device, |entries|)
  {
    sent, failure := SendInOrder(Requests(entries), device);
  }

  /** An empty list issues nothing and resolves. */
  method ApplyNothing(device: nat -> Reply<string>) returns (sent: seq<string>, failure: Option<string>)
    ensures sent == [] && failure.None?
  {
    sent, failure := ApplyDefaults([], device);
  }
}
