/** Capability classification (src/hooks/useCapabilities.js): which parts of the panel a
    device supports, decided from the keys present in its parameter snapshot. */
module Capabilities {
  import opened Wrappers
  import opened Strings
  import opened Js
  import opened ParamUtils

  datatype Caps = Caps(
    system: bool, color: bool, setup: bool, ambient: bool, camera: bool,
    hue: bool, dreamscreen: bool, relay: bool, wifiAp: bool, firmware: bool)

  /** The flags used before any snapshot has arrived. */
  const DefaultCapabilities := Caps(
    system := true, color := true, setup := true, ambient := true, camera := false,
    hue := false, dreamscreen := false, relay := false, wifiAp := false, firmware := false)

  /** A case-insensitive `bridge` in `devicetype`, read as `''` when missing, so a device
      without a type (or with a null one) is never a bridge. */
  function IsBridge(params: Snapshot): (r: bool)
    ensures "devicetype" !in params || params["devicetype"] == JNull ==> !r
  {
    Contains(ToLower(ReadString(Some(params), "devicetype", "")), "bridge")
  }

  predicate IsCamera(params: Snapshot) {
    HasParam(Some(params), "camresolution") || HasParam(Some(params), "cammode")
  }

  /** `useCapabilities`: the defaults without a snapshot; otherwise key-presence tests. */
  function Classify(params: Params): (c: Caps)
    ensures params.None? ==> c == DefaultCapabilities
    ensures params.Some? ==> c.system && c.color && c.firmware
    ensures params.Some? ==> (c.camera <==> "camresolution" in params.value || "cammode" in params.value)
    ensures params.Some? ==> (c.hue <==> "huesupportenabled" in params.value || "huebridgeip" in params.value)
    ensures params.Some? ==>
      (c.dreamscreen <==> "dreamscreensupport" in params.value || "dreamscreengroupid" in params.value)
    ensures params.Some? ==> (c.relay <==> "ambibackrelayto" in params.value)
    ensures params.Some? ==> (c.wifiAp <==> "deviceapenabled" in params.value)
    ensures params.Some? ==> c.setup == !c.camera
    ensures params.Some? ==> (c.ambient <==> !IsBridge(params.value) && !c.camera)
  {
    match params
    case None => DefaultCapabilities
    case Some(p) =>
      var camera := IsCamera(p);
      Caps(
        system := true,
        color := true,
        setup := !camera,
        ambient := !IsBridge(p) && !camera,
        camera := camera,
        hue := HasParam(params, "huesupportenabled") || HasParam(params, "huebridgeip"),
        dreamscreen := HasParam(params, "dreamscreensupport") || HasParam(params, "dreamscreengroupid"),
        relay := HasParam(params, "ambibackrelayto"),
        wifiAp := HasParam(params, "deviceapenabled"),
        firmware := true)
  }

  /** A camera module shows neither LED setup nor ambient, whatever else it reports. */
  lemma CameraExcludesSetupAndAmbient(params: Params)
    requires Classify(params).camera
    ensures !Classify(params).setup && !Classify(params).ambient
  {
  }

  /** Presence alone decides a flag: `huesupportenabled: "0"` still enables Hue, and any
      value of `camresolution` marks a camera. */
  lemma PresenceNotValue(p: Snapshot, v: JsValue)
    ensures Classify(Some(p["huesupportenabled" := JStr("0")])).hue
    ensures Classify(Some(p["camresolution" := v])).camera
  {
  }

  /** A device type mentioning `bridge` in any letter case hides ambient. */
  lemma BridgeHidesAmbient(p: Snapshot, prefix: string)
    ensures !Classify(Some(p["devicetype" := JStr(prefix + "BrIdGe")])).ambient
  {
    var t := prefix + "BrIdGe";
    var q := p["devicetype" := JStr(t)];
    assert ReadString(Some(q), "devicetype", "") == t;
    var l := ToLower(t);
    assert l[|prefix|..] == "bridge" by {
      assert l[|prefix|] == 'b' && l[|prefix| + 1] == 'r' && l[|prefix| + 2] == 'i';
      assert l[|prefix| + 3] == 'd' && l[|prefix| + 4] == 'g' && l[|prefix| + 5] == 'e';
    }
    ContainsAt(l, "bridge", |prefix|);
  }

  /** The classification of a snapshot holding only `camresolution: "2"`. */
  lemma CameraOnlySnapshot()
    ensures var c := Classify(Some(map["camresolution" := JStr("2")]));
      c.camera && !c.setup && !c.ambient && c.system && c.color && c.firmware
      && !c.hue && !c.dreamscreen && !c.relay && !c.wifiAp
  {
  }
}
