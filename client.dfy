/** The controller's HTTP client (src/api/client.js): the device address, URL building and
    the query strings of the write endpoints. Requests themselves are not modelled; a call's
    settled outcome is a `Reply`. */
module Client {
  import opened Wrappers
  import opened Strings
  import opened UriEncoding

  /** The localStorage key holding the chosen device address. */
  const StorageKey := "ambiback.deviceBaseUrl"

  /** `getStoredBaseUrl`: the stored value, or `''` when nothing (or `''`) is stored. */
  function GetStoredBaseUrl(storage: map<string, string>): (r: string)
    ensures StorageKey in storage ==> r == storage[StorageKey]
    ensures StorageKey !in storage ==> r == ""
  {
    if StorageKey in storage then storage[StorageKey] else ""
  }

  predicate HasScheme(t: string) {
    StartsWith(t, "http://") || StartsWith(t, "https://")
  }

  /** `normalizeBaseUrl`: trim; empty stays empty; an `http://` or `https://` address keeps
      its scheme, anything else gets `http://`; trailing slashes are removed. */
  function NormalizeBaseUrl(value: string): (r: string)
    ensures r == [] <==> Trim(value) == []
    ensures r != [] ==> !EndsWith(r, '/')
    ensures r != [] ==> StartsWith(r, "http:") || StartsWith(r, "https:")
    ensures HasScheme(Trim(value)) ==> r == StripTrailing(Trim(value), '/')
    ensures Trim(value) != [] && !HasScheme(Trim(value)) ==> r == StripTrailing("http://" + Trim(value), '/')
  {
    var trimmed := Trim(value);
    if trimmed == [] then ""
    else
      SchemeKept(WithScheme(trimmed));
      StripTrailing(WithScheme(trimmed), '/')
  }

  /** The address with `http://` put in front unless it already has a scheme. */
  function WithScheme(t: string): (u: string)
    ensures HasScheme(u)
    ensures HasScheme(t) ==> u == t
    ensures !HasScheme(t) ==> u == "http://" + t
  {
    HttpPrefixed(t);
    if HasScheme(t) then t else "http://" + t
  }

  lemma HttpPrefixed(t: string)
    ensures HasScheme("http://" + t)
  {
    assert ("http://" + t)[..7] == "http://";
  }

  /** Stripping the trailing slashes of an address with a scheme keeps `http:` or `https:`. */
  lemma SchemeKept(u: string)
    requires HasScheme(u)
    ensures StripTrailing(u, '/') != []
    ensures StartsWith(StripTrailing(u, '/'), "http:") || StartsWith(StripTrailing(u, '/'), "https:")
  {
    if StartsWith(u, "http://") {
      PrefixOfPrefix(u, "http://", "http:");
      KeepsPrefix(u, "http:");
    } else {
      PrefixOfPrefix(u, "https://", "https:");
      KeepsPrefix(u, "https:");
    }
  }

  lemma PrefixOfPrefix(s: string, p: string, q: string)
    requires StartsWith(s, p) && StartsWith(p, q)
    ensures StartsWith(s, q)
  {
    assert s[..|q|] == p[..|q|];
  }

  /** Stripping trailing slashes never eats into a prefix that ends in a character other
      than `/`; the result does not end in `/`. */
  lemma KeepsPrefix(u: string, p: string)
    requires StartsWith(u, p) && p != [] && p[|p| - 1] != '/'
    ensures StartsWith(StripTrailing(u, '/'), p) && StripTrailing(u, '/') != []
  {
    var r := StripTrailing(u, '/');
    assert u[|p| - 1] == p[|p| - 1];
    assert |r| >= |p|;
    assert r[..|p|] == u[..|p|];
  }

  /** The same, for a non-slash character anywhere after the prefix. */
  lemma KeepsPrefixBeyond(u: string, p: string, j: nat)
    requires StartsWith(u, p) && |p| <= j < |u| && u[j] != '/'
    ensures StartsWith(StripTrailing(u, '/'), p) && |StripTrailing(u, '/')| > j
  {
    var r := StripTrailing(u, '/');
    assert |r| > j;
    assert r[..|p|] == u[..|p|];
  }

  /** The part of a trimmed address after its scheme (the whole of it when it has none). */
  function AfterScheme(t: string): string {
    if StartsWith(t, "http://") then t[7..]
    else if StartsWith(t, "https://") then t[8..]
    else t
  }

  predicate HasNonSlash(s: string) {
    exists j :: 0 <= j < |s| && s[j] != '/'
  }

  /** The inputs on which normalizing twice changes nothing: the trimmed input holds no
      whitespace and has some character other than `/` after its scheme. */
  predicate NormalizeStable(value: string) {
    NoWhitespace(Trim(value)) && HasNonSlash(AfterScheme(Trim(value)))
  }

  /** An address that already has a scheme, no whitespace and no trailing slash is left
      as it is. */
  lemma NormalizedIsFixed(r: string)
    requires NoWhitespace(r) && HasScheme(r) && !EndsWith(r, '/')
    ensures NormalizeBaseUrl(r) == r
  {
    assert Trim(r) == r;
    assert r != [] by { assert |r| >= 7; }
  }

  /** Stripping the trailing slashes of a schemed, whitespace-free address that has a
      non-slash character after its scheme gives a fixed point of normalization. */
  lemma StrippedIsFixed(u: string, p: string, k: nat)
    requires p == "http://" || p == "https://"
    requires NoWhitespace(u) && StartsWith(u, p) && |p| <= k < |u| && u[k] != '/'
    ensures NormalizeBaseUrl(StripTrailing(u, '/')) == StripTrailing(u, '/')
  {
    var r := StripTrailing(u, '/');
    KeepsPrefixBeyond(u, p, k);
    assert NoWhitespace(r) by {
      forall i | 0 <= i < |r| ensures !IsWhitespace(r[i]) {
        assert r[i] == u[i];
      }
    }
    NormalizedIsFixed(r);
  }

  lemma SchemePrefixed(t: string)
    requires NoWhitespace(t)
    ensures NoWhitespace("http://" + t) && StartsWith("http://" + t, "http://")
  {
    var u := "http://" + t;
    forall i | 0 <= i < |u| ensures !IsWhitespace(u[i]) {
      if i >= 7 { assert u[i] == t[i - 7]; }
    }
    assert u[..7] == "http://";
  }

  /** Normalization is idempotent on stable inputs. */
  lemma NormalizeIdempotent(value: string)
    requires NormalizeStable(value)
    ensures NormalizeBaseUrl(NormalizeBaseUrl(value)) == NormalizeBaseUrl(value)
  {
    if HasScheme(Trim(value)) {
      IdempotentWithScheme(value);
    } else {
      IdempotentWithoutScheme(value);
    }
  }

  /** The stable case of an input that has a scheme. */
  lemma IdempotentWithScheme(value: string)
    requires NormalizeStable(value) && HasScheme(Trim(value))
    ensures NormalizeBaseUrl(NormalizeBaseUrl(value)) == NormalizeBaseUrl(value)
  {
    var t := Trim(value);
    var a := AfterScheme(t);
    var j :| 0 <= j < |a| && a[j] != '/';
    if StartsWith(t, "http://") {
      assert t[7 + j] == a[j];
      StrippedIsFixed(t, "http://", 7 + j);
    } else {
      assert t[8 + j] == a[j];
      StrippedIsFixed(t, "https://", 8 + j);
    }
  }

  /** The stable case of an input without a scheme. */
  lemma IdempotentWithoutScheme(value: string)
    requires NormalizeStable(value) && !HasScheme(Trim(value))
    ensures NormalizeBaseUrl(NormalizeBaseUrl(value)) == NormalizeBaseUrl(value)
  {
    var t := Trim(value);
    var j :| 0 <= j < |t| && t[j] != '/';
    var u := "http://" + t;
    assert u[7 + j] == t[j];
    SchemePrefixed(t);
    StrippedIsFixed(u, "http://", 7 + j);
  }

  /** `resolveBaseUrl`: a non-empty `device` query value wins over the stored address; the
      winner is normalized. */
  function ResolveBaseUrl(fromQuery: Option<string>, storage: map<string, string>): (r: string)
    ensures fromQuery.Some? && fromQuery.value != [] ==> r == NormalizeBaseUrl(fromQuery.value)
    ensures fromQuery.None? || fromQuery.value == [] ==> r == NormalizeBaseUrl(GetStoredBaseUrl(storage))
  {
    if fromQuery.Some? && fromQuery.value != [] then NormalizeBaseUrl(fromQuery.value)
    else NormalizeBaseUrl(GetStoredBaseUrl(storage))
  }

  /** `buildUrl`, given the base `resolveBaseUrl()` returns at the time of the call. */
  function BuildUrl(base: string, path: string): (r: string)
    ensures base == [] ==> r == path
    ensures base != [] && StartsWith(path, "/") ==> r == base + path
    ensures base != [] && !StartsWith(path, "/") ==> r == base + "/" + path
    ensures base != [] ==> StartsWith(r, base) && StartsWith(r[|base|..], "/")
  {
    if base == [] then path
    else if StartsWith(path, "/") then base + path
    else base + "/" + path
  }

  /** A query string `k1=v1&k2=v2…`, each value through `encodeURIComponent`; empty exactly
      when there are no fields. `QueryStringRoundTrip` states what the device reads from it. */
  function QueryString(fields: seq<(string, string)>): (r: string)
    ensures r == [] <==> fields == []
  {
    if fields == [] then ""
    else
      var f := fields[0];
      var piece := f.0 + "=" + EncodeURIComponent(f.1);
      assert piece[|f.0|] == '=';
      if |fields| == 1 then piece
      else piece + "&" + QueryString(fields[1..])
  }

  /** With plain keys the device splits a query string at `&` and decodes every field back,
      in order. */
  lemma {:induction false} QueryStringRoundTrip(fields: seq<(string, string)>)
    requires fields != [] && PlainKeys(fields)
    ensures DecodeFields(SplitOn(QueryString(fields), '&')) == Some(fields)
  {
    if |fields| == 1 {
      QueryStringOne(fields[0]);
      assert fields == [fields[0]];
    } else {
      assert PlainKeys(fields[1..]);
      QueryStringRoundTrip(fields[1..]);
      QueryStringCons(fields);
    }
  }

  /** One field decodes back from its own query string. */
  lemma QueryStringOne(f: (string, string))
    requires PlainKey(f.0)
    ensures DecodeFields(SplitOn(QueryString([f]), '&')) == Some([f])
  {
    var piece := f.0 + "=" + EncodeURIComponent(f.1);
    assert QueryString([f]) == piece;
    FieldHasNoAmpersand(f.0, f.1);
    FieldRoundTrip(f.0, f.1);
    SplitWithout(piece, '&');
  }

  /** The step of `QueryStringRoundTrip`: a first field in front of a tail that decodes. */
  lemma QueryStringCons(fields: seq<(string, string)>)
    requires |fields| > 1 && PlainKey(fields[0].0)
    requires DecodeFields(SplitOn(QueryString(fields[1..]), '&')) == Some(fields[1..])
    ensures DecodeFields(SplitOn(QueryString(fields), '&')) == Some(fields)
  {
    var f := fields[0];
    var piece := f.0 + "=" + EncodeURIComponent(f.1);
    var rest := QueryString(fields[1..]);
    assert QueryString(fields) == piece + "&" + rest;
    FieldHasNoAmpersand(f.0, f.1);
    FieldRoundTrip(f.0, f.1);
    SplitAt(piece, '&', rest);
    DecodeFieldsCons(piece, SplitOn(rest, '&'), [f], fields[1..]);
    assert [f] + fields[1..] == fields;
  }

  /** A literal key of the device API: safe to place in a query without encoding. */
  predicate PlainKey(k: string) {
    forall i :: 0 <= i < |k| ==> k[i] != '&' && k[i] != '=' && k[i] != '?'
  }

  predicate PlainKeys(fields: seq<(string, string)>) {
    forall f :: f in fields ==> PlainKey(f.0)
  }

  function Path(endpoint: string, fields: seq<(string, string)>): string {
    endpoint + "?" + QueryString(fields)
  }

  function SetColorModePath(mode: string): string { Path("/setcolormode", [("mode", mode)]) }
  function SetColorPath(hex: string): string { Path("/setcolor", [("color", hex)]) }
  function SetParamPath(param: string, value: string): string {
    Path("/setparam", [("param", param), ("value", value)])
  }
  function SetPresetPath(param: string, value: string): string {
    Path("/setpreset", [("param", param), ("value", value)])
  }
  function HueLightSettingsPath(id: string): string { Path("/controllersettings_hue.js", [("id", id)]) }
  /** `setHueLightParam`: `zone` is appended only when one is given. */
  function SetHueLightParamPath(param: string, id: string, value: string, zone: Option<string>): string {
    Path("/setparam", [("param", param), ("id", id), ("value", value)]
                      + (if zone.Some? then [("zone", zone.value)] else []))
  }
  function DreamscreenAddPath(ssid: string): string { Path("/dreamscreenaddtonetwork", [("value", ssid)]) }
  function SetCameraPointPath(point: string, left: string, top: string): string {
    Path("/setcamerapoint", [("point", point), ("left", left), ("top", top)])
  }

  const StatusPath := "/getstatusasjson"
  const ParamsPath := "/getparamatersasjson"
  const LastStatusMessagePath := "/getlaststatusmessageasjson"
  const ScanWifiPath := "/getscannetworksasjson"
  const RefreshHuePath := "/refresh_hue_devices"
  const RefreshDreamscreenPath := "/refresh_dreamscreen_devices"
  const RebootPath := "/reboot?forreal=1"
  const StartWpsPath := "/startwps?forreal=1"

  /** `api.updateUrl()`: the firmware page under the current base. */
  function UpdateUrl(base: string): string { BuildUrl(base, "/update") }

  /** The query the device parses: the text after the first `?`, split at `&`, each field
      split at its first `=`, values percent-decoded. */
  function ParseQuery(path: string): Option<seq<(string, string)>> {
    if '?' !in path then None
    else
      var q := path[IndexOf(path, '?') + 1..];
      DecodeFields(SplitOn(q, '&'))
  }

  function DecodeFields(pieces: seq<string>): Option<seq<(string, string)>> {
    if pieces == [] then Some([])
    else
      var i := IndexOf(pieces[0], '=');
      var key := pieces[0][..i];
      var raw := if i < |pieces[0]| then pieces[0][i + 1..] else "";
      match (DecodeURIComponent(raw), DecodeFields(pieces[1..]))
      case (Some(v), Some(rest)) => Some([(key, v)] + rest)
      case _ => None
  }

  /** A field holds no `&`: keys are plain and the encoded value has none. */
  lemma FieldHasNoAmpersand(key: string, value: string)
    requires PlainKey(key)
    ensures '&' !in key + "=" + EncodeURIComponent(value)
  {
    var e := EncodeURIComponent(value);
    EncodedHasNoAmpersand(value);
    var piece := key + "=" + e;
    forall i | 0 <= i < |piece| ensures piece[i] != '&' {
      if i > |key| { assert piece[i] == e[i - |key| - 1]; }
      else if i < |key| { assert piece[i] == key[i]; }
    }
  }

  /** Percent-encoding never writes `&`. */
  lemma EncodedHasNoAmpersand(value: string)
    ensures forall i :: 0 <= i < |EncodeURIComponent(value)| ==> EncodeURIComponent(value)[i] != '&'
  {
    var e := EncodeURIComponent(value);
    forall i | 0 <= i < |e| ensures e[i] != '&' {
      assert IsUnreserved(e[i]) || e[i] == '%';
    }
  }

  /** A single piece decodes to its key and its decoded value. */
  lemma DecodeSingle(piece: string, key: string, raw: string, v: string)
    requires |key| < |piece| && IndexOf(piece, '=') == |key|
    requires piece[..|key|] == key && piece[|key| + 1..] == raw
    requires DecodeURIComponent(raw) == Some(v)
    ensures DecodeFields([piece]) == Some([(key, v)])
  {
    assert [piece][0] == piece;
    assert [piece][1..] == [];
    assert DecodeFields([]) == Some([]);
    assert [(key, v)] + [] == [(key, v)];
  }

  /** One `key=value` field is split back at its first `=` and decoded. */
  lemma FieldRoundTrip(key: string, value: string)
    requires PlainKey(key)
    ensures DecodeFields([key + "=" + EncodeURIComponent(value)]) == Some([(key, value)])
  {
    var e := EncodeURIComponent(value);
    var piece := key + "=" + e;
    assert '=' !in key by {
      forall i | 0 <= i < |key| ensures key[i] != '=' { }
    }
    IndexOfAfter(key, '=', e);
    assert piece == key + ['='] + e;
    assert piece[..|key|] == key;
    assert piece[|key| + 1..] == e;
    DecodeRoundTrip(value);
    DecodeSingle(piece, key, e, value);
  }

  lemma DecodeFieldsCons(piece: string, rest: seq<string>, f: seq<(string, string)>, g: seq<(string, string)>)
    requires DecodeFields([piece]) == Some(f) && DecodeFields(rest) == Some(g)
    ensures DecodeFields([piece] + rest) == Some(f + g)
  {
    assert ([piece] + rest)[0] == piece;
    assert ([piece] + rest)[1..] == rest;
    assert [piece][1..] == [];
    var i := IndexOf(piece, '=');
    var raw := if i < |piece| then piece[i + 1..] else "";
    var v :| DecodeURIComponent(raw) == Some(v);
    assert f == [(piece[..i], v)];
  }

  /** The device reads back exactly the fields the panel put into a request. */
  lemma PathRoundTrip(endpoint: string, fields: seq<(string, string)>)
    requires fields != [] && '?' !in endpoint && PlainKeys(fields)
    ensures ParseQuery(Path(endpoint, fields)) == Some(fields)
  {
    var q := QueryString(fields);
    QueryStringRoundTrip(fields);
    IndexOfAfter(endpoint, '?', q);
    assert Path(endpoint, fields)[|endpoint| + 1..] == q;
  }

  /** `setColorMode` delivers the mode unchanged. */
  lemma SetColorModeRoundTrip(mode: string)
    ensures ParseQuery(SetColorModePath(mode)) == Some([("mode", mode)])
  {
    assert PlainKeys([("mode", mode)]);
    PathRoundTrip("/setcolormode", [("mode", mode)]);
  }

  /** `setColor` delivers the colour unchanged. */
  lemma SetColorRoundTrip(hex: string)
    ensures ParseQuery(SetColorPath(hex)) == Some([("color", hex)])
  {
    assert PlainKeys([("color", hex)]);
    PathRoundTrip("/setcolor", [("color", hex)]);
  }

  /** `setParam` and `setPreset` deliver `param` and `value` unchanged. */
  lemma SetParamRoundTrip(param: string, value: string)
    ensures ParseQuery(SetParamPath(param, value)) == Some([("param", param), ("value", value)])
    ensures ParseQuery(SetPresetPath(param, value)) == Some([("param", param), ("value", value)])
  {
    assert PlainKeys([("param", param), ("value", value)]);
    PathRoundTrip("/setparam", [("param", param), ("value", value)]);
    PathRoundTrip("/setpreset", [("param", param), ("value", value)]);
  }

  /** `setHueLightParam` without a zone sends `param`, `id` and `value`. */
  lemma HueLightParamRoundTrip(param: string, id: string, value: string)
    ensures ParseQuery(SetHueLightParamPath(param, id, value, None))
            == Some([("param", param), ("id", id), ("value", value)])
  {
    var fields := [("param", param), ("id", id), ("value", value)];
    assert fields + [] == fields;
    assert PlainKeys(fields);
    PathRoundTrip("/setparam", fields);
  }

  /** `setHueLightParam` with a zone adds a `zone` field after them. */
  lemma HueLightZoneRoundTrip(param: string, id: string, value: string, zone: string)
    ensures ParseQuery(SetHueLightParamPath(param, id, value, Some(zone)))
            == Some([("param", param), ("id", id), ("value", value), ("zone", zone)])
  {
    var fields := [("param", param), ("id", id), ("value", value), ("zone", zone)];
    assert [("param", param), ("id", id), ("value", value)] + [("zone", zone)] == fields;
    assert PlainKeys(fields);
    PathRoundTrip("/setparam", fields);
  }

  /** `requestJson`/`requestText`: a response outside 200..299 fails with `HTTP <status>`. */
  function CheckStatus<T>(status: int, body: T): (r: Reply<T>)
    ensures 200 <= status <= 299 ==> r == Replied(body)
    ensures !(200 <= status <= 299) ==> r == Failed("HTTP " + IntToDecimal(status))
  {
    if 200 <= status <= 299 then Replied(body) else Failed("HTTP " + IntToDecimal(status))
  }
}
