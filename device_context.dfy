/** The device-address provider (src/contexts/DeviceContext.jsx): the current base URL, the
    stored copy of it and the `device` parameter of the page's query string. Browser storage
    and the page query are modelled as maps owned by the provider. */
module DeviceContext {
  import opened Wrappers
  import opened Strings
  import opened Client

  /** The query parameter naming the device. */
  const DeviceParam := "device"

  /** The `device` query value written for a normalized address: the scheme `http://` or
      `https://` is removed and everything from the first `/` is dropped. */
  function DeviceHost(normalized: string): (r: string)
    ensures '/' !in r
    ensures StartsWith(AfterScheme(normalized), r)
    ensures !HasScheme(normalized) ==> StartsWith(normalized, r)
  {
    var rest := AfterScheme(normalized);
    var r := SplitOn(rest, '/')[0];
    SplitFirstPiece(rest, '/');
    r
  }

  /** The first piece of a split is the prefix before the first separator. */
  lemma {:induction false} SplitFirstPiece(s: string, sep: char)
    ensures sep !in SplitOn(s, sep)[0]
    ensures StartsWith(s, SplitOn(s, sep)[0])
  {
    if s != [] && s[0] != sep {
      SplitFirstPiece(s[1..], sep);
      var p := SplitOn(s[1..], sep)[0];
      assert SplitOn(s, sep)[0] == [s[0]] + p;
      assert s[..|p| + 1] == [s[0]] + s[1..][..|p|];
    }
  }

  /** A host without `/` or whitespace is all of the `device` value of its `http://` address. */
  lemma HostOfHttp(h: string)
    requires '/' !in h
    ensures DeviceHost("http://" + h) == h && DeviceHost("https://" + h) == h
  {
    var u := "http://" + h;
    var w := "https://" + h;
    assert u[..7] == "http://" && u[7..] == h;
    assert w[..7] != "http://" by { assert w[4] != u[4]; }
    assert w[..8] == "https://" && w[8..] == h;
    SplitWithout(h, '/');
  }

  /** Round trip of the `device` parameter: for `http://h` with a plain host `h`, normalizing
      the written parameter gives the address back. */
  lemma DeviceParamRoundTrip(h: string)
    requires h != [] && '/' !in h && NoWhitespace(h)
    ensures NormalizeBaseUrl(DeviceHost("http://" + h)) == "http://" + h
  {
    HostOfHttp(h);
    assert !HasScheme(h) by {
      if |h| >= 7 { assert h[6] != "http://"[6]; }
      if |h| >= 8 { assert h[7] != "https://"[7]; }
    }
    var u := "http://" + h;
    assert u[|u| - 1] == h[|h| - 1];
  }

  /** For an `https://` address the parameter gives back `http://` on the next normalization:
      the scheme is lost. */
  lemma DeviceParamLosesHttps(h: string)
    requires h != [] && '/' !in h && NoWhitespace(h)
    ensures NormalizeBaseUrl(DeviceHost("https://" + h)) == "http://" + h
    ensures NormalizeBaseUrl(DeviceHost("https://" + h)) != "https://" + h
  {
    HostOfHttp(h);
    DeviceParamRoundTrip(h);
    assert ("http://" + h)[4] != ("https://" + h)[4];
  }

  class DeviceProvider {
    /** The address the panel talks to. */
    var baseUrl: string
    /** `localStorage`. */
    var storage: map<string, string>
    /** The decoded parameters of the page's query string. */
    var query: map<string, string>

    /** The initial state takes the stored address as it is, without normalizing it. */
    constructor(storage0: map<string, string>, query0: map<string, string>)
      ensures baseUrl == GetStoredBaseUrl(storage0)
      ensures storage == storage0 && query == query0
    {
      baseUrl := GetStoredBaseUrl(storage0);
      storage := storage0;
      query := query0;
    }

    /** The mount effect: a non-empty `device` query value is normalized, stored and adopted;
        otherwise nothing changes. */
    method Mount()
      modifies this
      ensures query == old(query)
      ensures DeviceParam in query && query[DeviceParam] != [] ==>
        baseUrl == NormalizeBaseUrl(query[DeviceParam])
        && storage == old(storage)[StorageKey := baseUrl]
      ensures !(DeviceParam in query && query[DeviceParam] != []) ==>
        baseUrl == old(baseUrl) && storage == old(storage)
    {
      if DeviceParam in query && query[DeviceParam] != [] {
        var normalized := NormalizeBaseUrl(query[DeviceParam]);
        storage := storage[StorageKey := normalized];
        baseUrl := normalized;
      }
    }

    /** `updateBaseUrl`: the normalized value (never the raw input) is stored and adopted; the
        `device` query parameter becomes its host, or is deleted when it is empty. */
    method UpdateBaseUrl(value: string)
      modifies this
      ensures baseUrl == NormalizeBaseUrl(value)
      ensures storage == old(storage)[StorageKey := baseUrl]
      ensures baseUrl != [] ==> query == old(query)[DeviceParam := DeviceHost(baseUrl)]
      ensures baseUrl == [] ==> query == old(query) - {DeviceParam}
    {
      var normalized := NormalizeBaseUrl(value);
      storage := storage[StorageKey := normalized];
      baseUrl := normalized;
      if normalized != [] {
        query := query[DeviceParam := DeviceHost(normalized)];
      } else {
        query := query - {DeviceParam};
      }
    }

    /** The address later requests resolve to, from the current query and storage. */
    function Resolved(): (r: string)
      reads this
      ensures DeviceParam in query && query[DeviceParam] != [] ==> r == NormalizeBaseUrl(query[DeviceParam])
      ensures !(DeviceParam in query && query[DeviceParam] != []) ==> r == NormalizeBaseUrl(GetStoredBaseUrl(storage))
    {
      ResolveBaseUrl(if DeviceParam in query then Some(query[DeviceParam]) else None, storage)
    }
  }

  /** After choosing `http://h`, requests resolve to that very address. */
  method ChooseHttpDevice(h: string, storage0: map<string, string>, query0: map<string, string>)
      returns (resolved: string)
    requires h != [] && '/' !in h && NoWhitespace(h)
    ensures resolved == "http://" + h
  {
    var p := new DeviceProvider(storage0, query0);
    HttpIsNormal(h);
    p.UpdateBaseUrl("http://" + h);
    DeviceParamRoundTrip(h);
    HostOfHttp(h);
    resolved := p.Resolved();
  }

  /** After choosing `https://h`, requests resolve to `http://h`: the query parameter takes
      precedence over the stored address, and it holds only the host. */
  method ChooseHttpsDevice(h: string, storage0: map<string, string>, query0: map<string, string>)
      returns (resolved: string)
    requires h != [] && '/' !in h && NoWhitespace(h)
    ensures resolved == "http://" + h
  {
    var p := new DeviceProvider(storage0, query0);
    HttpsIsNormal(h);
    p.UpdateBaseUrl("https://" + h);
    DeviceParamLosesHttps(h);
    HostOfHttp(h);
    resolved := p.Resolved();
  }

  lemma HttpIsNormal(h: string)
    requires h != [] && '/' !in h && NoWhitespace(h)
    ensures NormalizeBaseUrl("http://" + h) == "http://" + h
  {
    var u := "http://" + h;
    SchemePrefixed(h);
    assert u[|u| - 1] == h[|h| - 1];
    NormalizedIsFixed(u);
  }

  lemma HttpsIsNormal(h: string)
    requires h != [] && '/' !in h && NoWhitespace(h)
    ensures NormalizeBaseUrl("https://" + h) == "https://" + h
  {
    var u := "https://" + h;
    forall i | 0 <= i < |u| ensures !IsWhitespace(u[i]) {
      if i >= 8 { assert u[i] == h[i - 8]; }
    }
    assert u[..8] == "https://";
    assert u[|u| - 1] == h[|h| - 1];
    NormalizedIsFixed(u);
  }
}
