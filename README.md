# ambiback-ui core in Dafny

A model of the logic beneath the AmbiBack control panel, a React single-page app that talks
to one networked LED controller over plain HTTP GET requests. The rendering is not modelled.
The model covers what the panel computes and what it changes:

- **Device address.** The panel normalises the address the user types or passes as
  `?device=`, persists it and resolves it, builds request URLs, and puts every argument into
  the query string with `encodeURIComponent`. A non-ok response becomes an `HTTP <status>`
  error.
- **Snapshot reads.** The typed readers `hasParam`, `readNumber`, `readString` and
  `readBool` turn the device's JSON parameter snapshot into page values.
- **Capabilities.** A capability record is classified from the snapshot. It decides which
  navigation items, LED modes and cards are offered.
- **Parameter store.** The shared store holds the snapshot, a loading flag, an error and a
  consecutive-failure breaker. Refreshes are silent or visible, polling starts and stops
  with page visibility, and the store resets on an address change. The per-component hook
  is a simpler version of the same store.
- **Write sequences.** `applyDefaults`, the camera page's `applyParams`, the LED reset and
  the colour send each write one value at a time and stop at the first failure.
- **Debounced writes.** The system page keeps one timer per key, and the colour card keeps
  one colour timer and one brightness timer. Only the last value queued for a key is sent.
- **Subnet scan.** The scan probes hosts 1..254 in batches of twenty.
- **Page rules.**
  - The camera page builds apply lists from the keys the device reports, reads each
    setting with its default, and clamps or falls back the displayed values.
  - The calibration card parses the four calibration points, drags and releases a point,
    and gates image reloads with a cooldown.
  - The LED setup page holds its direction tables and the side toggles and brightness
    sliders.
  - The system page reads each setting with its default.
  - The status card, the raw parameter setter and the UI-settings provider are modelled
    too.

Values are modelled as follows:

- **JSON values.** `Js.JsValue` holds integers, strings, booleans, null and objects. A
  snapshot is a `map<string, JsValue>`, and a possibly-null snapshot is `Option<Snapshot>`.
- **Conversions.** `Number(x)` is `Js.ToNumber`, with `None` standing for NaN. `String(x)`
  is `Js.ToJsString`.
- **Device calls.** Each call the page makes is answered by `device(k)`, the reply to the
  k-th call of one run: either `Replied(text)` or `Failed(message)`.
- **Timers.** Timers and intervals are explicit objects. Firing one is a method call, and
  timers have no clock.
- **Stateful code.** Code that updates React state or refs step by step is a class whose
  methods state the complete new state. An asynchronous handler whose intermediate state
  is visible is split into a Begin/Complete pair.
- **Browser storage and the URL.** Local storage, session storage and the URL query are
  `map<string, string>` fields or parameters.

## Model

| member | source | states |
|---|---|---|
| ParamUtils.HasParam | src/utils/paramUtils.js:1-3 | true iff the snapshot is non-null and holds the key as its own; without the key there is no number to read |
| ParamUtils.ValueAt | src/utils/paramUtils.js:7 | a key's value is present exactly when the key is an own key of the snapshot, and it is that key's value |
| ParamUtils.NumberAt | src/utils/paramUtils.js:5-9 | no number for a null snapshot or a missing key; otherwise the number `Number(value)` coerces to, if any |
| ParamUtils.ReadNumber | src/utils/paramUtils.js:5-10 | the fallback when the snapshot is null or the value does not coerce to a finite number, otherwise the coerced number |
| ParamUtils.ReadNumberOfDecimal | src/utils/paramUtils.js:5-10 | a decimal string reads back as its number; a null value reads as 0 (`Number(null)`), not as the fallback |
| ParamUtils.ReadString | src/utils/paramUtils.js:12-16 | the fallback exactly when the snapshot is null or the value is null or missing; otherwise `String(value)` |
| ParamUtils.ReadBool | src/utils/paramUtils.js:18-24 | the fallback when the snapshot is null or the value null or missing; otherwise true iff the lower-cased string is `1`, `true` or `yes` |
| ParamUtils.ReadBoolIgnoresCase | src/utils/paramUtils.js:22 | reading a string and reading its lower-cased form give the same answer |
| ParamUtils.ReadBoolUpperCaseWords | src/utils/paramUtils.js:22-23 | `TRUE` and `Yes` read as true |
| ParamUtils.ReadBoolPresentIgnoresFallback | src/utils/paramUtils.js:22-23 | a present value that is not a true word (`0`, `on`, the empty string) reads false even with fallback true |
| ParamUtils.ReadBoolOfNumber | src/utils/paramUtils.js:22-23 | a number reads true iff it is 1 |
| ParamUtils.ReadBoolOfBool | src/utils/paramUtils.js:22-23 | a boolean reads as itself |
| Js.ToNumber | src/utils/paramUtils.js:8 | `Number(x)`: null, booleans and numbers always convert, a number to itself; a blank string is 0; an object is NaN |
| Js.ToJsString | src/utils/paramUtils.js:15 | `String(x)`: a string is itself, and a number's spelling converts back to that number |
| Js.Clamp | src/pages/CameraPage.jsx:568 | `Math.max(lo, Math.min(hi, v))`: the result lies in [lo, hi], equals v inside, and is the nearer bound outside |
| Wrappers.ErrorText | src/components/ModeControls.jsx:39 | `err.message || fallback`: the message when it is non-empty, otherwise the fallback |
| Js.BitString | src/pages/SystemPage.jsx:362 | `b ? 1 : 0` spelt as sent: `1` exactly for true and `0` exactly for false |
| Js.NumberOfDecimalString | src/utils/paramUtils.js:8 | `Number` of an integer's decimal spelling is that integer |
| Strings.Trim | src/api/client.js:23 | the result has no whitespace at either end, a string without whitespace is unchanged, and the result is empty iff the input is all whitespace |
| Strings.StripTrailing | src/api/client.js:26 | `replace(/\/+$/, '')`: a prefix of the input, only the stripped characters are removed, and the result does not end in the character |
| Strings.ToLower | src/utils/paramUtils.js:22 | same length, each character lower-cased (ASCII) |
| Strings.DecimalRoundTrip | src/utils/applyDefaults.js:10 | the digits `String(n)` writes read back as n |
| UriEncoding.EncodeURIComponent | src/api/client.js:63-84 | every character of the encoding is unreserved or `%`, so it never contains `&`, `=` or `?` |
| UriEncoding.DecodeRoundTrip | src/api/client.js:63-84 | decoding the percent-encoding (UTF-8 bytes, section 2.1 of RFC 3986) gives back every string |
| UriEncoding.Utf8RoundTrip | src/api/client.js:63-84 | the UTF-8 bytes of any string decode back to it |
| UriEncoding.PercentDecodeOfEncoding | src/api/client.js:63-84 | percent-decoding the encoding of a string gives exactly its UTF-8 bytes |
| Client.GetStoredBaseUrl | src/api/client.js:3-5 | the stored value under `ambiback.deviceBaseUrl`, or the empty string when none is stored |
| Client.NormalizeBaseUrl | src/api/client.js:21-29 | empty iff the trimmed input is empty; a non-empty result never ends in `/` and starts with `http:` or `https:`; a trimmed input with a scheme keeps it with trailing slashes removed, and any other non-empty input gets `http://` first |
| Client.NormalizeIdempotent | src/api/client.js:21-29 | normalising twice equals normalising once when the trimmed input has no inner whitespace and a non-`/` character after its scheme |
| BaseUrlExamples.NormalizeNotIdempotent | src/api/client.js:21-29 | without that precondition idempotence fails: `/` and `http://` both normalise to `http:`, which normalises again to `http://http:` |
| BaseUrlExamples.NormalizeSlash | src/api/client.js:28 | `/` normalises to `http:` |
| BaseUrlExamples.NormalizeSchemeOnly | src/api/client.js:26 | `http://` normalises to `http:` |
| BaseUrlExamples.NormalizeColon | src/api/client.js:28 | `http:` normalises to `http://http:` |
| BaseUrlExamples.NormalizeSpaceSlash | src/api/client.js:28 | `abc /` normalises to `http://abc `, keeping the inner space |
| BaseUrlExamples.NormalizeTrailingSpace | src/api/client.js:23-26 | `http://abc ` normalises to `http://abc` |
| BaseUrlExamples.NormalizeInnerSpace | src/api/client.js:21-29 | a second normalisation of `abc /` changes it again |
| BaseUrlExamples.NormalizeBlank | src/api/client.js:22-24 | an all-blank input normalises to the empty string |
| BaseUrlExamples.NormalizeBareHost | src/api/client.js:28 | `192.168.1.5` becomes `http://192.168.1.5` |
| BaseUrlExamples.NormalizeHttps | src/api/client.js:25-26 | `https://h/` keeps its scheme and becomes `https://h` |
| Client.ResolveBaseUrl | src/api/client.js:11-19 | a non-empty `device` query value wins and is normalised; otherwise the stored value is normalised |
| Client.BuildUrl | src/api/client.js:49-56 | the path unchanged for an empty base; base + path for a path starting with `/`; otherwise base + `/` + path; with a base, the result starts with the base followed by `/` |
| Client.FieldHasNoAmpersand | src/api/client.js:65-66 | a query field `key=<encoded value>` never contains `&` |
| Client.QueryString | src/api/client.js:63-84 | the query string is empty iff there are no fields |
| Client.QueryStringRoundTrip | src/api/client.js:65-84 | splitting the built query string on `&` and decoding every field gives back the fields, in order |
| Client.PathRoundTrip | src/api/client.js:63-84 | parsing the query of a built request path gives back its argument list |
| Client.SetColorModeRoundTrip | src/api/client.js:63 | `setColorMode` delivers exactly `mode` |
| Client.SetColorRoundTrip | src/api/client.js:64 | `setColor` delivers exactly `color` |
| Client.SetParamRoundTrip | src/api/client.js:65-68 | `setParam` and `setPreset` deliver exactly `param` then `value`, whatever characters they contain |
| Client.HueLightParamRoundTrip | src/api/client.js:72-77 | without a zone `setHueLightParam` delivers `param`, `id`, `value` and no `zone` |
| Client.HueLightZoneRoundTrip | src/api/client.js:72-77 | with a zone it delivers `param`, `id`, `value`, then `zone` |
| Client.CheckStatus | src/api/client.js:34-36 | a 2xx status yields the body; any other status fails with `HTTP <status>` |
| DeviceContext.DeviceHost | src/contexts/DeviceContext.jsx:32 | the `device` parameter contains no `/` and is a prefix of the URL after its `http://` or `https://` scheme |
| DeviceContext.HostOfHttp | src/contexts/DeviceContext.jsx:32 | for `http://h` and `https://h` with no `/` in h, the parameter is h |
| DeviceContext.DeviceParamRoundTrip | src/contexts/DeviceContext.jsx:32 | normalising the written parameter of `http://h` gives back `http://h` |
| DeviceContext.DeviceParamLosesHttps | src/contexts/DeviceContext.jsx:32 | for `https://h` the written parameter normalises to `http://h`, so the scheme is lost |
| DeviceContext.DeviceProvider.constructor | src/contexts/DeviceContext.jsx:14 | the initial address is the stored one |
| DeviceContext.DeviceProvider.Mount | src/contexts/DeviceContext.jsx:16-24 | a non-empty `device` query value is normalised, persisted and becomes the address; otherwise nothing changes |
| DeviceContext.DeviceProvider.UpdateBaseUrl | src/contexts/DeviceContext.jsx:26-37 | the normalised value, never the raw input, is stored and exposed; the `device` parameter is set to its host, or deleted when it is empty |
| DeviceContext.DeviceProvider.Resolved | src/api/client.js:11-19 | what `resolveBaseUrl` returns for the provider's query and storage |
| DeviceContext.ChooseHttpDevice | src/contexts/DeviceContext.jsx:26-37 | after choosing `http://h`, a reload resolves to `http://h` again |
| DeviceContext.ChooseHttpsDevice | src/contexts/DeviceContext.jsx:26-37 | after choosing `https://h`, a reload resolves to `http://h` |
| DeviceContext.HttpIsNormal | src/api/client.js:25-26 | `http://h` is already normal |
| DeviceContext.HttpsIsNormal | src/api/client.js:25-26 | `https://h` is already normal |
| ParamsStore.Started | src/contexts/DeviceParamsContext.jsx:22-25 | a silent refresh leaves the view alone; a visible one sets loading and clears the error, keeping the params |
| ParamsStore.Settled | src/contexts/DeviceParamsContext.jsx:26-36 | success replaces the params wholesale, failure keeps them; a silent refresh never touches loading or error; a visible one ends not loading, with the failure message on failure |
| ParamsStore.CounterAfter | src/contexts/DeviceParamsContext.jsx:29-33 | success resets the failure counter to 0; failure adds exactly 1 |
| ParamsStore.SilentRefreshInvisible | src/contexts/DeviceParamsContext.jsx:21-37 | a whole silent refresh leaves loading and error unchanged, on success and on failure |
| ParamsStore.VisibleRefreshOutcome | src/contexts/DeviceParamsContext.jsx:21-37 | a whole visible refresh ends not loading: with the new params and no error on success, or with the old params and the message on failure |
| ParamsStore.AddressChangedView | src/contexts/DeviceParamsContext.jsx:40-51 | on an address change the params are null and the error empty; loading iff the new address is non-empty |
| ParamsStore.Step | src/contexts/DeviceParamsContext.jsx:61-63 | a poll tick with three or more failures does nothing |
| ParamsStore.BreakerHolds | src/contexts/DeviceParamsContext.jsx:29-63 | in runs where every fetch settles before the next event and the address does not change: once three failures have accumulated, no event short of an explicit successful refresh brings the counter below 3 or changes the params |
| ParamsStore.PollInFlightAfterTrip | src/contexts/DeviceParamsContext.jsx:26-63 | outside that model the breaker does not hold: a silent poll started before the third failure succeeds afterwards, and the counter drops from 3 to 0 while the snapshot is replaced |
| ParamsStore.ThreeFailuresTrip | src/contexts/DeviceParamsContext.jsx:31-62 | three failed polls trip the breaker, after which any poll tick is ignored |
| ParamsStore.ExplicitSuccessResets | src/contexts/DeviceParamsContext.jsx:27-35 | an explicit successful refresh resets the counter and shows the new params |
| ParamsStore.DeviceParamsProvider.constructor | src/contexts/DeviceParamsContext.jsx:16-19 | params null, loading, no error, counter 0, no polling |
| ParamsStore.DeviceParamsProvider.BeginRefresh | src/contexts/DeviceParamsContext.jsx:21-26 | the view becomes `Started`, one fetch is recorded, nothing else changes |
| ParamsStore.DeviceParamsProvider.CompleteRefresh | src/contexts/DeviceParamsContext.jsx:26-36 | the view becomes `Settled` and the counter `CounterAfter` |
| ParamsStore.DeviceParamsProvider.StartPolling | src/contexts/DeviceParamsContext.jsx:59-65 | an interval is running afterwards; a second start keeps the running one |
| ParamsStore.DeviceParamsProvider.StopPolling | src/contexts/DeviceParamsContext.jsx:67-72 | no interval is running afterwards |
| ParamsStore.DeviceParamsProvider.OnVisibilityChange | src/contexts/DeviceParamsContext.jsx:55-81 | polling runs iff the page is visible and the address is non-empty, with at most one interval; with no address the listener is not registered and nothing changes; the address, view, counter and fetches are untouched |
| ParamsStore.DeviceParamsProvider.Tick | src/contexts/DeviceParamsContext.jsx:61-64 | a tick fetches silently iff fewer than three failures have accumulated |
| ParamsStore.DeviceParamsProvider.ChangeAddress | src/contexts/DeviceParamsContext.jsx:40-86 | the view is reset as `AddressChangedView`; one visible fetch iff the address is non-empty; the counter is kept; polling runs iff the address is non-empty and the page visible |
| ParamsHook.DeviceParamsHook.constructor | src/hooks/useDeviceParams.js:7-9 | params null, loading, no error |
| ParamsHook.DeviceParamsHook.BeginRefresh | src/hooks/useDeviceParams.js:11-13 | loading set and error cleared before the fetch |
| ParamsHook.DeviceParamsHook.CompleteRefresh | src/hooks/useDeviceParams.js:14-21 | not loading afterwards; new params on success, old params and the message on failure |
| ParamsHook.DeviceParamsHook.Render | src/hooks/useDeviceParams.js:24-26 | a refresh starts on mount and whenever the address differs from the last render, and not otherwise |
| ParamsHook.MountThenRerender | src/hooks/useDeviceParams.js:24-26 | mounting and re-rendering with the same address issues exactly one fetch |
| Capabilities.IsBridge | src/hooks/useCapabilities.js:24-25 | a missing or null `devicetype` is never a bridge |
| Capabilities.Classify | src/hooks/useCapabilities.js:4-41 | the default table with no snapshot; otherwise system, color and firmware are true, camera, hue, dreamscreen, relay and wifiAp are key-presence tests, setup is not camera, and ambient is neither bridge nor camera |
| Capabilities.CameraExcludesSetupAndAmbient | src/hooks/useCapabilities.js:31-32 | a camera device offers neither LED setup nor ambient |
| Capabilities.PresenceNotValue | src/hooks/useCapabilities.js:26-34 | a present `huesupportenabled: "0"` still enables hue, and any `camresolution` value makes a camera |
| Capabilities.BridgeHidesAmbient | src/hooks/useCapabilities.js:24-32 | a device type containing `bridge` in any letter case hides ambient |
| Capabilities.CameraOnlySnapshot | src/hooks/useCapabilities.js:17-41 | `{camresolution: "2"}` classifies as camera, without setup, ambient, hue, dreamscreen, relay or AP |
| ModeControls.AvailableModes | src/components/ModeControls.jsx:23-30 | a mode is offered iff it is in the table and passes the camera and relay rules |
| ModeControls.AvailableModeList | src/components/ModeControls.jsx:7-30 | a camera device offers Off, Ambient, Camera, Demo and any other offers Off, Video, Ambient, Demo, in table order |
| ModeControls.AvailableModeValues | src/components/ModeControls.jsx:23-30 | the offered values are 0, 2, 3, 5 for a camera device and 0, 1, 2, 5 otherwise |
| ModeControls.IsActive | src/components/ModeControls.jsx:21-57 | a tile is active iff the snapshot is non-null, holds `ledmode`, and `Number(ledmode)` is the tile's value; so with no snapshot or no `ledmode` no tile is active |
| ModeControls.AtMostOneActive | src/components/ModeControls.jsx:21-57 | two active tiles are the same tile |
| ModeControls.SetModeRequest | src/components/ModeControls.jsx:36 | the request delivers exactly `mode=<value>` |
| ModeControls.ModeSelector.constructor | src/components/ModeControls.jsx:17-18 | not loading, no message, nothing sent |
| ModeControls.ModeSelector.BeginSetMode | src/components/ModeControls.jsx:32-35 | loading, message cleared, the mode request sent |
| ModeControls.ModeSelector.CompleteSetMode | src/components/ModeControls.jsx:36-42 | never loading afterwards; the device text or the error message |
| Layout.VisibleItems | src/components/Layout.jsx:24-26 | an item is visible iff it is a nav item and passes the loading or capability rule |
| Layout.LoadingMenu | src/components/Layout.jsx:24-25 | while loading, every item except camera, hue and DreamScreen is shown, in order |
| Layout.DefaultMenu | src/components/Layout.jsx:8-25 | with the default capabilities the menu is System, Color & Motion, LED Setup, Ambient |
| Layout.CameraMenu | src/components/Layout.jsx:25 | a camera device's menu holds neither LED Setup nor Ambient |
| Layout.MenuOpenAfter | src/components/Layout.jsx:32-65 | the menu button toggles the mobile menu; backdrop click, Escape and a nav link close it |
| Layout.MenuClosesAfterNavigation | src/components/Layout.jsx:32-65 | whatever came before, the menu is closed after a backdrop or nav-link event |
| Layout.DoubleToggle | src/components/Layout.jsx:47 | pressing the menu button twice restores the flag |
| StatusCard.Structured | src/components/StatusCard.jsx:26-45 | no rows for a null status; at most one row per fixed label |
| StatusCard.Rows | src/components/StatusCard.jsx:26-44 | at most one row per label; a row for every label iff every key is present; no rows when no key is present |
| StatusCard.RowPresent | src/components/StatusCard.jsx:28-44 | every label whose key is present appears with its value, null included |
| StatusCard.RowOrigin | src/components/StatusCard.jsx:28-44 | every row comes from a label whose key is present, with that key's value |
| StatusCard.AllPresent | src/components/StatusCard.jsx:28-44 | when every key is present the rows are all labels in fixed order |
| StatusCard.NullKept | src/components/StatusCard.jsx:44 | a null mode status still gives a Mode row |
| StatusCard.StatusPanel.constructor | src/components/StatusCard.jsx:5-7 | no status, no error, not loading |
| StatusCard.StatusPanel.BeginRefresh | src/components/StatusCard.jsx:10-11 | loading and error cleared; the status is kept |
| StatusCard.StatusPanel.CompleteRefresh | src/components/StatusCard.jsx:12-19 | not loading; new status on success, old status and the message on failure |
| ParamSetter.SelectOptions | src/components/ParamSetter.jsx:9-12 | no entries for no options; otherwise the placeholder followed by the options in order |
| ParamSetter.OnSelect | src/components/ParamSetter.jsx:39-42 | choosing the placeholder stores the empty param; any other choice is stored as is |
| ParamSetter.Shown | src/components/ParamSetter.jsx:38 | the empty param shows the placeholder; any other param shows itself |
| ParamSetter.SelectRoundTrip | src/components/ParamSetter.jsx:38-42 | choosing an entry shows that entry |
| ParamSetter.ParamForm.constructor | src/components/ParamSetter.jsx:6-8 | empty param, value and message |
| ParamSetter.ParamForm.Select | src/components/ParamSetter.jsx:39-42 | the param becomes `OnSelect` of the choice; nothing else changes |
| ParamSetter.ParamForm.TypeParam | src/components/ParamSetter.jsx:51-57 | the free-text field sets the param to the typed text; nothing else changes |
| ParamSetter.ParamForm.TypeValue | src/components/ParamSetter.jsx:60-66 | the value field sets the value to the typed text; nothing else changes |
| ParamSetter.ParamForm.Submit | src/components/ParamSetter.jsx:14-20 | an empty param gives `Param is required` and sends nothing; otherwise the message is cleared and `setParam(param, value)` is sent exactly as typed |
| ParamSetter.ParamForm.CompleteSubmit | src/components/ParamSetter.jsx:20-25 | the device text or the error message |
| UiSettings.ReadStorage | src/contexts/UiSettingsContext.jsx:10-17 | a failed read, the stored string under `ambiback.ui.advanced`, or nothing stored |
| UiSettings.ReadInitialAdvanced | src/contexts/UiSettingsContext.jsx:10-17 | advanced iff the stored string is exactly `true`; a read error gives false |
| UiSettings.BoolString | src/contexts/UiSettingsContext.jsx:25 | `String(v)`: `true` for true and `false` for false |
| UiSettings.AdvancedRoundTrip | src/contexts/UiSettingsContext.jsx:12-25 | after storing `String(v)` the initial read gives v |
| UiSettings.UiSettingsProvider.constructor | src/contexts/UiSettingsContext.jsx:20 | the flag starts as the initial read |
| UiSettings.UiSettingsProvider.SetAdvanced | src/contexts/UiSettingsContext.jsx:22-29 | the flag becomes v even when the write fails; a successful write stores `String(v)` |
| UiSettings.ReloadAfterSet | src/contexts/UiSettingsContext.jsx:10-29 | setting v and reloading gives v back |
| Discovery.ResultFor | src/utils/discovery.js:34 | `{ip: "http://<base>.<i>", ...body}`: every body field is kept and a body `ip` overrides the built one |
| Discovery.BatchPlan | src/utils/discovery.js:18-20 | 13 batches; batch k covers hosts from 1 + 20k up to the lesser of 21 + 20k and 255 |
| Discovery.BatchBounds | src/utils/discovery.js:6-20 | each batch has 1 to 20 hosts, batch k starts at 1 + 20k, and the last has 14 |
| Discovery.FlattenPrefix | src/utils/discovery.js:18-20 | the first k batches together are the hosts 1 .. 20k in order |
| Discovery.CoversAllHosts | src/utils/discovery.js:18-20 | the batches together are exactly hosts 1..254, each once and in order, never 0 or 255 |
| Discovery.AcceptedHostsMembers | src/utils/discovery.js:32-42 | a host is collected iff its probe gave a 2xx response with a truthy JSON body |
| Discovery.AcceptedHostsAscending | src/utils/discovery.js:39-42 | collected hosts are in strictly ascending order |
| Discovery.Collect | src/utils/discovery.js:39-42 | one result per accepted host, and the k-th result is the result for the k-th accepted host |
| Discovery.LaunchBatch | src/utils/discovery.js:19-38 | the inner loop launches exactly the hosts of the range, in order |
| Discovery.SettleBatch | src/utils/discovery.js:39-42 | settling a batch appends the results of its accepted hosts |
| Discovery.RunBatch | src/utils/discovery.js:19-42 | one outer iteration launches batch k and extends the results to everything below its end |
| Discovery.ScanSubnet | src/utils/discovery.js:14-46 | trailing dots are stripped from the subnet, the batches launched are exactly the plan, and the results are those of the accepted hosts 1..254 in ascending order |
| Discovery.ResultsAreAcceptedHosts | src/utils/discovery.js:32-42 | every accepted host's result is in the scan results |
| WriteSequence.FirstFailure | src/utils/applyDefaults.js:9-16 | the index of the first failed write: all earlier writes succeeded, and it failed unless it is the length |
| WriteSequence.SentCount | src/utils/applyDefaults.js:9-16 | every write is sent, or the writes are sent up to and including the first failure |
| WriteSequence.FirstFailureAt | src/utils/applyDefaults.js:9-16 | when write k is the first to fail, exactly k + 1 writes are sent |
| WriteSequence.NoFailure | src/utils/applyDefaults.js:9-16 | when every reply succeeds, every write is sent |
| WriteSequence.Outcome | src/utils/applyDefaults.js:9-16 | success iff every write succeeded; otherwise the first failure's message |
| WriteSequence.SendInOrder | src/utils/applyDefaults.js:9-16 | the loop sends the requests in order up to the first failure and reports that failure |
| ApplyDefaults.EntryRequest | src/utils/applyDefaults.js:10-15 | a preset entry goes to `/setpreset`, any other to `/setparam`; the request delivers the entry's param and `String(value)` |
| ApplyDefaults.Requests | src/utils/applyDefaults.js:9-16 | one request per entry, in list order |
| ApplyDefaults.ApplyDefaults | src/utils/applyDefaults.js:8-16 | the entries' requests are sent in order, stopping after the first failure, which is reported |
| ApplyDefaults.ApplyNothing | src/utils/applyDefaults.js:8-9 | an empty list sends nothing and succeeds |
| SystemPage.SyslogServer | src/pages/SystemPage.jsx:171 | `debugsyslogserver` if present and non-null, else `syslogserver`, else the empty string |
| SystemPage.ReadSystemSettings | src/pages/SystemPage.jsx:166-181 | the syslog server as above; a missing relay mode reads 1; missing button mode, WiFi handling and syslog port read 0 |
| SystemPage.InitialIsEmptyRead | src/pages/SystemPage.jsx:145-181 | the initial state equals reading an empty snapshot |
| SystemPage.WithFlag | src/pages/SystemPage.jsx:359-362 | a toggle sets its own flag and leaves every other flag and field unchanged |
| SystemPage.AtMostOnePending | src/pages/SystemPage.jsx:183-187 | at most one write is pending per key |
| SystemPage.QueueEffect | src/pages/SystemPage.jsx:183-195 | queueing replaces the key's pending write with the new value and leaves other keys' pending writes alone |
| SystemPage.SystemForm.constructor | src/pages/SystemPage.jsx:140-154 | initial settings, no status, no timers |
| SystemPage.SystemForm.OnParams | src/pages/SystemPage.jsx:166-181 | nothing for a null snapshot, otherwise every setting is read again |
| SystemPage.SystemForm.QueueParam | src/pages/SystemPage.jsx:183-196 | the key's old timer is cancelled and a new one scheduled; the key's only pending value is the new one; other keys are untouched |
| SystemPage.SystemForm.Toggle | src/pages/SystemPage.jsx:359-363 | the flag is set and `1` or `0` is the key's only pending value; the form stays valid, other keys' pending writes and the status are unchanged |
| SystemPage.SystemForm.Fire | src/pages/SystemPage.jsx:187-190 | a live timer fires once: the status is cleared and its `setParam` request is sent |
| SystemPage.SystemForm.Settle | src/pages/SystemPage.jsx:190-194 | the device text or the error message, with no retry; the form stays valid and its settings and timers are unchanged |
| SystemPage.QueueTwice | src/pages/SystemPage.jsx:183-195 | two queued values for one key send only the second |
| ColorControls.ColorHex | src/components/ColorControls.jsx:17 | `#` followed by the channel digits, and dropping the `#` leaves exactly those digits |
| ColorControls.DropHash | src/components/ColorControls.jsx:21 | a string without `#` is unchanged, and a leading `#` is removed |
| ColorControls.ParseHexPair | src/components/ColorControls.jsx:22-24 | a number iff both characters are hex digits, and then it is 16 times the first plus the second, below 256 |
| ColorControls.ChannelHex | src/components/ColorControls.jsx:71 | a channel in 0..255 is two lower-case hex digits, high then low |
| ColorControls.ColorHexRoundTrip | src/components/ColorControls.jsx:21-71 | `#` plus six lower-case hex digits, and the `parseInt` slices recover each channel |
| ColorControls.ChannelRoundTrip | src/components/ColorControls.jsx:22 | parsing a channel's two digits gives the channel |
| ColorControls.ChannelOutOfRange | src/components/ColorControls.jsx:71 | 256 formats as three digits, so the colour is eight characters long |
| ColorControls.ColorRequests | src/components/ColorControls.jsx:82-84 | three requests; the device reads `mode=2`, then `setambientpreset` `0`, then `color=FF<hex>` |
| ColorControls.SendMessage | src/components/ColorControls.jsx:79-89 | the third reply's text when all succeed, else the first failure's message or `Failed to set color` |
| ColorControls.SendThree | src/components/ColorControls.jsx:81-88 | the three writes go in order up to the first failure |
| ColorControls.SendColor | src/components/ColorControls.jsx:79-89 | the colour requests are sent in order up to the first failure, with the matching message |
| ColorControls.ColorCard.constructor | src/components/ColorControls.jsx:50-61 | white, brightness 128, no message, not synced, no timers |
| ColorControls.ColorCard.OnParams | src/components/ColorControls.jsx:63-77 | brightness is always read again; the colour only on the first snapshot, after which `synced` is set; nothing changes for a null snapshot; the card stays valid |
| ColorControls.ColorCard.QueueColorUpdate | src/components/ColorControls.jsx:91-100 | the colour shows at once and the pending colour timer is replaced by a new one for it; brightness, its timer, the message and `synced` are unchanged; the card stays valid |
| ColorControls.ColorCard.QueueBrightnessUpdate | src/components/ColorControls.jsx:102-113 | the pending brightness timer is replaced by a new one for the new value; colour, its timer, brightness, the message and `synced` are unchanged; the card stays valid |
| ColorControls.ColorCard.SlideBrightness | src/components/ColorControls.jsx:247-250 | the slider shows the new value at once and the brightness timer is replaced by one for it; the colour, its timer, the message and the sync flag are unchanged |
| ColorControls.ColorCard.FireColor | src/components/ColorControls.jsx:80-98 | the live colour timer fires, the message is cleared, and the colour without `#` is sent; the other timer, colour, brightness and `synced` are unchanged; the card stays valid |
| ColorControls.ColorCard.SettleColor | src/components/ColorControls.jsx:85-87 | the message is the send's outcome |
| ColorControls.ColorCard.FireBrightness | src/components/ColorControls.jsx:104-107 | the live brightness timer fires, the message is cleared, and `setbrightness` is sent with the queued value |
| ColorControls.ColorCard.SettleBrightness | src/components/ColorControls.jsx:108-111 | the device text or the error message; timers, colour, brightness and `synced` are unchanged; the card stays valid |
| ColorControls.ColorCard.PickColor | src/components/ColorControls.jsx:134-154 | a wheel or bar pick shows the colour, cancels the pending colour timer, clears the message and sends at once; brightness, its timer and `synced` are unchanged; the card stays valid |
| ColorControls.ClickAndSend | src/components/ColorControls.jsx:139-140 | a pick sends the colour's three requests in order up to the first failure |
| ColorControls.BrightnessTwice | src/components/ColorControls.jsx:102-113 | two brightness changes within the delay send only the second |
| ColorControls.ColorSyncedOnce | src/components/ColorControls.jsx:66-67 | once synced, a later snapshot does not change the colour |
| CameraPage.ReadField | src/pages/CameraPage.jsx:246-317 | a numeric setting reads its number or its default; a switch reads `readBool` or its default; a missing key gives the default |
| CameraPage.Synced | src/pages/CameraPage.jsx:244-318 | every setting read from the snapshot, in table order |
| CameraPage.InitialValues | src/pages/CameraPage.jsx:246-317 | every setting at its default |
| CameraPage.InitialIsEmptyRead | src/pages/CameraPage.jsx:246-317 | the initial state equals reading an empty snapshot |
| CameraPage.ReadDefaults | src/pages/CameraPage.jsx:246-317 | e.g. missing `campreset` reads 3, `camexposurepreset` 2, `camfbcount` 2, `camfreq` 5, `colorboostbalance` 50, `camautoonoffdelay` 15 |
| CameraPage.Wire | src/pages/CameraPage.jsx:796 | numbers go out as themselves and switches as 1 or 0 |
| CameraPage.Included | src/pages/CameraPage.jsx:790-799 | no more indices than the bound, each below it; which settings they are is `IncludedSpec` |
| CameraPage.IncludedSpec | src/pages/CameraPage.jsx:790-799 | a setting is in a section's apply list iff it belongs to the section and its key is present, in table order |
| CameraPage.Pairs | src/pages/CameraPage.jsx:790-799 | one pair per included setting: the k-th is that setting's write name and its wire value |
| CameraPage.ApplyPairs | src/pages/CameraPage.jsx:646-653 | the setup list starts with the mode pair; no list is longer than the table plus one |
| CameraPage.SetupPairs | src/pages/CameraPage.jsx:646-653 | the setup list is `setcammode` followed by the present setup settings |
| CameraPage.SetupStartsWithMode | src/pages/CameraPage.jsx:647 | the setup list always starts with `setcammode` |
| CameraPage.AutoOffList | src/pages/CameraPage.jsx:840-845 | the auto-off list is the switch, then the delay, each only when its key is present |
| CameraPage.FlagsSentAsBits | src/pages/CameraPage.jsx:790-799 | every switch in an apply list goes out as 0 or 1 |
| CameraPage.PairRequests | src/pages/CameraPage.jsx:323-325 | one `setParam` request per pair, in order |
| CameraPage.ApplyParams | src/pages/CameraPage.jsx:320-330 | pairs are written in order up to the first failure; `Camera settings updated` only if every write succeeded |
| CameraPage.CameraForm.constructor | src/pages/CameraPage.jsx:246-317 | every setting at its default and no message |
| CameraPage.CameraForm.OnParams | src/pages/CameraPage.jsx:244-318 | nothing for a null snapshot, otherwise every setting read again |
| CameraPage.CameraForm.Edit | src/pages/CameraPage.jsx:569-633 | a control's `onChange` replaces its own setting and no other; the message is kept and the form stays valid |
| CameraPage.CameraForm.Apply | src/pages/CameraPage.jsx:646-653 | an Apply button sends its section's list with `applyParams` |
| CameraPage.CameraForm.UpdateParam | src/pages/CameraPage.jsx:332-340 | an immediate control stores its value, sends one `setParam` and reports `Saved` or the failure |
| CameraPage.ShownZeroToSix | src/pages/CameraPage.jsx:568 | the performance and special-effect selects show a value in [0,6], unchanged inside |
| CameraPage.ShownFrequency | src/pages/CameraPage.jsx:600 | the frame-rate select shows a value in [0,10], unchanged inside |
| CameraPage.ShownFrameBuffers | src/pages/CameraPage.jsx:616 | the frame-buffer select shows a value in [1,5], unchanged inside |
| CameraPage.ShownQuality | src/pages/CameraPage.jsx:1214 | the quality slider shows a value in [0,63], unchanged inside |
| CameraPage.ShownOption | src/pages/CameraPage.jsx:827 | a select shows its value iff it is an option, else the fallback |
| CameraPage.ShownDetailLevel | src/pages/CameraPage.jsx:720 | the detail level shows an odd level 3..15 as is, anything else as 7 |
| CameraPage.ShownAutoOffDelay | src/pages/CameraPage.jsx:827 | the delay shows an offered delay as is, anything else as 15 |
| CameraPage.ShownLevel | src/pages/CameraPage.jsx:1168-1196 | contrast, brightness, saturation and AE level show -2..2 as is, anything else as 0 |
| CameraCalibration.Corner | src/components/CameraCalibrationCard.jsx:29 | the corner default of point i lies in the image |
| CameraCalibration.DefaultPointsAreCorners | src/components/CameraCalibrationCard.jsx:36-41 | the default points are the four corner defaults |
| CameraCalibration.EntryPoint | src/components/CameraCalibrationCard.jsx:19-30 | the point lies in the image; a missing or malformed entry gives the corner; a non-numeric axis gives that axis's corner value |
| CameraCalibration.CoordinateRead | src/components/CameraCalibrationCard.jsx:21-26 | numbers in 0..100 are kept, below clamp to 0, above to 100; a decimal string reads as its number |
| CameraCalibration.PointsOf | src/components/CameraCalibrationCard.jsx:16-31 | four points, the i-th read from key `i` |
| CameraCalibration.EmptyCalibrationIsDefault | src/components/CameraCalibrationCard.jsx:29-41 | an empty calibration object gives the default points |
| CameraCalibration.ParseCameraPoints | src/components/CameraCalibrationCard.jsx:13-34 | null iff `camerapoint` is missing or not an object; otherwise the four points |
| CameraCalibration.ShownPoints | src/components/CameraCalibrationCard.jsx:87-92 | four points in the image; the defaults without a calibration |
| CameraCalibration.PointMessage | src/components/CameraCalibrationCard.jsx:237-243 | `Camera point updated` or the error message |
| CameraCalibration.Gate | src/components/CameraCalibrationCard.jsx:115-119 | a reload is accepted iff now has reached the block; an accepted one blocks until now + 1000 |
| CameraCalibration.ReloadsSpaced | src/components/CameraCalibrationCard.jsx:117-119 | after an accepted reload, every reload less than 1000 later is refused |
| CameraCalibration.StillBlocked | src/components/CameraCalibrationCard.jsx:118 | refused reloads leave the block unchanged |
| CameraCalibration.CalibrationCard.constructor | src/components/CameraCalibrationCard.jsx:36-41 | default points, not dragging, no block |
| CameraCalibration.CalibrationCard.OnParams | src/components/CameraCalibrationCard.jsx:87-92 | while dragging the points are kept, otherwise they are the shown points; drag state, reload gate, cooldown, stamp and loading are unchanged; the card stays valid |
| CameraCalibration.CalibrationCard.PointerDown | src/components/CameraCalibrationCard.jsx:196-205 | dragging starts on the point; points, last point, reload gate, cooldown, stamp and loading are unchanged; the card stays valid |
| CameraCalibration.CalibrationCard.PointerMove | src/components/CameraCalibrationCard.jsx:207-222 | while dragging, the point moves to the clamped position and is remembered as the last point; the drag, reload gate, cooldown, stamp and loading are unchanged; the card stays valid |
| CameraCalibration.CalibrationCard.PointerUp | src/components/CameraCalibrationCard.jsx:224-246 | dragging ends; the 1-based point number is sent with the last point if it is this one's, else the current point; points, last point, reload gate, cooldown, stamp and loading are unchanged; the card stays valid |
| CameraCalibration.PointWriteRoundTrip | src/api/client.js:81-84 | the device reads back the point number and both coordinates of a point write |
| CameraCalibration.CalibrationCard.Refresh | src/components/CameraCalibrationCard.jsx:117-136 | the reload is gated; an accepted one starts a one-second cooldown, a new stamp and loading, a refused one changes nothing; points and drag state are unchanged; the card stays valid |
| CameraCalibration.CalibrationCard.Tick | src/components/CameraCalibrationCard.jsx:123-132 | the cooldown counts down to 0; everything else is unchanged; the card stays valid |
| CameraCalibration.DragAndRelease | src/components/CameraCalibrationCard.jsx:207-236 | a press, move and release sends point i + 1 with the clamped coordinates |
| LedSetup.DirectionLabel | src/pages/LedSetupPage.jsx:28-49 | `Unknown` iff the direction is outside 1..8 |
| LedSetup.DirectionHint | src/pages/LedSetupPage.jsx:51-72 | 1..4 flow CCW, 5..8 flow CW, anything else is `-`/`-` |
| LedSetup.LabelMatchesHint | src/pages/LedSetupPage.jsx:28-72 | for 1..8 the label is the hint's start and flow; the label is `Unknown` iff outside 1..8 |
| LedSetup.EachCornerBothWays | src/pages/LedSetupPage.jsx:51-72 | every CCW start corner also has a CW direction |
| LedSetup.ArrowPath | src/pages/LedSetupPage.jsx:75-76 | the clockwise path iff the flow is `CW`, otherwise the counter-clockwise one |
| LedSetup.ArrowFollowsDirection | src/pages/LedSetupPage.jsx:75-76 | the clockwise arrow is drawn iff the direction is 5..8 |
| LedSetup.PerSide.With | src/pages/LedSetupPage.jsx:185-256 | replacing one side's entry changes that side only |
| LedSetup.SideParamsDistinct | src/pages/LedSetupPage.jsx:84-93 | different sides read and write different keys |
| LedSetup.ReadLedSettings | src/pages/LedSetupPage.jsx:78-95 | missing vertical reads 20, horizontal 30, direction 1 |
| LedSetup.SideRead | src/pages/LedSetupPage.jsx:83-94 | each side reads `readBool` with default true and its brightness `readNumber` with default 100 |
| LedSetup.InitialIsEmptyRead | src/pages/LedSetupPage.jsx:78-95 | the initial state equals reading an empty snapshot |
| LedSetup.LedSetupForm.constructor | src/pages/LedSetupPage.jsx:17-25 | 20, 30, direction 1, all sides on at brightness 100, no message |
| LedSetup.LedSetupForm.OnParams | src/pages/LedSetupPage.jsx:78-95 | nothing for a null snapshot, otherwise every setting read again |
| LedSetup.LedSetupForm.SetLayout | src/pages/LedSetupPage.jsx:123-156 | the layout control's value is stored and sent |
| LedSetup.LedSetupForm.ToggleSide | src/pages/LedSetupPage.jsx:183-187 | only that side's flag flips, and its new value goes out as 1 or 0 |
| LedSetup.LedSetupForm.SetSideBrightness | src/pages/LedSetupPage.jsx:254-258 | only that side's brightness changes, and it is sent |
| LedSetup.LedSetupForm.Settle | src/pages/LedSetupPage.jsx:97-105 | `LED setup updated` or the error message |
| LedSetup.ToggleTwice | src/pages/LedSetupPage.jsx:183-187 | toggling a side twice sends one 0 and one 1 |
| LedSetup.ResetToDefaults | src/pages/LedSetupPage.jsx:323-335 | the defaults are applied in order up to the first failure; the message is the reset notice or the failure |

## Left out

- Network I/O is not modelled: `fetch`, JSON and text bodies, `AbortController`, the five-second probe timeout and `Promise.allSettled` scheduling. Every call is answered by an abstract reply function.
- Timer durations (300 ms debounce, the poll interval, the one-second cooldown) are not modelled. Timers are explicit fire and tick events, and the calibration clock is a parameter.
- The poll interval `statusRefreshInterval` is not modelled. It is read but no provider in the repository supplies it, so polling runs on ticks.
- Browser state is explicit: local storage, session storage, `window.location` and `history.replaceState` are maps, and `document.visibilityState` is a parameter.
- `addRecentDevice` is not modelled. It is imported by the parameter store but not defined by the API client, so success does not record a recent device.
- Floating-point colour and geometry are not modelled: `hslToHex`, `hexToHsl` beyond its integer hex slicing, the `atan2` colour wheel, the hue and lightness state, and `pxToPercent`, `imageToViewPercent`, `updateContentRect` and `getHandleStyle`. Wheel and bar picks take the resulting hex as input, and dragging takes the percentage position as input.
- Numbers are integers. `Number(x)` recognises optionally signed decimal integers only, so fractions, hexadecimal, exponents and `Infinity` are not modelled.
- Case folding is ASCII only. `toLowerCase` in `readBool` and the bridge test does not fold non-ASCII letters.
- The abort signal of the subnet scan is not modelled. No claim is made that batches after an abort are skipped, because the source never checks the signal.
- The LED reset defaults are not modelled. The defaults table is not part of this model, so `LedSetup.ResetToDefaults` takes the entries as a parameter. The reset's follow-up `refresh()` is not modelled either; it never throws.
- The camera page's preset selects and direct switches are not modelled. They call `setPreset`, or `setParam` with their own messages and a refresh, in place of `updateParam`.
- The other page shells are not modelled: Hue, DreamScreen, Color & Motion, Ambient, the device selector, the parameter viewer, routing and rendering.
- LedSetup.LedSetupForm.ToggleSide does not capture one source hazard. It updates the current sides, while the source spreads the `sides` captured at render time, so two toggles within one render could undo each other.
- ParamsStore.BreakerHolds is proved only for runs where each fetch settles before the next event and the address does not change. In the store, a poll still in flight when the breaker trips can succeed and reset the counter, which `PollInFlightAfterTrip` exhibits. An address change also sets the params to null.
- Discovery.ResultFor spreads only object bodies. A truthy body that is not an object, such as a string, is taken to add no fields, while JavaScript would spread its index keys.
- CameraCalibration.CalibrationCard.PointerUp does not re-read the points itself. The source's effect also runs when a drag ends and snaps the points back to the snapshot; the model leaves that to a following `OnParams` call.
- CameraCalibration.CalibrationCard.PointerUp uses the last moved point whenever its index matches, as the source does. This includes a stale one left by an earlier drag of the same point.
- SystemPage.ReadSystemSettings states the syslog fallback and the numeric defaults in its contract. The remaining fields are plain reads with the default shown in the source, and they are not restated one by one.
- StatusCard.Structured bounds the row count in its own contract. Which rows appear, and in what order, is stated by `RowPresent`, `RowOrigin` and `AllPresent`.
- ParamsStore.Step states only the breaker in its own contract. Its effect on the view and the counter is that of `Started`, `Settled` and `CounterAfter`, which it composes.
- JSON arrays are not modelled. `Js.JsValue` has no array case, so an array-valued parameter or reply body cannot be represented. No modelled read takes an array: every parameter the core reads is a number, a boolean, a string or an object.
