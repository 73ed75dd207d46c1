/** The system page's settings form (src/pages/SystemPage.jsx): the settings read from the
    snapshot, and the per-key debounce that sends only the last value queued for a key. */
module SystemPage {
  import opened Wrappers
  import opened Strings
  import opened Js
  import opened ParamUtils
  import opened Client

  /** The form's settings. */
  datatype SystemSettings = SystemSettings(
    deviceName: string, buttonMode: int, wifiFail: int,
    syslogServer: string, syslogPort: int,
    debugSerial: bool, debugSyslog: bool, debugUltra: bool, wifiAp: bool,
    relayTarget: string, relayDirect: bool, relayWifiDirect: bool, relayMode: int)

  /** The form before any snapshot: empty texts, zeros, unchecked boxes, relay mode 1. */
  const InitialSettings := SystemSettings("", 0, 0, "", 0, false, false, false, false, "", false, false, 1)

  /** The syslog server: `debugsyslogserver`, else `syslogserver`, else empty. */
  function SyslogServer(p: Snapshot): (r: string)
    ensures "debugsyslogserver" in p && p["debugsyslogserver"] != JNull ==> r == ToJsString(p["debugsyslogserver"])
    ensures (("debugsyslogserver" !in p || p["debugsyslogserver"] == JNull)
             && "syslogserver" in p && p["syslogserver"] != JNull) ==> r == ToJsString(p["syslogserver"])
    ensures (("debugsyslogserver" !in p || p["debugsyslogserver"] == JNull)
             && ("syslogserver" !in p || p["syslogserver"] == JNull)) ==> r == ""
  {
    ReadString(Some(p), "debugsyslogserver", ReadString(Some(p), "syslogserver", ""))
  }

  /** The params effect's reads. */
  function ReadSystemSettings(p: Snapshot): (s: SystemSettings)
    ensures s.syslogServer == SyslogServer(p)
    ensures "ambibackrelaymode" !in p ==> s.relayMode == 1
    ensures "buttonmode" !in p ==> s.buttonMode == 0
    ensures "wififailhandling" !in p ==> s.wifiFail == 0
    ensures "debugsyslogport" !in p ==> s.syslogPort == 0
  {
    var q := Some(p);
    SystemSettings(
      ReadString(q, "devicename", ""), ReadNumber(q, "buttonmode", 0), ReadNumber(q, "wififailhandling", 0),
      SyslogServer(p), ReadNumber(q, "debugsyslogport", 0),
      ReadBool(q, "debugserial", false), ReadBool(q, "debugsyslog", false), ReadBool(q, "debugultra", false),
      ReadBool(q, "deviceapenabled", false),
      ReadString(q, "ambibackrelayto", ""), ReadBool(q, "ambibackrelaydirect", false),
      ReadBool(q, "ambibackrelaywifidirect", false), ReadNumber(q, "ambibackrelaymode", 1))
  }

  /** The initial form is what an empty snapshot reads as. */
  lemma InitialIsEmptyRead()
    ensures ReadSystemSettings(map[]) == InitialSettings
  {
  }

  /** The checkboxes that write through the debounce. */
  datatype SystemFlag = DebugSerial | DebugSyslog | DebugUltra | WifiAp | RelayDirect | RelayWifiDirect

  /** The parameter each checkbox writes. */
  function FlagParam(f: SystemFlag): string {
    match f
    case DebugSerial => "setdebugserial"
    case DebugSyslog => "setdebugsyslog"
    case DebugUltra => "setdebugultra"
    case WifiAp => "setwifiapenable"
    case RelayDirect => "setrelaytodirect"
    case RelayWifiDirect => "setrelaywifidirect"
  }

  function FlagOf(s: SystemSettings, f: SystemFlag): bool {
    match f
    case DebugSerial => s.debugSerial
    case DebugSyslog => s.debugSyslog
    case DebugUltra => s.debugUltra
    case WifiAp => s.wifiAp
    case RelayDirect => s.relayDirect
    case RelayWifiDirect => s.relayWifiDirect
  }

  /** The form with one checkbox set and every other setting kept. */
  function WithFlag(s: SystemSettings, f: SystemFlag, b: bool): (r: SystemSettings)
    ensures FlagOf(r, f) == b
    ensures forall g :: g != f ==> FlagOf(r, g) == FlagOf(s, g)
    ensures r.deviceName == s.deviceName && r.buttonMode == s.buttonMode && r.wifiFail == s.wifiFail
    ensures r.syslogServer == s.syslogServer && r.syslogPort == s.syslogPort
    ensures r.relayTarget == s.relayTarget && r.relayMode == s.relayMode
  {
    match f
    case DebugSerial => s.(debugSerial := b)
    case DebugSyslog => s.(debugSyslog := b)
    case DebugUltra => s.(debugUltra := b)
    case WifiAp => s.(wifiAp := b)
    case RelayDirect => s.(relayDirect := b)
    case RelayWifiDirect => s.(relayWifiDirect := b)
  }

  const SettingFailed := "Failed to update setting"

  /** The bookkeeping of the write timers: `timers` maps a parameter to the id of the last
      timer set for it, `live` holds the timers neither fired nor cleared, and `scheduled`
      says what each timer sends. A live timer is always the last one of its parameter. */
  ghost predicate TimersValid(timers: map<string, nat>, live: set<nat>, scheduled: map<nat, (string, string)>, nextId: nat) {
    && (forall id :: id in live ==> id in scheduled && id < nextId)
    && (forall id :: id in live ==> scheduled[id].0 in timers && timers[scheduled[id].0] == id)
    && (forall k :: k in timers ==> timers[k] < nextId)
    && (forall k :: k in timers && timers[k] in live ==> scheduled[timers[k]].0 == k)
  }

  /** The values waiting to be sent for `key`. */
  ghost function Pending(live: set<nat>, scheduled: map<nat, (string, string)>, key: string): set<string>
    requires forall id :: id in live ==> id in scheduled
  {
    set id | id in live && scheduled[id].0 == key :: scheduled[id].1
  }

  /** At most one write is pending per parameter. */
  lemma AtMostOnePending(timers: map<string, nat>, live: set<nat>, scheduled: map<nat, (string, string)>, nextId: nat, a: nat, b: nat)
    requires TimersValid(timers, live, scheduled, nextId)
    requires a in live && b in live && scheduled[a].0 == scheduled[b].0
    ensures a == b
  {
  }

  /** Queueing `value` for `key` clears the pending timer of `key` and schedules a fresh one:
      afterwards exactly `value` is pending for `key`, and every other key's pending writes
      are unchanged. */
  lemma QueueEffect(timers: map<string, nat>, live: set<nat>, scheduled: map<nat, (string, string)>, nextId: nat,
                    key: string, value: string)
    requires TimersValid(timers, live, scheduled, nextId)
    ensures var live' := (if key in timers then live - {timers[key]} else live) + {nextId};
      var scheduled' := scheduled[nextId := (key, value)];
      && TimersValid(timers[key := nextId], live', scheduled', nextId + 1)
      && Pending(live', scheduled', key) == {value}
      && forall k :: k != key ==> Pending(live', scheduled', k) == Pending(live, scheduled, k)
  {
    var live' := (if key in timers then live - {timers[key]} else live) + {nextId};
    var scheduled' := scheduled[nextId := (key, value)];
    QueueKeepsValid(timers, live, scheduled, nextId, key, value, live');
    assert forall i :: i in live' && scheduled'[i].0 == key ==> i == nextId;
    assert nextId in live' && scheduled'[nextId] == (key, value);
    forall k | k != key
      ensures Pending(live', scheduled', k) == Pending(live, scheduled, k)
    {
      QueueLeavesOthers(timers, live, scheduled, nextId, key, value, live', k);
    }
  }

  lemma QueueKeepsValid(timers: map<string, nat>, live: set<nat>, scheduled: map<nat, (string, string)>, nextId: nat,
                        key: string, value: string, live': set<nat>)
    requires TimersValid(timers, live, scheduled, nextId)
    requires live' == (if key in timers then live - {timers[key]} else live) + {nextId}
    ensures TimersValid(timers[key := nextId], live', scheduled[nextId := (key, value)], nextId + 1)
  {
  }

  lemma QueueLeavesOthers(timers: map<string, nat>, live: set<nat>, scheduled: map<nat, (string, string)>, nextId: nat,
                          key: string, value: string, live': set<nat>, k: string)
    requires TimersValid(timers, live, scheduled, nextId)
    requires live' == (if key in timers then live - {timers[key]} else live) + {nextId}
    requires k != key
    ensures Pending(live', scheduled[nextId := (key, value)], k) == Pending(live, scheduled, k)
  {
    var scheduled' := scheduled[nextId := (key, value)];
    assert forall i :: i in live' && scheduled'[i].0 == k ==> i in live && scheduled'[i] == scheduled[i];
    assert forall i :: i in live && scheduled[i].0 == k ==> i in live';
  }

  /** The page: its form, the settings status line, and the write timers. */
  class SystemForm {
    var settings: SystemSettings
    var status: string
    var timers: map<string, nat>
    var live: set<nat>
    var scheduled: map<nat, (string, string)>
    var nextId: nat

    ghost predicate Valid()
      reads this
    {
      TimersValid(timers, live, scheduled, nextId)
    }

    /** The values waiting to be sent for `key`. */
    ghost function PendingFor(key: string): set<string>
      reads this
      requires Valid()
    {
      Pending(live, scheduled, key)
    }

    constructor()
      ensures Valid() && settings == InitialSettings && status == ""
      ensures live == {} && timers == map[]
    {
      settings := InitialSettings;
      status := "";
      timers := map[];
      live := {};
      scheduled := map[];
      nextId := 0;
    }

    /** The params effect: nothing while the snapshot is null, otherwise every setting is read. */
    method OnParams(params: Params)
      requires Valid()
      modifies this`settings
      ensures Valid()
      ensures params.None? ==> settings == old(settings)
      ensures params.Some? ==> settings == ReadSystemSettings(params.value)
      ensures status == old(status) && live == old(live) && timers == old(timers) && scheduled == old(scheduled)
    {
      if params.Some? {
        settings := ReadSystemSettings(params.value);
      }
    }

    /** `queueParam(key, value)`: the timer pending for `key`, if any, is cleared and a new
        one scheduled with `value`; the timers of other keys are untouched. */
    method QueueParam(key: string, value: string) returns (id: nat)
      requires Valid()
      modifies this`timers, this`live, this`scheduled, this`nextId
      ensures Valid()
      ensures id == old(nextId) && timers == old(timers)[key := id] && scheduled == old(scheduled)[id := (key, value)]
      ensures live == (if key in old(timers) then old(live) - {old(timers)[key]} else old(live)) + {id}
      ensures PendingFor(key) == {value}
      ensures forall k :: k != key ==> PendingFor(k) == old(PendingFor(k))
      ensures settings == old(settings) && status == old(status)
    {
      QueueEffect(timers, live, scheduled, nextId, key, value);
      if key in timers {
        live := live - {timers[key]};
      }
      id := nextId;
      nextId := nextId + 1;
      timers := timers[key := id];
      live := live + {id};
      scheduled := scheduled[id := (key, value)];
    }

    /** A checkbox: the form shows the new value at once and its write is queued as 1/0. */
    method Toggle(f: SystemFlag, next: bool) returns (id: nat)
      requires Valid()
      modifies this`settings, this`timers, this`live, this`scheduled, this`nextId
      ensures Valid()
      ensures settings == WithFlag(old(settings), f, next) && status == old(status)
      ensures PendingFor(FlagParam(f)) == {BitString(next)}
      ensures forall k :: k != FlagParam(f) ==> PendingFor(k) == old(PendingFor(k))
    {
      settings := WithFlag(settings, f, next);
      id := QueueParam(FlagParam(f), BitString(next));
    }

    /** A timer fires: the status is cleared and its `setParam` request goes out. */
    method Fire(id: nat) returns (request: string)
      requires Valid() && id in live
      modifies this`live, this`status
      ensures Valid()
      ensures request == SetParamPath(old(scheduled)[id].0, old(scheduled)[id].1)
      ensures live == old(live) - {id} && status == ""
      ensures timers == old(timers) && scheduled == old(scheduled) && settings == old(settings)
    {
      request := SetParamPath(scheduled[id].0, scheduled[id].1);
      live := live - {id};
      status := "";
    }

    /** The write settles: the status shows the device's answer or the error; there is no
        retry. */
    method Settle(reply: Reply<string>)
      requires Valid()
      modifies this`status
      ensures Valid()
      ensures reply.Replied? ==> status == reply.data
      ensures reply.Failed? ==> status == ErrorText(reply.message, SettingFailed)
      ensures live == old(live) && timers == old(timers) && scheduled == old(scheduled) && settings == old(settings)
    {
      match reply {
        case Replied(text) => status := text;
        case Failed(msg) => status := ErrorText(msg, SettingFailed);
      }
    }
  }

  /** Two values queued for one key before the delay: only the second is ever sent, and the
      first timer can no longer fire. */
  method QueueTwice(key: string, first: string, second: string) returns (request: string)
    ensures request == SetParamPath(key, second)
  {
    var page := new SystemForm();
    var a := page.QueueParam(key, first);
    var b := page.QueueParam(key, second);
    assert a !in page.live && page.live == {b};
    request := page.Fire(b);
  }
}
