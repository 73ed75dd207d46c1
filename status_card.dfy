/** The status card (src/components/StatusCard.jsx): the rows it shows from the device status
    and its `refresh` handler. */
module StatusCard {
  import opened Wrappers
  import opened Js
  import opened ParamUtils

  /** Row labels and the status keys they show, in display order. */
  const StatusFields: seq<(string, string)> := [
    ("Mode", "modestatus"),
    ("Video", "videostatus"),
    ("WiFi", "wifinetwork"),
    ("RSSI", "wifirssi"),
    ("LED FPS", "ledfps"),
    ("Net FPS", "netfps"),
    ("Dropped", "netdrpfps"),
    ("Free Mem", "freemem"),
    ("Free Heap", "freeheap"),
    ("Free PSRAM", "freepsram"),
    ("Cam FPS", "camfps"),
    ("Hue", "huestatus"),
    ("Hue FPS", "huefps"),
    ("DreamScreen", "dreamscreenstatus"),
    ("DreamScreen FPS", "dreamscreenfps")]

  /** The rows for `fields` whose key the status has (any value, `null` included): every
      field gets a row exactly when every key is present, and none does when no key is. */
  function Rows(fields: seq<(string, string)>, status: Snapshot): (r: seq<(string, JsValue)>)
    ensures |r| <= |fields|
    ensures |r| == |fields| <==> forall i :: 0 <= i < |fields| ==> fields[i].1 in status
    ensures (forall i :: 0 <= i < |fields| ==> fields[i].1 !in status) ==> r == []
  {
    if fields == [] then []
    else if fields[0].1 in status then [(fields[0].0, status[fields[0].1])] + Rows(fields[1..], status)
    else Rows(fields[1..], status)
  }

  /** `structured`: nothing without a status, otherwise one row per present key. */
  function Structured(status: Params): (r: seq<(string, JsValue)>)
    ensures status.None? ==> r == []
    ensures |r| <= 15
  {
    match status
    case None => []
    case Some(s) => Rows(StatusFields, s)
  }

  /** Rows keep the order of their fields. */
  lemma {:induction false} RowsAppend(a: seq<(string, string)>, b: seq<(string, string)>, status: Snapshot)
    ensures Rows(a + b, status) == Rows(a, status) + Rows(b, status)
  {
    if a == [] {
      assert a + b == b;
    } else {
      assert (a + b)[0] == a[0];
      assert (a + b)[1..] == a[1..] + b;
      RowsAppend(a[1..], b, status);
    }
  }

  /** A field whose key is present yields its row. */
  lemma {:induction false} RowPresent(fields: seq<(string, string)>, status: Snapshot, i: nat)
    requires i < |fields| && fields[i].1 in status
    ensures (fields[i].0, status[fields[i].1]) in Rows(fields, status)
  {
    if i > 0 {
      assert fields[1..][i - 1] == fields[i];
      RowPresent(fields[1..], status, i - 1);
    }
  }

  /** Every row comes from a field whose key is present, with that key's value. */
  lemma {:induction false} RowOrigin(fields: seq<(string, string)>, status: Snapshot, row: (string, JsValue))
    requires row in Rows(fields, status)
    ensures exists i :: 0 <= i < |fields| && fields[i].0 == row.0 && fields[i].1 in status
                        && status[fields[i].1] == row.1
  {
    if fields[0].1 in status && row == (fields[0].0, status[fields[0].1]) {
      assert fields[0].0 == row.0;
    } else {
      RowOrigin(fields[1..], status, row);
      var j :| 0 <= j < |fields[1..]| && fields[1..][j].0 == row.0 && fields[1..][j].1 in status
               && status[fields[1..][j].1] == row.1;
      assert fields[j + 1] == fields[1..][j];
    }
  }

  /** With every key present the card shows all fifteen rows, in order. */
  lemma {:induction false} AllPresent(fields: seq<(string, string)>, status: Snapshot)
    requires forall i :: 0 <= i < |fields| ==> fields[i].1 in status
    ensures |Rows(fields, status)| == |fields|
    ensures forall i :: 0 <= i < |fields| ==> Rows(fields, status)[i] == (fields[i].0, status[fields[i].1])
  {
    if fields != [] {
      AllPresent(fields[1..], status);
    }
  }

  /** A `null` status value still gets a row; only a missing key drops it. */
  lemma NullKept(s: Snapshot)
    ensures ("Mode", JNull) in Structured(Some(s["modestatus" := JNull]))
  {
    RowPresent(StatusFields, s["modestatus" := JNull], 0);
  }

  class StatusPanel {
    var status: Params
    var error: string
    var loading: bool

    constructor()
      ensures status.None? && error == "" && !loading
    {
      status := None;
      error := "";
      loading := false;
    }

    /** The start of `refresh`: busy and the error cleared; the old status stays shown. */
    method BeginRefresh()
      modifies this
      ensures loading && error == "" && status == old(status)
    {
      loading := true;
      error := "";
    }

    /** The end of `refresh`: a reply replaces the status, a failure keeps it and sets the
        error; either way the card is idle. */
    method CompleteRefresh(reply: Reply<Params>)
      modifies this
      ensures !loading
      ensures reply.Replied? ==> status == reply.data && error == old(error)
      ensures reply.Failed? ==> status == old(status)
                                && error == ErrorText(reply.message, "Failed to load status")
    {
      match reply {
        case Replied(data) => status := data;
        case Failed(msg) => error := ErrorText(msg, "Failed to load status");
      }
      loading := false;
    }
  }
}
