/** The subnet scan (src/utils/discovery.js): hosts 1..254 of a /24 are probed in batches of
    twenty, each batch settled before the next starts, and the hosts that answer with a
    successful, truthy JSON body are collected in ascending order. A probe is an abstract
    function from host number to its outcome. */
module Discovery {
  import opened Wrappers
  import opened Strings
  import opened Js

  const BatchSize := 20
  /** One past the last host probed. */
  const HostLimit := 255

  /** How one probe ends: no response (network error, timeout or abort), or a response with
      its status and its body parsed as JSON (`None` when it is not JSON). */
  datatype Probe = NoResponse | Response(status: int, body: Option<JsValue>)

  /** A probe that yields a device: a 2xx response with a truthy JSON body. */
  predicate Accepted(p: Probe) {
    p.Response? && 200 <= p.status <= 299 && p.body.Some? && Truthy(p.body.value)
  }

  function HostAddress(base: string, i: nat): string {
    "http://" + base + "." + IntToDecimal(i)
  }

  /** `{ ip: 'http://<base>.<i>', ...data }`: the body's own fields come last, so a body field
      named `ip` wins. */
  function ResultFor(base: string, i: nat, body: JsValue): (r: Snapshot)
    ensures "ip" in r
    ensures body.JObject? && "ip" in body.fields ==> r["ip"] == body.fields["ip"]
    ensures !(body.JObject? && "ip" in body.fields) ==> r["ip"] == JStr(HostAddress(base, i))
    ensures body.JObject? ==> forall k :: k in body.fields ==> k in r && r[k] == body.fields[k]
  {
    var own := map["ip" := JStr(HostAddress(base, i))];
    if body.JObject? then own + body.fields else own
  }

  /** `[lo, lo + 1, …, hi - 1]`. */
  function Range(lo: nat, hi: nat): (r: seq<nat>)
    ensures |r| == if hi <= lo then 0 else hi - lo
    ensures forall k :: 0 <= k < |r| ==> r[k] == lo + k
    decreases hi - lo
  {
    if hi <= lo then [] else [lo] + Range(lo + 1, hi)
  }

  lemma RangeAppend(a: nat, b: nat, c: nat)
    requires a <= b <= c
    ensures Range(a, b) + Range(b, c) == Range(a, c)
  {
  }

  function Min(a: nat, b: nat): nat {
    if a < b then a else b
  }

  /** The hosts of batch `k`: from `1 + 20k` up to, but excluding, `21 + 20k` or 255. */
  function Batch(k: nat): seq<nat> {
    Range(1 + BatchSize * k, Min(1 + BatchSize * (k + 1), HostLimit))
  }

  /** Batch starts 1, 21, …, 241: thirteen batches. */
  const BatchCount := 13

  function BatchPlan(): (r: seq<seq<nat>>)
    ensures |r| == BatchCount
    ensures forall k :: 0 <= k < BatchCount ==> r[k] == Batch(k)
  {
    seq(BatchCount, (k: int) requires 0 <= k => Batch(k))
  }

  function Flatten(bs: seq<seq<nat>>): seq<nat> {
    if bs == [] then [] else Flatten(bs[..|bs| - 1]) + bs[|bs| - 1]
  }

  /** Each batch has at most twenty hosts, starts at `1 + 20k`, and the last has fourteen. */
  lemma BatchBounds(k: nat)
    requires k < BatchCount
    ensures 1 <= |Batch(k)| <= BatchSize
    ensures Batch(k)[0] == 1 + BatchSize * k
    ensures k == BatchCount - 1 ==> |Batch(k)| == 14
  {
  }

  /** The first `k` batches cover hosts `1 .. 20k` in order. */
  lemma {:induction false} FlattenPrefix(k: nat)
    requires k <= BatchCount
    ensures Flatten(BatchPlan()[..k]) == Range(1, Min(1 + BatchSize * k, HostLimit))
  {
    if k > 0 {
      var plan := BatchPlan();
      var prefix := plan[..k];
      assert prefix[..k - 1] == plan[..k - 1];
      assert prefix[k - 1] == Batch(k - 1);
      assert Flatten(prefix) == Flatten(plan[..k - 1]) + Batch(k - 1);
      FlattenPrefix(k - 1);
      var mid := 1 + BatchSize * (k - 1);
      assert Min(mid, HostLimit) == mid;
      RangeAppend(1, mid, Min(1 + BatchSize * k, HostLimit));
    }
  }

  /** Every host 1..254 is probed exactly once, in ascending order; 0 and 255 never are. */
  lemma CoversAllHosts()
    ensures Flatten(BatchPlan()) == Range(1, HostLimit)
    ensures 0 !in Flatten(BatchPlan()) && HostLimit !in Flatten(BatchPlan())
  {
    assert BatchPlan()[..BatchCount] == BatchPlan();
    FlattenPrefix(BatchCount);
  }

  /** The accepted hosts in `[lo, hi)`, ascending. */
  function AcceptedHosts(probe: nat -> Probe, lo: nat, hi: nat): seq<nat>
    decreases hi
  {
    if hi <= lo then []
    else AcceptedHosts(probe, lo, hi - 1) + (if Accepted(probe(hi - 1)) then [hi - 1] else [])
  }

  /** A host is listed exactly when it is in range and its probe was accepted. */
  lemma {:induction false} AcceptedHostsMembers(probe: nat -> Probe, lo: nat, hi: nat, i: nat)
    ensures i in AcceptedHosts(probe, lo, hi) <==> lo <= i < hi && Accepted(probe(i))
    decreases hi
  {
    if hi > lo {
      AcceptedHostsMembers(probe, lo, hi - 1, i);
    }
  }

  /** The accepted hosts are strictly ascending and within range. */
  lemma {:induction false} AcceptedHostsAscending(probe: nat -> Probe, lo: nat, hi: nat)
    ensures forall a, b :: 0 <= a < b < |AcceptedHosts(probe, lo, hi)| ==>
      AcceptedHosts(probe, lo, hi)[a] < AcceptedHosts(probe, lo, hi)[b]
    ensures forall a :: 0 <= a < |AcceptedHosts(probe, lo, hi)| ==> lo <= AcceptedHosts(probe, lo, hi)[a] < hi
    decreases hi
  {
    if hi > lo {
      AcceptedHostsAscending(probe, lo, hi - 1);
    }
  }

  /** The results for the hosts in `[lo, hi)`, in host order: the `k`-th result belongs to
      the `k`-th accepted host. */
  function Collect(base: string, probe: nat -> Probe, lo: nat, hi: nat): (r: seq<Snapshot>)
    ensures |r| == |AcceptedHosts(probe, lo, hi)|
    ensures forall k :: 0 <= k < |r| ==>
      var i := AcceptedHosts(probe, lo, hi)[k];
      Accepted(probe(i)) && r[k] == ResultFor(base, i, probe(i).body.value)
    decreases hi
  {
    if hi <= lo then []
    else Collect(base, probe, lo, hi - 1)
         + (if Accepted(probe(hi - 1)) then [ResultFor(base, hi - 1, probe(hi - 1).body.value)] else [])
  }

  /** Starting the probes of one batch: hosts `from` up to `hi`, in order. */
  method LaunchBatch(from: nat, hi: nat) returns (batch: seq<nat>)
    requires from <= hi
    ensures batch == Range(from, hi)
  {
    batch := [];
    var i := from;
    while i < hi
      invariant from <= i <= hi
      invariant batch == Range(from, i)
    {
      RangeAppend(from, i, i + 1);
      batch := batch + [i];
      i := i + 1;
    }
  }

  /** Settling one batch: the accepted probes' results are appended in host order. */
  method SettleBatch(base: string, probe: nat -> Probe, batch: seq<nat>, from: nat, results: seq<Snapshot>)
      returns (results': seq<Snapshot>)
    requires 1 <= from && batch == Range(from, from + |batch|)
    requires results == Collect(base, probe, 1, from)
    ensures results' == Collect(base, probe, 1, from + |batch|)
  {
    results' := results;
    var j := 0;
    while j < |batch|
      invariant 0 <= j <= |batch|
      invariant results' == Collect(base, probe, 1, from + j)
    {
      var p := probe(batch[j]);
      if Accepted(p) {
        results' := results' + [ResultFor(base, batch[j], p.body.value)];
      }
      j := j + 1;
    }
  }

  /** The plan's first `k + 1` batches extend its first `k` by batch `k`. */
  lemma PlanStep(k: nat)
    requires k < BatchCount
    ensures BatchPlan()[..k + 1] == BatchPlan()[..k] + [Batch(k)]
  {
    var plan := BatchPlan();
    assert plan[..k + 1] == plan[..k] + [plan[k]];
  }

  /** One round of the scan: batch `k` is launched and settled. */
  method RunBatch(base: string, probe: nat -> Probe, k: nat, results: seq<Snapshot>)
      returns (batch: seq<nat>, results': seq<Snapshot>)
    requires k < BatchCount
    requires results == Collect(base, probe, 1, 1 + BatchSize * k)
    ensures batch == Batch(k)
    ensures results' == Collect(base, probe, 1, Min(1 + BatchSize * (k + 1), HostLimit))
  {
    var from := 1 + BatchSize * k;
    var hi := Min(from + BatchSize, HostLimit);
    batch := LaunchBatch(from, hi);
    results' := SettleBatch(base, probe, batch, from, results);
  }

  /** `scanSubnet`: trailing dots are stripped from the subnet; the batches are those of the
      plan, and the results are the accepted hosts' results in ascending host order. */
  method ScanSubnet(subnet: string, probe: nat -> Probe)
      returns (base: string, batches: seq<seq<nat>>, results: seq<Snapshot>)
    ensures base == StripTrailing(subnet, '.') && !EndsWith(base, '.')
    ensures batches == BatchPlan()
    ensures results == Collect(base, probe, 1, HostLimit)
  {
    base := StripTrailing(subnet, '.');
    results := [];
    batches := [];
    var from := 1;
    var k := 0;
    while from <= 254
      invariant k <= BatchCount && from == 1 + BatchSize * k && (from <= 254 <==> k < BatchCount)
      invariant batches == BatchPlan()[..k]
      invariant results == Collect(base, probe, 1, Min(from, HostLimit))
    {
      var batch;
      batch, results := RunBatch(base, probe, k, results);
      PlanStep(k);
      batches := batches + [batch];
      from := from + BatchSize;
      k := k + 1;
    }
    PlanComplete(k);
  }

  /** After the last batch the plan is complete. */
  lemma PlanComplete(k: nat)
    requires k == BatchCount
    ensures BatchPlan()[..k] == BatchPlan()
  {
  }

  /** A host is in the results exactly when its probe was accepted. */
  lemma ResultsAreAcceptedHosts(base: string, probe: nat -> Probe, i: nat)
    requires 1 <= i < HostLimit && Accepted(probe(i))
    ensures ResultFor(base, i, probe(i).body.value) in Collect(base, probe, 1, HostLimit)
  {
    AcceptedHostsMembers(probe, 1, HostLimit, i);
    var hosts := AcceptedHosts(probe, 1, HostLimit);
    var k :| 0 <= k < |hosts| && hosts[k] == i;
    assert Collect(base, probe, 1, HostLimit)[k] == ResultFor(base, i, probe(i).body.value);
  }
}
