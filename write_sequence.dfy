/** Writes sent one at a time that stop at the first failure: what `applyDefaults`, the
    camera page's `applyParams` and the colour send have in common. The replies of one run
    are `device(0)`, `device(1)`, …: the reply to the first, second, … request issued. */
module WriteSequence {
  import opened Wrappers

  /** The index of the first failed reply among the first `n`, or `n` when none failed. */
  function FirstFailure(device: nat -> Reply<string>, n: nat): (k: nat)
    ensures k <= n
    ensures forall j :: 0 <= j < k ==> device(j).Replied?
    ensures k < n ==> device(k).Failed?
  {
    if n == 0 then 0
    else
      var k := FirstFailure(device, n - 1);
      if k < n - 1 then k else if device(n - 1).Failed? then n - 1 else n
  }

  /** How many of `n` requests are issued: all of them, or up to and including the one
      that failed. */
  function SentCount(device: nat -> Reply<string>, n: nat): (c: nat)
    ensures c <= n
    ensures c == n || (c > 0 && device(c - 1).Failed?)
  {
    var k := FirstFailure(device, n);
    if k < n then k + 1 else n
  }

  /** The first failure is determined by the replies alone: whoever finds a failed reply
      after only successes has found it. */
  lemma FirstFailureAt(device: nat -> Reply<string>, n: nat, k: nat)
    requires k < n && device(k).Failed?
    requires forall j :: 0 <= j < k ==> device(j).Replied?
    ensures FirstFailure(device, n) == k
    ensures SentCount(device, n) == k + 1
  {
  }

  /** With no failed reply every request is issued and the run succeeds. */
  lemma NoFailure(device: nat -> Reply<string>, n: nat)
    requires forall j :: 0 <= j < n ==> device(j).Replied?
    ensures FirstFailure(device, n) == n
    ensures SentCount(device, n) == n
  {
  }

  /** The outcome of a run: `None` when every write succeeded, otherwise the message of the
      first failure, which is what the awaiting caller sees thrown. */
  function Outcome(device: nat -> Reply<string>, n: nat): (r: Option<string>)
    ensures r.None? <==> forall j :: 0 <= j < n ==> device(j).Replied?
    ensures r.Some? ==> r.value == device(FirstFailure(device, n)).message
  {
    var k := FirstFailure(device, n);
    if k < n then Some(device(k).message) else None
  }

  /** The requests `rs` awaited one at a time, stopping at the first failed reply: `sent` lists
      the requests issued, `failure` the message of the failure. */
  method SendInOrder(rs: seq<string>, device: nat -> Reply<string>) returns (sent: seq<string>, failure: Option<string>)
    ensures sent == rs[..SentCount(device, |rs|)]
    ensures failure == Outcome(device, |rs|)
  {
    sent := [];
    failure := None;
    var i := 0;
    while i < |rs| && failure.None?
      invariant 0 <= i <= |rs|
      invariant sent == rs[..i]
      invariant forall j :: 0 <= j < i - 1 ==> device(j).Replied?
      invariant failure.None? ==> i == 0 || device(i - 1).Replied?
      invariant failure.Some? ==> i > 0 && device(i - 1).Failed? && failure.value == device(i - 1).message
    {
      assert rs[..i + 1] == rs[..i] + [rs[i]];
      sent := sent + [rs[i]];
      match device(i) {
        case Replied(_) =>
        case Failed(msg) => failure := Some(msg);
      }
      i := i + 1;
    }
    if failure.Some? {
      FirstFailureAt(device, |rs|, i - 1);
    } else {
      NoFailure(device, |rs|);
    }
  }
}
