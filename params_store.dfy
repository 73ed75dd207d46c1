/** The device-parameter store (src/contexts/DeviceParamsContext.jsx): the last parameter
    snapshot, the loading flag and error text, a counter of consecutive failed fetches that
    switches polling off at three, and the polling interval. The class
    `DeviceParamsProvider` splits each fetch into its start and its completion, so other
    events may come between them. The event model `Step`/`Run` takes every fetch from start
    to end in one event and has no address change; `BreakerHolds` is proved about that model
    only, and `PollInFlightAfterTrip` shows what the class allows beyond it. */
module ParamsStore {
  import opened Wrappers
  import opened ParamUtils

  const LoadFailed := "Failed to load parameters"

  /** After this many consecutive failures a poll tick no longer fetches. */
  const MaxConsecutiveErrors := 3

  /** What the store exposes to the pages. */
  datatype View = View(params: Params, loading: bool, error: string)

  /** The start of `refresh(silent)`: a visible refresh shows loading and clears the error; a
      silent one changes nothing. */
  function Started(v: View, silent: bool): (r: View)
    ensures silent ==> r == v
    ensures !silent ==> r.loading && r.error == "" && r.params == v.params
  {
    if silent then v else v.(loading := true, error := "")
  }

  /** The end of `refresh(silent)`: a reply replaces the snapshot wholesale, a failure keeps
      it; only a visible refresh touches `loading` (always back to false) and `error` (the
      failure text). */
  function Settled(v: View, silent: bool, reply: Reply<Params>): (r: View)
    ensures reply.Replied? ==> r.params == reply.data
    ensures reply.Failed? ==> r.params == v.params
    ensures silent ==> r.loading == v.loading && r.error == v.error
    ensures !silent ==> !r.loading
    ensures !silent && reply.Failed? ==> r.error == ErrorText(reply.message, LoadFailed)
    ensures reply.Replied? ==> r.error == v.error
  {
    var v' := match reply
      case Replied(data) => v.(params := data)
      case Failed(msg) => if silent then v else v.(error := ErrorText(msg, LoadFailed));
    if silent then v' else v'.(loading := false)
  }

  /** The consecutive-failure counter after a fetch settles. */
  function CounterAfter(n: nat, reply: Reply<Params>): (r: nat)
    ensures reply.Replied? ==> r == 0
    ensures reply.Failed? ==> r == n + 1
  {
    if reply.Replied? then 0 else n + 1
  }

  /** A silent refresh, start to end, never changes `loading` or `error`. */
  lemma SilentRefreshInvisible(v: View, reply: Reply<Params>)
    ensures Settled(Started(v, true), true, reply).loading == v.loading
    ensures Settled(Started(v, true), true, reply).error == v.error
  {
  }

  /** A visible refresh, start to end, ends idle, with the error cleared on success. */
  lemma VisibleRefreshOutcome(v: View, reply: Reply<Params>)
    ensures !Settled(Started(v, false), false, reply).loading
    ensures reply.Replied? ==> Settled(Started(v, false), false, reply) == View(reply.data, false, "")
    ensures reply.Failed? ==>
      Settled(Started(v, false), false, reply) == View(v.params, false, ErrorText(reply.message, LoadFailed))
  {
  }

  /** The view after the address changes: cleared and idle for an empty address; cleared and
      loading (with a visible refresh started) otherwise. */
  function AddressChangedView(baseUrl: string): (r: View)
    ensures r.params.None? && r.error == ""
    ensures r.loading <==> baseUrl != []
  {
    if baseUrl == [] then View(None, false, "") else Started(View(None, false, ""), false)
  }

  /** The store as seen by its polling: the view and the failure counter. */
  datatype Store = Store(view: View, errors: nat)

  /** Events in the life of a polled store, each fetch taken from start to end. */
  datatype Event = PollTick(reply: Reply<Params>) | ExplicitRefresh(reply: Reply<Params>)

  /** One event: a tick does nothing once the counter has reached the limit, and otherwise
      runs a silent refresh; an explicit refresh is visible. */
  function Step(s: Store, e: Event): (r: Store)
    ensures e.PollTick? && s.errors >= MaxConsecutiveErrors ==> r == s
  {
    match e
    case PollTick(reply) =>
      if s.errors >= MaxConsecutiveErrors then s
      else Store(Settled(Started(s.view, true), true, reply), CounterAfter(s.errors, reply))
    case ExplicitRefresh(reply) =>
      Store(Settled(Started(s.view, false), false, reply), CounterAfter(s.errors, reply))
  }

  function Run(s: Store, es: seq<Event>): Store
    decreases |es|
  {
    if es == [] then s else Run(Step(s, es[0]), es[1..])
  }

  predicate ExplicitSuccess(e: Event) {
    e.ExplicitRefresh? && e.reply.Replied?
  }

  /** The circuit breaker, for runs whose every fetch settles before the next event and whose
      address does not change: once three failures have accumulated, nothing but an explicit
      successful refresh brings the counter down, and until then ticks fetch nothing, so the
      snapshot stays as it was. A poll already in flight when the breaker trips is outside
      this model (see `PollInFlightAfterTrip`). */
  lemma {:induction false} BreakerHolds(s: Store, es: seq<Event>)
    requires s.errors >= MaxConsecutiveErrors
    requires forall i :: 0 <= i < |es| ==> !ExplicitSuccess(es[i])
    ensures Run(s, es).errors >= MaxConsecutiveErrors
    ensures Run(s, es).view.params == s.view.params
    decreases |es|
  {
    if es != [] {
      var t := Step(s, es[0]);
      assert !ExplicitSuccess(es[0]);
      assert t.errors >= MaxConsecutiveErrors && t.view.params == s.view.params;
      assert forall i :: 0 <= i < |es[1..]| ==> !ExplicitSuccess(es[1..][i]) by {
        forall i | 0 <= i < |es[1..]| ensures !ExplicitSuccess(es[1..][i]) {
          assert es[1..][i] == es[i + 1];
        }
      }
      BreakerHolds(t, es[1..]);
    }
  }

  /** Three failing ticks in a row from a healthy store trip the breaker, and a fourth tick
      does nothing. */
  lemma ThreeFailuresTrip(v: View, m1: string, m2: string, m3: string, any: Reply<Params>)
    ensures var s := Run(Store(v, 0), [PollTick(Failed(m1)), PollTick(Failed(m2)), PollTick(Failed(m3))]);
      s.errors == 3 && Step(s, PollTick(any)) == s && s.view == v
  {
    var es := [PollTick(Failed(m1)), PollTick(Failed(m2)), PollTick(Failed(m3))];
    assert es[1..] == [PollTick(Failed(m2)), PollTick(Failed(m3))];
    assert es[1..][1..] == [PollTick(Failed(m3))];
    assert es[1..][1..][1..] == [];
    var s1 := Step(Store(v, 0), es[0]);
    assert s1 == Store(v, 1);
    var s2 := Step(s1, es[1..][0]);
    assert s2 == Store(v, 2);
    var s3 := Step(s2, es[1..][1..][0]);
    assert s3 == Store(v, 3);
    assert Run(s3, []) == s3;
    assert Run(s2, es[1..][1..]) == Run(s3, []);
    assert Run(s1, es[1..]) == Run(s2, es[1..][1..]);
    assert Run(Store(v, 0), es) == Run(s1, es[1..]);
  }

  /** An explicit successful refresh resets the breaker. */
  lemma ExplicitSuccessResets(s: Store, data: Params)
    ensures Step(s, ExplicitRefresh(Replied(data))).errors == 0
    ensures Step(s, ExplicitRefresh(Replied(data))).view == View(data, false, "")
  {
  }

  class DeviceParamsProvider {
    var baseUrl: string
    var params: Params
    var loading: bool
    var error: string
    var consecutiveErrors: nat
    /** The interval the polling effect holds, if any. */
    var pollId: Option<nat>
    /** Intervals registered and not cleared. */
    var activeIntervals: set<nat>
    var nextTimerId: nat
    /** The `silent` flag of every parameter fetch issued, oldest first. */
    var fetches: seq<bool>

    ghost predicate Valid()
      reads this
    {
      (baseUrl == [] ==> pollId.None?)
      && (pollId.None? ==> activeIntervals == {})
      && (pollId.Some? ==> activeIntervals == {pollId.value} && pollId.value < nextTimerId)
    }

    function CurrentView(): View
      reads this
    {
      View(params, loading, error)
    }

    /** The initial state: no snapshot, loading, no error, no interval. */
    constructor(baseUrl0: string)
      ensures Valid()
      ensures baseUrl == baseUrl0 && CurrentView() == View(None, true, "")
      ensures consecutiveErrors == 0 && pollId.None? && fetches == []
    {
      baseUrl := baseUrl0;
      params := None;
      loading := true;
      error := "";
      consecutiveErrors := 0;
      pollId := None;
      activeIntervals := {};
      nextTimerId := 1;
      fetches := [];
    }

    /** The start of `refresh(silent)`: one fetch is issued. */
    method BeginRefresh(silent: bool)
      modifies this
      requires Valid()
      ensures Valid()
      ensures CurrentView() == Started(old(CurrentView()), silent)
      ensures fetches == old(fetches) + [silent]
      ensures consecutiveErrors == old(consecutiveErrors) && baseUrl == old(baseUrl)
      ensures pollId == old(pollId) && activeIntervals == old(activeIntervals)
      ensures nextTimerId == old(nextTimerId)
    {
      if !silent {
        loading := true;
        error := "";
      }
      fetches := fetches + [silent];
    }

    /** The end of `refresh(silent)`: view and counter as `Settled` and `CounterAfter` say.
        A caller is expected to pair it with an earlier `BeginRefresh(silent)`; that pairing is
        not checked, since fetches in flight settle in any order and `fetches` records only
        their starts. */
    method CompleteRefresh(silent: bool, reply: Reply<Params>)
      modifies this
      requires Valid()
      ensures Valid()
      ensures CurrentView() == Settled(old(CurrentView()), silent, reply)
      ensures consecutiveErrors == CounterAfter(old(consecutiveErrors), reply)
      ensures fetches == old(fetches) && baseUrl == old(baseUrl)
      ensures pollId == old(pollId) && activeIntervals == old(activeIntervals)
      ensures nextTimerId == old(nextTimerId)
    {
      match reply {
        case Replied(data) =>
          params := data;
          consecutiveErrors := 0;
        case Failed(msg) =>
          if !silent {
            error := ErrorText(msg, LoadFailed);
          }
          consecutiveErrors := consecutiveErrors + 1;
      }
      if !silent {
        loading := false;
      }
    }

    /** `startPolling`: registers an interval unless one is already held. It exists only
        inside the polling effect, which returns early for an empty address. */
    method StartPolling()
      modifies this
      requires Valid() && baseUrl != []
      ensures Valid() && pollId.Some?
      ensures old(pollId).Some? ==> pollId == old(pollId) && nextTimerId == old(nextTimerId)
      ensures old(pollId).None? ==> pollId == Some(old(nextTimerId)) && nextTimerId == old(nextTimerId) + 1
      ensures CurrentView() == old(CurrentView()) && consecutiveErrors == old(consecutiveErrors)
      ensures fetches == old(fetches) && baseUrl == old(baseUrl)
    {
      if pollId.None? {
        pollId := Some(nextTimerId);
        activeIntervals := {nextTimerId};
        nextTimerId := nextTimerId + 1;
      }
    }

    /** `stopPolling`: clears the held interval, if any. */
    method StopPolling()
      modifies this
      requires Valid()
      ensures Valid() && pollId.None? && activeIntervals == {}
      ensures nextTimerId == old(nextTimerId)
      ensures CurrentView() == old(CurrentView()) && consecutiveErrors == old(consecutiveErrors)
      ensures fetches == old(fetches) && baseUrl == old(baseUrl)
    {
      pollId := None;
      activeIntervals := {};
    }

    /** The visibility listener: polling runs while the page is visible. The listener is
        registered only for a non-empty address, so with none the event changes nothing. */
    method OnVisibilityChange(visible: bool)
      modifies this
      requires Valid()
      ensures Valid()
      ensures pollId.Some? <==> visible && baseUrl != []
      ensures |activeIntervals| <= 1
      ensures baseUrl == [] ==> pollId == old(pollId) && activeIntervals == old(activeIntervals)
      ensures CurrentView() == old(CurrentView()) && consecutiveErrors == old(consecutiveErrors)
      ensures fetches == old(fetches) && baseUrl == old(baseUrl)
    {
      if baseUrl == [] {
        return;
      }
      if visible {
        StartPolling();
      } else {
        StopPolling();
      }
    }

    /** An interval tick: no fetch once three failures have accumulated; otherwise a silent
        refresh starts. */
    method Tick(id: nat) returns (fetched: bool)
      modifies this
      requires Valid() && id in activeIntervals
      ensures Valid()
      ensures fetched <==> old(consecutiveErrors) < MaxConsecutiveErrors
      ensures fetched ==> fetches == old(fetches) + [true]
      ensures !fetched ==> fetches == old(fetches)
      ensures CurrentView() == old(CurrentView()) && consecutiveErrors == old(consecutiveErrors)
      ensures pollId == old(pollId) && activeIntervals == old(activeIntervals)
      ensures baseUrl == old(baseUrl)
    {
      if consecutiveErrors >= MaxConsecutiveErrors {
        return false;
      }
      BeginRefresh(true);
      return true;
    }

    /** A change of address: the fetch effect clears the view (and starts a visible refresh
        for a non-empty address) without touching the counter; the old polling effect's cleanup
        drops its interval first, and the new one, for a non-empty address on a visible
        page, starts another. */
    method ChangeAddress(newBaseUrl: string, visible: bool)
      modifies this
      requires Valid()
      ensures Valid()
      ensures baseUrl == newBaseUrl
      ensures CurrentView() == AddressChangedView(newBaseUrl)
      ensures consecutiveErrors == old(consecutiveErrors)
      ensures newBaseUrl == [] ==> fetches == old(fetches)
      ensures newBaseUrl != [] ==> fetches == old(fetches) + [false]
      ensures pollId.Some? <==> newBaseUrl != [] && visible
      ensures |activeIntervals| <= 1
    {
      StopPolling();
      baseUrl := newBaseUrl;
      params := None;
      error := "";
      if newBaseUrl == [] {
        loading := false;
      } else {
        loading := true;
        BeginRefresh(false);
      }
      if newBaseUrl != [] && visible {
        StartPolling();
      }
    }
  }

  /** A poll started before the breaker trips still settles afterwards: after two failed
      refreshes a tick starts a silent poll, an explicit refresh fails and brings the counter
      to three, and the poll's success then resets the counter and replaces the snapshot. */
  method PollInFlightAfterTrip() returns (tripped: nat, after: nat, snapshot: Params)
    ensures tripped == MaxConsecutiveErrors
    ensures after == 0 && snapshot == Some(map[])
  {
    var p := new DeviceParamsProvider("http://h");
    p.BeginRefresh(false);
    p.CompleteRefresh(false, Failed("down"));
    p.BeginRefresh(false);
    p.CompleteRefresh(false, Failed("down"));
    p.StartPolling();
    var fetched := p.Tick(p.pollId.value);
    p.BeginRefresh(false);
    p.CompleteRefresh(false, Failed("down"));
    tripped := p.consecutiveErrors;
    p.CompleteRefresh(true, Replied(Some(map[])));
    after := p.consecutiveErrors;
    snapshot := p.params;
  }
}
