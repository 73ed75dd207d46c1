/** The per-component parameter hook (src/hooks/useDeviceParams.js): the same visible refresh
    as the store, without the failure counter or polling, re-run whenever the address changes. */
module ParamsHook {
  import opened Wrappers
  import opened ParamUtils
  import opened ParamsStore

  class DeviceParamsHook {
    var params: Params
    var loading: bool
    var error: string
    /** The address of the last render, none before mount. */
    var renderedBase: Option<string>
    /** Parameter fetches issued so far. */
    var fetches: nat

    function CurrentView(): View
      reads this
    {
      View(params, loading, error)
    }

    /** The initial state: no snapshot and loading. */
    constructor()
      ensures CurrentView() == View(None, true, "")
      ensures renderedBase.None? && fetches == 0
    {
      params := None;
      loading := true;
      error := "";
      renderedBase := None;
      fetches := 0;
    }

    /** The start of `refresh`: loading, the error cleared, one fetch issued. */
    method BeginRefresh()
      modifies this
      ensures CurrentView() == Started(old(CurrentView()), false)
      ensures fetches == old(fetches) + 1 && renderedBase == old(renderedBase)
    {
      loading := true;
      error := "";
      fetches := fetches + 1;
    }

    /** The end of `refresh`: a reply replaces the snapshot, a failure keeps it and sets the
        error; loading ends either way. */
    method CompleteRefresh(reply: Reply<Params>)
      modifies this
      ensures CurrentView() == Settled(old(CurrentView()), false, reply)
      ensures fetches == old(fetches) && renderedBase == old(renderedBase)
    {
      match reply {
        case Replied(data) => params := data;
        case Failed(msg) => error := ErrorText(msg, LoadFailed);
      }
      loading := false;
    }

    /** A render with the current address: the effect refreshes on mount and whenever the
        address differs from the previous render's. */
    method Render(baseUrl: string)
      modifies this
      ensures renderedBase == Some(baseUrl)
      ensures old(renderedBase) != Some(baseUrl) ==>
        fetches == old(fetches) + 1 && CurrentView() == Started(old(CurrentView()), false)
      ensures old(renderedBase) == Some(baseUrl) ==>
        fetches == old(fetches) && CurrentView() == old(CurrentView())
    {
      if renderedBase != Some(baseUrl) {
        BeginRefresh();
      }
      renderedBase := Some(baseUrl);
    }
  }

  /** Mounting fetches once, and a later render with the same address fetches nothing more. */
  method MountThenRerender(baseUrl: string) returns (fetches: nat, loading: bool)
    ensures fetches == 1 && loading
  {
    var h := new DeviceParamsHook();
    h.Render(baseUrl);
    h.Render(baseUrl);
    fetches, loading := h.fetches, h.loading;
  }
}
