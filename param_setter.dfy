/** The quick parameter form (src/components/ParamSetter.jsx): its dropdown, and the
    validation and request of `submit`. */
module ParamSetter {
  import opened Wrappers
  import opened Client

  /** The dropdown entry that stands for "no parameter chosen". */
  const Placeholder := "--select--"

  /** `selectOptions`: no dropdown without options; otherwise the placeholder first, then the
      options in order. */
  function SelectOptions(options: seq<string>): (r: seq<string>)
    ensures options == [] <==> r == []
    ensures options != [] ==> |r| == |options| + 1 && r[0] == Placeholder && r[1..] == options
  {
    if options == [] then [] else [Placeholder] + options
  }

  /** The parameter stored when a dropdown entry is chosen: the placeholder means none. */
  function OnSelect(next: string): (r: string)
    ensures next == Placeholder ==> r == ""
    ensures next != Placeholder ==> r == next
  {
    if next == Placeholder then "" else next
  }

  /** The entry the dropdown shows for the stored parameter. */
  function Shown(param: string): (r: string)
    ensures param == "" ==> r == Placeholder
    ensures param != "" ==> r == param
  {
    if param == "" then Placeholder else param
  }

  /** Choosing any non-empty entry shows that entry again. */
  lemma SelectRoundTrip(next: string)
    requires next != ""
    ensures Shown(OnSelect(next)) == next
  {
  }

  class ParamForm {
    var param: string
    var value: string
    var message: string
    /** Requests sent to the device, oldest first. */
    var sent: seq<string>

    constructor()
      ensures param == "" && value == "" && message == "" && sent == []
    {
      param := "";
      value := "";
      message := "";
      sent := [];
    }

    method Select(next: string)
      modifies this
      ensures param == OnSelect(next)
      ensures value == old(value) && message == old(message) && sent == old(sent)
    {
      param := OnSelect(next);
    }

    /** The free-text parameter field, shown when there are no options: the typed text is
        the parameter, with no placeholder mapping. */
    method TypeParam(text: string)
      modifies this
      ensures param == text
      ensures value == old(value) && message == old(message) && sent == old(sent)
    {
      param := text;
    }

    /** The value field: the typed text is the value, sent later exactly as typed. */
    method TypeValue(text: string)
      modifies this
      ensures value == text
      ensures param == old(param) && message == old(message) && sent == old(sent)
    {
      value := text;
    }

    /** The start of `submit`: an empty parameter is refused without a request; otherwise the
        message is cleared and `setParam(param, value)` is sent exactly as typed. */
    method Submit() returns (sending: bool)
      modifies this
      ensures param == old(param) && value == old(value)
      ensures sending <==> param != ""
      ensures param == "" ==> message == "Param is required" && sent == old(sent)
      ensures param != "" ==> message == "" && sent == old(sent) + [SetParamPath(param, value)]
    {
      if param == "" {
        message := "Param is required";
        return false;
      }
      message := "";
      sent := sent + [SetParamPath(param, value)];
      return true;
    }

    /** The end of `submit`: the reply or the error is shown. */
    method CompleteSubmit(reply: Reply<string>)
      modifies this
      ensures param == old(param) && value == old(value) && sent == old(sent)
      ensures reply.Replied? ==> message == reply.data
      ensures reply.Failed? ==> message == ErrorText(reply.message, "Failed to set parameter")
    {
      match reply {
        case Replied(text) => message := text;
        case Failed(err) => message := ErrorText(err, "Failed to set parameter");
      }
    }
  }
}
