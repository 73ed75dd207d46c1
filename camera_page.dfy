/** The camera page (src/pages/CameraPage.jsx): one form value per camera setting read from
    the parameter snapshot, six "Apply" buttons that send the settings of their section that
    the controller reports, sent one at a time, and the clamps and fallbacks of the displayed
    select values. */
module CameraPage {
  import opened Wrappers
  import opened Strings
  import opened Js
  import opened ParamUtils
  import opened Client
  import opened WriteSequence

  /** The value of one form field: a number, or a checkbox flag. */
  datatype Setting = Num(n: int) | Flag(b: bool)

  /** The "Apply" button a setting belongs to; `Unlisted` settings are sent by none of the
      conditional lists. */
  datatype Section = Setup | Detail | AutoOff | Color | Image | Aec | Unlisted

  /** One setting of the page: the snapshot key it is read from, its initial value (which is
      also the fallback of its read), and the parameter its "Apply" list writes. */
  datatype Field = Field(key: string, initial: Setting, write: string, section: Section)

  /** Mode and "Apply Camera Setup". */
  const ModeAndSetupFields: seq<Field> := [
    Field("cammode", Num(0), "setcammode", Unlisted),
    Field("camperformance", Num(0), "setcamperformance", Setup),
    Field("camresolution", Num(0), "setcamres", Setup),
    Field("camfreq", Num(5), "setcamfreq", Setup),
    Field("camfbcount", Num(2), "setcambufcount", Setup),
    Field("camflicker", Num(0), "setcamflicker", Setup)
  ]

  /** "Apply" detail and smoothing. */
  const DetailFields: seq<Field> := [
    Field("camdetaillevel", Num(0), "setcamdetaillevel", Detail),
    Field("caminnerhori", Num(0), "setcaminnerhori", Detail),
    Field("caminnervert", Num(0), "setcaminnervert", Detail),
    Field("camsmoothmode", Num(0), "setcSmooth", Detail),
    Field("camsmoothenable", Flag(false), "setcSmoothenable", Detail),
    Field("camsmoothmaxframes", Num(0), "setcSmoothmaxframes", Detail),
    Field("camsmoothmaxdiff", Num(0), "setcSmoothmaxdiff", Detail)
  ]

  /** "Apply" automatic on/off. */
  const AutoOffFields: seq<Field> := [
    Field("camautoonoff", Flag(false), "setcamautoonoff", AutoOff),
    Field("camautoonoffdelay", Num(15), "setcamautoonoffdelay", AutoOff)
  ]

  /** Colour correction and thresholds (the colour "Apply"). */
  const ColorCorrectionFields: seq<Field> := [
    Field("camcolorcorred", Num(255), "setcamcolorred", Color),
    Field("camcolorcorgreen", Num(255), "setcamcolorgreen", Color),
    Field("camcolorcorblue", Num(255), "setcamcolorblue", Color),
    Field("camcoloractivationthreshold", Num(0), "setcamactivationthreshold", Color),
    Field("camcolorblackthresholdsmoothing", Num(0), "setcamblackthresholdsmooth", Color),
    Field("camcolorblackremovethreshold", Num(0), "setcamblackremovethreshold", Color),
    Field("camminpixelamount", Num(0), "setcamminpixelamount", Color)
  ]

  /** Image tuning ("Apply" image), and the unsent `camdcw`. */
  const ImageFields: seq<Field> := [
    Field("camcontrast", Num(0), "setcamcontrast", Image),
    Field("cambrightness", Num(0), "setcambrightness", Image),
    Field("camsaturation", Num(0), "setcamsaturation", Image),
    Field("camquality", Num(0), "setcamquality", Image),
    Field("camspecialeffect", Num(0), "setcamspecialeffect", Image),
    Field("camwbmode", Num(0), "setcamwbmode", Image),
    Field("camawbgaincontrol", Flag(false), "setcamawbgain", Image),
    Field("camhmirror", Flag(false), "setcamhmirror", Image),
    Field("camvflip", Flag(false), "setcamvflip", Image),
    Field("camhighquality", Flag(false), "setcamhighquality", Image),
    Field("cambpc", Flag(false), "setcambpc", Image),
    Field("camwpc", Flag(false), "setcamwpc", Image),
    Field("camdenoise", Flag(false), "setcamdenoise", Image),
    Field("camlenc", Flag(false), "setcamlenc", Image),
    Field("camrawgma", Flag(false), "setcamrawgma", Image),
    Field("camdcw", Flag(false), "", Unlisted)
  ]

  /** Exposure and white handling ("Apply" exposure). */
  const ExposureFields: seq<Field> := [
    Field("camaec", Flag(false), "setcamaec", Aec),
    Field("camaec2", Flag(false), "setcamaec2", Aec),
    Field("camaelevels", Num(0), "setcamaelevels", Aec),
    Field("camaecvalue", Num(0), "setcamaecvalue", Aec),
    Field("camaecminvalue", Num(0), "setcamaecminvalue", Aec),
    Field("camaecmaxvalue", Num(0), "setcamaecmaxvalue", Aec),
    Field("camadptexp", Flag(false), "setcamadptexp", Aec),
    Field("camadptgain", Flag(false), "setcamadptgain", Aec),
    Field("camadptgaindown", Num(0), "setcamadaptivegaindown", Aec),
    Field("camadptgainup", Num(0), "setcamadaptivegainup", Aec),
    Field("camadptgainmax", Num(0), "setcamadaptivegainmax", Aec),
    Field("camwhiteactthreshold", Num(0), "setcamwhiteactthreshold", Aec),
    Field("camwhitebeforeactthreshold", Num(0), "setcambeforewhiteactthreshold", Aec),
    Field("camwhiteminamount", Num(0), "setcamwhiteminimumamount", Aec),
    Field("camadaptivechangepercent", Num(0), "setcamadaptivechangepercent", Aec),
    Field("camadaptivechangedelay", Num(0), "setcamadaptivechangedelay", Aec)
  ]

  /** Presets, written by their own selects. */
  const PresetFields: seq<Field> := [
    Field("campreset", Num(3), "", Unlisted),
    Field("camexposurepreset", Num(2), "", Unlisted),
    Field("caminnerpreset", Num(3), "", Unlisted),
    Field("colorpreset", Num(1), "", Unlisted),
    Field("brightnesspreset", Num(3), "", Unlisted)
  ]

  /** Colour boost (the colour "Apply"). */
  const BoostFields: seq<Field> := [
    Field("colorboost", Num(0), "setcolorboost", Color),
    Field("colorboostbalance", Num(50), "setcolorboostbalance", Color),
    Field("colorboostmin", Num(0), "setcolorboostmin", Color),
    Field("colorboostthreshold", Num(0), "setcolorboostthreshold", Color),
    Field("colorboostred", Num(100), "setcolorboostred", Color),
    Field("colorboostgreen", Num(100), "setcolorboostgreen", Color),
    Field("colorboostblue", Num(100), "setcolorboostblue", Color),
    Field("colorvaluegain", Num(100), "setcolorvaluegain", Color),
    Field("minimumluminosity", Num(0), "setminimumluminosity", Color)
  ]

  /** Settings written by their own controls. */
  const OtherFields: seq<Field> := [
    Field("camawhitebalance", Flag(true), "", Unlisted),
    Field("camoverclock", Flag(false), "", Unlisted),
    Field("camcolorbar", Flag(false), "", Unlisted),
    Field("camagainceilingsensor", Num(0), "", Unlisted)
  ]

  /** The settings in the order the page reads them. */
  const Fields: seq<Field> :=
    ModeAndSetupFields + DetailFields + AutoOffFields + ColorCorrectionFields + ImageFields + ExposureFields + PresetFields + BoostFields + OtherFields

  /** The value the page reads for one setting from a snapshot. */
  function ReadField(p: Snapshot, f: Field): (r: Setting)
    ensures r.Flag? <==> f.initial.Flag?
    ensures f.key !in p ==> r == f.initial
    ensures f.initial.Num? && f.key in p && ToNumber(p[f.key]).Some? ==> r == Num(ToNumber(p[f.key]).value)
    ensures f.initial.Num? && f.key in p && ToNumber(p[f.key]).None? ==> r == f.initial
    ensures f.initial.Flag? && f.key in p && p[f.key] != JNull ==>
              r == Flag(IsTrueWord(ToLower(ToJsString(p[f.key]))))
  {
    match f.initial
    case Num(d) => Num(ReadNumber(Some(p), f.key, d))
    case Flag(b) => Flag(ReadBool(Some(p), f.key, b))
  }

  /** The form after the params effect has read every setting from `p`. */
  function Synced(p: Snapshot): (values: seq<Setting>)
    ensures |values| == |Fields|
    ensures forall i :: 0 <= i < |Fields| ==> values[i] == ReadField(p, Fields[i])
  {
    seq(|Fields|, (i: int) requires 0 <= i < |Fields| => ReadField(p, Fields[i]))
  }

  /** The form before any snapshot has arrived. */
  function InitialValues(): (values: seq<Setting>)
    ensures |values| == |Fields|
    ensures forall i :: 0 <= i < |Fields| ==> values[i] == Fields[i].initial
  {
    seq(|Fields|, (i: int) requires 0 <= i < |Fields| => Fields[i].initial)
  }

  /** Every field holds a value of its own kind. */
  predicate WellKinded(values: seq<Setting>) {
    |values| == |Fields| && forall i :: 0 <= i < |Fields| ==> (values[i].Flag? <==> Fields[i].initial.Flag?)
  }

  /** The initial form is what reading an empty snapshot gives: the initial states and the
      read fallbacks agree for every setting. */
  lemma InitialIsEmptyRead()
    ensures Synced(map[]) == InitialValues()
    ensures WellKinded(InitialValues())
  {
    assert forall i :: 0 <= i < |Fields| ==> Synced(map[])[i] == InitialValues()[i];
  }

  /** A missing key reads as the page's documented default. */
  lemma ReadDefaults(p: Snapshot)
    ensures "cammode" !in p ==> Synced(p)[0] == Num(0)
    ensures "camfreq" !in p ==> Synced(p)[3] == Num(5)
    ensures "camfbcount" !in p ==> Synced(p)[4] == Num(2)
    ensures "camautoonoffdelay" !in p ==> Synced(p)[14] == Num(15)
    ensures "campreset" !in p ==> Synced(p)[54] == Num(3)
    ensures "camexposurepreset" !in p ==> Synced(p)[55] == Num(2)
    ensures "colorboostbalance" !in p ==> Synced(p)[60] == Num(50)
    ensures "camawhitebalance" !in p ==> Synced(p)[68] == Flag(true)
  {
    assert Fields[0] == ModeAndSetupFields[0];
    assert Fields[3] == ModeAndSetupFields[3];
    assert Fields[4] == ModeAndSetupFields[4];
    assert Fields[14] == AutoOffFields[1];
    assert Fields[54] == PresetFields[0];
    assert Fields[55] == PresetFields[1];
    assert Fields[60] == BoostFields[1];
    assert Fields[68] == OtherFields[0];
  }

  /** The number a setting is sent as: booleans as 1 or 0. */
  function Wire(s: Setting): (r: int)
    ensures s.Num? ==> r == s.n
    ensures s.Flag? ==> (r == 1 <==> s.b) && (r == 0 <==> !s.b)
  {
    match s
    case Num(n) => n
    case Flag(b) => if b then 1 else 0
  }

  /** Whether the setting at `i` of a table goes into `section`'s list: it belongs to the
      section and the snapshot has its read key. */
  predicate Selected(fields: seq<Field>, params: Params, section: Section, i: nat)
    requires i < |fields|
  {
    fields[i].section == section && HasParam(params, fields[i].key)
  }

  /** The positions of the settings among the first `hi` that `section`'s list sends. */
  function Included(fields: seq<Field>, params: Params, section: Section, hi: nat): (r: seq<nat>)
    requires hi <= |fields|
    ensures |r| <= hi
    ensures forall k :: 0 <= k < |r| ==> r[k] < hi
    decreases hi
  {
    if hi == 0 then []
    else Included(fields, params, section, hi - 1) + (if Selected(fields, params, section, hi - 1) then [hi - 1] else [])
  }

  /** A setting is sent exactly when it is selected, and the sent settings keep the order in
      which the page lists them. */
  lemma {:induction false} IncludedSpec(fields: seq<Field>, params: Params, section: Section, hi: nat)
    requires hi <= |fields|
    ensures forall i :: 0 <= i < |fields| ==>
              (i in Included(fields, params, section, hi) <==> i < hi && Selected(fields, params, section, i))
    ensures forall a, b :: 0 <= a < b < |Included(fields, params, section, hi)| ==>
              Included(fields, params, section, hi)[a] < Included(fields, params, section, hi)[b]
    decreases hi
  {
    if hi > 0 {
      IncludedSpec(fields, params, section, hi - 1);
    }
  }

  /** The `(param, value)` pairs of a section's conditional writes, in table order: one per
      included position, the setting's write name and its wire value. */
  function Pairs(fields: seq<Field>, params: Params, values: seq<Setting>, section: Section): (r: seq<(string, int)>)
    requires |values| == |fields|
    ensures var idx := Included(fields, params, section, |fields|);
      |r| == |idx| && forall k :: 0 <= k < |idx| ==> r[k] == (fields[idx[k]].write, Wire(values[idx[k]]))
  {
    var idx := Included(fields, params, section, |fields|);
    seq(|idx|, (k: int) requires 0 <= k < |idx| => (fields[idx[k]].write, Wire(values[idx[k]])))
  }

  /** The pairs an "Apply" button builds: camera setup always begins with the mode, the first
      setting of the table; no list is longer than the table plus that mode. */
  function ApplyPairs(fields: seq<Field>, params: Params, values: seq<Setting>, section: Section): (r: seq<(string, int)>)
    requires |values| == |fields| && fields != [] && section != Unlisted
    ensures section == Setup ==> r != [] && r[0] == (fields[0].write, Wire(values[0]))
    ensures |r| <= |fields| + 1
  {
    if section == Setup then [(fields[0].write, Wire(values[0]))] + Pairs(fields, params, values, Setup)
    else Pairs(fields, params, values, section)
  }

  /** Camera setup's pairs are the mode followed by the section's pairs; every other
      section's pairs are just its own. */
  lemma SetupPairs(fields: seq<Field>, params: Params, values: seq<Setting>)
    requires |values| == |fields| && fields != []
    ensures var rest := Pairs(fields, params, values, Setup);
      var r := ApplyPairs(fields, params, values, Setup);
      |r| == 1 + |rest| && r[0] == (fields[0].write, Wire(values[0]))
      && forall k :: 0 <= k < |rest| ==> r[1 + k] == rest[k]
  {
    var rest := Pairs(fields, params, values, Setup);
    var r := [(fields[0].write, Wire(values[0]))] + rest;
    assert forall k :: 0 <= k < |rest| ==> r[1 + k] == rest[k];
  }

  /** "Apply Camera Setup" sends `setcammode` first whatever the snapshot holds. */
  lemma SetupStartsWithMode(params: Params, values: seq<Setting>)
    requires |values| == |Fields|
    ensures ApplyPairs(Fields, params, values, Setup) != []
    ensures ApplyPairs(Fields, params, values, Setup)[0] == ("setcammode", Wire(values[0]))
  {
    assert Fields[0] == ModeAndSetupFields[0];
  }

  /** Settings of other sections do not change a section's list. */
  lemma {:induction false} IncludedSkip(fields: seq<Field>, params: Params, section: Section, lo: nat, hi: nat)
    requires lo <= hi <= |fields|
    requires forall i :: lo <= i < hi ==> fields[i].section != section
    ensures Included(fields, params, section, hi) == Included(fields, params, section, lo)
    decreases hi
  {
    if hi > lo {
      IncludedSkip(fields, params, section, lo, hi - 1);
    }
  }

  /** Each table holds the settings of the section its name says; the mode, `camdcw` and the
      settings outside the "Apply" lists are `Unlisted`. */
  lemma SetupGroup()
    ensures forall i :: 1 <= i < |ModeAndSetupFields| ==> ModeAndSetupFields[i].section == Setup
  {
  }

  lemma DetailGroup()
    ensures forall i :: 0 <= i < |DetailFields| ==> DetailFields[i].section == Detail
  {
  }

  lemma ColorCorrectionGroup()
    ensures forall i :: 0 <= i < |ColorCorrectionFields| ==> ColorCorrectionFields[i].section == Color
  {
  }

  lemma ImageGroup()
    ensures forall i :: 0 <= i < 15 ==> ImageFields[i].section == Image
  {
  }

  lemma ExposureGroup()
    ensures forall i :: 0 <= i < |ExposureFields| ==> ExposureFields[i].section == Aec
  {
  }

  lemma PresetGroup()
    ensures forall i :: 0 <= i < |PresetFields| ==> PresetFields[i].section == Unlisted
  {
  }

  lemma BoostGroup()
    ensures forall i :: 0 <= i < |BoostFields| ==> BoostFields[i].section == Color
  {
  }

  lemma OtherGroup()
    ensures forall i :: 0 <= i < |OtherFields| ==> OtherFields[i].section == Unlisted
  {
  }

  /** The automatic on/off settings are the only ones of their section, at 13 and 14. */
  lemma AutoOffPlacement()
    ensures |Fields| == 72
    ensures forall i :: 0 <= i < 13 ==> Fields[i].section != AutoOff
    ensures forall i :: 15 <= i < |Fields| ==> Fields[i].section != AutoOff
    ensures Fields[13] == Field("camautoonoff", Flag(false), "setcamautoonoff", AutoOff)
    ensures Fields[14] == Field("camautoonoffdelay", Num(15), "setcamautoonoffdelay", AutoOff)
  {
    BeforeAutoOff();
    ImageAndColorAfterAutoOff();
    RestAfterAutoOff();
    assert Fields[13] == AutoOffFields[0] && Fields[14] == AutoOffFields[1];
  }

  lemma BeforeAutoOff()
    ensures |Fields| == 72
    ensures forall i :: 0 <= i < 13 ==> Fields[i].section != AutoOff
  {
    SetupGroup(); DetailGroup();
    assert forall i :: 0 <= i < 6 ==> Fields[i] == ModeAndSetupFields[i];
    assert forall i :: 6 <= i < 13 ==> Fields[i] == DetailFields[i - 6];
  }

  lemma ImageAndColorAfterAutoOff()
    ensures forall i :: 15 <= i < 38 ==> Fields[i].section != AutoOff
  {
    ColorCorrectionGroup(); ImageGroup();
    assert forall i :: 15 <= i < 22 ==> Fields[i] == ColorCorrectionFields[i - 15];
    assert forall i :: 22 <= i < 38 ==> Fields[i] == ImageFields[i - 22];
  }

  lemma RestAfterAutoOff()
    ensures |Fields| == 72
    ensures forall i :: 38 <= i < 72 ==> Fields[i].section != AutoOff
  {
    ExposureGroup(); PresetGroup(); BoostGroup(); OtherGroup();
    assert forall i :: 38 <= i < 54 ==> Fields[i] == ExposureFields[i - 38];
    assert forall i :: 54 <= i < 59 ==> Fields[i] == PresetFields[i - 54];
    assert forall i :: 59 <= i < 68 ==> Fields[i] == BoostFields[i - 59];
    assert forall i :: 68 <= i < 72 ==> Fields[i] == OtherFields[i - 68];
  }

  /** A section whose settings sit at `i` and `i + 1` of the table sends the pairs of those
      of the two whose key the snapshot has, in that order. */
  lemma TwoSettingSection(fields: seq<Field>, params: Params, values: seq<Setting>, section: Section, i: nat)
    requires |values| == |fields| && i + 2 <= |fields| && section != Unlisted && section != Setup
    requires forall j :: 0 <= j < |fields| && j != i && j != i + 1 ==> fields[j].section != section
    requires fields[i].section == section && fields[i + 1].section == section
    ensures ApplyPairs(fields, params, values, section) ==
      (if HasParam(params, fields[i].key) then [(fields[i].write, Wire(values[i]))] else [])
      + (if HasParam(params, fields[i + 1].key) then [(fields[i + 1].write, Wire(values[i + 1]))] else [])
  {
    TwoIncluded(fields, params, section, i);
    var r := ApplyPairs(fields, params, values, section);
    var expected :=
      (if HasParam(params, fields[i].key) then [(fields[i].write, Wire(values[i]))] else [])
      + (if HasParam(params, fields[i + 1].key) then [(fields[i + 1].write, Wire(values[i + 1]))] else []);
    assert |r| == |expected|;
    forall k | 0 <= k < |r| ensures r[k] == expected[k] { }
  }

  /** The positions such a section includes: `i` and `i + 1`, each when its key is present. */
  lemma TwoIncluded(fields: seq<Field>, params: Params, section: Section, i: nat)
    requires i + 2 <= |fields|
    requires forall j :: 0 <= j < |fields| && j != i && j != i + 1 ==> fields[j].section != section
    requires fields[i].section == section && fields[i + 1].section == section
    ensures Included(fields, params, section, |fields|) ==
      (if HasParam(params, fields[i].key) then [i] else []) + (if HasParam(params, fields[i + 1].key) then [i + 1] else [])
  {
    IncludedSkip(fields, params, section, 0, i);
    IncludedNext(fields, params, section, i);
    IncludedNext(fields, params, section, i + 1);
    IncludedSkip(fields, params, section, i + 2, |fields|);
    var first := if HasParam(params, fields[i].key) then [i] else [];
    assert [] + first == first;
  }

  /** One more setting of the section: its position joins the list when its key is present. */
  lemma IncludedNext(fields: seq<Field>, params: Params, section: Section, hi: nat)
    requires hi < |fields| && fields[hi].section == section
    ensures Included(fields, params, section, hi + 1) ==
      Included(fields, params, section, hi) + (if HasParam(params, fields[hi].key) then [hi] else [])
  {
  }

  /** "Apply" automatic on/off sends the flag as 1/0 and then the delay, each only when the
      snapshot has its key. */
  lemma AutoOffList(params: Params, values: seq<Setting>)
    requires |values| == |Fields|
    ensures ApplyPairs(Fields, params, values, AutoOff) ==
      (if HasParam(params, "camautoonoff") then [("setcamautoonoff", Wire(values[13]))] else [])
      + (if HasParam(params, "camautoonoffdelay") then [("setcamautoonoffdelay", Wire(values[14]))] else [])
  {
    AutoOffPlacement();
    TwoSettingSection(Fields, params, values, AutoOff, 13);
  }

  /** Boolean settings go out as 1 or 0. */
  lemma FlagsSentAsBits(fields: seq<Field>, params: Params, values: seq<Setting>, section: Section)
    requires |values| == |fields|
    requires forall i :: 0 <= i < |fields| ==> (values[i].Flag? <==> fields[i].initial.Flag?)
    ensures forall k :: 0 <= k < |Pairs(fields, params, values, section)| ==>
      var i := Included(fields, params, section, |fields|)[k];
      fields[i].initial.Flag? ==> Pairs(fields, params, values, section)[k].1 in {0, 1}
  {
  }

  const CameraUpdated := "Camera settings updated"
  const CameraUpdateFailed := "Failed to update camera settings"
  const Saved := "Saved"
  const UpdateFailed := "Failed to update"

  /** The request for one pair: `setParam(param, value)` with the number spelt in decimal. */
  function PairRequests(pairs: seq<(string, int)>): (rs: seq<string>)
    ensures |rs| == |pairs|
    ensures forall k :: 0 <= k < |pairs| ==> rs[k] == SetParamPath(pairs[k].0, IntToDecimal(pairs[k].1))
  {
    seq(|pairs|, (k: int) requires 0 <= k < |pairs| => SetParamPath(pairs[k].0, IntToDecimal(pairs[k].1)))
  }

  /** `applyParams`: the pairs are written one at a time until one fails; the message reports
      success only when every write succeeded. */
  method ApplyParams(pairs: seq<(string, int)>, device: nat -> Reply<string>)
    returns (sent: seq<string>, message: string)
    ensures sent == PairRequests(pairs)[..SentCount(device, |pairs|)]
    ensures Outcome(device, |pairs|).None? ==> message == CameraUpdated
    ensures Outcome(device, |pairs|).Some? ==>
              message == ErrorText(Outcome(device, |pairs|).value, CameraUpdateFailed)
  {
    var failure;
    sent, failure := SendInOrder(PairRequests(pairs), device);
    message := if failure.None? then CameraUpdated else ErrorText(failure.value, CameraUpdateFailed);
  }

  /** The page's form and its status line. */
  class CameraForm {
    var values: seq<Setting>
    var message: string

    ghost predicate Valid()
      reads this
    {
      WellKinded(values)
    }

    constructor()
      ensures Valid() && values == InitialValues() && message == ""
    {
      InitialIsEmptyRead();
      values := InitialValues();
      message := "";
    }

    /** The params effect: nothing while the snapshot is null, otherwise every setting is read
        again. */
    method OnParams(params: Params)
      requires Valid()
      modifies this
      ensures Valid() && message == old(message)
      ensures params.None? ==> values == old(values)
      ensures params.Some? ==> values == Synced(params.value)
    {
      if params.Some? {
        values := Synced(params.value);
      }
    }

    /** The user changes one control. */
    method Edit(i: nat, s: Setting)
      requires Valid() && i < |Fields| && (s.Flag? <==> Fields[i].initial.Flag?)
      modifies this
      ensures Valid() && values == old(values)[i := s] && message == old(message)
    {
      values := values[i := s];
    }

    /** An "Apply" button: the message is cleared, the section's pairs are written, and the
        outcome is reported. */
    method Apply(params: Params, section: Section, device: nat -> Reply<string>) returns (sent: seq<string>)
      requires Valid() && section != Unlisted
      modifies this
      ensures Valid() && values == old(values)
      ensures var pairs := ApplyPairs(Fields, params, values, section);
        sent == PairRequests(pairs)[..SentCount(device, |pairs|)]
        && (Outcome(device, |pairs|).None? ==> message == CameraUpdated)
        && (Outcome(device, |pairs|).Some? ==> message == ErrorText(Outcome(device, |pairs|).value, CameraUpdateFailed))
    {
      message := "";
      sent, message := ApplyParams(ApplyPairs(Fields, params, values, section), device);
    }

    /** `updateParam`: a control that writes at once (the mode select, the smoothing switch,
        the mirror, flip and high-quality switches). The value is stored, one write goes out,
        and the status line says "Saved" or reports the failure. */
    method UpdateParam(i: nat, s: Setting, reply: Reply<string>) returns (request: string)
      requires Valid() && i < |Fields| && Fields[i].write != "" && (s.Flag? <==> Fields[i].initial.Flag?)
      modifies this
      ensures Valid() && values == old(values)[i := s]
      ensures request == SetParamPath(Fields[i].write, IntToDecimal(Wire(s)))
      ensures reply.Replied? ==> message == Saved
      ensures reply.Failed? ==> message == ErrorText(reply.message, UpdateFailed)
    {
      values := values[i := s];
      message := "";
      request := SetParamPath(Fields[i].write, IntToDecimal(Wire(s)));
      message := if reply.Replied? then Saved else ErrorText(reply.message, UpdateFailed);
    }
  }

  /** The displayed performance level and special effect (both selects run 0..6), frame
      rate, frame-buffer count and JPEG quality. */
  function ShownZeroToSix(v: int): (r: int) ensures 0 <= r <= 6 && (0 <= v <= 6 ==> r == v) { Clamp(0, 6, v) }
  function ShownFrequency(v: int): (r: int) ensures 0 <= r <= 10 && (0 <= v <= 10 ==> r == v) { Clamp(0, 10, v) }
  function ShownFrameBuffers(v: int): (r: int) ensures 1 <= r <= 5 && (1 <= v <= 5 ==> r == v) { Clamp(1, 5, v) }
  function ShownQuality(v: int): (r: int) ensures 0 <= r <= 63 && (0 <= v <= 63 ==> r == v) { Clamp(0, 63, v) }

  const DetailLevelOptions: seq<int> := [3, 5, 7, 9, 11, 13, 15]
  const AutoOffDelayOptions: seq<int> := [5, 10, 15, 20, 30, 60, 120]
  const LevelOptions: seq<int> := [-2, -1, 0, 1, 2]

  /** A select shows its value when it is one of the options, otherwise `fallback`. */
  function ShownOption(options: seq<int>, fallback: int, v: int): (r: int)
    requires fallback in options
    ensures r in options
    ensures r == v || r == fallback
    ensures v in options <==> r == v
  {
    if v in options then v else fallback
  }

  /** The detail level shows 7 unless it is an odd level from 3 to 15. */
  function ShownDetailLevel(v: int): (r: int)
    ensures (3 <= v <= 15 && v % 2 == 1) ==> r == v
    ensures !(3 <= v <= 15 && v % 2 == 1) ==> r == 7
  {
    ShownOption(DetailLevelOptions, 7, v)
  }

  /** The automatic-off delay shows 15 unless it is one of the offered delays. */
  function ShownAutoOffDelay(v: int): (r: int)
    ensures v in {5, 10, 15, 20, 30, 60, 120} ==> r == v
    ensures v !in {5, 10, 15, 20, 30, 60, 120} ==> r == 15
  {
    ShownOption(AutoOffDelayOptions, 15, v)
  }

  /** Contrast, brightness, saturation and the exposure level show 0 unless in -2..2. */
  function ShownLevel(v: int): (r: int)
    ensures -2 <= v <= 2 ==> r == v
    ensures !(-2 <= v <= 2) ==> r == 0
  {
    ShownOption(LevelOptions, 0, v)
  }
}
