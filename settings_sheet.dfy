/** The settings panel (frontend/src/components/SettingsSheet.tsx): a draft
    (`temporaryValues`) edited field by field, applied by handing the whole
    draft to the parent, or reset from the applied values (`currentValues`,
    the component's prop). The draft is a JavaScript object updated by
    spreading, so a text input stores its raw string and a radio group
    stores a number, whatever the field held before: the model keeps it as
    a map from field name to value. */
module SettingsSheet {

  /** A JavaScript value held in one settings field. */
  datatype FieldValue = Num(n: real) | Str(s: string) | Bool(b: bool)

  /** A settings object: field name to value. */
  type SettingsRecord = map<string, FieldValue>

  /** The typed settings the parent provides. */
  datatype SettingsValues = SettingsValues(
    divNo: real,
    simPropDir: bool,
    fiberRadius: real,
    wavelength: real,
    initialPol: bool,
    esRealName: string,
    esImagName: string,
    epRealName: string,
    epImagName: string)

  const SETTINGS_FIELDS: set<string> :=
    {"divNo", "simPropDir", "fiberRadius", "wavelength", "initialPol",
     "EsRealName", "EsImagName", "EpRealName", "EpImagName"}

  /** The typed settings as the object the sheet edits. */
  function AsRecord(v: SettingsValues): (r: SettingsRecord)
    ensures r.Keys == SETTINGS_FIELDS
    ensures r["divNo"] == Num(v.divNo) && r["simPropDir"] == Bool(v.simPropDir)
    ensures r["fiberRadius"] == Num(v.fiberRadius) && r["wavelength"] == Num(v.wavelength)
    ensures r["initialPol"] == Bool(v.initialPol)
    ensures r["EsRealName"] == Str(v.esRealName) && r["EsImagName"] == Str(v.esImagName)
    ensures r["EpRealName"] == Str(v.epRealName) && r["EpImagName"] == Str(v.epImagName)
  {
    map[
      "divNo" := Num(v.divNo),
      "simPropDir" := Bool(v.simPropDir),
      "fiberRadius" := Num(v.fiberRadius),
      "wavelength" := Num(v.wavelength),
      "initialPol" := Bool(v.initialPol),
      "EsRealName" := Str(v.esRealName),
      "EsImagName" := Str(v.esImagName),
      "EpRealName" := Str(v.epRealName),
      "EpImagName" := Str(v.epImagName)]
  }

  /** JavaScript truthiness of `r[name]`; a missing field is `undefined`. */
  predicate FieldTruthy(r: SettingsRecord, name: string) {
    name in r &&
    match r[name]
    case Num(n) => n != 0.0
    case Str(s) => s != ""
    case Bool(b) => b
  }

  /** The number the radio handler stores for the chosen value. */
  function RadioNumber(v: string): (n: real)
    ensures n == 1.0 <==> v == "1"
    ensures n == 0.0 <==> v != "1"
  {
    if v == "1" then 1.0 else 0.0
  }

  /** The value a radio group shows for a field: "1" when the field is
      truthy, "0" otherwise. */
  function RadioDisplay(r: SettingsRecord, name: string): (v: string)
    ensures v == "1" <==> FieldTruthy(r, name)
    ensures v == "0" <==> !FieldTruthy(r, name)
  {
    if FieldTruthy(r, name) then "1" else "0"
  }

  /** Choosing "0" or "1" in a radio group makes the group show that value. */
  lemma RadioRoundTrip(r: SettingsRecord, name: string, v: string)
    requires v == "0" || v == "1"
    ensures RadioDisplay(r[name := Num(RadioNumber(v))], name) == v
  {
  }

  class SettingsSheet {
    /** The applied values, as the parent passes them. */
    var currentValues: SettingsRecord
    /** The draft shown in the panel. */
    var temporaryValues: SettingsRecord
    /** Every value handed to `sendCurrentValues`, oldest first. */
    var sent: seq<SettingsRecord>

    /** The draft starts as a copy of the applied values. */
    constructor (currentValues: SettingsRecord)
      ensures this.currentValues == currentValues
      ensures temporaryValues == currentValues
      ensures sent == []
    {
      this.currentValues := currentValues;
      temporaryValues := currentValues;
      sent := [];
    }

    /** A later render with new props: `useState` keeps the draft. */
    method ReceiveProps(currentValues: SettingsRecord)
      modifies this`currentValues
      ensures this.currentValues == currentValues
    {
      this.currentValues := currentValues;
    }

    /** A text input changed: only the named field changes, and it holds the
        raw string. */
    method HandleChange(name: string, value: string)
      modifies this`temporaryValues
      ensures temporaryValues == old(temporaryValues)[name := Str(value)]
    {
      temporaryValues := temporaryValues[name := Str(value)];
    }

    /** A radio group changed: field `n` becomes 1 for "1" and 0 for any
        other value, and the group then shows the choice. */
    method HandleRadioChange(n: string, v: string)
      modifies this`temporaryValues
      ensures temporaryValues == old(temporaryValues)[n := Num(RadioNumber(v))]
      ensures v == "0" || v == "1" ==> RadioDisplay(temporaryValues, n) == v
    {
      temporaryValues := temporaryValues[n := Num(RadioNumber(v))];
      if v == "0" || v == "1" {
        RadioRoundTrip(old(temporaryValues), n, v);
      }
    }

    /** A filename was picked for field `name`. */
    method HandleFilename(name: string, filename: string)
      modifies this`temporaryValues
      ensures temporaryValues == old(temporaryValues)[name := Str(filename)]
    {
      temporaryValues := temporaryValues[name := Str(filename)];
    }

    /** Apply: the whole draft goes to the parent. */
    method UpdateCurrentValues()
      modifies this`sent
      ensures sent == old(sent) + [temporaryValues]
    {
      sent := sent + [temporaryValues];
    }

    /** Cancel: the draft becomes the applied values again; nothing is sent. */
    method CancelChange()
      modifies this`temporaryValues
      ensures temporaryValues == currentValues
    {
      temporaryValues := currentValues;
    }
  }
}
