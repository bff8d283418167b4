/** The body-measurement screen's form and colours: the form holds the
    typed text per field (and the notes); saving is refused when every
    entry is blank, otherwise the payload carries each measurement field
    with non-blank text, read as a number, and the notes when there are
    any. A change is coloured green when it goes the good way for its
    field, red when it goes the other way, gray when it is zero. */
module Measurements {
  import opened Common

  /** The keys of `MEASUREMENT_FIELDS`, in their order. */
  const MeasurementFields: seq<string> := [
    "weight", "body_fat", "chest", "waist", "hips", "shoulders",
    "biceps_left", "biceps_right", "thighs_left", "thighs_right", "neck"]

  /** A payload entry: the number `parseFloat` reads from a field's text,
      or the notes text. */
  datatype PayloadValue = Number(parsedFrom: string) | Notes(text: string)

  /** `v && v.trim() !== ''`. */
  predicate Filled(v: string)
  {
    !IsBlank(v)
  }

  /** The fields the payload carries. */
  function PayloadKeys(form: map<string, string>): set<string>
  {
    (set k | k in MeasurementFields && k in form && Filled(form[k])) +
    (if "notes" in form && form["notes"] != "" then {"notes"} else {})
  }

  /** `handleSave` up to the request: the check on every entry of the form
      (notes included), then the loop over the measurement fields. */
  method BuildPayload(form: map<string, string>) returns (r: Result<map<string, PayloadValue>, string>)
    ensures r.Failure? <==> forall k :: k in form ==> !Filled(form[k])
    ensures r.Failure? ==> r.error == "Please enter at least one measurement"
    ensures r.Success? ==> r.value.Keys == PayloadKeys(form)
    ensures r.Success? ==> forall k :: k in r.value && k != "notes" ==> r.value[k] == Number(form[k])
    ensures r.Success? && "notes" in r.value ==> r.value["notes"] == Notes(form["notes"])
  {
    if forall k :: k in form ==> !Filled(form[k]) {
      return Failure("Please enter at least one measurement");
    }
    var data: map<string, PayloadValue> := map[];
    for i := 0 to |MeasurementFields|
      invariant data.Keys == set k | k in MeasurementFields[..i] && k in form && Filled(form[k])
      invariant forall k :: k in data ==> k in form && data[k] == Number(form[k])
    {
      var key := MeasurementFields[i];
      if key in form && Filled(form[key]) {
        data := data[key := Number(form[key])];
      }
      assert MeasurementFields[..i + 1] == MeasurementFields[..i] + [key];
    }
    assert MeasurementFields[..|MeasurementFields|] == MeasurementFields;
    assert "notes" !in MeasurementFields;
    if "notes" in form && form["notes"] != "" {
      data := data["notes" := Notes(form["notes"])];
    }
    r := Success(data);
  }

  /** Notes alone are enough to save, and then the payload holds only them;
      notes of spaces alone are refused. */
  lemma NotesAlone(notes: string)
    ensures PayloadKeys(map["notes" := notes]) == if notes != "" then {"notes"} else {}
    ensures IsBlank(notes) ==> forall k :: k in map["notes" := notes] ==> !Filled(map["notes" := notes][k])
  {
    var form := map["notes" := notes];
    assert "notes" !in MeasurementFields;
    assert forall k :: k in form ==> k == "notes";
    assert (set k | k in MeasurementFields && k in form && Filled(form[k])) == {};
  }

  // ---------------------------------------------------------------- colours

  const Green := "#10B981"
  const Red := "#EF4444"
  const Gray := "#6B7280"

  /** `getChangeColor`: for fields where going down is good. */
  function ChangeColor(change: real): (r: string)
    ensures r == Green <==> change < 0.0
    ensures r == Red <==> change > 0.0
    ensures r == Gray <==> change == 0.0
  {
    if change < 0.0 then Green else if change > 0.0 then Red else Gray
  }

  /** `getGainColor`: for fields where going up is good. */
  function GainColor(change: real): (r: string)
    ensures r == Green <==> change > 0.0
    ensures r == Red <==> change < 0.0
    ensures r == Gray <==> change == 0.0
  {
    if change > 0.0 then Green else if change < 0.0 then Red else Gray
  }

  /** `isDecreaseGood`. */
  predicate IsDecreaseGood(key: string)
  {
    key in ["weight", "waist", "body_fat", "hips"]
  }

  /** The colour a progress row shows. */
  function FieldColor(key: string, change: real): string
  {
    if IsDecreaseGood(key) then ChangeColor(change) else GainColor(change)
  }

  /** The two rules mirror each other. */
  lemma ColorsMirror(change: real)
    ensures GainColor(change) == ChangeColor(-change)
  {
  }

  /** Going down is good for exactly four of the eleven fields. */
  lemma DecreaseGoodFields()
    ensures forall k :: k in MeasurementFields && IsDecreaseGood(k) <==> k in {"weight", "body_fat", "waist", "hips"}
  {
  }

  /** Green exactly when the change goes the good way for the field, red
      exactly when it goes the other way, gray exactly for no change. */
  lemma FieldColorMeaning(key: string, change: real)
    ensures FieldColor(key, change) == Green <==> (if IsDecreaseGood(key) then change < 0.0 else change > 0.0)
    ensures FieldColor(key, change) == Red <==> (if IsDecreaseGood(key) then change > 0.0 else change < 0.0)
    ensures FieldColor(key, change) == Gray <==> change == 0.0
  {
    assert Green != Red && Green != Gray && Red != Gray by {
      assert Green[1] != Red[1] && Green[1] != Gray[1] && Red[1] != Gray[1];
    }
  }

  /** The form's state. */
  class Form {
    var newMeasurement: map<string, string>
    var showAddModal: bool

    constructor ()
      ensures newMeasurement == map[] && !showAddModal
    {
      newMeasurement := map[];
      showAddModal := false;
    }

    /** Typing into an input replaces that entry only. */
    method Type(key: string, text: string)
      modifies this
      ensures newMeasurement == old(newMeasurement)[key := text] && showAddModal == old(showAddModal)
    {
      newMeasurement := newMeasurement[key := text];
    }

    /** Save pressed: the payload (or the refusal), and, when the request
        succeeded, the form is emptied and closed. */
    method Save(requestSucceeds: bool) returns (r: Result<map<string, PayloadValue>, string>)
      modifies this
      ensures r.Failure? <==> forall k :: k in old(newMeasurement) ==> !Filled(old(newMeasurement)[k])
      ensures r.Success? ==> r.value.Keys == PayloadKeys(old(newMeasurement))
      ensures r.Success? ==> forall k :: k in r.value && k != "notes" ==> r.value[k] == Number(old(newMeasurement)[k])
      ensures r.Success? && "notes" in r.value ==> r.value["notes"] == Notes(old(newMeasurement)["notes"])
      ensures r.Failure? ==> r.error == "Please enter at least one measurement"
      ensures r.Success? && requestSucceeds ==> newMeasurement == map[] && !showAddModal
      ensures r.Failure? || !requestSucceeds ==> newMeasurement == old(newMeasurement) && showAddModal == old(showAddModal)
    {
      r := BuildPayload(newMeasurement);
      if r.Success? && requestSucceeds {
        showAddModal := false;
        newMeasurement := map[];
      }
    }
  }
}
