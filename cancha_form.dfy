/**
 * The field ("cancha") form: the draft being edited, its three required-field rules, the
 * prefill effect and the guarded save. The fields page validates its own dialog with the
 * same rules, so they are defined here once.
 */
module CanchaForm {
  import opened Wrappers
  import opened Js
  import opened Validation

  /**
   * `{ name, hourlyRate, fieldTypeId }`: the hourly rate is typed text or a loaded number,
   * the type id is None while no type is selected.
   */
  datatype CanchaDraft = CanchaDraft(name: string, hourlyRate: Value, fieldTypeId: Option<int>)

  /** `{ name: '', hourlyRate: '', fieldTypeId: '' }`. */
  const BLANK := CanchaDraft("", Str(""), None)

  /** The keys of the error object. */
  datatype CanchaKey = Name | HourlyRate | FieldTypeId

  function CanchaMessage(k: CanchaKey): string {
    match k
    case Name => "El nombre es obligatorio"
    case HourlyRate => "El precio por hora es obligatorio"
    case FieldTypeId => "Debe seleccionar un tipo de cancha"
  }

  /** `flagged` holds exactly the keys of the draft's falsy fields. */
  predicate ReportsCanchaErrors(flagged: set<CanchaKey>, d: CanchaDraft) {
    && (Name in flagged <==> d.name == "")
    && (HourlyRate in flagged <==> !Truthy(d.hourlyRate))
    && (FieldTypeId in flagged <==> !HasId(d.fieldTypeId))
  }

  /** The body of `validate`: one test per field. */
  method CanchaErrors(d: CanchaDraft) returns (flagged: set<CanchaKey>)
    ensures ReportsCanchaErrors(flagged, d)
  {
    flagged := {};
    flagged := Flag(flagged, d.name == "", Name);
    flagged := Flag(flagged, !Truthy(d.hourlyRate), HourlyRate);
    flagged := Flag(flagged, !HasId(d.fieldTypeId), FieldTypeId);
  }

  /** A draft passes exactly when it has a name, a non-empty non-zero rate and a selected type. */
  lemma CanchaErrorsEmptyIff(flagged: set<CanchaKey>, d: CanchaDraft)
    requires ReportsCanchaErrors(flagged, d)
    ensures flagged == {} <==> d.name != "" && Truthy(d.hourlyRate) && HasId(d.fieldTypeId)
  {
    if flagged != {} {
      var k :| k in flagged;
      assert k.Name? || k.HourlyRate? || k.FieldTypeId?;
    }
  }

  /** The blank draft breaks all three rules. */
  lemma BlankDraftFlagsAll(flagged: set<CanchaKey>)
    requires ReportsCanchaErrors(flagged, BLANK)
    ensures flagged == {Name, HourlyRate, FieldTypeId}
  {
    assert forall k :: k in flagged <==> k.Name? || k.HourlyRate? || k.FieldTypeId?;
  }

  /** The form component's state. */
  class CanchaFormState {
    var newCancha: CanchaDraft
    var errors: map<CanchaKey, string>

    constructor ()
      ensures newCancha == BLANK && errors == map[]
    {
      newCancha := BLANK;
      errors := map[];
    }

    /** The effect on `selectedCancha`: a selection replaces the draft with its three fields, none leaves it. */
    method PrefillEffect(selectedCancha: Option<CanchaDraft>)
      modifies this`newCancha
      ensures newCancha == if selectedCancha.Some? then selectedCancha.value else old(newCancha)
    {
      if selectedCancha.Some? {
        var c := selectedCancha.value;
        newCancha := CanchaDraft(c.name, c.hourlyRate, c.fieldTypeId);
      }
    }

    /** `validate`: stores the error object and reports whether it is empty. */
    method Validate() returns (ok: bool)
      modifies this`errors
      ensures ReportsCanchaErrors(errors.Keys, newCancha)
      ensures forall k :: k in errors ==> errors[k] == CanchaMessage(k)
      ensures ok <==> errors == map[]
    {
      var flagged := CanchaErrors(newCancha);
      errors := ErrorObject(flagged, CanchaMessage);
      ok := |errors| == 0;
    }

    /** `handleSave`: `onSave` receives exactly the current draft, and only when it passes. */
    method HandleSave() returns (saved: Option<CanchaDraft>)
      modifies this`errors
      ensures ReportsCanchaErrors(errors.Keys, newCancha)
      ensures saved.Some? <==> errors == map[]
      ensures saved.Some? ==> saved.value == newCancha
    {
      var ok := Validate();
      if !ok {
        return None;
      }
      saved := Some(newCancha);
    }
  }
}
