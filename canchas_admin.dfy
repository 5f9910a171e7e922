/**
 * The fields page: the create-or-edit dialog and its request, the active toggle, the
 * digits-only hourly-rate input and the actions each field card offers.
 */
module CanchasAdmin {
  import opened Wrappers
  import opened Text
  import opened Js
  import opened Entities
  import opened Validation
  import opened CanchaForm

  const SAVE_FAILED_MESSAGE := "Error al guardar la cancha"
  const TOGGLE_FAILED_MESSAGE := "Error al cambiar el estado de la cancha"

  /** The draft the dialog opens with: the field's name, rate and type id, or the blank draft. */
  function DraftFor(cancha: Option<Field>): (d: CanchaDraft)
    ensures cancha.None? ==> d == BLANK
    ensures cancha.Some? ==> d.name == cancha.value.name && d.hourlyRate == cancha.value.hourlyRate
                             && d.fieldTypeId == cancha.value.fieldType.id
  {
    if cancha.Some? then CanchaDraft(cancha.value.name, cancha.value.hourlyRate, cancha.value.fieldType.id)
    else BLANK
  }

  /** The JSON body of the save request. */
  datatype FieldBody =
    | EditBody(id: int, name: string, hourlyRate: Value, fieldTypeId: Option<int>, active: bool)
    | CreateBody(name: string, hourlyRate: Value, fieldTypeId: Option<int>)

  /** The three draft fields a body carries. */
  function BodyDraft(b: FieldBody): CanchaDraft {
    CanchaDraft(b.name, b.hourlyRate, b.fieldTypeId)
  }

  /**
   * The save body: while a field is selected it carries that field's id and its current
   * active flag; a new field carries neither. Either way it carries the draft unchanged.
   */
  function SaveBody(selected: Option<Field>, d: CanchaDraft): (b: FieldBody)
    ensures b.EditBody? <==> selected.Some?
    ensures b.EditBody? ==> b.id == selected.value.id && b.active == selected.value.active
    ensures BodyDraft(b) == d
  {
    if selected.Some? then EditBody(selected.value.id, d.name, d.hourlyRate, d.fieldTypeId, selected.value.active)
    else CreateBody(d.name, d.hourlyRate, d.fieldTypeId)
  }

  /** The save request: PUT to update the selected field, POST to create one. */
  datatype SaveRequest = SaveRequest(verb: HttpMethod, body: FieldBody)

  function SaveRequestFor(selected: Option<Field>, d: CanchaDraft): (r: SaveRequest)
    ensures r.verb == PUT <==> selected.Some?
    ensures r.verb == POST <==> selected.None?
    ensures r.body == SaveBody(selected, d)
  {
    SaveRequest(if selected.Some? then PUT else POST, SaveBody(selected, d))
  }

  /** `{ ...cancha, active: !cancha.active }`. */
  function Toggled(f: Field): (r: Field)
    ensures r.active == !f.active
    ensures r.(active := f.active) == f
  {
    f.(active := !f.active)
  }

  /** Toggling twice gives the field back. */
  lemma ToggleTwice(f: Field)
    ensures Toggled(Toggled(f)) == f
  {
  }

  /** The toggle request: a DELETE on the field's id carrying the toggled field. */
  datatype ToggleRequest = ToggleRequest(id: int, body: Field)

  /** The hourly-rate input's filter `/^\d*$/`. */
  predicate RateKeystrokeAccepted(value: string) {
    All(value, IsDigit)
  }

  /** The filter accepts exactly the all-digit values, the empty value among them. */
  lemma RateKeystrokeIff(value: string)
    ensures RateKeystrokeAccepted(value) <==> forall i :: 0 <= i < |value| ==> IsDigit(value[i])
    ensures RateKeystrokeAccepted("")
  {
    AllIff(value, IsDigit);
  }

  /** The icon buttons on a field card. */
  datatype CardAction = ToggleActive | Edit | Reserve

  /** Every card can be toggled and edited; only an active field offers a reservation. */
  function CardActions(f: Field): (actions: seq<CardAction>)
    ensures ToggleActive in actions && Edit in actions
    ensures Reserve in actions <==> f.active
  {
    [ToggleActive, Edit] + (if f.active then [Reserve] else [])
  }

  /** The page's state. */
  class CanchasAdminPage {
    var open: bool
    var canchas: seq<Field>
    var selectedCancha: Option<Field>
    var newCancha: CanchaDraft
    var errors: map<CanchaKey, string>
    var reservationDialogOpen: bool
    var successDialogOpen: bool
    var errorDialogOpen: bool
    var error: string

    constructor ()
      ensures !open && canchas == [] && selectedCancha == None && newCancha == BLANK && errors == map[]
      ensures !reservationDialogOpen && !successDialogOpen && !errorDialogOpen && error == ""
    {
      open, canchas, selectedCancha, newCancha, errors := false, [], None, BLANK, map[];
      reservationDialogOpen, successDialogOpen, errorDialogOpen, error := false, false, false, "";
    }

    /** `validate`, with the rules of the field form. */
    method Validate() returns (ok: bool)
      modifies this`errors
      ensures ReportsCanchaErrors(errors.Keys, newCancha)
      ensures forall k :: k in errors ==> errors[k] == CanchaMessage(k)
      ensures ok <==> errors == map[]
    {
      var flagged := CanchaErrors(newCancha);
      errors := ErrorObject(flagged, CanchaMessage);
      ok := |errors| == 0;
    }

    /** `handleOpenDialog(cancha)`; "Agregar" passes none. The errors are left as they were. */
    method OpenDialog(cancha: Option<Field>)
      modifies this`selectedCancha, this`newCancha, this`open
      ensures selectedCancha == cancha && newCancha == DraftFor(cancha) && open
    {
      selectedCancha := cancha;
      newCancha := DraftFor(cancha);
      open := true;
    }

    /** `handleCloseDialog`: no selection, the blank draft, no errors. */
    method CloseDialog()
      modifies this`open, this`selectedCancha, this`newCancha, this`errors
      ensures !open && selectedCancha == None && newCancha == BLANK && errors == map[]
    {
      open := false;
      selectedCancha := None;
      newCancha := BLANK;
      errors := map[];
    }

    /** The hourly-rate change handler: a value with a non-digit leaves the draft as it was. */
    method ChangeHourlyRate(value: string)
      modifies this`newCancha
      ensures newCancha == if RateKeystrokeAccepted(value) then old(newCancha).(hourlyRate := Str(value))
                           else old(newCancha)
    {
      if All(value, IsDigit) {
        newCancha := newCancha.(hourlyRate := Str(value));
      }
    }

    /** A (re)load of the field list; None when the request failed, which keeps the list. */
    method ReceiveCanchas(data: Option<seq<Field>>)
      modifies this`canchas
      ensures canchas == if data.Some? then data.value else old(canchas)
    {
      if data.Some? {
        canchas := data.value;
      }
    }

    /**
     * `handleAddOrUpdateCancha`. Nothing is sent unless the draft passes; then the request
     * for the selection and draft is sent. `response` is how it ended and `reload` what the
     * awaited reload returned.
     */
    method SaveCancha(response: Response, reload: Option<seq<Field>>) returns (request: Option<SaveRequest>)
      modifies this`errors, this`canchas, this`open, this`selectedCancha, this`newCancha
      modifies this`successDialogOpen, this`errorDialogOpen, this`error
      ensures request.Some? <==> ReportsCanchaErrors({}, old(newCancha))
      ensures request.Some? ==> request.value == SaveRequestFor(old(selectedCancha), old(newCancha))
      ensures request.None? ==>
                && ReportsCanchaErrors(errors.Keys, newCancha) && errors != map[]
                && newCancha == old(newCancha) && selectedCancha == old(selectedCancha)
                && open == old(open) && canchas == old(canchas)
                && successDialogOpen == old(successDialogOpen)
                && errorDialogOpen == old(errorDialogOpen) && error == old(error)
      ensures request.Some? && response.Ok? ==>
                && canchas == (if reload.Some? then reload.value else old(canchas))
                && !open && selectedCancha == None && newCancha == BLANK && errors == map[]
                && successDialogOpen
                && errorDialogOpen == old(errorDialogOpen) && error == old(error)
      ensures request.Some? && !response.Ok? ==>
                && error == FailureMessage(response, SAVE_FAILED_MESSAGE) && errorDialogOpen
                && newCancha == old(newCancha) && selectedCancha == old(selectedCancha)
                && open == old(open) && canchas == old(canchas) && errors == map[]
                && successDialogOpen == old(successDialogOpen)
    {
      var ok := Validate();
      if !ok {
        return None;
      }
      request := Some(SaveRequestFor(selectedCancha, newCancha));
      if !response.Ok? {
        error := FailureMessage(response, SAVE_FAILED_MESSAGE);
        errorDialogOpen := true;
        return;
      }
      ReceiveCanchas(reload);
      CloseDialog();
      successDialogOpen := true;
    }

    /** `handleToggleActive(cancha)`: sends the toggled field; the awaited reload follows a success. */
    method ToggleActive(cancha: Field, response: Response, reload: Option<seq<Field>>) returns (request: ToggleRequest)
      modifies this`canchas, this`successDialogOpen, this`errorDialogOpen, this`error
      ensures request == ToggleRequest(cancha.id, Toggled(cancha))
      ensures response.Ok? ==>
                && canchas == (if reload.Some? then reload.value else old(canchas)) && successDialogOpen
                && errorDialogOpen == old(errorDialogOpen) && error == old(error)
      ensures !response.Ok? ==>
                && canchas == old(canchas) && errorDialogOpen
                && error == FailureMessage(response, TOGGLE_FAILED_MESSAGE)
                && successDialogOpen == old(successDialogOpen)
    {
      request := ToggleRequest(cancha.id, Toggled(cancha));
      if !response.Ok? {
        error := FailureMessage(response, TOGGLE_FAILED_MESSAGE);
        errorDialogOpen := true;
        return;
      }
      ReceiveCanchas(reload);
      successDialogOpen := true;
    }

    /** The reserve button: the reservation form opens for this field. */
    method OpenReservationDialog(cancha: Field)
      modifies this`selectedCancha, this`reservationDialogOpen
      ensures selectedCancha == Some(cancha) && reservationDialogOpen
    {
      selectedCancha := Some(cancha);
      reservationDialogOpen := true;
    }

    /** Closing the reservation form clears the selection. */
    method CloseReservationDialog()
      modifies this`selectedCancha, this`reservationDialogOpen
      ensures selectedCancha == None && !reservationDialogOpen
    {
      reservationDialogOpen := false;
      selectedCancha := None;
    }
  }
}
