/**
 * The field-types page: the create-or-edit request, the delete request, the dialog open
 * and close resets and the name search.
 */
module TiposCanchasAdmin {
  import opened Wrappers
  import opened Text
  import opened Js
  import opened Entities
  import opened Lists

  /** `{ name: '' }`. */
  const BLANK := FieldType(None, "")

  const SAVE_FAILED_MESSAGE := "Error al guardar el tipo de cancha"
  const DELETE_FAILED_MESSAGE := "Error al eliminar el tipo de cancha"

  /** The JSON body of the save request: `{ id, fieldType: name }` while editing, `{ fieldType: name }` otherwise. */
  datatype FieldTypeBody = UpdateBody(id: Option<int>, fieldType: string) | CreateBody(fieldType: string)

  datatype SaveRequest = SaveRequest(verb: HttpMethod, body: FieldTypeBody)

  /** The request for the dialog's record: only an edit sends the id, and both send the name. */
  function SaveRequestFor(isEditing: bool, current: FieldType): (r: SaveRequest)
    ensures r.verb == PUT <==> isEditing
    ensures r.verb == POST <==> !isEditing
    ensures r.body.UpdateBody? <==> isEditing
    ensures r.body.UpdateBody? ==> r.body.id == current.id
    ensures r.body.fieldType == current.name
  {
    if isEditing then SaveRequest(PUT, UpdateBody(current.id, current.name))
    else SaveRequest(POST, CreateBody(current.name))
  }

  /** `fieldType.name && ...includes(search)`: a named type whose name contains the search text. */
  predicate FieldTypeListed(t: FieldType, search: string) {
    t.name != "" && MatchesSearch(t.name, search)
  }

  /** `filteredFieldTypes`, in list order. */
  function FilteredFieldTypes(types: seq<FieldType>, search: string): (r: seq<FieldType>)
    ensures forall t :: t in r <==> t in types && t.name != "" && MatchesSearch(t.name, search)
    ensures IsSubsequence(r, types)
  {
    FilterIsSubsequence(types, t => FieldTypeListed(t, search));
    Filter(types, t => FieldTypeListed(t, search))
  }

  /** Searching for a listed type's own name lists it. */
  lemma OwnNameListsType(types: seq<FieldType>, t: FieldType)
    requires t in types && t.name != ""
    ensures t in FilteredFieldTypes(types, t.name)
  {
    SearchMatchesItself(t.name);
  }

  /** The page's state. */
  class TiposCanchasPage {
    var fieldTypes: seq<FieldType>
    var search: string
    var openDialog: bool
    var isEditing: bool
    var currentFieldType: FieldType
    var openDeleteDialog: bool
    var successDialogOpen: bool
    var errorDialogOpen: bool
    var error: string

    constructor ()
      ensures fieldTypes == [] && search == "" && !openDialog && !isEditing
      ensures currentFieldType == BLANK && !openDeleteDialog
      ensures !successDialogOpen && !errorDialogOpen && error == ""
    {
      fieldTypes, search, openDialog, isEditing := [], "", false, false;
      currentFieldType, openDeleteDialog := BLANK, false;
      successDialogOpen, errorDialogOpen, error := false, false, "";
    }

    /** `handleOpenDialog(fieldType)`; "Agregar" passes the blank type. Editing exactly when it has an id. */
    method OpenDialog(t: FieldType)
      modifies this`currentFieldType, this`isEditing, this`openDialog
      ensures currentFieldType == t && isEditing == HasId(t.id) && openDialog
    {
      currentFieldType := t;
      isEditing := t.id.Some? && t.id.value != 0;
      openDialog := true;
    }

    /** `handleCloseDialog`: the blank type, not editing. */
    method CloseDialog()
      modifies this`openDialog, this`currentFieldType, this`isEditing
      ensures !openDialog && currentFieldType == BLANK && !isEditing
    {
      openDialog := false;
      currentFieldType := BLANK;
      isEditing := false;
    }

    method OpenDeleteDialog(t: FieldType)
      modifies this`currentFieldType, this`openDeleteDialog
      ensures currentFieldType == t && openDeleteDialog
    {
      currentFieldType := t;
      openDeleteDialog := true;
    }

    /** `handleCloseDeleteDialog`: the blank type; the editing flag is left alone. */
    method CloseDeleteDialog()
      modifies this`openDeleteDialog, this`currentFieldType
      ensures !openDeleteDialog && currentFieldType == BLANK
    {
      openDeleteDialog := false;
      currentFieldType := BLANK;
    }

    /**
     * `handleSaveFieldType`: always sends the request for the dialog's record.
     * `response` is how it ended and `reload` what the awaited reload returned.
     */
    method SaveFieldType(response: Response, reload: Option<seq<FieldType>>) returns (request: SaveRequest)
      modifies this`fieldTypes, this`openDialog, this`currentFieldType, this`isEditing
      modifies this`successDialogOpen, this`errorDialogOpen, this`error
      ensures request == SaveRequestFor(old(isEditing), old(currentFieldType))
      ensures response.Ok? ==>
                && fieldTypes == (if reload.Some? then reload.value else old(fieldTypes))
                && !openDialog && currentFieldType == BLANK && !isEditing && successDialogOpen
                && errorDialogOpen == old(errorDialogOpen) && error == old(error)
      ensures !response.Ok? ==>
                && error == FailureMessage(response, SAVE_FAILED_MESSAGE) && errorDialogOpen
                && fieldTypes == old(fieldTypes) && openDialog == old(openDialog)
                && currentFieldType == old(currentFieldType) && isEditing == old(isEditing)
                && successDialogOpen == old(successDialogOpen)
    {
      request := SaveRequestFor(isEditing, currentFieldType);
      if !response.Ok? {
        error := FailureMessage(response, SAVE_FAILED_MESSAGE);
        errorDialogOpen := true;
        return;
      }
      if reload.Some? {
        fieldTypes := reload.value;
      }
      CloseDialog();
      successDialogOpen := true;
    }

    /** `handleDeleteFieldType`: a DELETE on the current type's id; a success reloads and closes the dialog. */
    method DeleteFieldType(response: Response, reload: Option<seq<FieldType>>) returns (deletedId: Option<int>)
      modifies this`fieldTypes, this`openDeleteDialog, this`currentFieldType
      modifies this`successDialogOpen, this`errorDialogOpen, this`error
      ensures deletedId == old(currentFieldType).id
      ensures response.Ok? ==>
                && fieldTypes == (if reload.Some? then reload.value else old(fieldTypes))
                && !openDeleteDialog && currentFieldType == BLANK && successDialogOpen
                && errorDialogOpen == old(errorDialogOpen) && error == old(error)
      ensures !response.Ok? ==>
                && error == FailureMessage(response, DELETE_FAILED_MESSAGE) && errorDialogOpen
                && fieldTypes == old(fieldTypes) && openDeleteDialog == old(openDeleteDialog)
                && currentFieldType == old(currentFieldType) && successDialogOpen == old(successDialogOpen)
    {
      deletedId := currentFieldType.id;
      if !response.Ok? {
        error := FailureMessage(response, DELETE_FAILED_MESSAGE);
        errorDialogOpen := true;
        return;
      }
      if reload.Some? {
        fieldTypes := reload.value;
      }
      CloseDeleteDialog();
      successDialogOpen := true;
    }
  }
}
