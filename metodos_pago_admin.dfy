/**
 * The payment-methods page: the create-or-edit request, the dialog open and close resets
 * and the name search.
 */
module MetodosPagoAdmin {
  import opened Wrappers
  import opened Text
  import opened Js
  import opened Entities
  import opened Lists

  /** `{ method: '' }`. */
  const BLANK := PaymentMethod(None, "")

  const SAVE_FAILED_MESSAGE := "Error al guardar el método de pago"

  /** The JSON body of the save request: `{ id, method }` while editing, `{ method }` otherwise. */
  datatype PaymentBody = UpdateBody(id: Option<int>, methodName: string) | CreateBody(methodName: string)

  datatype SaveRequest = SaveRequest(verb: HttpMethod, body: PaymentBody)

  /** The request for the dialog's record: only an edit sends the id, and both send the name. */
  function SaveRequestFor(isEditing: bool, current: PaymentMethod): (r: SaveRequest)
    ensures r.verb == PUT <==> isEditing
    ensures r.verb == POST <==> !isEditing
    ensures r.body.UpdateBody? <==> isEditing
    ensures r.body.UpdateBody? ==> r.body.id == current.id
    ensures r.body.methodName == current.methodName
  {
    if isEditing then SaveRequest(PUT, UpdateBody(current.id, current.methodName))
    else SaveRequest(POST, CreateBody(current.methodName))
  }

  /** `paymentMethod.method && ...includes(search)`: a named method whose name contains the search text. */
  predicate PaymentMethodListed(p: PaymentMethod, search: string) {
    p.methodName != "" && MatchesSearch(p.methodName, search)
  }

  /** `filteredPaymentMethods`, in list order. */
  function FilteredPaymentMethods(methods: seq<PaymentMethod>, search: string): (r: seq<PaymentMethod>)
    ensures forall p :: p in r <==> p in methods && p.methodName != "" && MatchesSearch(p.methodName, search)
    ensures IsSubsequence(r, methods)
  {
    FilterIsSubsequence(methods, p => PaymentMethodListed(p, search));
    Filter(methods, p => PaymentMethodListed(p, search))
  }

  /** An empty search lists every method that has a name. */
  lemma EmptySearchListsNamed(methods: seq<PaymentMethod>)
    ensures forall p :: p in FilteredPaymentMethods(methods, "") <==> p in methods && p.methodName != ""
  {
    forall p | p in methods && p.methodName != "" {
      EmptySearchMatches(p.methodName);
    }
  }

  /** The page's state. */
  class MetodosPagoPage {
    var paymentMethods: seq<PaymentMethod>
    var search: string
    var openDialog: bool
    var isEditing: bool
    var currentPaymentMethod: PaymentMethod
    var openDeleteDialog: bool
    var successDialogOpen: bool
    var errorDialogOpen: bool
    var error: string

    constructor ()
      ensures paymentMethods == [] && search == "" && !openDialog && !isEditing
      ensures currentPaymentMethod == BLANK && !openDeleteDialog
      ensures !successDialogOpen && !errorDialogOpen && error == ""
    {
      paymentMethods, search, openDialog, isEditing := [], "", false, false;
      currentPaymentMethod, openDeleteDialog := BLANK, false;
      successDialogOpen, errorDialogOpen, error := false, false, "";
    }

    /** `handleOpenDialog(paymentMethod)`: editing exactly when the record has an id. */
    method OpenDialog(p: PaymentMethod)
      modifies this`currentPaymentMethod, this`isEditing, this`openDialog
      ensures currentPaymentMethod == p && isEditing == HasId(p.id) && openDialog
    {
      currentPaymentMethod := p;
      isEditing := p.id.Some? && p.id.value != 0;
      openDialog := true;
    }

    /** `handleCloseDialog`: the blank record, not editing. */
    method CloseDialog()
      modifies this`openDialog, this`currentPaymentMethod, this`isEditing
      ensures !openDialog && currentPaymentMethod == BLANK && !isEditing
    {
      openDialog := false;
      currentPaymentMethod := BLANK;
      isEditing := false;
    }

    method OpenDeleteDialog(p: PaymentMethod)
      modifies this`currentPaymentMethod, this`openDeleteDialog
      ensures currentPaymentMethod == p && openDeleteDialog
    {
      currentPaymentMethod := p;
      openDeleteDialog := true;
    }

    /** `handleCloseDeleteDialog`: the blank record; the editing flag is left alone. */
    method CloseDeleteDialog()
      modifies this`openDeleteDialog, this`currentPaymentMethod
      ensures !openDeleteDialog && currentPaymentMethod == BLANK
    {
      openDeleteDialog := false;
      currentPaymentMethod := BLANK;
    }

    /**
     * `handleSavePaymentMethod`: always sends the request for the dialog's record.
     * `response` is how it ended and `reload` what the awaited reload returned.
     */
    method SavePaymentMethod(response: Response, reload: Option<seq<PaymentMethod>>) returns (request: SaveRequest)
      modifies this`paymentMethods, this`openDialog, this`currentPaymentMethod, this`isEditing
      modifies this`successDialogOpen, this`errorDialogOpen, this`error
      ensures request == SaveRequestFor(old(isEditing), old(currentPaymentMethod))
      ensures response.Ok? ==>
                && paymentMethods == (if reload.Some? then reload.value else old(paymentMethods))
                && !openDialog && currentPaymentMethod == BLANK && !isEditing && successDialogOpen
                && errorDialogOpen == old(errorDialogOpen) && error == old(error)
      ensures !response.Ok? ==>
                && error == FailureMessage(response, SAVE_FAILED_MESSAGE) && errorDialogOpen
                && paymentMethods == old(paymentMethods) && openDialog == old(openDialog)
                && currentPaymentMethod == old(currentPaymentMethod) && isEditing == old(isEditing)
                && successDialogOpen == old(successDialogOpen)
    {
      request := SaveRequestFor(isEditing, currentPaymentMethod);
      if !response.Ok? {
        error := FailureMessage(response, SAVE_FAILED_MESSAGE);
        errorDialogOpen := true;
        return;
      }
      if reload.Some? {
        paymentMethods := reload.value;
      }
      CloseDialog();
      successDialogOpen := true;
    }
  }
}
