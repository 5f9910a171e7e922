/**
 * The promotions page: validation of the promotion being edited, the create-or-update
 * request, the dialog resets, the description search and the discount keystroke filter.
 */
module Promociones {
  import opened Wrappers
  import opened Text
  import opened Js
  import opened Entities
  import opened Lists
  import opened Validation

  /** `{ discount: '', description: '', start: '', end: '' }`. */
  const BLANK := Promotion(None, Str(""), "", None, None)

  const SAVE_FAILED_MESSAGE := "Error al guardar la promoción"
  const DELETE_FAILED_MESSAGE := "Error al eliminar la promoción"

  /** The keys of the error object. */
  datatype PromotionKey = Discount | Description | Start | End

  /** `discount < 0 || discount > 100`, after JavaScript's conversion to a number; NaN is in range. */
  predicate DiscountOutOfRange(v: Value) {
    var n := ToNumber(v);
    n.Some? && (n.value < 0.0 || n.value > 100.0)
  }

  /** The message recorded under each key; the discount and end keys have two possible messages. */
  function PromotionMessage(p: Promotion, k: PromotionKey): string {
    match k
    case Discount => if !Truthy(p.discount) then "El descuento es obligatorio" else "El descuento debe ser entre 0 y 100"
    case Description => "La descripción es obligatoria"
    case Start => "La fecha de inicio es obligatoria"
    case End => if p.end.None? then "La fecha de fin es obligatoria" else "La fecha de fin no puede ser anterior a la fecha de inicio"
  }

  /** `flagged` holds exactly the keys of the rules the promotion breaks. */
  predicate ReportsPromotionErrors(flagged: set<PromotionKey>, p: Promotion) {
    && (Discount in flagged <==> !Truthy(p.discount) || DiscountOutOfRange(p.discount))
    && (Description in flagged <==> p.description == "")
    && (Start in flagged <==> p.start.None?)
    && (End in flagged <==> p.end.None? || (p.start.Some? && p.start.value > p.end.value))
  }

  /** The body of `validateForm`: collects the failing rules one by one. */
  method PromotionErrors(p: Promotion) returns (flagged: set<PromotionKey>)
    ensures ReportsPromotionErrors(flagged, p)
  {
    flagged := {};
    flagged := Flag(flagged, !Truthy(p.discount) || DiscountOutOfRange(p.discount), Discount);
    flagged := Flag(flagged, p.description == "", Description);
    flagged := Flag(flagged, p.start.None?, Start);
    flagged := Flag(flagged, p.end.None?, End);
    flagged := Flag(flagged, p.start.Some? && p.end.Some? && p.start.value > p.end.value, End);
  }

  /** A promotion passes exactly when every field is filled in, the discount is in range and the window is not reversed. */
  lemma PromotionErrorsEmptyIff(flagged: set<PromotionKey>, p: Promotion)
    requires ReportsPromotionErrors(flagged, p)
    ensures flagged == {} <==>
              && Truthy(p.discount) && !DiscountOutOfRange(p.discount) && p.description != ""
              && p.start.Some? && p.end.Some? && p.start.value <= p.end.value
  {
    if flagged != {} {
      var k :| k in flagged;
      assert k.Discount? || k.Description? || k.Start? || k.End?;
    }
  }

  /** A one-day promotion (start equal to end) passes the date rules. */
  lemma SameDayWindowAccepted(flagged: set<PromotionKey>, p: Promotion)
    requires ReportsPromotionErrors(flagged, p)
    requires p.start.Some? && p.start == p.end
    ensures Start !in flagged && End !in flagged
  {
  }

  /**
   * Two edges of the discount rule: the typed text "." reads as NaN and so is never out of
   * range, while a loaded discount of the number 0 is falsy and reported as missing.
   */
  lemma DiscountRuleEdges()
    ensures Truthy(Str(".")) && !DiscountOutOfRange(Str("."))
    ensures !Truthy(Num(0.0))
    ensures Truthy(Str("0")) && !DiscountOutOfRange(Str("0"))
  {
    assert !IsDecimalText(".") ==> false by {
      assert IsDigitOrDot('.');
      DecimalTextIff(".");
      assert DotCount(".") == 1;
    }
    assert DotIndex(".") == Some(0);
    DigitTextValue("0");
  }

  /** The discount field's keystroke filter `/^\d*\.?\d*$/`: digits with at most one dot. */
  lemma DiscountFilterIff(value: string)
    ensures IsDecimalText(value) <==>
              (forall i :: 0 <= i < |value| ==> IsDigitOrDot(value[i])) && DotCount(value) <= 1
  {
    DecimalTextIff(value);
    AllIff(value, IsDigitOrDot);
  }

  /** `filteredPromotions`: the promotions with a description containing the search text, ignoring case. */
  function FilteredPromotions(promotions: seq<Promotion>, search: string): (r: seq<Promotion>)
    ensures forall p :: p in r <==> p in promotions && p.description != "" && MatchesSearch(p.description, search)
    ensures IsSubsequence(r, promotions)
  {
    var keep := (p: Promotion) => p.description != "" && MatchesSearch(p.description, search);
    FilterIsSubsequence(promotions, keep);
    Filter(promotions, keep)
  }

  /** An empty search lists every promotion that has a description. */
  lemma EmptySearchListsDescribed(promotions: seq<Promotion>)
    ensures forall p :: p in FilteredPromotions(promotions, "") <==> p in promotions && p.description != ""
  {
    forall p | p in promotions && p.description != "" {
      EmptySearchMatches(p.description);
    }
  }

  /** The request `handleSavePromotion` sends. */
  datatype SaveRequest = SaveRequest(verb: HttpMethod, body: Promotion)

  /** The page's state. */
  class PromocionesPage {
    var promotions: seq<Promotion>
    var search: string
    var openDialog: bool
    var isEditing: bool
    var currentPromotion: Promotion
    var openDeleteDialog: bool
    var errors: map<PromotionKey, string>
    var successDialogOpen: bool
    var errorDialogOpen: bool
    var error: string

    constructor ()
      ensures promotions == [] && search == "" && currentPromotion == BLANK
      ensures !openDialog && !isEditing && !openDeleteDialog && errors == map[]
      ensures !successDialogOpen && !errorDialogOpen && error == ""
    {
      promotions, search := [], "";
      openDialog, isEditing, currentPromotion, openDeleteDialog := false, false, BLANK, false;
      errors := map[];
      successDialogOpen, errorDialogOpen, error := false, false, "";
    }

    /** `handleOpenDialog(promotion)`; "add" passes the blank promotion. Editing iff the promotion has an id. */
    method OpenDialog(p: Promotion)
      modifies this`currentPromotion, this`isEditing, this`openDialog, this`errors
      ensures currentPromotion == p && isEditing == HasId(p.id) && openDialog && errors == map[]
    {
      currentPromotion := p;
      isEditing := p.id.Some? && p.id.value != 0;
      openDialog := true;
      errors := map[];
    }

    /** `handleCloseDialog`: back to the blank promotion, not editing, no errors. */
    method CloseDialog()
      modifies this`currentPromotion, this`isEditing, this`openDialog, this`errors
      ensures !openDialog && currentPromotion == BLANK && !isEditing && errors == map[]
    {
      openDialog := false;
      currentPromotion := BLANK;
      isEditing := false;
      errors := map[];
    }

    method OpenDeleteDialog(p: Promotion)
      modifies this`currentPromotion, this`openDeleteDialog
      ensures currentPromotion == p && openDeleteDialog
    {
      currentPromotion := p;
      openDeleteDialog := true;
    }

    /** `handleCloseDeleteDialog`: the current promotion goes back to the blank one. */
    method CloseDeleteDialog()
      modifies this`currentPromotion, this`openDeleteDialog
      ensures currentPromotion == BLANK && !openDeleteDialog
    {
      openDeleteDialog := false;
      currentPromotion := BLANK;
    }

    /** The discount field's change handler: text the filter refuses leaves the promotion as it was. */
    method ChangeDiscount(value: string)
      modifies this`currentPromotion
      ensures currentPromotion == if IsDecimalText(value) then old(currentPromotion).(discount := Str(value))
                                  else old(currentPromotion)
    {
      if IsDecimalText(value) {
        currentPromotion := currentPromotion.(discount := Str(value));
      }
    }

    /** `validateForm`: replaces the error object and reports whether it is empty. */
    method ValidateForm() returns (ok: bool)
      modifies this`errors
      ensures ReportsPromotionErrors(errors.Keys, currentPromotion)
      ensures forall k :: k in errors ==> errors[k] == PromotionMessage(currentPromotion, k)
      ensures ok <==> errors == map[]
    {
      var p := currentPromotion;
      var flagged := PromotionErrors(p);
      errors := ErrorObject(flagged, k => PromotionMessage(p, k));
      ok := |errors| == 0;
    }

    /**
     * `handleSavePromotion`. Nothing is sent unless validation passes; then the current
     * promotion is sent with PUT while editing and POST otherwise. `response` is how the
     * request ended and `reload` what the following reload returned (None when it failed).
     */
    method SavePromotion(response: Response, reload: Option<seq<Promotion>>) returns (request: Option<SaveRequest>)
      modifies this`errors, this`promotions, this`openDialog, this`currentPromotion, this`isEditing
      modifies this`successDialogOpen, this`errorDialogOpen, this`error
      ensures request.Some? <==> ReportsPromotionErrors({}, old(currentPromotion))
      ensures request.Some? ==> request.value == SaveRequest(if old(isEditing) then PUT else POST, old(currentPromotion))
      ensures request.None? ==>
                && ReportsPromotionErrors(errors.Keys, currentPromotion) && errors != map[]
                && currentPromotion == old(currentPromotion) && isEditing == old(isEditing)
                && openDialog == old(openDialog) && promotions == old(promotions)
                && successDialogOpen == old(successDialogOpen)
                && errorDialogOpen == old(errorDialogOpen) && error == old(error)
      ensures request.Some? && response.Ok? ==>
                && promotions == (if reload.Some? then reload.value else old(promotions))
                && !openDialog && currentPromotion == BLANK && !isEditing && errors == map[]
                && successDialogOpen
                && errorDialogOpen == old(errorDialogOpen) && error == old(error)
      ensures request.Some? && !response.Ok? ==>
                && error == FailureMessage(response, SAVE_FAILED_MESSAGE) && errorDialogOpen
                && currentPromotion == old(currentPromotion) && openDialog == old(openDialog)
                && promotions == old(promotions) && isEditing == old(isEditing) && errors == map[]
                && successDialogOpen == old(successDialogOpen)
    {
      var ok := ValidateForm();
      if !ok {
        return None;
      }
      var verb := if isEditing then PUT else POST;
      request := Some(SaveRequest(verb, currentPromotion));
      if !response.Ok? {
        error := FailureMessage(response, SAVE_FAILED_MESSAGE);
        errorDialogOpen := true;
        return;
      }
      if reload.Some? {
        promotions := reload.value;
      }
      CloseDialog();
      successDialogOpen := true;
    }

    /** `handleDeletePromotion`: a DELETE on the current promotion's id; a success reloads and closes the dialog. */
    method DeletePromotion(response: Response, reload: Option<seq<Promotion>>) returns (deletedId: Option<int>)
      modifies this`promotions, this`openDeleteDialog, this`currentPromotion
      modifies this`successDialogOpen, this`errorDialogOpen, this`error
      ensures deletedId == old(currentPromotion).id
      ensures response.Ok? ==>
                && promotions == (if reload.Some? then reload.value else old(promotions))
                && !openDeleteDialog && currentPromotion == BLANK && successDialogOpen
                && errorDialogOpen == old(errorDialogOpen) && error == old(error)
      ensures !response.Ok? ==>
                && error == FailureMessage(response, DELETE_FAILED_MESSAGE) && errorDialogOpen
                && promotions == old(promotions) && openDeleteDialog == old(openDeleteDialog)
                && currentPromotion == old(currentPromotion) && successDialogOpen == old(successDialogOpen)
    {
      deletedId := currentPromotion.id;
      if !response.Ok? {
        error := FailureMessage(response, DELETE_FAILED_MESSAGE);
        errorDialogOpen := true;
        return;
      }
      if reload.Some? {
        promotions := reload.value;
      }
      CloseDeleteDialog();
      successDialogOpen := true;
    }
  }
}
