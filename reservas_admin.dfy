/**
 * The reservations table for administrators: the search by date, client or field name,
 * deletion of the selected reservation, the dialog handlers and the snackbar.
 */
module ReservasAdmin {
  import opened Wrappers
  import opened Text
  import opened Entities
  import opened Lists

  const DELETED_MESSAGE := "Reserva eliminada con éxito"
  const DELETE_FAILED_MESSAGE := "Error al eliminar la reserva"

  /** The text the search compares for the chosen filter mode; any other mode compares nothing. */
  function FilterKey(r: Reservation, mode: string): string {
    if mode == "fecha" then r.reservationDate
    else if mode == "cliente" then r.client.firstName + " " + r.client.lastName
    else if mode == "cancha" then r.field.name
    else ""
  }

  /** `filterValue && filterValue.toLowerCase().includes(search.toLowerCase())`. */
  predicate Listed(r: Reservation, mode: string, search: string) {
    FilterKey(r, mode) != "" && MatchesSearch(FilterKey(r, mode), search)
  }

  /** `filteredReservas`: the reservations whose key for the mode contains the search text, in order. */
  function FilteredReservas(reservas: seq<Reservation>, mode: string, search: string): (r: seq<Reservation>)
    ensures forall x :: x in r <==> x in reservas && Listed(x, mode, search)
    ensures IsSubsequence(r, reservas)
  {
    FilterIsSubsequence(reservas, x => Listed(x, mode, search));
    Filter(reservas, x => Listed(x, mode, search))
  }

  /** A mode other than "fecha", "cliente" and "cancha" lists nothing at all. */
  lemma UnknownModeListsNothing(reservas: seq<Reservation>, mode: string, search: string)
    requires mode != "fecha" && mode != "cliente" && mode != "cancha"
    ensures FilteredReservas(reservas, mode, search) == []
  {
    FilterDropsAll(reservas, x => Listed(x, mode, search));
  }

  /** With an empty search every reservation with a non-empty key is listed. */
  lemma EmptySearchListsKeyed(reservas: seq<Reservation>, mode: string)
    ensures forall x :: x in FilteredReservas(reservas, mode, "") <==> x in reservas && FilterKey(x, mode) != ""
  {
    forall x | x in reservas {
      EmptySearchMatches(FilterKey(x, mode));
    }
  }

  /** The client key always holds the separating space, so an empty client search lists the whole table. */
  lemma EmptyClientSearchListsAll(reservas: seq<Reservation>)
    ensures FilteredReservas(reservas, "cliente", "") == reservas
  {
    forall i | 0 <= i < |reservas|
      ensures Listed(reservas[i], "cliente", "")
    {
      var c := reservas[i].client;
      assert |c.firstName + " " + c.lastName| > 0;
      EmptySearchMatches(FilterKey(reservas[i], "cliente"));
    }
    FilterKeepsAll(reservas, x => Listed(x, "cliente", ""));
  }

  /** `reservas.filter(reserva => reserva.id !== id)`: exactly the other reservations, in order. */
  function WithoutReservation(reservas: seq<Reservation>, id: int): (r: seq<Reservation>)
    ensures forall x :: x in r <==> x in reservas && x.id != id
    ensures IsSubsequence(r, reservas)
  {
    FilterIsSubsequence(reservas, (x: Reservation) => x.id != id);
    Filter(reservas, (x: Reservation) => x.id != id)
  }

  /** Deleting an id that is not in the table leaves the table as it was. */
  lemma DeleteAbsentIdKeepsTable(reservas: seq<Reservation>, id: int)
    requires forall i :: 0 <= i < |reservas| ==> reservas[i].id != id
    ensures WithoutReservation(reservas, id) == reservas
  {
    FilterKeepsAll(reservas, (x: Reservation) => x.id != id);
  }

  /** The snackbar's text: the success message for type 'success', the error message for anything else. */
  function SnackbarMessage(snackbarType: string, successMessage: string, errorMessage: string): string {
    if snackbarType == "success" then successMessage else errorMessage
  }

  /** The page's state. */
  class ReservasAdminPage {
    var reservas: seq<Reservation>
    var filter: string
    var search: string
    var openModal: bool
    var selectedReserva: Option<Reservation>
    var openDeleteDialog: bool
    var errorMessage: string
    var successMessage: string
    var openSnackbar: bool
    var snackbarType: string

    constructor ()
      ensures reservas == [] && filter == "fecha" && search == ""
      ensures !openModal && selectedReserva == None && !openDeleteDialog
      ensures errorMessage == "" && successMessage == "" && !openSnackbar && snackbarType == "error"
    {
      reservas, filter, search := [], "fecha", "";
      openModal, selectedReserva, openDeleteDialog := false, None, false;
      errorMessage, successMessage, openSnackbar, snackbarType := "", "", false, "error";
    }

    /** The text the snackbar shows. */
    function Snackbar(): string
      reads this
    {
      SnackbarMessage(snackbarType, successMessage, errorMessage)
    }

    method OpenDeleteDialog(r: Reservation)
      modifies this`selectedReserva, this`openDeleteDialog
      ensures selectedReserva == Some(r) && openDeleteDialog
    {
      selectedReserva := Some(r);
      openDeleteDialog := true;
    }

    /** `handleCloseDeleteDialog`: clears the selection. */
    method CloseDeleteDialog()
      modifies this`selectedReserva, this`openDeleteDialog
      ensures selectedReserva == None && !openDeleteDialog
    {
      openDeleteDialog := false;
      selectedReserva := None;
    }

    method OpenModal(r: Reservation)
      modifies this`selectedReserva, this`openModal
      ensures selectedReserva == Some(r) && openModal
    {
      selectedReserva := Some(r);
      openModal := true;
    }

    /** `handleCloseModal`: clears the selection. */
    method CloseModal()
      modifies this`selectedReserva, this`openModal
      ensures selectedReserva == None && !openModal
    {
      openModal := false;
      selectedReserva := None;
    }

    method SnackbarClose()
      modifies this`openSnackbar
      ensures !openSnackbar
    {
      openSnackbar := false;
    }

    /**
     * `handleDeleteReserva`. Without a selection nothing happens and no request is sent
     * (`deleted` is None). Otherwise the DELETE for the selected id is sent; `response` is how
     * it ended. On success exactly the reservations with that id leave the table.
     */
    method DeleteReserva(response: Response) returns (deleted: Option<int>)
      modifies this`reservas, this`selectedReserva, this`openDeleteDialog
      modifies this`successMessage, this`errorMessage, this`snackbarType, this`openSnackbar
      ensures deleted == if old(selectedReserva).Some? then Some(old(selectedReserva).value.id) else None
      ensures deleted.None? ==>
                && reservas == old(reservas) && selectedReserva == old(selectedReserva)
                && openDeleteDialog == old(openDeleteDialog) && openSnackbar == old(openSnackbar)
                && snackbarType == old(snackbarType) && Snackbar() == old(Snackbar())
      ensures deleted.Some? && response.Ok? ==>
                && reservas == WithoutReservation(old(reservas), deleted.value)
                && selectedReserva == None && !openDeleteDialog
                && openSnackbar && snackbarType == "success" && Snackbar() == DELETED_MESSAGE
                && errorMessage == old(errorMessage)
      ensures deleted.Some? && !response.Ok? ==>
                && reservas == old(reservas) && selectedReserva == old(selectedReserva)
                && openDeleteDialog == old(openDeleteDialog) && successMessage == old(successMessage)
                && openSnackbar && snackbarType == "error"
                && Snackbar() == FailureMessage(response, DELETE_FAILED_MESSAGE)
    {
      if selectedReserva.None? {
        return None;
      }
      var id := selectedReserva.value.id;
      deleted := Some(id);
      if !response.Ok? {
        errorMessage := FailureMessage(response, DELETE_FAILED_MESSAGE);
        snackbarType := "error";
        openSnackbar := true;
        return;
      }
      reservas := WithoutReservation(reservas, id);
      CloseDeleteDialog();
      successMessage := DELETED_MESSAGE;
      snackbarType := "success";
      openSnackbar := true;
    }
  }
}
