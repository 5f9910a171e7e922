/**
 * The reservation dialog: the active-promotion filter, the field-by-field validation,
 * the date and time checks and the gated two-step submission (image upload, then the
 * reservation request).
 *
 * A date is a day ordinal and a time a minute of the day; `new Date(`${date}T${time}`)`
 * is the instant `date * 1440 + time` on the same local time line as the current
 * instant `now`, and an Invalid date when either part is the empty string.
 */
module ReservationForm {
  import opened Wrappers
  import opened Js
  import opened Entities
  import opened Lists
  import opened Validation

  const MINUTES_PER_DAY := 1440

  /** The value of a time input, `HH:MM`, as a minute of the day. */
  type Minute = m: int | 0 <= m < 1440

  /** An image chosen in the file input. */
  datatype File = File(name: string)

  /** `new Date(`${date}T${time}`)`: a local instant, Invalid when either part is empty. */
  function DateTime(date: Option<int>, time: Option<Minute>): (r: Instant)
    ensures r.At? <==> date.Some? && time.Some?
    ensures r.At? ==> r.t / MINUTES_PER_DAY == date.value && r.t % MINUTES_PER_DAY == time.value
  {
    if date.Some? && time.Some? then At(date.value * MINUTES_PER_DAY + time.value) else Invalid
  }

  /** `new Date(promotion.start)` for a loaded promotion date; a missing date is Invalid. */
  function PromotionDate(d: Option<int>): Instant {
    if d.Some? then At(d.value) else Invalid
  }

  /** `startDate <= today && endDate >= today`. */
  predicate IsActive(p: Promotion, now: int) {
    NotAfter(PromotionDate(p.start), At(now)) && NotAfter(At(now), PromotionDate(p.end))
  }

  /**
   * The promotions effect: the valid promotions are exactly the loaded ones whose window
   * contains the current instant, ends included, kept in their original order.
   */
  function ActivePromotions(promotions: seq<Promotion>, now: int): (r: seq<Promotion>)
    ensures forall p :: p in r <==>
              p in promotions && p.start.Some? && p.end.Some? && p.start.value <= now <= p.end.value
    ensures IsSubsequence(r, promotions)
  {
    FilterIsSubsequence(promotions, p => IsActive(p, now));
    Filter(promotions, p => IsActive(p, now))
  }

  /**
   * `validatePromotion`: no selection is valid; a selection is valid exactly when one of the
   * valid promotions has that very id.
   */
  function PromotionSelectionValid(selected: Option<int>, valid: seq<Promotion>): (ok: bool)
    ensures ok <==> !HasId(selected) || exists i :: 0 <= i < |valid| && valid[i].id == selected
  {
    !HasId(selected) || Find(valid, (p: Promotion) => p.id == selected).Some?
  }

  /** The keys of the form's error object. */
  datatype FormKey = ReservationDate | StartTime | EndTime | SelectedPaymentMethod | ReservationImage | SelectedPromotion

  /** The message `validateForm` records under each key. */
  function FormMessage(k: FormKey): string {
    match k
    case ReservationDate => "Este campo es obligatorio."
    case StartTime => "Este campo es obligatorio."
    case EndTime => "Este campo es obligatorio."
    case SelectedPaymentMethod => "Selecciona un método de pago."
    case ReservationImage => "Por favor, selecciona una imagen para la reserva."
    case SelectedPromotion => "La promoción seleccionada no es válida para esta fecha."
  }

  const PAST_DATE_MESSAGE := "La fecha debe ser igual o posterior a la fecha actual."
  const START_ORDER_MESSAGE := "La hora de inicio debe ser menor que la hora de fin."
  const END_ORDER_MESSAGE := "La hora de fin debe ser posterior a la hora de inicio."
  const UPLOAD_FAILED_MESSAGE := "Error al subir la imagen"
  const RESERVE_FAILED_MESSAGE := "Error al reservar la cancha, ya está reservada para esta fecha y hora."

  /** The values `validateForm` looks at; an empty input is None. */
  datatype FormInputs = FormInputs(reservationDate: Option<int>, startTime: Option<Minute>, endTime: Option<Minute>,
                                   paymentMethod: Option<int>, image: Option<File>, promotion: Option<int>)

  /** `flagged` holds exactly the keys of the rules these inputs break. */
  predicate ReportsFormErrors(flagged: set<FormKey>, inputs: FormInputs, valid: seq<Promotion>) {
    && (ReservationDate in flagged <==> inputs.reservationDate.None?)
    && (StartTime in flagged <==> inputs.startTime.None?)
    && (EndTime in flagged <==> inputs.endTime.None?)
    && (SelectedPaymentMethod in flagged <==> !HasId(inputs.paymentMethod))
    && (ReservationImage in flagged <==> inputs.image.None?)
    && (SelectedPromotion in flagged <==> !PromotionSelectionValid(inputs.promotion, valid))
  }

  /** Everything `validateForm` asks for is present, and the promotion (if any) is valid. */
  predicate Complete(inputs: FormInputs, valid: seq<Promotion>) {
    && inputs.reservationDate.Some? && inputs.startTime.Some? && inputs.endTime.Some?
    && HasId(inputs.paymentMethod) && inputs.image.Some?
    && PromotionSelectionValid(inputs.promotion, valid)
  }

  /** The body of `validateForm`: collects the failing rules one by one. */
  method FormErrors(inputs: FormInputs, valid: seq<Promotion>) returns (flagged: set<FormKey>)
    ensures ReportsFormErrors(flagged, inputs, valid)
  {
    flagged := {};
    flagged := Flag(flagged, inputs.reservationDate.None?, ReservationDate);
    flagged := Flag(flagged, inputs.startTime.None?, StartTime);
    flagged := Flag(flagged, inputs.endTime.None?, EndTime);
    flagged := Flag(flagged, !HasId(inputs.paymentMethod), SelectedPaymentMethod);
    flagged := Flag(flagged, inputs.image.None?, ReservationImage);
    flagged := Flag(flagged, !PromotionSelectionValid(inputs.promotion, valid), SelectedPromotion);
  }

  /** `validateForm` passes exactly when the form is complete. */
  lemma FormErrorsEmptyIff(flagged: set<FormKey>, inputs: FormInputs, valid: seq<Promotion>)
    requires ReportsFormErrors(flagged, inputs, valid)
    ensures flagged == {} <==> Complete(inputs, valid)
  {
    if flagged != {} {
      var k :| k in flagged;
      assert k.ReservationDate? || k.StartTime? || k.EndTime? || k.SelectedPaymentMethod?
          || k.ReservationImage? || k.SelectedPromotion?;
    }
  }

  /**
   * `validateReservationDate` as written: midnight of the chosen day is compared with the
   * current instant, so the check fails iff that midnight is already past.
   */
  predicate DateRejectedAsWritten(date: Option<int>, now: int) {
    Before(DateTime(date, Some(0)), At(now))
  }

  lemma DateRejectedAsWrittenIff(date: Option<int>, now: int)
    ensures DateRejectedAsWritten(date, now) <==> date.Some? && date.value * MINUTES_PER_DAY < now
  {
  }

  /** As written, today's date is refused at every moment after midnight, despite the message. */
  lemma TodayRejectedAsWritten(now: int)
    requires now % MINUTES_PER_DAY != 0
    ensures DateRejectedAsWritten(Some(now / MINUTES_PER_DAY), now)
  {
    assert now == (now / MINUTES_PER_DAY) * MINUTES_PER_DAY + now % MINUTES_PER_DAY;
  }

  /** The check the message describes: the chosen day must be today or later. */
  predicate DateRejected(date: Option<int>, now: int) {
    date.Some? && date.value < now / MINUTES_PER_DAY
  }

  /** A day is refused exactly when it is over, and today is always accepted. */
  lemma DateRejectedIff(day: int, now: int)
    ensures DateRejected(Some(day), now) <==> (day + 1) * MINUTES_PER_DAY <= now
    ensures !DateRejected(Some(now / MINUTES_PER_DAY), now)
  {
    var today := now / MINUTES_PER_DAY;
    assert today * MINUTES_PER_DAY <= now < (today + 1) * MINUTES_PER_DAY;
    if day < today {
      assert (day + 1) * MINUTES_PER_DAY <= today * MINUTES_PER_DAY;
    } else {
      assert (today + 1) * MINUTES_PER_DAY <= (day + 1) * MINUTES_PER_DAY;
    }
  }

  /** `end <= start` on the two instants of the chosen day; false when either is Invalid. */
  predicate OutOfOrder(date: Option<int>, start: Option<Minute>, end: Option<Minute>) {
    NotAfter(DateTime(date, end), DateTime(date, start))
  }

  /** `validateStartTime`: needs a date and a start time, then that the end comes after the start. */
  function StartTimeAccepted(date: Option<int>, start: Option<Minute>, end: Option<Minute>): (ok: bool)
    ensures date.None? || start.None? ==> !ok
    ensures date.Some? && start.Some? && end.Some? ==> (ok <==> start.value < end.value)
  {
    date.Some? && start.Some? && !OutOfOrder(date, start, end)
  }

  /** `validateEndTime`: needs a start and an end time, then that the end comes after the start. */
  function EndTimeAccepted(date: Option<int>, start: Option<Minute>, end: Option<Minute>): (ok: bool)
    ensures start.None? || end.None? ==> !ok
    ensures date.Some? && start.Some? && end.Some? ==> (ok <==> start.value < end.value)
  {
    start.Some? && end.Some? && !OutOfOrder(date, start, end)
  }

  /**
   * Each time check only tests the inputs it names: with the end time (or the date) empty the
   * comparison is with an Invalid date, which is never `<=`, so the check passes.
   */
  lemma TimeChecksPassOnInvalidDates(day: int, start: Minute, end: Minute)
    ensures StartTimeAccepted(Some(day), Some(start), None)
    ensures EndTimeAccepted(None, Some(start), Some(end))
  {
  }

  /** The three checks `handleReserve` chains after `validateForm`, the date check as written. */
  predicate ScheduleAccepted(inputs: FormInputs, now: int) {
    && !DateRejectedAsWritten(inputs.reservationDate, now)
    && StartTimeAccepted(inputs.reservationDate, inputs.startTime, inputs.endTime)
    && EndTimeAccepted(inputs.reservationDate, inputs.startTime, inputs.endTime)
  }

  /**
   * On a complete form the chained checks pass exactly when the chosen day's midnight is not
   * yet past and the end follows the start.
   */
  lemma ScheduleAcceptedIff(inputs: FormInputs, valid: seq<Promotion>, now: int)
    requires Complete(inputs, valid)
    ensures ScheduleAccepted(inputs, now) <==>
              && inputs.reservationDate.value * MINUTES_PER_DAY >= now
              && inputs.startTime.value < inputs.endTime.value
  {
    DateRejectedAsWrittenIff(inputs.reservationDate, now);
  }

  /**
   * The error object after the chained checks on a complete form: the first check that
   * fails records its message; `validateEndTime` is never reached with its own failure,
   * since it tests the same order `validateStartTime` just accepted.
   */
  function ScheduleErrors(inputs: FormInputs, now: int): map<FormKey, string> {
    if DateRejectedAsWritten(inputs.reservationDate, now) then map[ReservationDate := PAST_DATE_MESSAGE]
    else if !StartTimeAccepted(inputs.reservationDate, inputs.startTime, inputs.endTime) then map[StartTime := START_ORDER_MESSAGE]
    else if !EndTimeAccepted(inputs.reservationDate, inputs.startTime, inputs.endTime) then map[EndTime := END_ORDER_MESSAGE]
    else map[]
  }

  /** The body of the reservation request (`reservation` and `payment` together). */
  datatype ReservationRequest = ReservationRequest(
    reservationDate: int, startTime: Minute, endTime: Minute, fieldId: int,
    promotionId: Option<int>, clientId: Option<int>,
    amount: Value, methodId: Option<int>, image: string)

  /** The component's state, for the field `cancha` it was opened on. */
  class ReservationFormState {
    const cancha: Field
    var reservationDate: Option<int>
    var startTime: Option<Minute>
    var endTime: Option<Minute>
    var selectedPromotion: Option<int>
    var selectedPaymentMethod: Option<int>
    var reservationImage: Option<File>
    var selectedUser: Option<int>
    var formErrors: map<FormKey, string>
    var promotions: seq<Promotion>
    var validPromotions: seq<Promotion>
    var successDialogOpen: bool
    var errorDialogOpen: bool
    var error: string

    function Inputs(): FormInputs
      reads this
    {
      FormInputs(reservationDate, startTime, endTime, selectedPaymentMethod, reservationImage, selectedPromotion)
    }

    /** Initial state: empty inputs, payment method 1, and the signed-in user as the client. */
    constructor (cancha: Field, user: Option<User>)
      ensures this.cancha == cancha
      ensures Inputs() == FormInputs(None, None, None, Some(1), None, None)
      ensures selectedUser == (if user.Some? then Some(user.value.id) else None)
      ensures formErrors == map[] && promotions == [] && validPromotions == []
      ensures !successDialogOpen && !errorDialogOpen && error == ""
    {
      this.cancha := cancha;
      reservationDate, startTime, endTime := None, None, None;
      selectedPromotion, selectedPaymentMethod, reservationImage := None, Some(1), None;
      selectedUser := if user.Some? then Some(user.value.id) else None;
      formErrors := map[];
      promotions, validPromotions := [], [];
      successDialogOpen, errorDialogOpen, error := false, false, "";
    }

    /** The promotions arrive, and the promotions effect recomputes the valid ones at `now`. */
    method ReceivePromotions(data: seq<Promotion>, now: int)
      modifies this`promotions, this`validPromotions
      ensures promotions == data
      ensures validPromotions == ActivePromotions(data, now)
    {
      promotions := data;
      validPromotions := ActivePromotions(promotions, now);
    }

    /** The user effect: the client becomes the (new) signed-in user. */
    method UserChanged(user: Option<User>)
      modifies this`selectedUser
      ensures selectedUser == (if user.Some? then Some(user.value.id) else None)
    {
      selectedUser := if user.Some? then Some(user.value.id) else None;
    }

    /** The client picker: `newValue?.id || ''`, so clearing it or picking id 0 leaves no client. */
    method SelectClient(choice: Option<User>)
      modifies this`selectedUser
      ensures selectedUser == (if choice.Some? && choice.value.id != 0 then Some(choice.value.id) else None)
    {
      selectedUser := if choice.Some? && choice.value.id != 0 then Some(choice.value.id) else None;
    }

    /** `handleImageChange`: an event with no file keeps the image chosen before. */
    method ImageChange(files: seq<File>)
      modifies this`reservationImage
      ensures reservationImage == if |files| > 0 then Some(files[0]) else old(reservationImage)
    {
      if |files| > 0 {
        reservationImage := Some(files[0]);
      }
    }

    /** `validateForm`: replaces the error object and reports whether it is empty. */
    method ValidateForm() returns (ok: bool)
      modifies this`formErrors
      ensures ReportsFormErrors(formErrors.Keys, Inputs(), validPromotions)
      ensures forall k :: k in formErrors ==> formErrors[k] == FormMessage(k)
      ensures ok <==> formErrors == map[]
      ensures ok <==> Complete(Inputs(), validPromotions)
    {
      var flagged := FormErrors(Inputs(), validPromotions);
      FormErrorsEmptyIff(flagged, Inputs(), validPromotions);
      formErrors := ErrorObject(flagged, FormMessage);
      ok := |formErrors| == 0;
    }

    /** `validateReservationDate`: midnight of the chosen day must not be before `now`. */
    method ValidateReservationDate(now: int) returns (ok: bool)
      modifies this`formErrors
      ensures ok <==> !DateRejectedAsWritten(reservationDate, now)
      ensures formErrors == if ok then old(formErrors) else old(formErrors)[ReservationDate := PAST_DATE_MESSAGE]
    {
      var selected := DateTime(reservationDate, Some(0));
      ok := !Before(selected, At(now));
      if !ok {
        formErrors := formErrors[ReservationDate := PAST_DATE_MESSAGE];
      }
    }

    /** `validateStartTime`: records its message only when the order check itself fails. */
    method ValidateStartTime() returns (ok: bool)
      modifies this`formErrors
      ensures ok == StartTimeAccepted(reservationDate, startTime, endTime)
      ensures formErrors == if reservationDate.Some? && startTime.Some? && !ok
                            then old(formErrors)[StartTime := START_ORDER_MESSAGE] else old(formErrors)
    {
      if reservationDate.None? || startTime.None? {
        return false;
      }
      var start := DateTime(reservationDate, startTime);
      var end := DateTime(reservationDate, endTime);
      if NotAfter(end, start) {
        formErrors := formErrors[StartTime := START_ORDER_MESSAGE];
        return false;
      }
      return true;
    }

    /** `validateEndTime`: records its message only when the order check itself fails. */
    method ValidateEndTime() returns (ok: bool)
      modifies this`formErrors
      ensures ok == EndTimeAccepted(reservationDate, startTime, endTime)
      ensures formErrors == if startTime.Some? && endTime.Some? && !ok
                            then old(formErrors)[EndTime := END_ORDER_MESSAGE] else old(formErrors)
    {
      if startTime.None? || endTime.None? {
        return false;
      }
      var start := DateTime(reservationDate, startTime);
      var end := DateTime(reservationDate, endTime);
      if NotAfter(end, start) {
        formErrors := formErrors[EndTime := END_ORDER_MESSAGE];
        return false;
      }
      return true;
    }

    /**
     * `handleReserve`. `upload` is how the image upload ended and `imageName` the text it
     * returned; `response` is how the reservation request ended. The upload is sent only when
     * every check passes, the reservation only after a successful upload, and the dialog is
     * closed (`closed`) only after a successful reservation.
     */
    method HandleReserve(now: int, upload: Response, imageName: string, response: Response)
      returns (uploadSent: bool, request: Option<ReservationRequest>, closed: bool)
      modifies this`formErrors, this`successDialogOpen, this`errorDialogOpen, this`error
      ensures uploadSent <==> Complete(Inputs(), validPromotions) && ScheduleAccepted(Inputs(), now)
      ensures !Complete(Inputs(), validPromotions) ==>
                && ReportsFormErrors(formErrors.Keys, Inputs(), validPromotions)
                && forall k :: k in formErrors ==> formErrors[k] == FormMessage(k)
      ensures Complete(Inputs(), validPromotions) ==> formErrors == ScheduleErrors(Inputs(), now)
      ensures request.Some? <==> uploadSent && upload.Ok?
      ensures request.Some? ==>
                request.value == ReservationRequest(reservationDate.value, startTime.value, endTime.value, cancha.id,
                                                    selectedPromotion, selectedUser,
                                                    cancha.hourlyRate, selectedPaymentMethod, imageName)
      ensures closed <==> request.Some? && response.Ok?
      ensures successDialogOpen == (closed || old(successDialogOpen))
      ensures errorDialogOpen == ((uploadSent && !closed) || old(errorDialogOpen))
      ensures error == if uploadSent && !upload.Ok? then FailureMessage(upload, UPLOAD_FAILED_MESSAGE)
                       else if request.Some? && !response.Ok? then FailureMessage(response, RESERVE_FAILED_MESSAGE)
                       else old(error)
    {
      uploadSent, request, closed := false, None, false;
      var ok := ValidateForm();
      if !ok {
        return;
      }
      ok := ValidateReservationDate(now);
      if ok {
        ok := ValidateStartTime();
      }
      if ok {
        ok := ValidateEndTime();
      }
      if !ok {
        return;
      }
      uploadSent := true;
      if !upload.Ok? {
        error := FailureMessage(upload, UPLOAD_FAILED_MESSAGE);
        errorDialogOpen := true;
        return;
      }
      request := Some(ReservationRequest(reservationDate.value, startTime.value, endTime.value, cancha.id,
                                         selectedPromotion, selectedUser,
                                         cancha.hourlyRate, selectedPaymentMethod, imageName));
      if !response.Ok? {
        error := FailureMessage(response, RESERVE_FAILED_MESSAGE);
        errorDialogOpen := true;
        return;
      }
      successDialogOpen := true;
      closed := true;
    }
  }
}
