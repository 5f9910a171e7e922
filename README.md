# Verified model of the IntegradorFront booking front end

IntegradorFront is a React front end for booking sports fields ("canchas"). Customers sign in or
register and reserve a field for a date and a time slot. They can apply a promotion and must attach
an image of their payment. Administrators and employees manage fields, field types, payment methods,
promotions, users and reservations, and get a dashboard of counters.

This project models the rules beneath the rendering and proves their properties in Dafny:

- the form validators (registration, reservation, promotion, field);
- the keystroke filters (phone, hourly rate, discount);
- the in-memory list operations on the loaded tables (searches, the active-promotion filter,
  delete by id, role update by id, the dashboard's count and slice);
- create-versus-edit request construction and the dialog resets;
- the session store (user and token, mirrored to local storage).

## Layout

One module per component of the source, plus five shared modules:

| file | module | models |
|---|---|---|
| wrappers.dfy | Wrappers | `Option` |
| js.dfy | Js | JavaScript truthiness of ids and form values, `Number(...)`, comparisons of `Date` objects (an invalid date compares false) |
| text.dfy | Text | the character classes of the regular expressions, `trim`, `toLowerCase`, `includes`, the case-insensitive search, the decimal-text filter and its numeric value |
| lists.dfy | Lists | `filter`, `find` and `map`, with subsequence, concatenation and all-kept/all-dropped lemmas |
| entities.dfy | Entities | the API records (user, field, field type, payment method, promotion, reservation) and request outcomes |
| validation.dfy | Validation | the shared validator shape: a fresh error object filled one rule at a time |
| user_context.dfy | UserContext | `src/context/UserContext.jsx` |
| register_form.dfy | RegisterForm | `src/components/RegisterForm.jsx` |
| reservation_form.dfy | ReservationForm | `src/components/ReservationForm.jsx` |
| promociones.dfy | Promociones | `src/components/Promociones.jsx` |
| reservas_admin.dfy | ReservasAdmin | `src/components/ReservasAdmin.jsx` |
| users_admin.dfy | UsersAdmin | `src/components/UsersAdmin.jsx` |
| cancha_form.dfy | CanchaForm | `src/components/CanchaForm.jsx`, and the field rules shared with the fields page |
| canchas_admin.dfy | CanchasAdmin | `src/components/CanchasAdmin.jsx` |
| metodos_pago_admin.dfy | MetodosPagoAdmin | `src/components/MetodosPagoAdmin.jsx` |
| tipos_canchas_admin.dfy | TiposCanchasAdmin | `src/components/TiposCanchasAdmin.jsx` |
| dashboard_admin.dfy | DashboardAdmin | `src/components/DashboardAdmin.jsx` |
| auth_page.dfy | AuthPage | `src/pages/AuthPage.jsx` |

### How the model maps the source

- Each component with `useState` becomes a class whose fields are the state variables.
- Each handler becomes a method whose `modifies` clause names exactly the fields it sets.
- A validator builds a fresh error object field by field. In the model this is a method returning the
  set of flagged keys, proved against a predicate with one if-and-only-if per key (`Reports...Errors`).
  The stored object is that set mapped to the rules' messages (`Validation.ErrorObject`). A lemma
  (`...ErrorsEmptyIff`) states when the form passes.
- A request whose outcome matters is a parameter:
  - `Response` is `Ok`, `NotOk`, or `Threw(message)` for `fetch` and the code that throws on `!response.ok`;
  - `failure: Option<string>` is the error message of a rejected `axios` call;
  - `reload` is the list an awaited reload returned, or None when the reload failed.
- Dates are day ordinals and times are minutes of the day (`ReservationForm.Minute`). A date with a
  time is the instant `day * 1440 + minute` on the same time line as the current instant `now`,
  which is a parameter.
- A form value that is typed text or a loaded number is a `Js.Value`. `!v` is `Js.Truthy`, and
  `v < 0` converts through `Js.ToNumber`, which yields None for NaN.
- The session store's local storage is a map from the keys `user` and `token` to stored values.

The specification lists an image among a field's attributes. The core code never reads one (the
cards show a fixed default picture), so `Entities.Field` has no image.

## Model

| member | source | states |
|---|---|---|
| UserContext.SyncMirrors | src/context/UserContext.jsx:17-31 | after the two effects run, storage holds the user exactly when there is one and the token exactly when it is truthy, and no other key changes |
| UserContext.ReloadRoundTrip | src/context/UserContext.jsx:9-15 | the initial load from mirrored storage gives back the same user, and the token when it is truthy |
| UserContext.UserProvider.constructor | src/context/UserContext.jsx:9-31 | the state is loaded from storage (null by default) and storage then mirrors it |
| UserContext.UserProvider.Login | src/context/UserContext.jsx:33-36 | user and token are set together and storage is synchronised with both |
| UserContext.UserProvider.Logout | src/context/UserContext.jsx:38-41 | user and token both become null and both keys are removed, other keys kept |
| UserContext.LoginThenReload | src/context/UserContext.jsx:9-36 | a login followed by a reload restores the same user and token |
| UserContext.LogoutThenReload | src/context/UserContext.jsx:9-41 | a logout followed by a reload starts with no user and no token |
| Text.BlankIffAllSpace | src/components/RegisterForm.jsx:41-44 | `!s.trim()` holds exactly when every character is white space |
| RegisterForm.PasswordPatternIff | src/components/RegisterForm.jsx:36 | the password pattern accepts exactly: at least 8 characters, all letters, digits or `!@#$%^&*`, with at least one of each kind |
| RegisterForm.PhonePatternIff | src/components/RegisterForm.jsx:37 | the phone pattern accepts exactly nine decimal digits |
| RegisterForm.PhoneRejected | src/components/RegisterForm.jsx:45-47 | the phone rule fails exactly when the value is not nine digits |
| RegisterForm.PasswordRejected | src/components/RegisterForm.jsx:48-50 | the password rule fails exactly when the policy does not hold |
| RegisterForm.FieldErrors | src/components/RegisterForm.jsx:39-56 | each of the eight keys is flagged exactly when its rule fails; the role only when roles were supplied and none is chosen |
| RegisterForm.RegisterErrorsEmptyIff | src/components/RegisterForm.jsx:39-59 | the form passes exactly when all eight rules hold; without a role list the role is never flagged |
| RegisterForm.FilteredPhoneValidIffComplete | src/components/RegisterForm.jsx:136-141 | a phone that got past the keystroke filter is valid exactly when nine digits have been typed |
| RegisterForm.RegisterFormState.constructor | src/components/RegisterForm.jsx:16-27 | empty fields; the role is CUSTOMER unless roles are supplied |
| RegisterForm.RegisterFormState.RolesEffect | src/components/RegisterForm.jsx:29-33 | with roles supplied and no role chosen, the first role is chosen; otherwise nothing changes |
| RegisterForm.RegisterFormState.ChangePhone | src/components/RegisterForm.jsx:136-141 | the phone changes only to an all-digit value of at most nine characters |
| RegisterForm.RegisterFormState.ValidateFields | src/components/RegisterForm.jsx:35-60 | the error object's keys are exactly the failing rules, each with its message, and the result is true iff the object is empty |
| RegisterForm.RegisterFormState.HandleSubmit | src/components/RegisterForm.jsx:62-75 | `onSubmit` receives exactly the current values and role, and only when validation passes; the submitting flag ends false |
| ReservationForm.DateTime | src/components/ReservationForm.jsx:103-104 | a date with a time is a valid instant exactly when both are given, and decomposes back into that day and minute |
| ReservationForm.ActivePromotions | src/components/ReservationForm.jsx:39-47 | the valid promotions are exactly the loaded ones whose window contains now, ends included, in their original order |
| ReservationForm.PromotionSelectionValid | src/components/ReservationForm.jsx:123-128 | no selection is valid; a selection is valid exactly when a valid promotion has that id |
| ReservationForm.FormErrors | src/components/ReservationForm.jsx:130-138 | each of the six keys is flagged exactly when its input is missing or, for the promotion, not valid now |
| ReservationForm.FormErrorsEmptyIff | src/components/ReservationForm.jsx:130-141 | the form passes exactly when it is complete |
| ReservationForm.DateRejectedAsWrittenIff | src/components/ReservationForm.jsx:91-99 | as written, a date is refused exactly when its midnight is before now |
| ReservationForm.TodayRejectedAsWritten | src/components/ReservationForm.jsx:91-99 | as written, today's date is refused at every moment after midnight |
| ReservationForm.DateRejectedIff | src/components/ReservationForm.jsx:91-99 | the corrected check refuses a day exactly when it is over, and never refuses today |
| ReservationForm.StartTimeAccepted | src/components/ReservationForm.jsx:101-110 | fails without a date or a start; with all three inputs it passes exactly when the start precedes the end |
| ReservationForm.EndTimeAccepted | src/components/ReservationForm.jsx:112-121 | fails without a start or an end; with all three inputs it passes exactly when the start precedes the end |
| ReservationForm.TimeChecksPassOnInvalidDates | src/components/ReservationForm.jsx:101-121 | each time check passes when an input it does not test is empty, since that comparison is with an invalid date |
| ReservationForm.ScheduleAcceptedIff | src/components/ReservationForm.jsx:144 | on a complete form, the chained checks pass exactly when midnight of the chosen day is not before now and the start precedes the end |
| ReservationForm.ReservationFormState.constructor | src/components/ReservationForm.jsx:24-37 | empty inputs, payment method 1, the signed-in user as client, no errors |
| ReservationForm.ReservationFormState.ReceivePromotions | src/components/ReservationForm.jsx:39-47 | the loaded promotions are stored and the valid ones become the active promotions at now |
| ReservationForm.ReservationFormState.UserChanged | src/components/ReservationForm.jsx:70-74 | the client becomes the signed-in user's id, or none |
| ReservationForm.ReservationFormState.SelectClient | src/components/ReservationForm.jsx:310-311 | the client becomes the picked user's id; clearing or id 0 leaves none |
| ReservationForm.ReservationFormState.ImageChange | src/components/ReservationForm.jsx:76-81 | the first chosen file becomes the image; an empty choice keeps the previous one |
| ReservationForm.ReservationFormState.ValidateForm | src/components/ReservationForm.jsx:130-141 | the error object's keys are exactly the failing rules with their messages, and the result is true iff the form is complete |
| ReservationForm.ReservationFormState.ValidateReservationDate | src/components/ReservationForm.jsx:91-99 | passes exactly when midnight of the chosen day is not before now, so today is refused once its midnight is past; otherwise the date message is added to the errors |
| ReservationForm.ReservationFormState.ValidateStartTime | src/components/ReservationForm.jsx:101-110 | the result is the start check; its message is added only when the order comparison itself fails |
| ReservationForm.ReservationFormState.ValidateEndTime | src/components/ReservationForm.jsx:112-121 | the result is the end check; its message is added only when the order comparison itself fails |
| ReservationForm.ReservationFormState.HandleReserve | src/components/ReservationForm.jsx:142-200 | the upload is sent iff the form is complete and the schedule passes with the date check as written; the reservation, carrying the inputs, field, client, rate and image name, is sent iff the upload succeeded; the dialog closes iff both succeeded; each failure shows its message |
| Entities.FailureMessage | src/components/Promociones.jsx:65-71 | after a failed request the error shown is the fixed message for a non-ok status and the exception's message for a thrown error |
| Text.DecimalTextIff | src/components/Promociones.jsx:210 | the discount pattern accepts exactly the strings of digits and dots with at most one dot |
| Lists.Filter | src/components/Promociones.jsx:147-149 | `filter` keeps exactly the elements that pass the test, and never more than it was given |
| Lists.FilterIsSubsequence | src/components/Promociones.jsx:147-149 | `filter` keeps the elements in their original order |
| Lists.FilterConcat | src/components/DashboardAdmin.jsx:108 | filtering two lists joined equals joining the two filtered lists |
| Lists.Find | src/components/ReservationForm.jsx:125 | `find` returns an element exactly when one passes the test, and what it returns is the first element that passes |
| Text.DigitTextValue | src/components/Promociones.jsx:80 | a discount typed as digits only compares as its integer value |
| Text.TrimHasNoOuterSpace | src/components/RegisterForm.jsx:41-44 | a trimmed text is empty or starts and ends with a character that is not white space |
| Text.ToLower | src/components/Promociones.jsx:148 | lower-casing keeps the length, leaves no capital letter, keeps every other character in place and turns each capital into its small letter |
| Text.ToLowerIdempotent | src/components/Promociones.jsx:148 | lower-casing twice gives the same text as lower-casing once |
| Text.IncludesIff | src/components/Promociones.jsx:148 | `includes` holds exactly when the search text occurs at some position of the text |
| Text.SearchMatchesItself | src/components/Promociones.jsx:148 | every text is found by a search for itself |
| Text.SearchIgnoresCase | src/components/Promociones.jsx:148 | lower-casing the text beforehand does not change whether the search finds it |
| Promociones.PromotionErrors | src/components/Promociones.jsx:75-98 | each key is flagged exactly when its rule fails: a missing or out-of-range discount, no description, no start, no end or an end before the start |
| Promociones.PromotionErrorsEmptyIff | src/components/Promociones.jsx:75-101 | a promotion passes exactly when the discount is present and in 0..100, the description, start and end are given, and start is not after end |
| Promociones.SameDayWindowAccepted | src/components/Promociones.jsx:88-98 | a promotion starting and ending on the same date passes the date rules |
| Promociones.DiscountRuleEdges | src/components/Promociones.jsx:78-82 | "." is accepted as a discount (it reads as NaN), a loaded discount of 0 is reported missing, and "0" is accepted |
| Promociones.DiscountFilterIff | src/components/Promociones.jsx:208-213 | the discount keystroke filter admits exactly digits with at most one dot |
| Promociones.FilteredPromotions | src/components/Promociones.jsx:147-149 | the listed promotions are exactly those with a description containing the search text ignoring case, in order |
| Promociones.EmptySearchListsDescribed | src/components/Promociones.jsx:147-149 | an empty search lists every promotion with a description |
| Promociones.PromocionesPage.constructor | src/components/Promociones.jsx:12-26 | the blank promotion, no dialogs, no errors |
| Promociones.PromocionesPage.OpenDialog | src/components/Promociones.jsx:104-109 | the dialog opens on the promotion, editing iff it has an id, with no errors |
| Promociones.PromocionesPage.CloseDialog | src/components/Promociones.jsx:111-116 | the blank promotion, not editing, no errors |
| Promociones.PromocionesPage.OpenDeleteDialog | src/components/Promociones.jsx:118-121 | the promotion to delete becomes current |
| Promociones.PromocionesPage.CloseDeleteDialog | src/components/Promociones.jsx:123-126 | the blank promotion becomes current |
| Promociones.PromocionesPage.ChangeDiscount | src/components/Promociones.jsx:208-213 | the discount changes only to text the filter admits |
| Promociones.PromocionesPage.ValidateForm | src/components/Promociones.jsx:75-102 | the error object's keys are exactly the failing rules with their messages, and the result is true iff it is empty |
| Promociones.PromocionesPage.SavePromotion | src/components/Promociones.jsx:46-73 | a request is sent iff validation passes, with PUT iff editing, carrying the current promotion; success reloads and resets the dialog, failure shows the message; each outcome leaves the other outcome's dialog and message as they were |
| Promociones.PromocionesPage.DeletePromotion | src/components/Promociones.jsx:128-145 | the current promotion's id is deleted; success reloads and resets the confirmation, failure shows the message; each outcome leaves the other outcome's dialog and message as they were |
| ReservasAdmin.FilteredReservas | src/components/ReservasAdmin.jsx:143-148 | the listed reservations are exactly those whose key for the mode is non-empty and contains the search text ignoring case, in order |
| ReservasAdmin.UnknownModeListsNothing | src/components/ReservasAdmin.jsx:144-147 | a mode other than fecha, cliente and cancha lists nothing |
| ReservasAdmin.EmptySearchListsKeyed | src/components/ReservasAdmin.jsx:143-148 | an empty search lists exactly the reservations with a non-empty key |
| ReservasAdmin.EmptyClientSearchListsAll | src/components/ReservasAdmin.jsx:145-147 | an empty client search lists every reservation |
| ReservasAdmin.WithoutReservation | src/components/ReservasAdmin.jsx:83 | exactly the reservations with another id remain, in order |
| ReservasAdmin.DeleteAbsentIdKeepsTable | src/components/ReservasAdmin.jsx:83 | deleting an id the table does not hold leaves it unchanged |
| ReservasAdmin.ReservasAdminPage.constructor | src/components/ReservasAdmin.jsx:41-50 | mode fecha, empty search, no selection, snackbar type error |
| ReservasAdmin.ReservasAdminPage.OpenDeleteDialog | src/components/ReservasAdmin.jsx:97-100 | the reservation is selected and the confirmation opens |
| ReservasAdmin.ReservasAdminPage.CloseDeleteDialog | src/components/ReservasAdmin.jsx:102-105 | the confirmation closes and the selection is cleared |
| ReservasAdmin.ReservasAdminPage.OpenModal | src/components/ReservasAdmin.jsx:107-110 | the reservation is selected and the details open |
| ReservasAdmin.ReservasAdminPage.CloseModal | src/components/ReservasAdmin.jsx:112-115 | the details close and the selection is cleared |
| ReservasAdmin.ReservasAdminPage.SnackbarClose | src/components/ReservasAdmin.jsx:150-152 | the snackbar closes |
| ReservasAdmin.ReservasAdminPage.DeleteReserva | src/components/ReservasAdmin.jsx:73-95 | without a selection nothing happens; otherwise its id is deleted, success removes exactly that id from the table and shows the success text, failure keeps the table, the selection, the open confirmation and the success text, and shows the error |
| UsersAdmin.AssignableRoles | src/components/UsersAdmin.jsx:54-56 | CUSTOMER is always offered first; EMPLOYEE and ADMIN are offered exactly to an administrator |
| UsersAdmin.Columns | src/components/UsersAdmin.jsx:157-166 | name, email and phone always; the role and action columns exactly for an administrator |
| UsersAdmin.WithRole | src/components/UsersAdmin.jsx:71-75 | same length; users with another id are unchanged, users with the id get the new role and nothing else changes |
| UsersAdmin.WithRoleIdempotent | src/components/UsersAdmin.jsx:71-75 | applying the same role update twice equals applying it once |
| UsersAdmin.FilteredUsers | src/components/UsersAdmin.jsx:170-179 | the listed users are exactly those whose first name or email contains the search text ignoring case, in order |
| UsersAdmin.EmptySearchListsAll | src/components/UsersAdmin.jsx:170-179 | an empty search lists every user |
| UsersAdmin.FailedCreateReportsSuccess | src/components/UsersAdmin.jsx:100-103 | as written, a rejected creation opens the success dialog and not the error dialog |
| UsersAdmin.CreateUserDialogs | src/components/UsersAdmin.jsx:88-104 | corrected: success opens the success dialog and closes the form; failure opens the error dialog |
| UsersAdmin.UsersAdminPage.constructor | src/components/UsersAdmin.jsx:17-27 | empty list and search, no dialogs, no selection, no errors |
| UsersAdmin.UsersAdminPage.OpenEdit | src/components/UsersAdmin.jsx:195-199 | the user is selected, its role preselected and the edit dialog opened |
| UsersAdmin.UsersAdminPage.OpenDelete | src/components/UsersAdmin.jsx:206-209 | the user is selected and the confirmation opened |
| UsersAdmin.UsersAdminPage.UpdateRole | src/components/UsersAdmin.jsx:58-86 | with no role chosen the role error is recorded and nothing sent; otherwise the update for the selected id is sent, success applies it to the list only and closes the dialog, failure records the update error and shows the message |
| UsersAdmin.UsersAdminPage.DeleteUser | src/components/UsersAdmin.jsx:106-119 | the selected id is deleted; success closes the confirmation and reports it, failure shows the message; each outcome leaves the other outcome's dialog and message as they were |
| UsersAdmin.UsersAdminPage.ReceiveUsuarios | src/components/UsersAdmin.jsx:39-40 | the loaded list replaces the table |
| UsersAdmin.UsersAdminPage.CreateUser | src/components/UsersAdmin.jsx:88-104 | as written: a success opens the success dialog and closes the form; a failure records its message and also opens the success dialog |
| CanchaForm.CanchaErrors | src/components/CanchaForm.jsx:22-26 | name, rate and type are each flagged exactly when falsy |
| CanchaForm.CanchaErrorsEmptyIff | src/components/CanchaForm.jsx:22-29 | a draft passes exactly when it has a name, a truthy rate and a selected type |
| CanchaForm.BlankDraftFlagsAll | src/components/CanchaForm.jsx:5-29 | the initial blank draft is flagged on all three keys |
| CanchaForm.CanchaFormState.constructor | src/components/CanchaForm.jsx:5-10 | the blank draft and no errors |
| CanchaForm.CanchaFormState.PrefillEffect | src/components/CanchaForm.jsx:12-20 | a selected field replaces the draft with its name, rate and type id; none leaves the draft as it was |
| CanchaForm.CanchaFormState.Validate | src/components/CanchaForm.jsx:22-29 | the error object's keys are exactly the failing rules with their messages, and the result is true iff it is empty |
| CanchaForm.CanchaFormState.HandleSave | src/components/CanchaForm.jsx:31-34 | `onSave` receives exactly the current draft, and only when it passes |
| CanchasAdmin.DraftFor | src/components/CanchasAdmin.jsx:150-156 | an existing field opens with its name, rate and type id; none opens the blank draft |
| CanchasAdmin.SaveBody | src/components/CanchasAdmin.jsx:117-129 | the body is the edit body iff a field is selected, with that field's id and active flag; either way it carries the draft unchanged |
| CanchasAdmin.SaveRequestFor | src/components/CanchasAdmin.jsx:112-129 | PUT iff a field is selected, POST otherwise, with the save body |
| CanchasAdmin.Toggled | src/components/CanchasAdmin.jsx:162 | the active flag is negated and every other attribute is copied |
| CanchasAdmin.ToggleTwice | src/components/CanchasAdmin.jsx:162 | toggling twice gives the field back |
| CanchasAdmin.RateKeystrokeIff | src/components/CanchasAdmin.jsx:284-289 | the rate filter admits exactly the all-digit values, the empty value included |
| CanchasAdmin.CardActions | src/components/CanchasAdmin.jsx:238-256 | every card offers toggle and edit; the reserve action exactly for an active field |
| CanchasAdmin.CanchasAdminPage.constructor | src/components/CanchasAdmin.jsx:31-41 | closed, empty, the blank draft, no errors |
| CanchasAdmin.CanchasAdminPage.Validate | src/components/CanchasAdmin.jsx:43-50 | the error object's keys are exactly the failing field rules with their messages, and the result is true iff it is empty |
| CanchasAdmin.CanchasAdminPage.OpenDialog | src/components/CanchasAdmin.jsx:150-158 | the selection and its draft are set and the dialog opens |
| CanchasAdmin.CanchasAdminPage.CloseDialog | src/components/CanchasAdmin.jsx:52-57 | no selection, the blank draft, no errors |
| CanchasAdmin.CanchasAdminPage.ChangeHourlyRate | src/components/CanchasAdmin.jsx:284-289 | the rate changes only to an all-digit value |
| CanchasAdmin.CanchasAdminPage.ReceiveCanchas | src/components/CanchasAdmin.jsx:59-70 | a successful load replaces the list; a failed one keeps it |
| CanchasAdmin.CanchasAdminPage.SaveCancha | src/components/CanchasAdmin.jsx:108-148 | a request is sent iff the draft passes, built from the selection and draft; success reloads and resets, failure shows the message and keeps the dialog |
| CanchasAdmin.CanchasAdminPage.ToggleActive | src/components/CanchasAdmin.jsx:160-179 | the toggled field is sent for its id; success reloads, failure shows the message; each outcome leaves the other outcome's dialog and message as they were |
| CanchasAdmin.CanchasAdminPage.OpenReservationDialog | src/components/CanchasAdmin.jsx:181-184 | the field is selected and the reservation form opens |
| CanchasAdmin.CanchasAdminPage.CloseReservationDialog | src/components/CanchasAdmin.jsx:186-189 | the reservation form closes and the selection is cleared |
| MetodosPagoAdmin.SaveRequestFor | src/components/MetodosPagoAdmin.jsx:40-46 | PUT with the id and name iff editing, POST with the name only otherwise |
| MetodosPagoAdmin.FilteredPaymentMethods | src/components/MetodosPagoAdmin.jsx:108-110 | the listed methods are exactly those with a name containing the search text ignoring case, in order |
| MetodosPagoAdmin.EmptySearchListsNamed | src/components/MetodosPagoAdmin.jsx:108-110 | an empty search lists every method with a name |
| MetodosPagoAdmin.MetodosPagoPage.constructor | src/components/MetodosPagoAdmin.jsx:12-20 | the blank record, not editing, no dialogs |
| MetodosPagoAdmin.MetodosPagoPage.OpenDialog | src/components/MetodosPagoAdmin.jsx:67-71 | the record becomes current, editing iff it has an id |
| MetodosPagoAdmin.MetodosPagoPage.CloseDialog | src/components/MetodosPagoAdmin.jsx:73-77 | the blank record, not editing |
| MetodosPagoAdmin.MetodosPagoPage.OpenDeleteDialog | src/components/MetodosPagoAdmin.jsx:79-82 | the record becomes current and the confirmation opens |
| MetodosPagoAdmin.MetodosPagoPage.CloseDeleteDialog | src/components/MetodosPagoAdmin.jsx:84-87 | the blank record becomes current |
| MetodosPagoAdmin.MetodosPagoPage.SavePaymentMethod | src/components/MetodosPagoAdmin.jsx:40-65 | the request for the dialog's record is sent; success reloads and resets the dialog, failure shows the message; each outcome leaves the other outcome's dialog and message as they were |
| TiposCanchasAdmin.SaveRequestFor | src/components/TiposCanchasAdmin.jsx:52-58 | PUT with the id and name iff editing, POST with the name only otherwise |
| TiposCanchasAdmin.FilteredFieldTypes | src/components/TiposCanchasAdmin.jsx:108-110 | the listed types are exactly those with a name containing the search text ignoring case, in order |
| TiposCanchasAdmin.OwnNameListsType | src/components/TiposCanchasAdmin.jsx:108-110 | searching for a named type's own name lists it |
| TiposCanchasAdmin.TiposCanchasPage.constructor | src/components/TiposCanchasAdmin.jsx:12-20 | the blank type, not editing, no dialogs |
| TiposCanchasAdmin.TiposCanchasPage.OpenDialog | src/components/TiposCanchasAdmin.jsx:40-44 | the type becomes current, editing iff it has an id |
| TiposCanchasAdmin.TiposCanchasPage.CloseDialog | src/components/TiposCanchasAdmin.jsx:46-50 | the blank type, not editing |
| TiposCanchasAdmin.TiposCanchasPage.OpenDeleteDialog | src/components/TiposCanchasAdmin.jsx:79-82 | the type becomes current and the confirmation opens |
| TiposCanchasAdmin.TiposCanchasPage.CloseDeleteDialog | src/components/TiposCanchasAdmin.jsx:84-87 | the blank type becomes current |
| TiposCanchasAdmin.TiposCanchasPage.SaveFieldType | src/components/TiposCanchasAdmin.jsx:52-77 | the request for the dialog's record is sent; success reloads and resets the dialog, failure shows the message; each outcome leaves the other outcome's dialog and message as they were |
| TiposCanchasAdmin.TiposCanchasPage.DeleteFieldType | src/components/TiposCanchasAdmin.jsx:89-106 | the current type's id is deleted; success reloads and resets the confirmation, failure shows the message; each outcome leaves the other outcome's dialog and message as they were |
| DashboardAdmin.ReservationsOn | src/components/DashboardAdmin.jsx:108 | exactly the reservations dated today, in order |
| DashboardAdmin.TodayCount | src/components/DashboardAdmin.jsx:108 | at most the number of reservations, and positive exactly when one is dated today |
| DashboardAdmin.TodayCountConcat | src/components/DashboardAdmin.jsx:108 | the count over two lists joined is the sum of their counts |
| DashboardAdmin.TodayCountAll | src/components/DashboardAdmin.jsx:108 | when every reservation is dated today, the count is the list's length |
| DashboardAdmin.Recent | src/components/DashboardAdmin.jsx:109 | the first min(5, n) reservations, in order |
| DashboardAdmin.RecentIdempotent | src/components/DashboardAdmin.jsx:109 | slicing the slice again changes nothing |
| DashboardAdmin.MountEffect | src/components/DashboardAdmin.jsx:118-127 | a customer is redirected to / and nothing is loaded; any other role loads all four lists |
| DashboardAdmin.DashboardPage.constructor | src/components/DashboardAdmin.jsx:16-22 | all four counters 0 and no recent reservations |
| DashboardAdmin.DashboardPage.ReceiveCanchas | src/components/DashboardAdmin.jsx:39-40 | the field count becomes the list's length; the other counters stay |
| DashboardAdmin.DashboardPage.ReceiveAdmins | src/components/DashboardAdmin.jsx:61-62 | the administrator count becomes the list's length; the other counters stay |
| DashboardAdmin.DashboardPage.ReceiveClientes | src/components/DashboardAdmin.jsx:83-84 | the customer count becomes the list's length; the other counters stay |
| DashboardAdmin.DashboardPage.ReceiveReservas | src/components/DashboardAdmin.jsx:105-112 | today's count is set and the recent slice stored; the other counters stay |
| AuthPage.RouteFor | src/pages/AuthPage.jsx:64 | / exactly for CUSTOMER, /admin for every other role |
| AuthPage.AuthPageState.constructor | src/pages/AuthPage.jsx:26-32 | empty fields, no error, nothing flagged |
| AuthPage.AuthPageState.LoginSubmit | src/pages/AuthPage.jsx:35-72 | each empty field is flagged on its own and nothing is sent if either is; success logs in and routes by role, a rejection shows the server's message, an exception the fixed text; only success touches the session, and it leaves the login error as it was |
| AuthPage.AuthPageState.RegisterSubmit | src/pages/AuthPage.jsx:74-96 | the registration is sent; success logs in and routes to /, a rejection shows the server's message, an exception the fixed text |

## Findings

| source | as written | input that shows it | evidently intended | confidence | as-written member | corrected member |
|---|---|---|---|---|---|---|
| src/components/ReservationForm.jsx:91-99 | midnight of the chosen day is compared with the current instant | today's date at any moment after 00:00 is refused | refuse only days before today, as the message "igual o posterior a la fecha actual" says | not executed | ReservationForm.TodayRejectedAsWritten | ReservationForm.DateRejectedIff |
| src/components/UsersAdmin.jsx:100-103 | a rejected user creation opens the success dialog | any creation request that fails | open the error dialog, as every other handler on the page does | not executed | UsersAdmin.FailedCreateReportsSuccess | UsersAdmin.CreateUserDialogs |

The handlers follow the code as written: `ReservationFormState.ValidateReservationDate` (with
`ScheduleAccepted`, `ScheduleErrors` and `HandleReserve`) uses `ReservationForm.DateRejectedAsWritten`,
and `UsersAdminPage.CreateUser` uses `UsersAdmin.CreateUserDialogsAsWritten`. The corrected
definitions, `ReservationForm.DateRejected` and `UsersAdmin.CreateUserDialogs`, state the intended
behaviour beside them.

Two quirks of the source are modelled as written and not treated as findings:

- `ReservationForm.TimeChecksPassOnInvalidDates`: each time check passes when an input it does
  not test is empty. The order comparison is then with an invalid date, and that comparison is
  always false. `validateForm` runs first, so such a form never gets this far.
- `Promociones.DiscountRuleEdges`: the typed discount "." passes the range rule, because NaN
  is never out of range. A discount loaded as the number 0 is reported as missing.

## Left out

- Network I/O: requests, JSON bodies, the multipart image upload and the Excel download of the
  reservations. Each request is reduced to its outcome (a `Response` or an error message) and the
  list a reload returned.
- Fetch-on-mount handlers (`fetchCanchas`, `fetchUsuarios`, `fetchPromotions` and the rest) are
  modelled only as the `Receive...` methods and `reload` parameters that store what they return.
- Asynchrony: the model runs each handler to completion in one step. It does not model
  interleaving of concurrent handlers, stale closures, or the un-awaited reload after a role update.
- The regular-expression engine: each pattern is restated as character-class predicates
  (`Text`, `RegisterForm.MatchesPasswordPattern`).
- `toLowerCase` is modelled for ASCII and Latin-1 capitals only. `trim` is modelled for the common
  white-space characters only.
- `Number(...)` is modelled for digit-and-dot text, the only text the discount filter admits; any
  other string is NaN. `Date` parsing, time zones, and the UTC-versus-local difference between the
  dashboard's "today" and the reservation form's "now" are left out. Dates and times are integers.
- Local storage is modelled as the two-key map, not as the browser API. The JSON serialisation of
  the stored user is taken to round-trip.
- Rendering, icons, dialogs' looks, and plain field setters that copy an input value into state.
- MetodosPagoAdmin's delete handler (src/components/MetodosPagoAdmin.jsx:89-106) is not modelled:
  its non-ok branch reads a property of an error string and then reports success anyway, and the
  intended behaviour is not evident. The "Agregar" button of that page passes the click event as
  the record (src/components/MetodosPagoAdmin.jsx:130); `MetodosPagoPage.OpenDialog` is modelled
  for records only.
- Crashes on missing data (a reservation without client or field, a user without a first name)
  are not modelled.
- UsersAdmin.UsersAdminPage.UpdateRole: requires a selected user. The edit dialog is reachable
  only through the edit button, which selects one; with no selection the source would throw
  inside its `try` and show the runtime's message.
- UsersAdmin.UsersAdminPage.DeleteUser: requires a selected user, for the same reason.
- CanchaForm.CanchaFormState.PrefillEffect: the selected record is taken as a draft with a
  `fieldTypeId`. CanchaForm has no caller in the repository, and a field loaded by the fields
  page carries `fieldType.id` instead.
- The password visibility toggles, the switch between the login and register views on the sign-in
  page, and the success and error dialogs' close buttons only flip a flag. They are left out.
