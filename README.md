# Electric-vehicle charging reservations — Dafny model

The application is a small desktop program for booking charging sessions for
electric vehicles. A main window collects a client name, a vehicle, a date, a
number of hours and a charge type, validates them, prices the booking and adds
it to a shared, in-memory list of reservations. A second window renders that
list as text and deletes the first reservation whose client matches a typed
name, ignoring case. Both windows hand the same list back and forth.

This project models:

- `ReservaModel` (`reserva.dfy`): the `Reserva` record as a class with six
  mutable fields, its pricing rule, its setters, `equals` and `hashCode`.
- `ReservaStore` (`store.dfy`): the shared observable list as a class over a
  `seq<Reserva>`, with `add` and `remove(Object)`. `remove` removes the first
  element that `equals` its argument.
- `JavaText` (`java_text.dfy`): the parts of `String` the controllers rely on:
  `trim`, ASCII `equalsIgnoreCase`, and the decimal rendering of the numbers
  and dates they append. `String.isEmpty` is the test `== []` on a string and
  needs no member of its own.
- `JavaTime` (`java_time.dfy`): the `LocalDate` value the date picker yields.
- `Lista` (`lista.dfy`): the list window controller. It covers `setReservas`,
  the listing that `actualizarLista` builds, and the deletion dialog
  `eliminarReserva`, whose outcome (cancelled, empty field, deleted, not
  found) replaces the alert it shows.
- `Principal` (`principal.dfy`): the main window controller. It covers
  `initAttributtes` and `reservar`: the form's values, the order of its checks,
  the reservation it creates and the summary it writes.
- `Navegacion` (`navegacion.dfy`): the two window switches `verReservas` and
  `volver`, which pass the same list object between controllers. It also
  holds a concrete session built in steps: two accepted bookings
  (`SesionAltas`), two rejected ones (`SesionRechazos`) and two deletions
  (`SesionBajas`, resting on the lemmas `BajaPorNombre` and
  `BajaSinCoincidencia`). `Sesion` chains them with a trip to the list
  window and back.

Where the intended behaviour and the code disagree, the model follows the code:

- The pricing rule charges 10 €/h only when the charge type is exactly
  `"Lenta"`. The form passes `"Carga lenta"` or `"Carga rápida"`, so every
  booking made through the form is priced at 15 €/h. A 3-hour slow charge costs
  45, not 30 (`Principal.FormularioSiempreTarifaRapida`).
- The hours spinner is read before any check. A missing spinner value therefore
  yields the generic "wrong format" error even when the name is also empty
  (`Principal.ValidarOrden`).
- The name check is `isEmpty`, not a blank check. A name made only of spaces is
  accepted (`Principal.NombreEnBlancoAceptado`).

Modelling choices:

- Prices are whole euros (`int`). Every price the code can produce is an
  integer number of hours times 10 or 15. `JavaText.PriceText` renders it the
  way Java renders the `double` (`45.0`).
- The list window's text area is a sequence of `Linea` values: a reservation
  entry, a dashed separator, or the "no reservations" message. `Lista.Text`
  gives the exact characters. The proofs reason about the lines.
- Input from widgets is passed as parameters: the `Formulario` for the main
  form and an `Option<string>` for the deletion dialog. Whether the other
  window's FXML file loads is a `bool` parameter of the navigation methods.

## Model

| member | source | states |
|---|---|---|
| ReservaModel.Reserva.constructor | src/main/java/com/gestionvehiculos/model/Reserva.java:30-37 | the new reservation holds the five given values and the price computed from the hours and charge type at creation |
| ReservaModel.Reserva.SetCliente | src/main/java/com/gestionvehiculos/model/Reserva.java:43-45 | only the client changes; every other field keeps its value |
| ReservaModel.Reserva.SetVehiculo | src/main/java/com/gestionvehiculos/model/Reserva.java:50-52 | only the vehicle changes |
| ReservaModel.Reserva.SetFecha | src/main/java/com/gestionvehiculos/model/Reserva.java:57-59 | only the date changes |
| ReservaModel.Reserva.SetHorasUso | src/main/java/com/gestionvehiculos/model/Reserva.java:64-66 | only the hours change; the stored price is not recalculated |
| ReservaModel.Reserva.SetTipoCarga | src/main/java/com/gestionvehiculos/model/Reserva.java:71-73 | only the charge type changes; the stored price is not recalculated |
| ReservaModel.Reserva.SetPrecioTotal | src/main/java/com/gestionvehiculos/model/Reserva.java:78-80 | only the price changes |
| ReservaModel.PrecioSegunTipo | src/main/java/com/gestionvehiculos/model/Reserva.java:91-97 | any charge type other than exactly "Lenta" is priced at 15 per hour; for a nonzero number of hours the price is 10 per hour if and only if the type is "Lenta" |
| ReservaModel.PrecioEnRango | src/main/java/com/gestionvehiculos/model/Reserva.java:91-97 | for 1 to 24 hours the price lies between 10 and 360, and is at least 15 for any type other than "Lenta" |
| ReservaModel.EqualsIff | src/main/java/com/gestionvehiculos/model/Reserva.java:101-111 | two reservations are equal exactly when they are the same object or agree on all six fields; null is never equal |
| ReservaModel.EqualsIsEquivalence | src/main/java/com/gestionvehiculos/model/Reserva.java:101-111 | equals is reflexive, symmetric and transitive, and equal reservations have the same client |
| ReservaModel.EqualsImpliesSameHash | src/main/java/com/gestionvehiculos/model/Reserva.java:113-116 | equal reservations have equal hash codes |
| ReservaStore.Store.constructor | src/main/java/com/gestionvehiculos/controller/ControladorPrincipal.java:45 | a fresh shared list is empty |
| ReservaStore.Store.Add | src/main/java/com/gestionvehiculos/controller/ControladorPrincipal.java:128 | adding appends the reservation at the end and keeps the earlier entries in order |
| ReservaStore.IndexOf | src/main/java/com/gestionvehiculos/controller/ControladorLista.java:101 | the index found is the first position whose element equals the argument, or -1 when there is none (always for null) |
| ReservaStore.Store.Remove | src/main/java/com/gestionvehiculos/controller/ControladorLista.java:101 | removal deletes exactly the first element equal to the argument and shifts the rest down; with no equal element the list is unchanged |
| ReservaStore.RemoveNullFindsNothing | src/main/java/com/gestionvehiculos/controller/ControladorLista.java:105 | removing null finds no element, so the list is left as it was |
| JavaText.TrimStart | src/main/java/com/gestionvehiculos/controller/ControladorLista.java:85 | the leading run of characters at or below space is skipped, and the next character is not one |
| JavaText.TrimEnd | src/main/java/com/gestionvehiculos/controller/ControladorLista.java:85 | the trailing run of characters at or below space is cut, and the character before it is not one |
| JavaText.Trim | src/main/java/com/gestionvehiculos/controller/ControladorLista.java:85 | the result is a contiguous slice of the input with only blank characters around it and non-blank ends; it is empty exactly when the input is all blank |
| JavaText.TrimIdempotent | src/main/java/com/gestionvehiculos/controller/ControladorLista.java:85 | trimming twice gives the same as trimming once |
| JavaText.UpperCase | src/main/java/com/gestionvehiculos/controller/ControladorLista.java:94 | upper-casing keeps the length and maps each character to its ASCII upper case |
| JavaText.CharEqualsIgnoreCaseIff | src/main/java/com/gestionvehiculos/controller/ControladorLista.java:94 | two characters match ignoring case exactly when their ASCII upper cases are equal |
| JavaText.EqualsIgnoreCasePositionwise | src/main/java/com/gestionvehiculos/controller/ControladorLista.java:94 | two strings match ignoring case exactly when they have the same length and match character by character |
| JavaText.EqualsIgnoreCaseIff | src/main/java/com/gestionvehiculos/controller/ControladorLista.java:94 | two strings match ignoring case exactly when their upper-cased forms are equal |
| JavaText.EqualsIgnoreCaseEquivalence | src/main/java/com/gestionvehiculos/controller/ControladorLista.java:94 | matching ignoring case is reflexive, symmetric and transitive |
| JavaText.Digits | src/main/java/com/gestionvehiculos/controller/ControladorLista.java:60 | a natural number is written as a non-empty string of decimal digits without a leading zero |
| JavaText.DigitsRoundTrip | src/main/java/com/gestionvehiculos/controller/ControladorLista.java:60 | reading the written digits back gives the original number |
| JavaText.IntText | src/main/java/com/gestionvehiculos/controller/ControladorLista.java:60 | the text starts with a minus sign exactly when the number is negative, and the remaining characters are decimal digits with no leading zero that read back as its magnitude |
| Lista.ControladorLista.constructor | src/main/java/com/gestionvehiculos/controller/ControladorLista.java:23-32 | a new list window has no shared list yet and an empty text area |
| Lista.ControladorLista.SetReservas | src/main/java/com/gestionvehiculos/controller/ControladorLista.java:37-40 | the window adopts the given list object and its text area shows that list's listing |
| Lista.BuildListing | src/main/java/com/gestionvehiculos/controller/ControladorLista.java:55-64 | the loop emits, for every reservation in order, an entry line with its current field values followed by a separator |
| Lista.EstaVacio | src/main/java/com/gestionvehiculos/controller/ControladorLista.java:65 | the emptiness test on the built text answers true exactly when no line was appended |
| Lista.TextEmptyIff | src/main/java/com/gestionvehiculos/controller/ControladorLista.java:65 | the built text is empty exactly when no line was emitted |
| Lista.BlocksAppend | src/main/java/com/gestionvehiculos/controller/ControladorLista.java:56-64 | the listing of two lists joined is the listing of the first followed by that of the second |
| Lista.BlockInOrder | src/main/java/com/gestionvehiculos/controller/ControladorLista.java:56-64 | the block for the i-th reservation sits between the blocks for those before and after it |
| Lista.BlocksShape | src/main/java/com/gestionvehiculos/controller/ControladorLista.java:56-64 | the listing has two lines per reservation: the entry for reservation i at 2i and a separator at 2i+1 |
| Lista.ListingCases | src/main/java/com/gestionvehiculos/controller/ControladorLista.java:65 | an empty list shows only the "no reservations" message; a non-empty one shows its blocks and never that message |
| Lista.ControladorLista.ActualizarLista | src/main/java/com/gestionvehiculos/controller/ControladorLista.java:54-66 | the text area shows the blocks of the current list, or the "no reservations" message when the list is empty; the list is untouched |
| Lista.IndexOfCliente | src/main/java/com/gestionvehiculos/controller/ControladorLista.java:92-98 | the index is the first position whose client matches the name ignoring case, or -1 when none matches |
| Lista.BuscarCliente | src/main/java/com/gestionvehiculos/controller/ControladorLista.java:92-98 | the scan with early exit returns the first reservation whose client matches ignoring case, or null |
| Lista.RemoveHitsScanIndex | src/main/java/com/gestionvehiculos/controller/ControladorLista.java:100-101 | the first element equal to the found reservation is the found one itself, so the removal deletes that exact entry |
| Lista.LaterMatchesSurvive | src/main/java/com/gestionvehiculos/controller/ControladorLista.java:93-101 | only the first match is removed; later reservations of the same client stay, shifted down by one |
| Lista.EliminarSinCambios | src/main/java/com/gestionvehiculos/controller/ControladorLista.java:83-108 | a cancelled dialog, a blank name, or a name nobody matches leave the list unchanged |
| Lista.EliminarPrimeraCoincidencia | src/main/java/com/gestionvehiculos/controller/ControladorLista.java:85-103 | for a non-blank name whose first match is at k, the outcome names the deleted client and the list loses exactly entry k |
| Lista.ControladorLista.EliminarReserva | src/main/java/com/gestionvehiculos/controller/ControladorLista.java:75-110 | the new list and the outcome are those of the deletion rule on the old list; after a search the text area shows the new listing, otherwise it is left alone |
| Lista.ControladorLista.EliminarCoincidencia | src/main/java/com/gestionvehiculos/controller/ControladorLista.java:92-108 | with a trimmed, non-empty name, the first match is deleted, or nothing is when none matches, and the text area is refreshed in both cases |
| Lista.ControladorLista.BuscarYQuitar | src/main/java/com/gestionvehiculos/controller/ControladorLista.java:92-105 | the scan followed by remove(Object) deletes exactly the first entry matching the name ignoring case, or nothing when none matches, as the deletion rule says |
| Principal.EtiquetaCargaIff | src/main/java/com/gestionvehiculos/controller/ControladorPrincipal.java:106 | the label is "Carga lenta" exactly when slow charge is selected, and "Carga rápida" exactly when it is not |
| Principal.FormularioSiempreTarifaRapida | src/main/java/com/gestionvehiculos/controller/ControladorPrincipal.java:106 | neither label is "Lenta", so whichever charge type is selected a form booking is priced at 15 per hour |
| Principal.ValidarOrden | src/main/java/com/gestionvehiculos/controller/ControladorPrincipal.java:105-124 | a missing hours value fails first; then an empty name, a missing vehicle, a missing date and hours outside 1..24 fail in that order; the form is accepted exactly when none applies |
| Principal.HorasLimites | src/main/java/com/gestionvehiculos/controller/ControladorPrincipal.java:121-124 | for an otherwise complete form the hour bounds are inclusive: 1 and 24 are accepted, 0 and 25 are rejected as invalid hours |
| Principal.NombreEnBlancoAceptado | src/main/java/com/gestionvehiculos/controller/ControladorPrincipal.java:109-112 | a non-empty name made only of blanks, which trimming would empty, passes every check of an otherwise valid form |
| Principal.ControladorPrincipal.constructor | src/main/java/com/gestionvehiculos/controller/ControladorPrincipal.java:45 | a new main window owns a fresh, empty list |
| Principal.ControladorPrincipal.InitAttributtes | src/main/java/com/gestionvehiculos/controller/ControladorPrincipal.java:79-81 | the window adopts the given list object without changing it |
| Principal.ControladorPrincipal.Reservar | src/main/java/com/gestionvehiculos/controller/ControladorPrincipal.java:99-145 | a rejected form changes nothing; an accepted one appends one fresh reservation with the form's values, label and price, keeps the earlier entries, and writes its summary |
| Navegacion.VerReservas | src/main/java/com/gestionvehiculos/controller/ControladorPrincipal.java:154-166 | when the view loads, the list window shares the main window's list object and shows its listing; otherwise no window is returned |
| Navegacion.Volver | src/main/java/com/gestionvehiculos/controller/ControladorLista.java:119-135 | when the view loads, the new main window shares the list window's list object, unchanged |
| Navegacion.IdaYVuelta | src/main/java/com/gestionvehiculos/controller/ControladorLista.java:119-135 | going to the list window and back keeps the same list object and its contents |
| Navegacion.SesionAltas | src/main/java/com/gestionvehiculos/controller/ControladorPrincipal.java:99-145 | two valid bookings, 3 hours with slow charge and 5 with fast, are stored in order at 45 and 75 |
| Navegacion.SesionRechazos | src/main/java/com/gestionvehiculos/controller/ControladorPrincipal.java:121-124 | forms with 0 and 25 hours are rejected and leave the list as it was |
| Navegacion.BajaPorNombre | src/main/java/com/gestionvehiculos/controller/ControladorLista.java:85-103 | the rule for deleting "ana" from [Ana, Bob] removes Ana and reports her stored name |
| Navegacion.BajaSinCoincidencia | src/main/java/com/gestionvehiculos/controller/ControladorLista.java:104-107 | the rule for deleting "Carol" from [Bob] finds nobody, changes nothing and reports the name searched |
| Navegacion.SesionBajas | src/main/java/com/gestionvehiculos/controller/ControladorLista.java:75-110 | deleting "ana" from [Ana, Bob] removes Ana's reservation, and deleting the unknown "Carol" afterwards leaves [Bob] |
| Navegacion.Sesion | src/main/java/com/gestionvehiculos/controller/ControladorLista.java:75-135 | booking Ana and Bob, rejecting two bad forms, deleting "ana" and the unknown "Carol" in the list window, then going back leaves a main window whose list holds only Bob's reservation, priced 75 |

## Left out

- Widgets, scenes, stages, alerts and dialogs are not modelled. Alerts become outcome values; the dialog's answer and the form's values are parameters.
- `Main.java` and `module-info.java` (start-up and module wiring) are not modelled.
- `initialize` (filling the vehicle combo box, the 1..24 spinner range, the radio-button group) is not modelled. `reservar` does not rely on it: it re-checks the hours and accepts any vehicle value.
- `setStage` on both controllers is not modelled: a stage is a widget.
- The getters are not modelled as separate members; the model reads the fields directly.
- Any exception inside `reservar` other than a missing spinner value is not modelled. The only other one the code could raise needs a null name, and a text field never returns one.
- An `IOException` while loading a view is modelled only as the `vistaCargada` flag. The error print and error alert are left out.
- The change listeners of the observable list are not modelled: the code registers none.
- Reservation fields holding null are not modelled. The form never creates one: every value is checked or computed before the constructor runs.
- JavaText.EqualsIgnoreCase: folds ASCII letters only, because the full Unicode case tables of `String.equalsIgnoreCase` are outside the model.
- ReservaModel.Reserva.HashCode: does not model 32-bit wrap-around or the exact hash of `LocalDate` and `Double`, because the only property the code needs is that equal objects hash alike.
- ReservaModel.Reserva.SetPrecioTotal: the price is a whole number of euros, not a `double`. Every price the application computes is an integer, but a caller-supplied fractional price is not representable.
- JavaText.PriceText: matches Java's rendering of a `double` only below 10^7 euros, where Java stops using plain notation.
- JavaText.DateText: any year/month/day triple is accepted; the calendar validity of `LocalDate` is not modelled.
