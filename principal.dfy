/** The form screen: validates the typed-in reservation, prices it, appends it
    to the shared store and shows a summary. */
module Principal {
  import opened Wrappers
  import opened JavaTime
  import opened JavaText
  import opened ReservaModel
  import opened ReservaStore

  /** The form as the register button reads it. An unselected combo box or
      date picker, and a spinner without a value, are None. */
  datatype Formulario = Formulario(
    nombre: string,
    vehiculo: Option<string>,
    fecha: Option<LocalDate>,
    horas: Option<int>,
    cargaLenta: bool)

  /** The error alert reservar shows, one per check, plus the generic alert
      of its exception handler. */
  datatype ErrorReserva =
    | NombreRequerido      // "Error: Nombre requerido."
    | VehiculoRequerido    // "Error: Vehículo requerido."
    | FechaRequerida       // "Error: Fecha requerida."
    | HorasInvalidas       // "Error. Horas inválidas"
    | FormatoIncorrecto    // "Formato incorrecto o dato inválido"

  /** The charge label read from the toggle pair. */
  function EtiquetaCarga(cargaLenta: bool): string {
    if cargaLenta then "Carga lenta" else "Carga rápida"
  }

  /** The outcome of reservar's checks, in the order reservar makes them.
      Unboxing an absent spinner value throws before any check runs. */
  function Validar(f: Formulario): Option<ErrorReserva> {
    if f.horas.None? then Some(FormatoIncorrecto)
    else if f.nombre == [] then Some(NombreRequerido)
    else if f.vehiculo.None? then Some(VehiculoRequerido)
    else if f.fecha.None? then Some(FechaRequerida)
    else if f.horas.value < 1 || f.horas.value > 24 then Some(HorasInvalidas)
    else None
  }

  /** The text written to the summary area after a successful registration. */
  function Resumen(v: ReservaValue): string {
    "Reserva registrada correctamente\n"
    + "Cliente: " + v.cliente
    + "\nVehiculo: " + v.vehiculo
    + "\nFecha de reserva: " + DateText(v.fecha)
    + "\nHoras de duración: " + IntText(v.horasUso)
    + "\nTipo de carga: " + v.tipoCarga
    + "\nPrecio total: " + PriceText(v.precioTotal) + "€"
  }

  /** The label is "Carga lenta" exactly when the slow toggle is selected. */
  lemma EtiquetaCargaIff(cargaLenta: bool)
    ensures EtiquetaCarga(cargaLenta) == "Carga lenta" <==> cargaLenta
    ensures EtiquetaCarga(cargaLenta) == "Carga rápida" <==> !cargaLenta
  {
  }

  /** Neither label the form produces is "Lenta", so every reservation
      registered through the form is priced at 15 euros an hour, whichever
      toggle is selected. */
  lemma FormularioSiempreTarifaRapida(horasUso: int, cargaLenta: bool)
    ensures EtiquetaCarga(cargaLenta) != "Lenta"
    ensures CalcularPrecio(horasUso, EtiquetaCarga(cargaLenta)) == horasUso * TarifaRapida
  {
    assert |EtiquetaCarga(cargaLenta)| > |"Lenta"|;
  }

  /** The checks report the first failing field in the order name, vehicle,
      date, hours, and accept exactly the forms that pass all four. */
  lemma ValidarOrden(f: Formulario)
    ensures f.horas.None? ==> Validar(f) == Some(FormatoIncorrecto)
    ensures f.horas.Some? && f.nombre == [] ==> Validar(f) == Some(NombreRequerido)
    ensures f.horas.Some? && f.nombre != [] && f.vehiculo.None? ==> Validar(f) == Some(VehiculoRequerido)
    ensures f.horas.Some? && f.nombre != [] && f.vehiculo.Some? && f.fecha.None?
            ==> Validar(f) == Some(FechaRequerida)
    ensures Validar(f) == Some(HorasInvalidas) <==>
              f.horas.Some? && f.nombre != [] && f.vehiculo.Some? && f.fecha.Some?
              && !(1 <= f.horas.value <= 24)
    ensures Validar(f) == None <==>
              f.horas.Some? && f.nombre != [] && f.vehiculo.Some? && f.fecha.Some?
              && 1 <= f.horas.value <= 24
  {
  }

  /** The hour bounds are inclusive: 1 and 24 pass, 0 and 25 do not. */
  lemma HorasLimites(f: Formulario)
    requires f.nombre != [] && f.vehiculo.Some? && f.fecha.Some?
    ensures f.horas == Some(1) || f.horas == Some(24) ==> Validar(f) == None
    ensures f.horas == Some(0) || f.horas == Some(25) ==> Validar(f) == Some(HorasInvalidas)
  {
  }

  /** The name check is isEmpty without trimming: a name made only of blanks,
      which trimming would reduce to nothing, passes. */
  lemma NombreEnBlancoAceptado(f: Formulario)
    requires f.nombre != [] && AllTrimmable(f.nombre)
    requires f.vehiculo.Some? && f.fecha.Some? && f.horas.Some? && 1 <= f.horas.value <= 24
    ensures Trim(f.nombre) == []
    ensures Validar(f) == None
  {
  }

  class ControladorPrincipal {
    /** The shared reservation list. */
    var reservas: Store
    /** The contents of the summary text area. */
    var areaInfo: string

    /** The controller as FXMLLoader builds it, with a new, empty list. */
    constructor ()
      ensures fresh(reservas) && reservas.items == [] && areaInfo == ""
    {
      reservas := new Store();
      areaInfo := "";
    }

    /** Adopts the caller's list itself, not a copy. */
    method InitAttributtes(reservas: Store)
      modifies this
      ensures this.reservas == reservas && areaInfo == old(areaInfo)
    {
      this.reservas := reservas;
    }

    /** Registers a reservation: on any failed check nothing changes; on
        success exactly one new reservation, holding the typed values and the
        computed price, is appended and summarised. */
    method Reservar(f: Formulario) returns (error: Option<ErrorReserva>)
      modifies this, reservas
      ensures error == Validar(f)
      ensures reservas == old(reservas)
      ensures error.Some? ==> reservas.items == old(reservas.items) && areaInfo == old(areaInfo)
      ensures error.None? ==>
                && |reservas.items| == |old(reservas.items)| + 1
                && reservas.items[..|old(reservas.items)|] == old(reservas.items)
                && fresh(reservas.items[|old(reservas.items)|])
                && var r := reservas.items[|old(reservas.items)|];
                   && r.Value() == ReservaValue(f.nombre, f.vehiculo.value, f.fecha.value, f.horas.value,
                                                EtiquetaCarga(f.cargaLenta),
                                                CalcularPrecio(f.horas.value, EtiquetaCarga(f.cargaLenta)))
                   && areaInfo == Resumen(r.Value())
    {
      if f.horas.None? {
        return Some(FormatoIncorrecto);
      }
      var cliente := f.nombre;
      var horasUso := f.horas.value;
      var tipoCarga := EtiquetaCarga(f.cargaLenta);
      if cliente == [] {
        return Some(NombreRequerido);
      }
      if f.vehiculo.None? {
        return Some(VehiculoRequerido);
      }
      if f.fecha.None? {
        return Some(FechaRequerida);
      }
      if horasUso < 1 || horasUso > 24 {
        return Some(HorasInvalidas);
      }
      var r := new Reserva(cliente, f.vehiculo.value, f.fecha.value, horasUso, tipoCarga);
      reservas.Add(r);
      areaInfo := Resumen(r.Value());
      error := None;
    }
  }
}
