/** The reservation record of the vehicle-charging booking application: five
    fields captured verbatim at construction plus a price computed once from
    the hours and the charge type. */
module ReservaModel {
  import opened JavaTime

  /** Euros per hour when the charge type is exactly "Lenta". */
  const TarifaLenta := 10
  /** Euros per hour for every other charge type. */
  const TarifaRapida := 15

  /** The six fields of a reservation at one moment, in declaration order. */
  datatype ReservaValue = ReservaValue(
    cliente: string,
    vehiculo: string,
    fecha: LocalDate,
    horasUso: int,
    tipoCarga: string,
    precioTotal: int)

  /** The pricing rule. The test is string equality with "Lenta", so the
      labels the form actually passes ("Carga lenta", "Carga rápida") both
      take the second branch. */
  function CalcularPrecio(horasUso: int, tipoCarga: string): int {
    if tipoCarga == "Lenta" then horasUso * TarifaLenta else horasUso * TarifaRapida
  }

  /** For a non-zero duration the 10-euro rate applies exactly when the charge
      type is "Lenta"; every other charge type pays 15 euros an hour. */
  lemma PrecioSegunTipo(horasUso: int, tipoCarga: string)
    ensures tipoCarga != "Lenta" ==> CalcularPrecio(horasUso, tipoCarga) == horasUso * TarifaRapida
    ensures horasUso != 0 ==>
              (CalcularPrecio(horasUso, tipoCarga) == horasUso * TarifaLenta <==> tipoCarga == "Lenta")
  {
  }

  /** With the durations the form accepts, the price lies between 10 and 360. */
  lemma PrecioEnRango(horasUso: int, tipoCarga: string)
    requires 1 <= horasUso <= 24
    ensures 10 <= CalcularPrecio(horasUso, tipoCarga) <= 360
    ensures tipoCarga != "Lenta" ==> 15 <= CalcularPrecio(horasUso, tipoCarga)
  {
  }

  /** The Objects.hash recurrence: start at 1, then 31 * h + hash of the next element. */
  function ObjectsHash(hs: seq<int>): int {
    if hs == [] then 1 else 31 * ObjectsHash(hs[..|hs| - 1]) + hs[|hs| - 1]
  }

  /** The String.hashCode polynomial s[0]*31^(n-1) + ... + s[n-1]. */
  function StringHash(s: string): int {
    if s == [] then 0 else 31 * StringHash(s[..|s| - 1]) + s[|s| - 1] as int
  }

  function DateHash(d: LocalDate): int {
    d.year * 2048 + d.month * 64 + d.day
  }

  function HashOf(v: ReservaValue): int {
    ObjectsHash([StringHash(v.cliente), StringHash(v.vehiculo), DateHash(v.fecha),
                 v.horasUso, StringHash(v.tipoCarga), v.precioTotal])
  }

  class Reserva {
    var cliente: string
    var vehiculo: string
    var fecha: LocalDate
    var horasUso: int
    var tipoCarga: string
    var precioTotal: int

    /** The current contents of the six fields. */
    function Value(): ReservaValue
      reads this
    {
      ReservaValue(cliente, vehiculo, fecha, horasUso, tipoCarga, precioTotal)
    }

    /** Stores the five arguments unchanged and fixes the price once. */
    constructor (cliente: string, vehiculo: string, fecha: LocalDate, horasUso: int, tipoCarga: string)
      ensures Value() == ReservaValue(cliente, vehiculo, fecha, horasUso, tipoCarga,
                                      CalcularPrecio(horasUso, tipoCarga))
    {
      this.cliente := cliente;
      this.vehiculo := vehiculo;
      this.fecha := fecha;
      this.horasUso := horasUso;
      this.tipoCarga := tipoCarga;
      this.precioTotal := CalcularPrecio(horasUso, tipoCarga);
    }

    method SetCliente(cliente: string)
      modifies this
      ensures Value() == old(Value()).(cliente := cliente)
    {
      this.cliente := cliente;
    }

    method SetVehiculo(vehiculo: string)
      modifies this
      ensures Value() == old(Value()).(vehiculo := vehiculo)
    {
      this.vehiculo := vehiculo;
    }

    method SetFecha(fecha: LocalDate)
      modifies this
      ensures Value() == old(Value()).(fecha := fecha)
    {
      this.fecha := fecha;
    }

    /** Changes the duration only: the price stays the one computed at construction. */
    method SetHorasUso(horasUso: int)
      modifies this
      ensures Value() == old(Value()).(horasUso := horasUso)
      ensures precioTotal == old(precioTotal)
    {
      this.horasUso := horasUso;
    }

    /** Changes the charge type only: the price stays the one computed at construction. */
    method SetTipoCarga(tipoCarga: string)
      modifies this
      ensures Value() == old(Value()).(tipoCarga := tipoCarga)
      ensures precioTotal == old(precioTotal)
    {
      this.tipoCarga := tipoCarga;
    }

    method SetPrecioTotal(precioTotal: int)
      modifies this
      ensures Value() == old(Value()).(precioTotal := precioTotal)
    {
      this.precioTotal := precioTotal;
    }

    /** Reserva.equals: the same object, or another reservation whose six
        fields all compare equal. */
    predicate Equals(o: Reserva?)
      reads this, o
    {
      this == o
      || (o != null
          && horasUso == o.horasUso
          && precioTotal == o.precioTotal
          && cliente == o.cliente
          && vehiculo == o.vehiculo
          && fecha == o.fecha
          && tipoCarga == o.tipoCarga)
    }

    /** Reserva.hashCode: Objects.hash over the six fields. */
    function HashCode(): int
      reads this
    {
      HashOf(Value())
    }
  }

  /** Equality is structural: it holds exactly when the other object is a
      reservation with the same six field values. */
  lemma EqualsIff(a: Reserva, o: Reserva?)
    ensures a.Equals(o) <==> o != null && a.Value() == o.Value()
  {
  }

  /** equals is reflexive, symmetric and transitive, and equal reservations
      share the client name. */
  lemma EqualsIsEquivalence(a: Reserva, b: Reserva, c: Reserva)
    ensures a.Equals(a)
    ensures a.Equals(b) ==> b.Equals(a)
    ensures a.Equals(b) && b.Equals(c) ==> a.Equals(c)
    ensures a.Equals(b) ==> a.cliente == b.cliente
  {
  }

  /** hashCode is consistent with equals. */
  lemma EqualsImpliesSameHash(a: Reserva, b: Reserva)
    ensures a.Equals(b) ==> a.HashCode() == b.HashCode()
  {
  }
}
