/** The list screen: renders the shared store as text and deletes the first
    reservation whose client name matches a typed name ignoring case. */
module Lista {
  import opened Wrappers
  import opened JavaText
  import opened ReservaModel
  import opened ReservaStore

  /** Shown instead of the listing when it would be empty. */
  const NoReservas: string := "No hay reservas registradas actualmente."

  /** A run of n dashes. */
  function Dashes(n: nat): (d: string)
    ensures |d| == n
    ensures forall i :: 0 <= i < n ==> d[i] == '-'
  {
    if n == 0 then "" else Dashes(n - 1) + "-"
  }

  /** The listing text area, one line at a time: an entry line for a
      reservation, the separator written after every entry, or the fixed
      message shown for an empty store. */
  datatype Linea = Entrada(v: ReservaValue) | Separador | SinReservas

  /** The one-line description of a reservation in the listing. */
  function EntryLine(v: ReservaValue): string {
    "Cliente: " + v.cliente
    + " | Vehiculo: " + v.vehiculo
    + " | Fecha de reserva: " + DateText(v.fecha)
    + " | Horas de duración: " + IntText(v.horasUso)
    + " | Tipo de carga: " + v.tipoCarga
    + " | Precio total: " + PriceText(v.precioTotal) + "€\n"
  }

  /** The characters each line contributes to the text area. */
  function LineaText(l: Linea): (t: string)
    ensures t != []
  {
    match l
    case Entrada(v) => EntryLine(v)
    case Separador => Dashes(160) + "\n"
    case SinReservas => NoReservas
  }

  /** The text area contents spelled out from its lines. */
  function Text(ls: seq<Linea>): string {
    if ls == [] then "" else Text(ls[..|ls| - 1]) + LineaText(ls[|ls| - 1])
  }

  /** Every line is non-empty, so the StringBuilder of actualizarLista is
      empty exactly when no line was appended. */
  lemma {:induction false} TextEmptyIff(ls: seq<Linea>)
    ensures Text(ls) == [] <==> ls == []
  {
    if ls != [] {
      var t := LineaText(ls[|ls| - 1]);
      assert |Text(ls)| >= |t| > 0;
    }
  }

  /** The field values of the stored reservations, in store order. */
  function Values(rs: seq<Reserva>): seq<ReservaValue>
    reads rs
  {
    seq(|rs|, i requires 0 <= i < |rs| reads rs => rs[i].Value())
  }

  /** What the listing holds for one reservation: its line, then the separator. */
  function Block(v: ReservaValue): seq<Linea> {
    [Entrada(v), Separador]
  }

  /** The StringBuilder contents after appending the blocks of vs in order. */
  function Blocks(vs: seq<ReservaValue>): seq<Linea> {
    if vs == [] then [] else Blocks(vs[..|vs| - 1]) + Block(vs[|vs| - 1])
  }

  /** The text area contents: the blocks when there are any, else the fixed
      message. (actualizarLista tests whether the StringBuilder is empty,
      which by TextEmptyIff is the same test.) */
  function Listing(vs: seq<ReservaValue>): seq<Linea> {
    var b := Blocks(vs);
    if b != [] then b else [SinReservas]
  }

  /** The listing of two consecutive runs of reservations is the listing of
      the first followed by that of the second. */
  lemma {:induction false} BlocksAppend(a: seq<ReservaValue>, b: seq<ReservaValue>)
    ensures Blocks(a + b) == Blocks(a) + Blocks(b)
    decreases |b|
  {
    if b == [] {
      assert a + b == a;
    } else {
      var b' := b[..|b| - 1];
      assert (a + b)[..|a + b| - 1] == a + b';
      assert (a + b)[|a + b| - 1] == b[|b| - 1];
      BlocksAppend(a, b');
    }
  }

  lemma BlocksOne(v: ReservaValue)
    ensures Blocks([v]) == Block(v)
  {
    assert [v][..0] == [];
  }

  /** Every reservation contributes its block in store order: the block of
      entry i comes after those of entries before it and before those after. */
  lemma BlockInOrder(vs: seq<ReservaValue>, i: int)
    requires 0 <= i < |vs|
    ensures Blocks(vs) == Blocks(vs[..i]) + (Block(vs[i]) + Blocks(vs[i + 1..]))
  {
    var p, v, q := vs[..i], vs[i], vs[i + 1..];
    assert vs == p + ([v] + q) by {
      assert vs[i..] == [v] + q by {
        assert vs[i..][0] == v && vs[i..][1..] == q;
      }
      assert vs == p + vs[i..];
    }
    calc {
      Blocks(vs);
      Blocks(p + ([v] + q));
    == { BlocksAppend(p, [v] + q); }
      Blocks(p) + Blocks([v] + q);
    == { BlocksAppend([v], q); BlocksOne(v); }
      Blocks(p) + (Block(v) + Blocks(q));
    }
  }

  /** Two lines per reservation: its entry line at 2i, the separator at 2i+1. */
  lemma {:induction false} BlocksShape(vs: seq<ReservaValue>)
    ensures |Blocks(vs)| == 2 * |vs|
    ensures forall i :: 0 <= i < |vs| ==>
              Blocks(vs)[2 * i] == Entrada(vs[i]) && Blocks(vs)[2 * i + 1] == Separador
  {
    if vs != [] {
      BlocksShape(vs[..|vs| - 1]);
    }
  }

  /** An empty store shows the fixed message; any other store shows its
      blocks. */
  lemma ListingCases(vs: seq<ReservaValue>)
    ensures vs == [] ==> Listing(vs) == [SinReservas]
    ensures vs != [] ==> Listing(vs) == Blocks(vs)
  {
    BlocksShape(vs);
  }

  /** The position of the first reservation whose client name equals nombre
      ignoring case, or -1 when there is none. */
  function IndexOfCliente(rs: seq<Reserva>, nombre: string): (k: int)
    reads rs
    ensures -1 <= k < |rs|
    ensures k >= 0 ==> EqualsIgnoreCase(rs[k].cliente, nombre)
    ensures k >= 0 ==> forall j :: 0 <= j < k ==> !EqualsIgnoreCase(rs[j].cliente, nombre)
    ensures k == -1 ==> forall j :: 0 <= j < |rs| ==> !EqualsIgnoreCase(rs[j].cliente, nombre)
  {
    if rs == [] then -1
    else if EqualsIgnoreCase(rs[0].cliente, nombre) then 0
    else
      var k := IndexOfCliente(rs[1..], nombre);
      if k == -1 then -1 else k + 1
  }

  /** The search loop of eliminarReserva: scans in order and breaks at the
      first client name matching ignoring case. */
  method BuscarCliente(rs: seq<Reserva>, clienteBuscado: string) returns (eliminar: Reserva?)
    ensures var k := IndexOfCliente(rs, clienteBuscado);
            eliminar == if k >= 0 then rs[k] else null
  {
    eliminar := null;
    for i := 0 to |rs|
      invariant eliminar == null
      invariant forall j :: 0 <= j < i ==> !EqualsIgnoreCase(rs[j].cliente, clienteBuscado)
    {
      if EqualsIgnoreCase(rs[i].cliente, clienteBuscado) {
        eliminar := rs[i];
        break;
      }
    }
  }

  /** StringBuilder.isEmpty on the text the lines spell out: every line
      contributes at least one character, so the text is empty exactly when
      no line was appended. */
  method EstaVacio(sb: seq<Linea>) returns (vacio: bool)
    ensures vacio <==> sb == []
  {
    TextEmptyIff(sb);
    vacio := Text(sb) == [];
  }

  /** The rendering loop of actualizarLista: appends one block per reservation. */
  method BuildListing(rs: seq<Reserva>) returns (sb: seq<Linea>)
    ensures sb == Blocks(Values(rs))
  {
    sb := [];
    for i := 0 to |rs|
      invariant sb == Blocks(Values(rs[..i]))
    {
      sb := sb + [Entrada(rs[i].Value()), Separador];
      assert Values(rs[..i + 1]) == Values(rs[..i]) + [rs[i].Value()];
    }
    assert rs[..|rs|] == rs;
  }

  /** The element remove(Object) drops is the one the scan found: equal
      reservations share the client name, so no earlier element can be equal
      to it. */
  lemma RemoveHitsScanIndex(rs: seq<Reserva>, nombre: string)
    requires IndexOfCliente(rs, nombre) >= 0
    ensures IndexOf(rs, rs[IndexOfCliente(rs, nombre)]) == IndexOfCliente(rs, nombre)
  {
    var k := IndexOfCliente(rs, nombre);
    forall j | 0 <= j < k ensures !rs[k].Equals(rs[j]) {
      EqualsIsEquivalence(rs[k], rs[j], rs[j]);
    }
    assert rs[k].Equals(rs[k]);
  }

  /** With several reservations under one name, deleting removes only the
      first: every later match stays, one position earlier, and the next
      deletion of that name finds the next of them. */
  lemma LaterMatchesSurvive(rs: seq<Reserva>, nombre: string, j: int)
    requires 0 <= IndexOfCliente(rs, nombre) < j < |rs|
    requires EqualsIgnoreCase(rs[j].cliente, nombre)
    ensures var k := IndexOfCliente(rs, nombre);
            var after := rs[..k] + rs[k + 1..];
            after[j - 1] == rs[j] && 0 <= IndexOfCliente(after, nombre) <= j - 1
  {
    var k := IndexOfCliente(rs, nombre);
    var after := rs[..k] + rs[k + 1..];
    assert after[j - 1] == rs[j];
  }

  /** What eliminarReserva told the user. */
  datatype Eliminacion =
    | Cancelada                       // the dialog was closed without a value
    | CampoVacio                      // "Campo vacío": nothing left after trimming
    | Eliminada(cliente: string)      // "Reserva eliminada", naming the stored client
    | NoEncontrada(buscado: string)   // "Reserva no encontrada", naming the trimmed input

  /** The effect of deleting by a non-blank name: the first reservation
      whose client matches it ignoring case goes, or nothing changes. */
  function EliminarNombre(s: seq<Reserva>, nombre: string): (seq<Reserva>, Eliminacion)
    reads s
  {
    var k := IndexOfCliente(s, nombre);
    if k >= 0 then (s[..k] + s[k + 1..], Eliminada(s[k].cliente))
    else (s, NoEncontrada(nombre))
  }

  /** The effect of eliminarReserva on the store and the alert it shows, for
      a dialog result (None when the dialog was cancelled). */
  function Eliminar(s: seq<Reserva>, result: Option<string>): (seq<Reserva>, Eliminacion)
    reads s
  {
    match result
    case None => (s, Cancelada)
    case Some(input) =>
      var nombre := Trim(input);
      if nombre == [] then (s, CampoVacio) else EliminarNombre(s, nombre)
  }

  /** A cancelled dialog, or input that is blank after trimming, changes
      nothing; so does a name no stored client matches. */
  lemma EliminarSinCambios(s: seq<Reserva>, result: Option<string>)
    ensures result.None? ==> Eliminar(s, result) == (s, Cancelada)
    ensures result.Some? && AllTrimmable(result.value) ==> Eliminar(s, result) == (s, CampoVacio)
    ensures result.Some? && !AllTrimmable(result.value)
            && (forall j :: 0 <= j < |s| ==> !EqualsIgnoreCase(s[j].cliente, Trim(result.value)))
            ==> Eliminar(s, result) == (s, NoEncontrada(Trim(result.value)))
  {
  }

  /** When some stored client matches the trimmed input ignoring case, exactly
      the lowest-index match is removed: the store shrinks by one, the entries
      before it stay in place and the ones after it move up by one. */
  lemma EliminarPrimeraCoincidencia(s: seq<Reserva>, input: string, k: int)
    requires Trim(input) != []
    requires 0 <= k < |s| && EqualsIgnoreCase(s[k].cliente, Trim(input))
    requires forall j :: 0 <= j < k ==> !EqualsIgnoreCase(s[j].cliente, Trim(input))
    ensures var (after, outcome) := Eliminar(s, Some(input));
            && outcome == Eliminada(s[k].cliente)
            && |after| == |s| - 1
            && (forall i :: 0 <= i < k ==> after[i] == s[i])
            && (forall i :: k < i < |s| ==> after[i - 1] == s[i])
  {
    assert IndexOfCliente(s, Trim(input)) == k;
  }

  class ControladorLista {
    /** The shared store, set by the form screen before the list is shown. */
    var reservas: Store?
    /** The contents of the listing text area, line by line. */
    var texto: seq<Linea>

    /** The controller as FXMLLoader builds it: no store yet, empty text area. */
    constructor ()
      ensures reservas == null && texto == []
    {
      reservas := null;
      texto := [];
    }

    /** Adopts the caller's store itself, not a copy, and renders it. */
    method SetReservas(reservas: Store)
      modifies this
      ensures this.reservas == reservas && texto == Listing(Values(reservas.items))
    {
      this.reservas := reservas;
      ActualizarLista();
    }

    /** Re-renders the whole listing from the store. */
    method ActualizarLista()
      requires reservas != null
      modifies this
      ensures reservas == old(reservas) && texto == Listing(Values(reservas.items))
    {
      var sb := BuildListing(reservas.items);
      var vacio := EstaVacio(sb);
      texto := if !vacio then sb else [SinReservas];
    }

    /** Deletes the first reservation whose client equals the trimmed dialog
        input ignoring case (the stored names are compared as they are), and
        re-renders unless the dialog was cancelled or the input blank. */
    method EliminarReserva(result: Option<string>) returns (outcome: Eliminacion)
      requires reservas != null
      modifies this, reservas
      ensures reservas == old(reservas)
      ensures (reservas.items, outcome) == old(Eliminar(reservas.items, result))
      ensures outcome.Cancelada? || outcome.CampoVacio? ==> texto == old(texto)
      ensures outcome.Eliminada? || outcome.NoEncontrada? ==> texto == Listing(Values(reservas.items))
    {
      if result.Some? {
        var clienteBuscado := Trim(result.value);
        if clienteBuscado == [] {
          return CampoVacio;
        }
        outcome := EliminarCoincidencia(clienteBuscado);
      } else {
        outcome := Cancelada;
      }
    }

    /** The part of eliminarReserva after a non-blank name was read: scan,
        remove(Object) with the reservation found (or with null), re-render. */
    method EliminarCoincidencia(clienteBuscado: string) returns (outcome: Eliminacion)
      requires reservas != null
      modifies this, reservas
      ensures reservas == old(reservas)
      ensures (reservas.items, outcome) == old(EliminarNombre(reservas.items, clienteBuscado))
      ensures outcome.Eliminada? || outcome.NoEncontrada?
      ensures texto == Listing(Values(reservas.items))
    {
      outcome := BuscarYQuitar(clienteBuscado);
      ActualizarLista();
    }

    /** The scan followed by remove(Object): the reservation the scan found is
        the one removed, since no earlier entry can equal it; when the scan
        found nothing, remove(null) removes nothing. */
    method BuscarYQuitar(clienteBuscado: string) returns (outcome: Eliminacion)
      requires reservas != null
      modifies reservas
      ensures (reservas.items, outcome) == old(EliminarNombre(reservas.items, clienteBuscado))
      ensures outcome.Eliminada? || outcome.NoEncontrada?
    {
      ghost var s := reservas.items;
      ghost var k := IndexOfCliente(s, clienteBuscado);
      ghost var expected := EliminarNombre(s, clienteBuscado);
      var eliminar := BuscarCliente(reservas.items, clienteBuscado);
      if eliminar != null {
        RemoveHitsScanIndex(s, clienteBuscado);
        var index := reservas.Remove(eliminar);
        assert index == k;
        outcome := Eliminada(eliminar.cliente);
        assert (reservas.items, outcome) == expected;
      } else {
        var index := reservas.Remove(eliminar);
        assert index == -1;
        outcome := NoEncontrada(clienteBuscado);
      }
    }
  }
}
