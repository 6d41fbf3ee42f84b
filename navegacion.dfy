/** Moving between the two screens. Each transition builds the next screen's
    controller and hands it the store object itself, so what one screen adds
    or deletes is what the other shows. */
module Navegacion {
  import opened Wrappers
  import opened JavaTime
  import opened JavaText
  import opened ReservaModel
  import opened Principal
  import opened Lista

  /** verReservas: builds the list screen and gives it the form's store. When
      the view cannot be loaded the error is only logged and the form stays. */
  method VerReservas(p: ControladorPrincipal, vistaCargada: bool) returns (l: ControladorLista?)
    ensures vistaCargada ==> l != null && fresh(l) && l.reservas == p.reservas
                             && l.texto == Listing(Values(p.reservas.items))
    ensures !vistaCargada ==> l == null
    ensures p.reservas == old(p.reservas) && p.reservas.items == old(p.reservas.items)
  {
    if !vistaCargada {
      return null;
    }
    l := new ControladorLista();
    l.SetReservas(p.reservas);
  }

  /** volver: builds a new form screen, which starts with its own empty list,
      and makes it adopt the list screen's store instead. When the view cannot
      be loaded an error alert is shown and the list stays. */
  method Volver(l: ControladorLista, vistaCargada: bool) returns (p: ControladorPrincipal?)
    requires l.reservas != null
    ensures vistaCargada ==> p != null && fresh(p) && p.reservas == l.reservas && p.areaInfo == ""
    ensures !vistaCargada ==> p == null
    ensures l.reservas == old(l.reservas) && l.reservas.items == old(l.reservas.items)
  {
    if !vistaCargada {
      return null;
    }
    p := new ControladorPrincipal();
    p.InitAttributtes(l.reservas);
  }

  /** Form, list, form: the new form screen holds the very store the first
      one held, with the same reservations in the same order. */
  method IdaYVuelta(p: ControladorPrincipal) returns (p2: ControladorPrincipal)
    ensures fresh(p2) && p2.reservas == p.reservas
    ensures p.reservas.items == old(p.reservas.items)
  {
    var l := VerReservas(p, true);
    var back := Volver(l, true);
    p2 := back;
  }

  /** A booking session on the form screen: Ana for 3 hours with the slow
      toggle, then Bob for 5 hours with the fast one; both are priced at the
      fast rate. */
  method SesionAltas() returns (p: ControladorPrincipal)
    ensures fresh(p) && fresh(p.reservas) && |p.reservas.items| == 2
    ensures p.reservas.items[0].cliente == "Ana" && p.reservas.items[1].cliente == "Bob"
    ensures p.reservas.items[0].precioTotal == 45 && p.reservas.items[1].precioTotal == 75
  {
    p := new ControladorPrincipal();
    var error := p.Reservar(Formulario("Ana", Some("Tesla Model 3"), Some(LocalDate(2024, 5, 1)), Some(3), true));
    FormularioSiempreTarifaRapida(3, true);
    // The slow toggle gives "Carga lenta", which is not "Lenta": 3 h at 15.
    assert error == None && |p.reservas.items| == 1;
    var ana := p.reservas.items[0];
    assert ana.precioTotal == 45;

    error := p.Reservar(Formulario("Bob", Some("BMW i4"), Some(LocalDate(2024, 6, 10)), Some(5), false));
    FormularioSiempreTarifaRapida(5, false);
    assert error == None && |p.reservas.items| == 2;
  }

  /** Two forms with 0 and 25 hours are turned away and leave the store as
      it was. */
  method SesionRechazos(p: ControladorPrincipal)
    modifies p, p.reservas
    ensures p.reservas == old(p.reservas) && p.reservas.items == old(p.reservas.items)
  {
    var error := p.Reservar(Formulario("Eve", Some("Nissan Leaf"), Some(LocalDate(2024, 7, 1)), Some(0), true));
    assert error == Some(HorasInvalidas);
    error := p.Reservar(Formulario("Eve", Some("Nissan Leaf"), Some(LocalDate(2024, 7, 1)), Some(25), true));
    assert error == Some(HorasInvalidas);
  }

  /** Deleting "ana" from [Ana, Bob]: the trimmed input matches the stored
      "Ana" ignoring case, so the first entry goes. */
  lemma BajaPorNombre(ana: Reserva, bob: Reserva)
    requires ana.cliente == "Ana" && bob.cliente == "Bob"
    ensures Eliminar([ana, bob], Some("ana")) == ([bob], Eliminada("Ana"))
  {
    assert Trim("ana") == "ana" by {
      assert TrimStart("ana") == 0 && TrimEnd("ana") == 3;
    }
    assert EqualsIgnoreCase(ana.cliente, "ana") by {
      assert CharEqualsIgnoreCase('A', 'a') by {
        assert ToUpperAscii('a') == 'A';
      }
      assert "Ana"[1..] == "na" && "ana"[1..] == "na";
      EqualsIgnoreCaseEquivalence("na", "na", "na");
    }
    assert IndexOfCliente([ana, bob], "ana") == 0;
    assert [ana, bob][..0] + [ana, bob][1..] == [bob];
  }

  /** Deleting "Carol" from [Bob] finds nobody and changes nothing. */
  lemma BajaSinCoincidencia(bob: Reserva)
    requires bob.cliente == "Bob"
    ensures Eliminar([bob], Some("Carol")) == ([bob], NoEncontrada("Carol"))
  {
    assert Trim("Carol") == "Carol" by {
      assert TrimStart("Carol") == 0 && TrimEnd("Carol") == 5;
    }
    assert !EqualsIgnoreCase(bob.cliente, "Carol") by {
      assert !CharEqualsIgnoreCase('B', 'C');
    }
    assert IndexOfCliente([bob], "Carol") == -1;
  }

  /** Deletions of that session on the list screen: "ana" removes Ana's
      reservation despite the case, "Carol" removes nothing. */
  method SesionBajas(l: ControladorLista, ana: Reserva, bob: Reserva)
    requires l.reservas != null && l.reservas.items == [ana, bob]
    requires ana.cliente == "Ana" && bob.cliente == "Bob"
    modifies l, l.reservas
    ensures l.reservas == old(l.reservas) && l.reservas.items == [bob]
  {
    BajaPorNombre(ana, bob);
    var outcome := l.EliminarReserva(Some("ana"));
    assert outcome == Eliminada("Ana");
    BajaSinCoincidencia(bob);
    outcome := l.EliminarReserva(Some("Carol"));
    assert outcome == NoEncontrada("Carol");
  }

  /** The whole session: register, go to the list, delete, come back. The
      form screen reached at the end holds the store with Bob's reservation
      only. */
  method Sesion() returns (p2: ControladorPrincipal)
    ensures fresh(p2) && fresh(p2.reservas) && |p2.reservas.items| == 1
    ensures p2.reservas.items[0].cliente == "Bob" && p2.reservas.items[0].precioTotal == 75
  {
    var p := SesionAltas();
    var ana, bob := p.reservas.items[0], p.reservas.items[1];
    SesionRechazos(p);
    var l := VerReservas(p, true);
    SesionBajas(l, ana, bob);
    var back := Volver(l, true);
    p2 := back;
  }
}
