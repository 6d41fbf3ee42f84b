/** The ObservableList<Reserva> that the two screens share: an insertion-ordered
    list of reservation objects, grown by add and shrunk by remove(Object). */
module ReservaStore {
  import opened ReservaModel

  /** ArrayList.indexOf as reached from remove(Object): the first position whose
      element o.equals, or -1. indexOf(null) looks for a null element, and the
      store never holds one. */
  function IndexOf(rs: seq<Reserva>, o: Reserva?): (k: int)
    reads rs, o
    ensures -1 <= k < |rs|
    ensures k >= 0 ==> o != null && o.Equals(rs[k])
    ensures k >= 0 ==> forall j :: 0 <= j < k ==> !o.Equals(rs[j])
    ensures k == -1 ==> forall j :: 0 <= j < |rs| ==> o == null || !o.Equals(rs[j])
  {
    if o == null || rs == [] then -1
    else if o.Equals(rs[0]) then 0
    else
      var k := IndexOf(rs[1..], o);
      if k == -1 then -1 else k + 1
  }

  class Store {
    var items: seq<Reserva>

    /** FXCollections.observableArrayList(): a new, empty list. */
    constructor ()
      ensures items == []
    {
      items := [];
    }

    /** List.add: appends at the end. */
    method Add(r: Reserva)
      modifies this
      ensures items == old(items) + [r]
    {
      items := items + [r];
    }

    /** List.remove(Object): drops the first element o equals, keeping the
        order of the rest; returns that element's former position, or -1 when
        nothing was removed. */
    method Remove(o: Reserva?) returns (index: int)
      modifies this
      ensures index == IndexOf(old(items), o)
      ensures index >= 0 ==> items == old(items[..index] + items[index + 1..])
      ensures index < 0 ==> items == old(items)
    {
      index := IndexOf(items, o);
      if index >= 0 {
        items := items[..index] + items[index + 1..];
      }
    }
  }

  /** remove(null) never changes the store. */
  lemma RemoveNullFindsNothing(rs: seq<Reserva>)
    ensures IndexOf(rs, null) == -1
  {
  }
}
