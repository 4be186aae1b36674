/** `ClienteSearch.tsx`: the search box over the customer directory, its
    filter and its selection handler. */
module ClienteSearch {
  import opened Wrappers
  import opened Strings
  import opened ClientTypes
  import opened UseClientes

  /** The query text and whether the dropdown is open. */
  datatype SearchState = SearchState(busqueda: string, mostrarDropdown: bool)

  const InitialSearch: SearchState := SearchState("", false)

  /** The filter test: the query, lower-cased, occurs in the lower-cased label
      or full name, or the query as typed occurs in the padded number. */
  predicate Matches(c: ClienteFormateado, busqueda: string) {
    || Contains(Lower(c.labelText), Lower(busqueda))
    || Contains(c.numeroFormateado, busqueda)
    || Contains(Lower(c.nombreCompleto), Lower(busqueda))
  }

  /** `clientesFiltrados`: the matching customers in directory order, and
      nothing while no directory is loaded. */
  function ClientesFiltrados(data: Option<seq<ClienteFormateado>>, busqueda: string): (r: seq<ClienteFormateado>)
    ensures data.None? ==> r == []
    ensures data.Some? ==> r == Filter(data.value, c => Matches(c, busqueda))
    ensures forall x :: x in r <==> data.Some? && x in data.value && Matches(x, busqueda)
  {
    match data
    case None => []
    case Some(clientes) =>
      FilterMembers(clientes, c => Matches(c, busqueda));
      Filter(clientes, c => Matches(c, busqueda))
  }

  /** An empty query lists the whole directory. */
  lemma EmptyQueryKeepsAll(clientes: seq<ClienteFormateado>)
    ensures ClientesFiltrados(Some(clientes), "") == clientes
  {
    forall i | 0 <= i < |clientes|
      ensures Matches(clientes[i], "")
    {
      ContainsSelf(Lower(clientes[i].labelText));
    }
    FilterAll(clientes, c => Matches(c, ""));
  }

  /** `handleInputChange`: the query follows the input and the dropdown opens. */
  function InputChange(s: SearchState, value: string): (r: SearchState)
    ensures r.busqueda == value && r.mostrarDropdown
  {
    SearchState(value, true)
  }

  /** `handleClienteSelect`: the query becomes the customer's label, the
      dropdown closes and the customer's id is reported to the parent. */
  datatype Selection = Selection(state: SearchState, selectedId: string)

  function ClienteSelect(s: SearchState, cliente: ClienteFormateado): (r: Selection)
    ensures r.state.busqueda == cliente.labelText && !r.state.mostrarDropdown
    ensures r.selectedId == cliente.id
  {
    Selection(SearchState(cliente.labelText, false), cliente.id)
  }

  /** After a selection the chosen customer is still in the filtered list. */
  lemma SelectedStaysListed(s: SearchState, clientes: seq<ClienteFormateado>, cliente: ClienteFormateado)
    requires cliente in clientes
    ensures cliente in ClientesFiltrados(Some(clientes), ClienteSelect(s, cliente).state.busqueda)
  {
    ContainsSelf(Lower(cliente.labelText));
  }
}
