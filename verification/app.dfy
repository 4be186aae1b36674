/** `App.tsx` as a state machine: the selected customer, the dialog flag and
    the fetch flag; the three handlers; and which parts of the page render.
    The query's loading flag and data are inputs of the view; the save
    service's outcome is a parameter of the save handler. */
module App {
  import opened Wrappers
  import opened ClientTypes
  import UseClientData

  datatype AppState = AppState(clienteId: Option<string>, modalOpen: bool, shouldFetch: bool)

  const Initial: AppState := AppState(None, false, false)

  /** The selected id is never the empty string: selecting "" clears it. */
  predicate Valid(s: AppState) {
    s.clienteId != Some("")
  }

  /** A customer is selected when `clienteId` is truthy: neither null nor
      the empty string. */
  predicate Selected(s: AppState) {
    s.clienteId.Some? && s.clienteId.value != ""
  }

  /** In a valid state, being selected is just having an id. */
  lemma ValidSelected(s: AppState)
    requires Valid(s)
    ensures Selected(s) <==> s.clienteId.Some?
  {
  }

  /** `handleClienteSelect`: `id || null`, and fetching stops until the user
      asks again. */
  function SelectCliente(s: AppState, id: string): (r: AppState)
    ensures r.clienteId.None? <==> id == ""
    ensures r.clienteId.Some? ==> r.clienteId.value == id
    ensures !r.shouldFetch && r.modalOpen == s.modalOpen
    ensures Valid(r)
  {
    s.(clienteId := if id == "" then None else Some(id), shouldFetch := false)
  }

  datatype Consulted = Consulted(state: AppState, refetch: bool)

  /** `handleConsultarMovimientos`: nothing without a customer; otherwise the
      fetch flag is raised and a refetch requested. */
  function Consultar(s: AppState): (r: Consulted)
    ensures !Selected(s) ==> r == Consulted(s, false)
    ensures Selected(s) ==> r.refetch && r.state == s.(shouldFetch := true)
  {
    if !Selected(s) then Consulted(s, false)
    else Consulted(s.(shouldFetch := true), true)
  }

  const NoClientError: string := "No hay cliente seleccionado"

  /** What `handleSaldoInicialSave` does: whether the service is called,
      whether the table is refetched, and whether the failure alert shows. */
  datatype SaveEffect = SaveEffect(serviceCalled: bool, refetch: bool, alerted: bool)

  function SaveSaldo(s: AppState, serviceAccepts: bool): (r: SaveEffect)
    ensures !Selected(s) ==> r == SaveEffect(false, false, true)
    ensures Selected(s) ==> r.serviceCalled
    ensures r.refetch <==> Selected(s) && serviceAccepts && s.shouldFetch
    ensures r.alerted <==> !Selected(s) || !serviceAccepts
  {
    if !Selected(s) then SaveEffect(false, false, true)
    else if !serviceAccepts then SaveEffect(true, false, true)
    else SaveEffect(true, s.shouldFetch, false)
  }

  function OpenModal(s: AppState): AppState {
    s.(modalOpen := true)
  }

  function CloseModal(s: AppState): AppState {
    s.(modalOpen := false)
  }

  /** The render guards of the page. */
  datatype View = View(
    showActions: bool,
    consultEnabled: bool,
    searchDisabled: bool,
    showTable: bool,
    modalOpen: bool,
    modalSaldo: Option<SaldoInicial>)

  function Render(s: AppState, isLoading: bool, data: Option<ProcessedClientData>): (v: View)
    ensures v.showActions <==> Selected(s)
    ensures v.consultEnabled <==> Selected(s) && !isLoading
    ensures v.searchDisabled == isLoading
    ensures v.showTable <==> s.shouldFetch && data.Some?
    ensures v.modalOpen == s.modalOpen
    ensures v.modalSaldo == (if data.Some? then data.value.saldoInicial else None)
  {
    View(
      Selected(s),
      Selected(s) && !isLoading,
      isLoading,
      s.shouldFetch && data.Some?,
      s.modalOpen,
      match data
      case Some(d) => d.saldoInicial
      case None => None)
  }

  /** Every handler keeps the state valid. */
  lemma HandlersKeepValid(s: AppState, id: string)
    requires Valid(s)
    ensures Valid(Initial)
    ensures Valid(SelectCliente(s, id))
    ensures Valid(Consultar(s).state)
    ensures Valid(OpenModal(s)) && Valid(CloseModal(s))
  {
  }

  /** The data query runs exactly when a customer is selected and the user
      has asked for its movements. */
  lemma QueryEnabledIffConsulted(s: AppState)
    requires Valid(s)
    ensures UseClientData.Enabled(s.clienteId, s.shouldFetch) <==> s.clienteId.Some? && s.shouldFetch
  {
  }

  /** Choosing another customer hides the table until the next consult, and
      consulting then shows it once data is present. */
  lemma SelectHidesUntilConsult(s: AppState, id: string, isLoading: bool, data: Option<ProcessedClientData>)
    requires id != ""
    ensures !Render(SelectCliente(s, id), isLoading, data).showTable
    ensures var c := Consultar(SelectCliente(s, id));
      c.refetch && UseClientData.Enabled(c.state.clienteId, c.state.shouldFetch)
      && (data.Some? ==> Render(c.state, isLoading, data).showTable)
  {
  }
}
