/** `useClientData.ts`: the query that turns a customer's raw movements and
    opening balance into what the movements view shows, its enabling
    condition, and the query library's retry delay. The two service calls are
    parameters: the settled result of the movements fetch and the opening
    balance (the balance service answers `null` on any failure). */
module UseClientData {
  import opened Wrappers
  import opened Dates
  import opened ClientTypes
  import opened DataTransform
  import opened StableSort
  import opened Balances
  import opened ClientDataTable
  import Api

  /** `map(transformMovement)`. */
  function TransformAll(data: seq<ApiMovement>): (r: seq<ProcessedMovement>)
    ensures |r| == |data| && forall i :: 0 <= i < |data| ==> r[i] == TransformMovement(data[i])
  {
    seq(|data|, i requires 0 <= i < |data| => TransformMovement(data[i]))
  }

  /** Every raw date is a well-formed ISO date. */
  predicate DatesParse(data: seq<ApiMovement>) {
    forall i :: 0 <= i < |data| ==> ParseDate(data[i].fecha).Some?
  }

  lemma TransformAllWellDated(data: seq<ApiMovement>)
    requires DatesParse(data)
    ensures WellDated(TransformAll(data))
  {
  }

  /** `saldoInicial?.monto || 0`: the `||` only replaces a zero by zero, so
      the seed is the opening amount, or zero without a balance. */
  function Seed(saldo: Option<SaldoInicial>): (r: real)
    ensures r == (if saldo.Some? then saldo.value.monto else 0.0)
  {
    if saldo.Some? && saldo.value.monto != 0.0 then saldo.value.monto else 0.0
  }

  /** The query function. `clienteId` is the selected customer (`None` for
      null); `fetched` is the outcome of `fetchClientData`; `saldo` is what the
      balance service returned. Errors keep their message. */
  function QueryFn(clienteId: Option<string>, fetched: Result<ApiResponse<seq<ApiMovement>>>, saldo: Option<SaldoInicial>)
    : (r: Result<Option<ProcessedClientData>>)
    requires fetched.Ok? ==> DatesParse(fetched.value.data)
    ensures clienteId.None? || clienteId.value == "" ==> r == Ok(None)
    ensures clienteId.Some? && clienteId.value != "" && fetched.Err? ==> r == Err(fetched.message)
    ensures clienteId.Some? && clienteId.value != "" && fetched.Ok? ==>
      && r.Ok? && r.value.Some?
      && var d := r.value.value;
         var raw := fetched.value.data;
         && d.clienteId == clienteId.value
         && d.saldoInicial == saldo
         && d.fromCache == fetched.value.fromCache
         && d.lastUpdate == fetched.value.lastUpdate
         && |d.movimientos| == |raw|
         && multiset(Erase(d.movimientos)) == multiset(Erase(TransformAll(raw)))
         && Sorted(Reverse(d.movimientos), Key)
         && Running(Reverse(d.movimientos), Seed(saldo))
         && (forall k :: SameKey(Erase(Reverse(d.movimientos)), Key, k) == SameKey(Erase(TransformAll(raw)), Key, k))
         && (|raw| > 0 ==> d.movimientos[0].saldoAcumulado == Seed(saldo) + SumMontos(TransformAll(raw)))
  {
    if clienteId.None? || clienteId.value == "" then Ok(None)
    else match fetched
      case Err(message) => Err(message)
      case Ok(response) =>
        var processed := TransformAll(response.data);
        TransformAllWellDated(response.data);
        Ok(Some(ProcessedClientData(
          clienteId.value,
          CalculateBalances(processed, Seed(saldo)),
          saldo,
          response.fromCache,
          response.lastUpdate)))
  }

  /** The headline balance of the view is the opening balance plus every
      signed amount of the customer's movements. */
  lemma HeadlineBalance(id: string, fetched: Result<ApiResponse<seq<ApiMovement>>>, saldo: Option<SaldoInicial>)
    requires id != "" && fetched.Ok? && |fetched.value.data| > 0 && DatesParse(fetched.value.data)
    ensures QueryFn(Some(id), fetched, saldo).Ok? && QueryFn(Some(id), fetched, saldo).value.Some?
    ensures SaldoActual(QueryFn(Some(id), fetched, saldo).value.value)
         == (if saldo.Some? then saldo.value.monto else 0.0) + SumMontos(TransformAll(fetched.value.data))
  {
  }

  /** Every row of the view, not only the newest: row `i` (newest first)
      shows the opening balance plus its own amount and those of every
      older row. */
  lemma RowBalance(id: string, fetched: Result<ApiResponse<seq<ApiMovement>>>, saldo: Option<SaldoInicial>, i: nat)
    requires id != "" && fetched.Ok? && DatesParse(fetched.value.data)
    requires i < |fetched.value.data|
    ensures QueryFn(Some(id), fetched, saldo).Ok? && QueryFn(Some(id), fetched, saldo).value.Some?
    ensures var rows := QueryFn(Some(id), fetched, saldo).value.value.movimientos;
      i < |rows| && rows[i].saldoAcumulado == Seed(saldo) + SumMontos(rows[i..])
  {
    var rows := QueryFn(Some(id), fetched, saldo).value.value.movimientos;
    RunningNewestFirst(rows, Seed(saldo), i);
  }

  /** `enabled: Boolean(clienteId) && enabled`. */
  predicate Enabled(clienteId: Option<string>, flag: bool) {
    clienteId.Some? && clienteId.value != "" && flag
  }

  /** An enabled query never takes the "no customer" shortcut. */
  lemma EnabledQueriesFetch(clienteId: Option<string>, flag: bool,
                            fetched: Result<ApiResponse<seq<ApiMovement>>>, saldo: Option<SaldoInicial>)
    requires Enabled(clienteId, flag)
    requires fetched.Ok? ==> DatesParse(fetched.value.data)
    ensures QueryFn(clienteId, fetched, saldo) != Ok(None)
  {
  }

  /** The query library's `retryDelay`: `min(1000 * 2^i, 30000)` ms, shared by
      both queries. */
  function QueryRetryDelay(attemptIndex: nat): (d: nat)
    ensures d <= 30000
    ensures d == 30000 || d == 1000 * Api.Pow2(attemptIndex)
  {
    var base := 1000 * Api.Pow2(attemptIndex);
    if base < 30000 then base else 30000
  }

  /** The delay never shrinks from one attempt to the next and is capped
      from the sixth attempt on. */
  lemma QueryRetryDelayShape(i: nat, j: nat)
    requires i <= j
    ensures QueryRetryDelay(i) <= QueryRetryDelay(j)
    ensures QueryRetryDelay(0) == 1000 && QueryRetryDelay(1) == 2000 && QueryRetryDelay(4) == 16000
    ensures i >= 5 ==> QueryRetryDelay(i) == 30000
  {
    Api.Pow2Monotone(i, j);
    if i >= 5 {
      Api.Pow2Monotone(5, i);
      assert Api.Pow2(5) == 32;
    }
    assert Api.Pow2(4) == 16;
  }
}
