/** `useConnectionStatus.ts`: the connectivity flag driven by the periodic
    health probe, and the query invalidation it triggers on reconnecting. The
    probe's outcome is a parameter; the timer is left out. Query keys are
    sequences of strings, and an invalidation filter matches every query key
    it is a prefix of, as in the query library. */
module ConnectionStatus {
  type QueryKey = seq<string>

  const InitiallyConnected: bool := true

  /** The query keys the two data hooks register. */
  const ClientesQuery: QueryKey := ["clientes"]
  function ClientDataQuery(clienteId: string): QueryKey {
    ["clientData", clienteId]
  }

  /** Whether invalidating with `filters` refreshes the query `key`. */
  predicate Refreshes(filters: set<QueryKey>, key: QueryKey) {
    exists f :: f in filters && f <= key
  }

  datatype ProbeResult = ProbeResult(connected: bool, invalidated: set<QueryKey>)

  /** `checkConnection` as written: on a reconnect it invalidates the
      "clientes" and "movimientos" keys. */
  function CheckConnection(isConnected: bool, healthy: bool): (r: ProbeResult)
    ensures r.connected == healthy
    ensures r.invalidated != {} <==> healthy && !isConnected
    ensures r.invalidated != {} ==> r.invalidated == {ClientesQuery, ["movimientos"]}
  {
    if healthy then
      ProbeResult(true, if !isConnected then {ClientesQuery, ["movimientos"]} else {})
    else
      ProbeResult(false, {})
  }

  /** A run of probes from `isConnected`: the invalidations of each probe. */
  function Poll(isConnected: bool, probes: seq<bool>): (r: seq<set<QueryKey>>)
    ensures |r| == |probes|
    ensures |probes| > 0 ==> r[0] == CheckConnection(isConnected, probes[0]).invalidated
    decreases |probes|
  {
    if |probes| == 0 then []
    else
      var step := CheckConnection(isConnected, probes[0]);
      [step.invalidated] + Poll(step.connected, probes[1..])
  }

  /** Over a run, probe `i` invalidates exactly when it succeeds and the probe
      before it (or the starting state) was a failure. */
  lemma {:induction false} PollInvalidatesOnReconnect(isConnected: bool, probes: seq<bool>, i: nat)
    requires i < |probes|
    ensures Poll(isConnected, probes)[i] != {} <==> probes[i] && !(if i == 0 then isConnected else probes[i - 1])
    decreases |probes|
  {
    if i > 0 {
      var tail := probes[1..];
      PollInvalidatesOnReconnect(CheckConnection(isConnected, probes[0]).connected, tail, i - 1);
      assert Poll(isConnected, probes)[i] == Poll(probes[0], tail)[i - 1];
      assert tail[i - 1] == probes[i];
      if i > 1 {
        assert tail[i - 2] == probes[i - 1];
      }
    }
  }

  /** The flag after a run is the last probe's outcome. */
  function FinalState(isConnected: bool, probes: seq<bool>): (r: bool)
    ensures |probes| > 0 ==> r == probes[|probes| - 1]
    ensures |probes| == 0 ==> r == isConnected
    decreases |probes|
  {
    if |probes| == 0 then isConnected else FinalState(CheckConnection(isConnected, probes[0]).connected, probes[1..])
  }

  /** From the initial state, a run of successful probes never invalidates,
      and a run with no success never does either. */
  lemma SteadyRunsQuiet(probes: seq<bool>, i: nat)
    requires i < |probes|
    requires (forall j :: 0 <= j < |probes| ==> probes[j]) || (forall j :: 0 <= j < |probes| ==> !probes[j])
    ensures Poll(InitiallyConnected, probes)[i] == {}
  {
    PollInvalidatesOnReconnect(InitiallyConnected, probes, i);
    if i > 0 {
      assert probes[i - 1] == probes[i];
    }
  }

  /** As written, a reconnect never refreshes any customer's movements: the
      movements query lives under "clientData". */
  lemma ReconnectMissesMovements(clienteId: string)
    ensures CheckConnection(false, true).invalidated != {}
    ensures Refreshes(CheckConnection(false, true).invalidated, ClientesQuery)
    ensures !Refreshes(CheckConnection(false, true).invalidated, ClientDataQuery(clienteId))
  {
    var filters := CheckConnection(false, true).invalidated;
    assert ClientesQuery in filters && ClientesQuery <= ClientesQuery;
    forall f | f in filters
      ensures !(f <= ClientDataQuery(clienteId))
    {
      assert f[0] != "clientData";
    }
  }

  /** `checkConnection` invalidating the key the movements query uses. */
  function CheckConnectionCorrected(isConnected: bool, healthy: bool): (r: ProbeResult)
    ensures r.connected == healthy
    ensures r.invalidated != {} <==> healthy && !isConnected
    ensures healthy && !isConnected ==>
      Refreshes(r.invalidated, ClientesQuery)
      && forall id :: Refreshes(r.invalidated, ClientDataQuery(id))
  {
    if healthy && !isConnected then
      var filters: set<QueryKey> := {ClientesQuery, ["clientData"]};
      assert ClientesQuery <= ClientesQuery;
      assert forall id :: ["clientData"] <= ClientDataQuery(id);
      ProbeResult(true, filters)
    else
      ProbeResult(healthy, {})
  }
}
