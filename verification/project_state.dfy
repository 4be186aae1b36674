/** `projectState.ts`: a snapshot of which cache keys exist, saved under
    "project_state", and a clear operation that removes exactly the keys the
    snapshot lists. */
module ProjectStates {
  import opened Wrappers
  import opened ClientTypes
  import opened Storage

  const ProjectVersion: string := "1.0.0"
  const StateKey: string := "project_state"

  /** The key filter of `saveProjectState`: a prefix test, not an exact match. */
  predicate IsCacheKeyName(key: string) {
    ClientesKey <= key || MovimientosPrefix <= key
  }

  datatype SaveResult = SaveResult(state: ProjectState, store: Store)

  /** `saveProjectState` at ISO time `savedAt`. */
  function SaveProjectState(store: Store, savedAt: string): (r: SaveResult)
    ensures r.state.version == ProjectVersion && r.state.savedAt == savedAt
    ensures forall k :: k in r.state.cacheKeys <==> k in store && IsCacheKeyName(k)
    ensures StateKey !in r.state.cacheKeys
    ensures r.store.Keys == store.Keys + {StateKey}
    ensures forall k :: k in store && k != StateKey ==> r.store[k] == store[k]
  {
    var state := ProjectState(ProjectVersion, savedAt, set k | k in store && IsCacheKeyName(k));
    assert !IsCacheKeyName(StateKey) by {
      assert StateKey[0] != ClientesKey[0] && StateKey[0] != MovimientosPrefix[0];
    }
    SaveResult(state, store[StateKey := SavedProject(state)])
  }

  /** `loadProjectState`: nothing for a missing or empty entry, and nothing
      for text that does not parse. */
  function LoadProjectState(store: Store): (r: Option<ProjectState>)
    ensures r.Some? <==> StateKey in store && store[StateKey].SavedProject?
    ensures r.Some? ==> store[StateKey] == SavedProject(r.value)
  {
    match GetItem(store, StateKey)
    case Some(SavedProject(state)) => Some(state)
    case _ => None
  }

  /** `clearProjectState`. */
  function ClearProjectState(store: Store): (r: Store)
    ensures r.Keys <= store.Keys
    ensures forall k :: k in r ==> r[k] == store[k]
  {
    match LoadProjectState(store)
    case None => store
    case Some(state) => store - state.cacheKeys - {StateKey}
  }

  /** Load after save returns the snapshot just saved. */
  lemma LoadAfterSave(store: Store, savedAt: string)
    ensures LoadProjectState(SaveProjectState(store, savedAt).store) == Some(SaveProjectState(store, savedAt).state)
  {
  }

  /** Without a saved snapshot, clearing changes nothing. */
  lemma ClearWithoutState(store: Store)
    requires StateKey !in store || store[StateKey] == Text("")
    ensures ClearProjectState(store) == store
  {
  }

  /** With a snapshot, clearing removes the listed keys and the snapshot
      itself, and exactly those. */
  lemma ClearRemovesListed(store: Store, state: ProjectState)
    requires LoadProjectState(store) == Some(state)
    ensures forall k :: k in ClearProjectState(store) <==> k in store && k !in state.cacheKeys && k != StateKey
  {
  }

  /** Cache entries written after the snapshot was taken survive a clear. */
  lemma LaterCacheSurvives(store: Store, savedAt: string, clienteId: string, movimientos: seq<ApiMovement>, now: int)
    requires MovimientosKey(clienteId) !in store
    ensures var after := SaveMovimientos(SaveProjectState(store, savedAt).store, clienteId, movimientos, now);
      GetMovimientos(ClearProjectState(after), clienteId) == Entry(movimientos, now)
  {
    var saved := SaveProjectState(store, savedAt);
    var after := SaveMovimientos(saved.store, clienteId, movimientos, now);
    var key := MovimientosKey(clienteId);
    assert key != StateKey by {
      assert key[0] != StateKey[0];
    }
    assert LoadProjectState(after) == Some(saved.state);
    assert key !in saved.state.cacheKeys;
    assert key in ClearProjectState(after) && ClearProjectState(after)[key] == after[key];
  }
}
