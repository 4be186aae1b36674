/** `storage.ts`: the browser key/value store that holds the two offline
    caches, and the 24-hour freshness rule. The store is a map from keys to
    stored values; JSON serialisation is abstracted by keeping the records the
    application writes as records and any other value as its raw text. */
module Storage {
  import opened Wrappers
  import opened ClientTypes

  /** The snapshot `projectState.ts` keeps under "project_state"; the listed
      keys are kept as a set, since the store fixes no key order. */
  datatype ProjectState = ProjectState(version: string, savedAt: string, cacheKeys: set<string>)

  /** A value in the browser store. */
  datatype Stored =
    | ClientesCache(clientes: seq<ApiCliente>, timestamp: int)
    | MovimientosCache(movimientos: seq<ApiMovement>, timestamp: int)
    | SavedProject(state: ProjectState)
    | Text(text: string)

  type Store = map<string, Stored>

  const ClientesKey: string := "clientes_cache"
  const MovimientosPrefix: string := "movimientos_cache_"
  /** 24 hours in milliseconds. */
  const CacheDuration: int := 24 * 60 * 60 * 1000

  /** The per-customer key of the movements cache. */
  function MovimientosKey(clienteId: string): (k: string)
    ensures |k| == |MovimientosPrefix| + |clienteId|
    ensures k[..|MovimientosPrefix|] == MovimientosPrefix && k[|MovimientosPrefix|..] == clienteId
  {
    MovimientosPrefix + clienteId
  }

  /** Distinct customers never share a cache key, and no customer's key is
      the directory's key. */
  lemma MovimientosKeysDistinct(a: string, b: string)
    ensures MovimientosKey(a) == MovimientosKey(b) <==> a == b
    ensures MovimientosKey(a) != ClientesKey
  {
    if MovimientosKey(a) == MovimientosKey(b) {
      assert a == MovimientosKey(a)[|MovimientosPrefix|..];
    }
  }

  /** What reading a cache slot gives: nothing, a parsed entry, or text that
      is not a cache record (on which `JSON.parse` throws). */
  datatype CacheRead<T> = Absent | Entry(data: T, timestamp: int) | Unreadable

  /** `getItem` followed by the `!cached` test: a missing key and the empty
      string both read as nothing. */
  function GetItem(store: Store, key: string): (r: Option<Stored>)
    ensures r.None? <==> key !in store || store[key] == Text("")
    ensures r.Some? ==> key in store && r.value == store[key]
  {
    if key in store && store[key] != Text("") then Some(store[key]) else None
  }

  function GetClientes(store: Store): (r: CacheRead<seq<ApiCliente>>)
    ensures r.Absent? <==> GetItem(store, ClientesKey).None?
    ensures r.Entry? <==> ClientesKey in store && store[ClientesKey].ClientesCache?
    ensures r.Entry? ==> store[ClientesKey] == ClientesCache(r.data, r.timestamp)
  {
    match GetItem(store, ClientesKey)
    case None => Absent
    case Some(ClientesCache(data, timestamp)) => Entry(data, timestamp)
    case Some(_) => Unreadable
  }

  function GetMovimientos(store: Store, clienteId: string): (r: CacheRead<seq<ApiMovement>>)
    ensures r.Absent? <==> GetItem(store, MovimientosKey(clienteId)).None?
    ensures r.Entry? <==> MovimientosKey(clienteId) in store && store[MovimientosKey(clienteId)].MovimientosCache?
    ensures r.Entry? ==> store[MovimientosKey(clienteId)] == MovimientosCache(r.data, r.timestamp)
  {
    match GetItem(store, MovimientosKey(clienteId))
    case None => Absent
    case Some(MovimientosCache(data, timestamp)) => Entry(data, timestamp)
    case Some(_) => Unreadable
  }

  /** `saveClientes`, stamped with the clock reading `now`. */
  function SaveClientes(store: Store, clientes: seq<ApiCliente>, now: int): (r: Store)
    ensures GetClientes(r) == Entry(clientes, now)
    ensures r.Keys == store.Keys + {ClientesKey}
    ensures forall k :: k in store && k != ClientesKey ==> r[k] == store[k]
  {
    store[ClientesKey := ClientesCache(clientes, now)]
  }

  /** `saveMovimientos`, stamped with the clock reading `now`. */
  function SaveMovimientos(store: Store, clienteId: string, movimientos: seq<ApiMovement>, now: int): (r: Store)
    ensures GetMovimientos(r, clienteId) == Entry(movimientos, now)
    ensures r.Keys == store.Keys + {MovimientosKey(clienteId)}
    ensures forall k :: k in store && k != MovimientosKey(clienteId) ==> r[k] == store[k]
  {
    store[MovimientosKey(clienteId) := MovimientosCache(movimientos, now)]
  }

  /** Saving one customer's movements leaves every other customer's cache and
      the directory cache as they read before. */
  lemma SaveMovimientosIsolated(store: Store, a: string, b: string, movimientos: seq<ApiMovement>, now: int)
    requires a != b
    ensures GetMovimientos(SaveMovimientos(store, a, movimientos, now), b) == GetMovimientos(store, b)
    ensures GetClientes(SaveMovimientos(store, a, movimientos, now)) == GetClientes(store)
  {
    MovimientosKeysDistinct(a, b);
    MovimientosKeysDistinct(a, a);
  }

  /** Saving the directory leaves every customer's movements cache as it read. */
  lemma SaveClientesIsolated(store: Store, clientes: seq<ApiCliente>, now: int, b: string)
    ensures GetMovimientos(SaveClientes(store, clientes, now), b) == GetMovimientos(store, b)
  {
    MovimientosKeysDistinct(b, b);
  }

  /** Re-saving overwrites: only the last write is visible. */
  lemma LastWriteWins(store: Store, clienteId: string, d1: seq<ApiMovement>, t1: int, d2: seq<ApiMovement>, t2: int,
                      c1: seq<ApiCliente>, u1: int, c2: seq<ApiCliente>, u2: int)
    ensures SaveMovimientos(SaveMovimientos(store, clienteId, d1, t1), clienteId, d2, t2)
         == SaveMovimientos(store, clienteId, d2, t2)
    ensures SaveClientes(SaveClientes(store, c1, u1), c2, u2) == SaveClientes(store, c2, u2)
  {
  }

  /** `isCacheValid`: an entry is fresh while strictly less than a day old. */
  predicate IsCacheValid(now: int, timestamp: int) {
    now - timestamp < CacheDuration
  }

  /** Freshness: an entry exactly a day old is stale, and an entry fresh now
      was fresh at every earlier moment. */
  lemma CacheValidity(now: int, earlier: int, timestamp: int)
    requires earlier <= now
    ensures !IsCacheValid(timestamp + 86_400_000, timestamp)
    ensures IsCacheValid(timestamp + 86_399_999, timestamp)
    ensures IsCacheValid(now, timestamp) ==> IsCacheValid(earlier, timestamp)
  {
  }
}
