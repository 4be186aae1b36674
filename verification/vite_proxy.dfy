/** The `rewrite` function of the development proxy in `vite.config.ts`:
    four exact paths have fixed targets; every other path loses one leading
    "/api". */
module ViteProxy {
  const ApiPrefix: string := "/api"

  const PathMap: map<string, string> := map[
    "/api/health" := "/Consulta",
    "/api/Consulta" := "/Consulta",
    "/api/movimientos" := "/movimientos",
    "/api/saldos" := "/SaldosIniciales"]

  /** `path.replace(/^\/api/, '')`: a character prefix test, not a segment test. */
  function StripApi(path: string): (r: string)
    ensures ApiPrefix <= path ==> ApiPrefix + r == path
    ensures !(ApiPrefix <= path) ==> r == path
  {
    if ApiPrefix <= path then path[|ApiPrefix|..] else path
  }

  /** `pathMap[path] || path.replace(...)`; every target is non-empty, so the
      `||` falls back exactly when the path is not a key. */
  function Rewrite(path: string): (r: string)
    ensures path in PathMap ==> r == PathMap[path]
    ensures path !in PathMap && ApiPrefix <= path ==> ApiPrefix + r == path
    ensures !(ApiPrefix <= path) ==> r == path
  {
    if path in PathMap then PathMap[path] else StripApi(path)
  }

  /** Every key of the table starts with "/api", so a path outside the API
      passes through untouched. */
  lemma TableKeysUnderApi()
    ensures forall k :: k in PathMap ==> ApiPrefix <= k
  {
  }

  /** The four table entries. */
  lemma RewriteTable()
    ensures Rewrite("/api/health") == "/Consulta"
    ensures Rewrite("/api/Consulta") == "/Consulta"
    ensures Rewrite("/api/movimientos") == "/movimientos"
    ensures Rewrite("/api/saldos") == "/SaldosIniciales"
  {
  }

  /** Lookup is exact: a sub-path or a query string misses the table. */
  lemma RewriteExactOnly()
    ensures Rewrite("/api/saldos/42") == "/saldos/42"
  {
    var p := "/api/saldos/42";
    assert |p| == 14;
    assert p !in PathMap;
    assert ApiPrefix + "/saldos/42" == p;
  }

  lemma RewriteQueryString()
    ensures Rewrite("/api/saldos?id=7") == "/saldos?id=7"
  {
    var p := "/api/saldos?id=7";
    assert |p| == 16 && p[11] == '?';
    assert p !in PathMap;
    assert ApiPrefix + "/saldos?id=7" == p;
  }

  /** Stripping is by characters, and only once. */
  lemma RewriteNotSegmentAware()
    ensures Rewrite("/apiX") == "X"
    ensures Rewrite("/api/api/x") == "/api/x"
  {
    assert "/apiX" !in PathMap;
    assert ApiPrefix + "X" == "/apiX";
    assert |"/api/api/x"| == 10;
    assert "/api/api/x" !in PathMap;
    assert ApiPrefix + "/api/x" == "/api/api/x";
  }
}
