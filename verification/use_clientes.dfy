/** `useClientes.ts`: how a customer record of the directory is rendered for
    the search box, and the `select` step that keeps only usable records. */
module UseClientes {
  import opened Wrappers
  import opened Strings
  import opened ClientTypes

  /** `Número?.toString() || '0'`. */
  function NumeroText(c: ApiCliente): string {
    if c.numero.Some? then IntToString(c.numero.value) else "0"
  }

  /** `field?.trim() || ''`. */
  function TrimmedOr(field: Option<string>): string {
    if field.Some? then Trim(field.value) else ""
  }

  /** `[apellido, nombre].filter(Boolean).join(', ')`. */
  function JoinNames(apellido: string, nombre: string): (r: string)
    ensures r == "" <==> apellido == "" && nombre == ""
  {
    if apellido == "" then nombre
    else if nombre == "" then apellido
    else apellido + ", " + nombre
  }

  /** `formatearCliente`. */
  function FormatearCliente(c: ApiCliente): (r: ClienteFormateado)
    ensures r.id == NumeroText(c)
    ensures |r.numeroFormateado| == (if |r.id| >= 3 then |r.id| else 3)
    ensures r.numeroFormateado[|r.numeroFormateado| - |r.id|..] == r.id
    ensures forall i :: 0 <= i < |r.numeroFormateado| - |r.id| ==> r.numeroFormateado[i] == '0'
    ensures r.nombreCompleto == "" <==> TrimmedOr(c.apellido) == "" && TrimmedOr(c.nombre) == ""
    ensures TrimmedOr(c.apellido) != "" && TrimmedOr(c.nombre) != "" ==>
      r.nombreCompleto == TrimmedOr(c.apellido) + ", " + TrimmedOr(c.nombre)
    ensures TrimmedOr(c.apellido) == "" || TrimmedOr(c.nombre) == "" ==>
      r.nombreCompleto == TrimmedOr(c.apellido) + TrimmedOr(c.nombre)
    ensures r.labelText == r.numeroFormateado + " - " + r.nombreCompleto
  {
    var numero := NumeroText(c);
    var padded := PadStart(numero, 3, '0');
    var k :| padded == Repeat('0', k) + numero;
    assert padded[|padded| - |numero|..] == numero;
    var nombreCompleto := JoinNames(TrimmedOr(c.apellido), TrimmedOr(c.nombre));
    ClienteFormateado(numero, padded, nombreCompleto, padded + " - " + nombreCompleto)
  }

  /** The padded number reads back as the customer number. */
  lemma NumeroReadsBack(c: ApiCliente)
    requires c.numero.Some? && c.numero.value >= 0
    ensures AllDigits(FormatearCliente(c).numeroFormateado)
    ensures DigitsValue(FormatearCliente(c).numeroFormateado) == c.numero.value
  {
    var r := FormatearCliente(c);
    NatToStringRoundTrip(c.numero.value);
    ZeroPaddedValue(r.numeroFormateado, r.id);
  }

  /** The `select` filter: a number and at least one non-blank name. */
  predicate Keep(c: ApiCliente) {
    c.numero.Some? && (TrimmedOr(c.nombre) != "" || TrimmedOr(c.apellido) != "")
  }

  /** `filter(keep).map(f)` in one pass. */
  function FilterMap<A, B>(s: seq<A>, keep: A -> bool, f: A -> B): (r: seq<B>)
    ensures |r| <= |s|
    ensures forall c :: c in s && keep(c) ==> f(c) in r
    ensures forall x :: x in r ==> exists c :: c in s && keep(c) && x == f(c)
  {
    if |s| == 0 then []
    else
      var rest := FilterMap(s[1..], keep, f);
      assert forall c :: c in s ==> c == s[0] || c in s[1..];
      if keep(s[0]) then [f(s[0])] + rest else rest
  }

  function Filter<A>(s: seq<A>, keep: A -> bool): (r: seq<A>)
    ensures |r| <= |s|
  {
    if |s| == 0 then [] else (if keep(s[0]) then [s[0]] else []) + Filter(s[1..], keep)
  }

  /** `Filter` keeps exactly the elements that pass. */
  lemma {:induction false} FilterMembers<A>(s: seq<A>, keep: A -> bool)
    ensures forall x :: x in Filter(s, keep) <==> x in s && keep(x)
  {
    if |s| > 0 {
      FilterMembers(s[1..], keep);
      assert forall x :: x in s <==> x == s[0] || x in s[1..];
    }
  }

  /** Filtering with a test every element passes is the identity. */
  lemma {:induction false} FilterAll<A>(s: seq<A>, keep: A -> bool)
    requires forall i :: 0 <= i < |s| ==> keep(s[i])
    ensures Filter(s, keep) == s
  {
    if |s| > 0 {
      FilterAll(s[1..], keep);
      assert [s[0]] + s[1..] == s;
    }
  }

  function MapAll<A, B>(s: seq<A>, f: A -> B): (r: seq<B>)
    ensures |r| == |s| && forall i :: 0 <= i < |s| ==> r[i] == f(s[i])
  {
    seq(|s|, i requires 0 <= i < |s| => f(s[i]))
  }

  /** The one-pass selection is the filter followed by the map, so the kept
      elements appear in input order. */
  lemma {:induction false} FilterMapIsFilterThenMap<A, B>(s: seq<A>, keep: A -> bool, f: A -> B)
    ensures FilterMap(s, keep, f) == MapAll(Filter(s, keep), f)
  {
    if |s| > 0 {
      FilterMapIsFilterThenMap(s[1..], keep, f);
      var head := if keep(s[0]) then [s[0]] else [];
      assert MapAll(head + Filter(s[1..], keep), f) == MapAll(head, f) + MapAll(Filter(s[1..], keep), f);
    }
  }

  /** `select`'s customer list: exactly the usable customers, formatted, in
      input order; each has a name to show. */
  function SelectClientes(s: seq<ApiCliente>): (r: seq<ClienteFormateado>)
    ensures |r| <= |s|
    ensures forall c :: c in s && Keep(c) ==> FormatearCliente(c) in r
    ensures forall x :: x in r ==> exists c :: c in s && Keep(c) && x == FormatearCliente(c)
    ensures forall i :: 0 <= i < |r| ==> r[i].nombreCompleto != ""
    ensures r == MapAll(Filter(s, Keep), FormatearCliente)
  {
    var r := FilterMap(s, Keep, FormatearCliente);
    FilterMapIsFilterThenMap(s, Keep, FormatearCliente);
    assert forall i :: 0 <= i < |r| ==> r[i].nombreCompleto != "" by {
      forall i | 0 <= i < |r|
        ensures r[i].nombreCompleto != ""
      {
        assert r[i] in r;
      }
    }
    r
  }

  datatype ClientesView = ClientesView(clientes: seq<ClienteFormateado>, fromCache: bool, lastUpdate: Option<string>)

  /** `select`: the usable customers, with the cache flags passed through. */
  function Select(response: ApiResponse<seq<ApiCliente>>): (r: ClientesView)
    ensures r.fromCache == response.fromCache && r.lastUpdate == response.lastUpdate
    ensures |r.clientes| <= |response.data|
    ensures forall i :: 0 <= i < |r.clientes| ==> r.clientes[i].nombreCompleto != ""
  {
    ClientesView(SelectClientes(response.data), response.fromCache, response.lastUpdate)
  }
}
