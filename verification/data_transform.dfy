/** The movement normaliser of `dataTransform.ts`: the document-type label
    table, the sign rule and the field-by-field shaping of one raw movement. */
module DataTransform {
  import opened Wrappers
  import opened Strings
  import opened Dates
  import opened ClientTypes

  /** The fixed short-code table of document types. */
  const Tipos: map<string, string> := map[
    "FA" := "Factura A",
    "FB" := "Factura B",
    "FC" := "Factura C",
    "FE" := "Factura E",
    "RB A" := "Recibo A",
    "RB B" := "Recibo B",
    "NC A" := "Nota de Crédito A",
    "NC B" := "Nota de Crédito B",
    "NC C" := "Nota de Crédito C",
    "NC E" := "Nota de Crédito E",
    "ND A" := "Nota de Débito A",
    "ND B" := "Nota de Débito B",
    "ND C" := "Nota de Débito C",
    "ND E" := "Nota de Débito E"]

  const FacturaCodes: set<string> := {"FA", "FB", "FC", "FE"}

  /** `getTipoComprobante`: the label of a known code, any other code itself. */
  function TipoComprobante(nombre: string): (r: string)
    ensures nombre in Tipos ==> r == Tipos[nombre]
    ensures nombre !in Tipos ==> r == nombre
  {
    if nombre in Tipos then Tipos[nombre] else nombre
  }

  /** The classification every view and the sign rule share. */
  predicate IsFactura(tipo: string) {
    Contains(tipo, "Factura")
  }

  /** A label without any 'F' cannot contain "Factura". */
  lemma {:induction false} NoFWithoutF(s: string)
    requires forall i :: 0 <= i < |s| ==> s[i] != 'F'
    ensures !Contains(s, "Factura")
    decreases |s|
  {
    if |s| > 0 {
      assert !("Factura" <= s) by { assert s[0] != "Factura"[0]; }
      NoFWithoutF(s[1..]);
    }
  }

  /** Which codes resolve to an invoice label: exactly the four invoice codes
      of the table, plus unknown codes that themselves mention "Factura". */
  lemma TipoIsFactura(nombre: string)
    ensures IsFactura(TipoComprobante(nombre))
      <==> nombre in FacturaCodes || (nombre !in Tipos && IsFactura(nombre))
  {
    if nombre in Tipos {
      var t := Tipos[nombre];
      if nombre in FacturaCodes {
        assert "Factura" <= t;
      } else {
        assert forall i :: 0 <= i < |t| ==> t[i] != 'F';
        NoFWithoutF(t);
      }
    }
  }

  /** Resolving a label again changes nothing: no label is itself a code. */
  lemma TipoIdempotent(nombre: string)
    ensures TipoComprobante(TipoComprobante(nombre)) == TipoComprobante(nombre)
  {
  }

  /** Distinct known codes resolve to distinct labels. */
  lemma TipoInjectiveOnTable(a: string, b: string)
    requires a in Tipos && b in Tipos && a != b
    ensures TipoComprobante(a) != TipoComprobante(b)
  {
  }

  /** The payment method with the `|| 'No especificado'` fallback for null or "". */
  function EfectivoOrDefault(e: Option<string>): (r: string)
    ensures r != ""
    ensures e.Some? && e.value != "" ==> r == e.value
    ensures e.None? || e.value == "" ==> r == "No especificado"
  {
    if e.Some? && e.value != "" then e.value else "No especificado"
  }

  function Abs(x: real): (r: real)
    ensures r >= 0.0 && (r == x || r == -x)
  {
    if x < 0.0 then -x else x
  }

  /** `transformMovement`. */
  function TransformMovement(m: ApiMovement): (p: ProcessedMovement)
    ensures p.fechaOriginal == m.fecha
    ensures p.fecha == FormatDate(m.fecha)
    ensures p.tipo == TipoComprobante(m.nombreComprobante)
    ensures Abs(p.monto) == Abs(m.importeTotal)
    ensures p.monto < 0.0 ==> IsFactura(p.tipo)
    ensures IsFactura(p.tipo) ==> p.monto <= 0.0
    ensures p.efectivo == EfectivoOrDefault(m.efectivo)
    ensures p.saldoAcumulado == 0.0
  {
    var tipo := TipoComprobante(m.nombreComprobante);
    var monto := if IsFactura(tipo) then -Abs(m.importeTotal) else Abs(m.importeTotal);
    ProcessedMovement(
      m.codigo, m.codCliProv, m.tipoComprobante, m.nombreComprobante, m.numero,
      FormatDate(m.fecha), m.importeNeto, m.fechaVto, m.fechaComprobante,
      m.importeTotal, m.comentario, m.estado,
      EfectivoOrDefault(m.efectivo), m.fecha, monto, tipo, 0.0)
  }

  /** Projects a processed movement back onto the raw record it spreads. */
  function Untransform(p: ProcessedMovement): ApiMovement {
    ApiMovement(
      p.codigo, p.codCliProv, p.tipoComprobante, p.nombreComprobante, p.numero,
      p.fechaOriginal, p.importeNeto, p.fechaVto, p.fechaComprobante,
      p.importeTotal, p.comentario, p.estado, Some(p.efectivo))
  }

  /** Nothing else changes: every raw field survives the transformation, the
      raw date as `fechaOriginal`; only a missing payment method is replaced. */
  lemma TransformKeepsRawFields(m: ApiMovement)
    ensures Untransform(TransformMovement(m)) == m.(efectivo := Some(EfectivoOrDefault(m.efectivo)))
    ensures m.efectivo.Some? && m.efectivo.value != "" ==> Untransform(TransformMovement(m)) == m
  {
  }

  /** The sign rule stated on the raw code: invoices go negative, everything
      else (receipts, credit and debit notes, unknown codes) positive. */
  lemma SignRule(m: ApiMovement)
    ensures var p := TransformMovement(m);
      (m.nombreComprobante in FacturaCodes ==> p.monto == -Abs(m.importeTotal))
      && (m.nombreComprobante in Tipos && m.nombreComprobante !in FacturaCodes
          ==> p.monto == Abs(m.importeTotal))
      && (m.nombreComprobante !in Tipos ==>
            p.monto == if IsFactura(m.nombreComprobante) then -Abs(m.importeTotal) else Abs(m.importeTotal))
  {
    TipoIsFactura(m.nombreComprobante);
  }
}
