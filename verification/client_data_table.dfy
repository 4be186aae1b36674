/** The movements view of `ClientDataTable.tsx`: the near-zero display rule,
    the headline balance, the invoice test, the payment column and the
    download file name. A money value here is the number handed to the
    currency formatter, whose output is not modelled. */
module ClientDataTable {
  import opened Wrappers
  import opened Strings
  import opened ClientTypes
  import opened DataTransform
  import opened ExcelExport

  /** Magnitudes below this are shown as zero. */
  const NearZero: real := 0.99

  /** `formatMonto`'s pre-formatting arithmetic: values below the threshold in
      magnitude become 0, and the headline total (`isTotal`) shows the
      magnitude. */
  function DisplayValue(monto: real, isTotal: bool): (r: real)
    ensures Abs(monto) < NearZero ==> r == 0.0
    ensures Abs(monto) >= NearZero && !isTotal ==> r == monto
    ensures Abs(monto) >= NearZero && isTotal ==> r == Abs(monto)
  {
    var rounded := if Abs(monto) < NearZero then 0.0 else monto;
    if isTotal then Abs(rounded) else rounded
  }

  /** The headline is never negative, and a displayed value is either 0 or
      the value itself up to sign. */
  lemma DisplayValueRange(monto: real, isTotal: bool)
    ensures isTotal ==> DisplayValue(monto, isTotal) >= 0.0
    ensures DisplayValue(monto, isTotal) == 0.0 || Abs(DisplayValue(monto, isTotal)) == Abs(monto)
    ensures DisplayValue(monto, isTotal) != 0.0 ==> Abs(monto) >= NearZero
  {
  }

  /** Displaying an already displayed value changes nothing. */
  lemma DisplayValueIdempotent(monto: real, isTotal: bool)
    ensures DisplayValue(DisplayValue(monto, isTotal), isTotal) == DisplayValue(monto, isTotal)
  {
  }

  /** `esFactura(tipo?)`: a defined label mentioning "Factura". */
  function EsFactura(tipo: Option<string>): (b: bool)
    ensures b <==> tipo.Some? && IsFactura(tipo.value)
  {
    match tipo
    case None => false
    case Some(t) => Contains(t, "Factura")
  }

  /** The "Forma de Pago" column: blank for invoices, "Transferencia" for the
      missing-method placeholder, otherwise the stored method. */
  function PaymentLabel(m: ProcessedMovement): (r: string)
    ensures IsFactura(m.tipo) ==> r == ""
    ensures !IsFactura(m.tipo) && m.efectivo == "No especificado" ==> r == "Transferencia"
    ensures !IsFactura(m.tipo) && m.efectivo != "No especificado" ==> r == m.efectivo
  {
    if EsFactura(Some(m.tipo)) then ""
    else if m.efectivo == "No especificado" then "Transferencia"
    else m.efectivo
  }

  /** `saldoActual`: the newest movement's balance, else the opening balance, else 0. */
  function SaldoActual(data: ProcessedClientData): (r: real)
    ensures |data.movimientos| > 0 ==> r == data.movimientos[0].saldoAcumulado
    ensures |data.movimientos| == 0 && data.saldoInicial.Some? ==> r == data.saldoInicial.value.monto
    ensures |data.movimientos| == 0 && data.saldoInicial.None? ==> r == 0.0
  {
    if |data.movimientos| > 0 then data.movimientos[0].saldoAcumulado
    else if data.saldoInicial.Some? then data.saldoInicial.value.monto
    else 0.0
  }

  /** The download name `movimientos-cliente-<id>.xlsx`. */
  function DownloadFilename(clienteId: string): (name: string)
    ensures "movimientos-cliente-" <= name
    ensures name[|name| - 5..] == ".xlsx"
  {
    "movimientos-cliente-" + clienteId + ".xlsx"
  }

  /** The customer id is read back from the file name: distinct customers get
      distinct names. */
  lemma DownloadFilenameRoundTrip(clienteId: string)
    ensures var name := DownloadFilename(clienteId);
      name[|"movimientos-cliente-"|..|name| - 5] == clienteId
  {
  }

  datatype TableRow = TableRow(fecha: string, tipo: string, monto: real, formaDePago: string, saldo: real)

  datatype View =
    | NoMovements
    | Table(clienteId: string, headline: real, rows: seq<TableRow>, saldoInicialNote: Option<(real, string)>)

  function RowOf(m: ProcessedMovement): TableRow {
    TableRow(m.fecha, m.tipo, DisplayValue(Abs(m.monto), false), PaymentLabel(m),
             DisplayValue(m.saldoAcumulado, false))
  }

  /** What the component renders. */
  function Render(data: ProcessedClientData): (v: View)
    ensures v.NoMovements? <==> |data.movimientos| == 0
    ensures v.Table? ==> |v.rows| == |data.movimientos| && v.headline >= 0.0
    ensures v.Table? ==> forall i :: 0 <= i < |v.rows| ==> v.rows[i].monto >= 0.0
    ensures v.Table? ==> forall i :: 0 <= i < |v.rows| ==>
      (v.rows[i].saldo == 0.0 || v.rows[i].saldo == data.movimientos[i].saldoAcumulado)
    ensures v.Table? ==> v.saldoInicialNote.Some? == data.saldoInicial.Some?
  {
    if |data.movimientos| == 0 then NoMovements
    else
      Table(
        data.clienteId,
        DisplayValue(SaldoActual(data), true),
        seq(|data.movimientos|, i requires 0 <= i < |data.movimientos| => RowOf(data.movimientos[i])),
        match data.saldoInicial
        case None => None
        case Some(s) => Some((DisplayValue(s.monto, false), s.fecha)))
  }

  /** The headline shows the magnitude of the newest movement's balance. */
  lemma HeadlineIsNewestBalance(data: ProcessedClientData)
    requires |data.movimientos| > 0
    ensures Render(data).headline == DisplayValue(Abs(data.movimientos[0].saldoAcumulado), false)
  {
  }

  /** The table and the exported sheet agree row by row on date, label, amount
      and balance; their payment columns differ only in how the placeholder
      "No especificado" is shown. */
  lemma TableMatchesExport(data: ProcessedClientData, i: int)
    requires 0 <= i < |data.movimientos|
    ensures var v := Render(data); var row := ExportRows(data)[i]; var m := data.movimientos[i];
      && row.cells[0] == Text(v.rows[i].fecha)
      && row.cells[1] == Text(v.rows[i].tipo)
      && v.rows[i].monto == DisplayValue(row.cells[2].amount, false)
      && v.rows[i].saldo == DisplayValue(row.cells[4].amount, false)
      && (m.efectivo != "No especificado" ==> row.cells[3] == Text(v.rows[i].formaDePago))
  {
    ExportRowsShape(data);
    var rows := ExportRows(data);
    assert rows[i] == rows[..|data.movimientos|][i];
  }
}
