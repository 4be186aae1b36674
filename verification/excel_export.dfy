/** The rows `exportToExcel` writes to its single worksheet. The workbook,
    its styling and the blob are not modelled; a money cell records the number
    handed to the currency formatter. */
module ExcelExport {
  import opened Wrappers
  import opened ClientTypes
  import opened DataTransform

  datatype Cell =
    | Text(text: string)
      /** `formatCurrency(v)` of a number. */
    | Currency(amount: real)
      /** `formatCurrency` of a field the record does not have. */
    | CurrencyOfUndefined

  datatype Row = Row(cells: seq<Cell>, italic: bool)

  const Header: seq<string> := ["Fecha", "Tipo", "Monto", "Forma de Pago", "Saldo"]

  /** One data row: date, label, magnitude, payment method (blank for
      invoices), running balance. */
  function MovementRow(m: ProcessedMovement): Row {
    Row([Text(m.fecha), Text(m.tipo), Currency(Abs(m.monto)),
         Text(if IsFactura(m.tipo) then "" else m.efectivo),
         Currency(m.saldoAcumulado)], false)
  }

  const BlankRow: Row := Row([], false)

  /** The trailer as written: it reads the capitalised fields `Monto` and
      `Fecha`, which a `SaldoInicial` record does not have, so the amount is
      formatted from `undefined` and the date prints as "(undefined)". */
  function SaldoInicialRowAsWritten(s: SaldoInicial): Row {
    Row([Text("Saldo Inicial"), Text(""), CurrencyOfUndefined, Text(""), Text("(undefined)")], true)
  }

  /** The trailer reading the record's own `monto` and `fecha`. */
  function SaldoInicialRow(s: SaldoInicial): Row {
    Row([Text("Saldo Inicial"), Text(""), Currency(s.monto), Text(""), Text("(" + s.fecha + ")")], true)
  }

  function MovementRows(movs: seq<ProcessedMovement>): (rows: seq<Row>)
    ensures |rows| == |movs| && forall i :: 0 <= i < |movs| ==> rows[i] == MovementRow(movs[i])
  {
    seq(|movs|, i requires 0 <= i < |movs| => MovementRow(movs[i]))
  }

  /** The worksheet body as the source writes it (after the header row). */
  function ExportRowsAsWritten(data: ProcessedClientData): (rows: seq<Row>)
    ensures |rows| == |data.movimientos| + (if data.saldoInicial.Some? then 2 else 0)
    ensures rows[..|data.movimientos|] == MovementRows(data.movimientos)
  {
    MovementRows(data.movimientos)
      + (if data.saldoInicial.Some? then [BlankRow, SaldoInicialRowAsWritten(data.saldoInicial.value)] else [])
  }

  /** The worksheet body with the trailer reading `monto`/`fecha`. */
  function ExportRows(data: ProcessedClientData): (rows: seq<Row>)
    ensures |rows| == |data.movimientos| + (if data.saldoInicial.Some? then 2 else 0)
    ensures rows[..|data.movimientos|] == MovementRows(data.movimientos)
  {
    MovementRows(data.movimientos)
      + (if data.saldoInicial.Some? then [BlankRow, SaldoInicialRow(data.saldoInicial.value)] else [])
  }

  /** Data rows: one per movement, in list order, never a negative amount,
      the payment cell blank exactly for invoices; and a trailer exactly when
      an opening balance exists, in italics after a blank row. */
  lemma ExportRowsShape(data: ProcessedClientData)
    ensures var rows := ExportRows(data); var n := |data.movimientos|;
      && (forall i :: 0 <= i < n ==>
            && |rows[i].cells| == 5 && !rows[i].italic
            && rows[i].cells[0] == Text(data.movimientos[i].fecha)
            && rows[i].cells[2].Currency? && rows[i].cells[2].amount >= 0.0
            && (rows[i].cells[2].amount == data.movimientos[i].monto
                || rows[i].cells[2].amount == -data.movimientos[i].monto)
            && (rows[i].cells[3] == Text("") <==>
                  IsFactura(data.movimientos[i].tipo) || data.movimientos[i].efectivo == "")
            && rows[i].cells[4] == Currency(data.movimientos[i].saldoAcumulado))
      && (data.saldoInicial.None? ==> |rows| == n)
      && (data.saldoInicial.Some? ==>
            rows[n] == BlankRow && rows[n + 1].italic
            && rows[n + 1].cells[2] == Currency(data.saldoInicial.value.monto))
  {
    var rows := ExportRows(data);
    var n := |data.movimientos|;
    forall i | 0 <= i < n ensures rows[i] == MovementRow(data.movimientos[i]) {
      assert rows[i] == rows[..n][i];
    }
  }

  /** The source's trailer never shows the opening balance's amount or date. */
  lemma ExportDropsSaldoInicial(data: ProcessedClientData)
    requires data.saldoInicial.Some?
    ensures var rows := ExportRowsAsWritten(data); var trailer := rows[|rows| - 1];
      && trailer.italic
      && (forall c :: c in trailer.cells ==> !c.Currency?)
      && (data.saldoInicial.value.fecha != "undefined" ==>
            Text("(" + data.saldoInicial.value.fecha + ")") !in trailer.cells)
  {
    var s := data.saldoInicial.value;
    var rows := ExportRowsAsWritten(data);
    var trailer := rows[|rows| - 1];
    assert trailer == SaldoInicialRowAsWritten(s);
    assert trailer.cells == [Text("Saldo Inicial"), Text(""), CurrencyOfUndefined, Text(""), Text("(undefined)")];
    if s.fecha != "undefined" {
      var w := "(" + s.fecha + ")";
      WrappedDate(s.fecha);
      assert w[0] == '(' && |w| >= 2;
      assert w != "Saldo Inicial" && w != "";
      assert Text(w) !in trailer.cells;
    }
  }

  /** Only the date "undefined" prints as "(undefined)". */
  lemma WrappedDate(f: string)
    ensures "(" + f + ")" == "(undefined)" ==> f == "undefined"
  {
    var w := "(" + f + ")";
    assert w[1..|w| - 1] == f;
    if w == "(undefined)" {
      assert "(undefined)"[1..10] == "undefined";
    }
  }

  /** A concrete case: the exported trailer for a 1500.00 opening balance. */
  lemma ExportDropsSaldoInicialExample()
    ensures var data := ProcessedClientData("7", [], Some(SaldoInicial(1500.0, "2024-01-01", "")), false, None);
      ExportRowsAsWritten(data)[1].cells[2] == CurrencyOfUndefined
      && ExportRows(data)[1].cells[2] == Currency(1500.0)
  {
  }
}
