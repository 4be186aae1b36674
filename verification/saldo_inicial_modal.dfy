/** The opening-balance dialog of `SaldoInicialModal.tsx` as a state machine:
    the load effect, the amount sanitiser, the checkbox and date inputs, and
    the submit handler that validates, builds the record and calls the save
    service. The service's outcome and the clock are parameters. */
module SaldoInicialModal {
  import opened Wrappers
  import opened Strings
  import opened ClientTypes
  import opened DataTransform
  import opened AmountText

  datatype ModalState = ModalState(monto: string, fecha: string, error: string, esNegativo: bool)

  const MsgMonto: string := "Por favor, ingrese un monto"
  const MsgFecha: string := "Por favor, seleccione una fecha"
  const MsgGuardar: string := "No se pudo guardar el saldo inicial. Intente nuevamente."

  /** `formatearFecha`: the date part of an ISO timestamp. */
  function FormatearFecha(fecha: string): (r: string)
    ensures r <= fecha && 'T' !in r
    ensures r == fecha || fecha[|r|] == 'T'
  {
    BeforeT(fecha)
  }

  /** The state when the dialog is first mounted; `today` is the ISO date of now. */
  function Initial(today: string): ModalState {
    ModalState("", today, "", false)
  }

  /** The load effect: an existing balance fills the magnitude, its date part
      and the sign box; none clears the amount and box and shows today. The
      error message is left as it was. */
  function Load(s: ModalState, saldoActual: Option<SaldoInicial>, today: string): (r: ModalState)
    ensures r.error == s.error
    ensures saldoActual.Some? ==>
      && r.monto == FormatearMonto(Abs(saldoActual.value.monto))
      && r.fecha == FormatearFecha(saldoActual.value.fecha)
      && (r.esNegativo <==> saldoActual.value.monto < 0.0)
    ensures saldoActual.None? ==> r.monto == "" && !r.esNegativo && r.fecha == today
  {
    match saldoActual
    case Some(saldo) =>
      s.(monto := FormatearMonto(Abs(saldo.monto)),
         fecha := FormatearFecha(saldo.fecha),
         esNegativo := saldo.monto < 0.0)
    case None => s.(monto := "", fecha := today, esNegativo := false)
  }

  /** `handleMontoChange`: keep digits and separators; an empty result clears
      amount and error; otherwise the digits are read as cents and re-rendered,
      unless they do not form a number, in which case nothing changes. */
  function MontoChange(s: ModalState, input: string): (r: ModalState)
    ensures r.fecha == s.fecha && r.esNegativo == s.esNegativo
    ensures Sanitize(input) == "" ==> r.monto == "" && r.error == ""
    ensures Sanitize(input) != "" && ParseAmount(Sanitize(input)).None? ==> r == s
    ensures Sanitize(input) != "" && ParseAmount(Sanitize(input)).Some? ==>
      r.error == "" && r.monto == FormatearMonto(ParseAmount(Sanitize(input)).value)
  {
    var value := Sanitize(input);
    if value == "" then s.(monto := "", error := "")
    else match ParseAmount(value)
      case None => s
      case Some(numero) => s.(monto := FormatearMonto(numero), error := "")
  }

  function CheckboxChange(s: ModalState, checked: bool): ModalState {
    s.(esNegativo := checked)
  }

  function FechaChange(s: ModalState, fecha: string): ModalState {
    s.(fecha := fecha)
  }

  /** The amount the submit handler computes: the text's cents over 100, made
      negative exactly when the box is checked; `None` stands for NaN. */
  function AmountOf(s: ModalState): (r: Option<real>)
    ensures r.None? <==> ParseAmount(s.monto).None?
    ensures r.Some? ==> (r.value < 0.0 ==> s.esNegativo) && (s.esNegativo ==> r.value <= 0.0)
    ensures r.Some? ==> ParseAmount(s.monto).Some? && Abs(r.value) == ParseAmount(s.monto).value
  {
    match ParseAmount(s.monto)
    case None => None
    case Some(v) => Some(if s.esNegativo then -v else v)
  }

  /** The body the save service posts; a NaN amount serialises as `null`. */
  datatype SaveRequest = SaveRequest(clienteId: string, monto: Option<real>, fecha: string, ultimaModificacion: string)

  datatype SubmitResult = SubmitResult(state: ModalState, request: Option<SaveRequest>, closed: bool)

  /** `handleSubmit`. `now` is the ISO timestamp; `serviceAccepts` is whether
      the POST succeeds. The service itself throws, without posting, for a
      missing customer id. */
  function Submit(s: ModalState, clienteId: Option<string>, now: string, serviceAccepts: bool): (r: SubmitResult)
    ensures Trim(s.monto) == "" ==> r == SubmitResult(s.(error := MsgMonto), None, false)
    ensures Trim(s.monto) != "" && s.fecha == "" ==> r == SubmitResult(s.(error := MsgFecha), None, false)
    ensures r.request.Some? ==> Trim(s.monto) != "" && s.fecha != ""
    ensures r.request.Some? ==>
      && clienteId == Some(r.request.value.clienteId) && clienteId.value != ""
      && r.request.value.monto == AmountOf(s)
      && r.request.value.fecha == s.fecha
    ensures r.closed <==> r.request.Some? && serviceAccepts
    ensures r.closed ==> r.state == s
    ensures !r.closed ==>
      (r.state.monto == s.monto && r.state.fecha == s.fecha
       && r.state.esNegativo == s.esNegativo && r.state.error != "")
  {
    if Trim(s.monto) == "" then SubmitResult(s.(error := MsgMonto), None, false)
    else if s.fecha == "" then SubmitResult(s.(error := MsgFecha), None, false)
    else if clienteId.None? || clienteId.value == "" then SubmitResult(s.(error := MsgGuardar), None, false)
    else
      var request := SaveRequest(clienteId.value, AmountOf(s), s.fecha, now);
      if serviceAccepts then SubmitResult(s, Some(request), true)
      else SubmitResult(s.(error := MsgGuardar), Some(request), false)
  }

  /** What the amount field can hold: nothing, or a rendering that reads back
      as a number. */
  predicate MontoTextOk(t: string) {
    t == "" || (Trim(t) != "" && ParseAmount(t).Some?)
  }

  /** Every handler keeps the amount text well formed, so from any state the
      dialog can reach, a non-blank amount is a number and NaN is never sent. */
  lemma MontoTextInvariant(s: ModalState, input: string, saldo: Option<SaldoInicial>, today: string,
                           checked: bool, fecha: string, clienteId: Option<string>, now: string, ok: bool)
    requires MontoTextOk(s.monto)
    ensures MontoTextOk(Initial(today).monto)
    ensures MontoTextOk(Load(s, saldo, today).monto)
    ensures MontoTextOk(MontoChange(s, input).monto)
    ensures MontoTextOk(CheckboxChange(s, checked).monto)
    ensures MontoTextOk(FechaChange(s, fecha).monto)
    ensures MontoTextOk(Submit(s, clienteId, now, ok).state.monto)
    ensures var r := Submit(s, clienteId, now, ok); r.request.Some? ==> r.request.value.monto.Some?
  {
    LoadKeepsMontoOk(s, saldo, today);
    MontoChangeKeepsMontoOk(s, input);
  }

  lemma LoadKeepsMontoOk(s: ModalState, saldo: Option<SaldoInicial>, today: string)
    ensures MontoTextOk(Load(s, saldo, today).monto)
  {
    if saldo.Some? {
      FormattedIsReadable(Abs(saldo.value.monto));
    }
  }

  lemma MontoChangeKeepsMontoOk(s: ModalState, input: string)
    requires MontoTextOk(s.monto)
    ensures MontoTextOk(MontoChange(s, input).monto)
  {
    var value := Sanitize(input);
    if value != "" && ParseAmount(value).Some? {
      FormattedIsReadable(ParseAmount(value).value);
    }
  }

  /** The amount the handler would read from a freshly loaded balance. */
  lemma LoadedAmount(prev: ModalState, saldo: SaldoInicial, today: string)
    ensures Trim(Load(prev, Some(saldo), today).monto) != ""
    ensures AmountOf(Load(prev, Some(saldo), today))
      == Some(if saldo.monto < 0.0 then -(RoundCents(Abs(saldo.monto)) as real / 100.0)
              else RoundCents(Abs(saldo.monto)) as real / 100.0)
  {
    var s := Load(prev, Some(saldo), today);
    LoadedText(s, Abs(saldo.monto));
  }

  lemma LoadedText(s: ModalState, m: real)
    requires m >= 0.0 && s.monto == FormatearMonto(m)
    ensures Trim(s.monto) != ""
    ensures ParseAmount(s.monto) == Some(RoundCents(m) as real / 100.0)
  {
    FormattedIsReadable(m);
    ParseFormatRoundTrip(m);
  }

  /** Loading a stored balance and saving it unchanged sends back its amount
      rounded to cents, with its sign, and its date part. */
  lemma LoadThenSubmit(prev: ModalState, saldo: SaldoInicial, today: string, id: string, now: string, ok: bool)
    requires id != "" && FormatearFecha(saldo.fecha) != ""
    ensures var r := Submit(Load(prev, Some(saldo), today), Some(id), now, ok);
      && r.request.Some?
      && r.request.value.fecha == FormatearFecha(saldo.fecha)
      && r.request.value.monto == Some(
           if saldo.monto < 0.0 then -(RoundCents(Abs(saldo.monto)) as real / 100.0)
           else RoundCents(Abs(saldo.monto)) as real / 100.0)
  {
    LoadedAmount(prev, saldo, today);
  }

  /** With at most two decimals the stored amount comes back exactly. */
  lemma LoadThenSubmitExact(prev: ModalState, saldo: SaldoInicial, cents: int, today: string, id: string, now: string)
    requires id != "" && FormatearFecha(saldo.fecha) != ""
    requires saldo.monto == cents as real / 100.0
    ensures Submit(Load(prev, Some(saldo), today), Some(id), now, true).request.Some?
    ensures Submit(Load(prev, Some(saldo), today), Some(id), now, true).request.value.monto == Some(saldo.monto)
  {
    LoadThenSubmit(prev, saldo, today, id, now, true);
    SignedCents(saldo.monto, cents);
  }

  /** Rounding the magnitude and restoring the sign is the identity on whole cents. */
  lemma SignedCents(monto: real, cents: int)
    requires monto == cents as real / 100.0
    ensures (if monto < 0.0 then -(RoundCents(Abs(monto)) as real / 100.0)
             else RoundCents(Abs(monto)) as real / 100.0) == monto
  {
    var c: nat := if cents < 0 then -cents else cents;
    assert Abs(monto) == c as real / 100.0;
    RoundWholeCents(Abs(monto), c);
  }
}
