/** The records exchanged between the ledger API, the data pipeline and the
    views. Every field the pipeline reads or writes is kept; customer contact
    fields it never reads are dropped. */
module ClientTypes {
  import opened Wrappers

  /** One raw ledger entry as the movements endpoint returns it. Amounts are
      exact reals; `efectivo` is `null` in the API when no payment method is set. */
  datatype ApiMovement = ApiMovement(
    codigo: int,
    codCliProv: int,
    tipoComprobante: int,
    nombreComprobante: string,
    numero: int,
    fecha: string,
    importeNeto: real,
    fechaVto: string,
    fechaComprobante: string,
    importeTotal: real,
    comentario: string,
    estado: int,
    efectivo: Option<string>)

  /** A normalised movement: the raw fields plus the display date, the raw
      date kept for sorting, the signed amount, the resolved label, the
      payment method with its fallback, and the running balance. */
  datatype ProcessedMovement = ProcessedMovement(
    codigo: int,
    codCliProv: int,
    tipoComprobante: int,
    nombreComprobante: string,
    numero: int,
    fecha: string,
    importeNeto: real,
    fechaVto: string,
    fechaComprobante: string,
    importeTotal: real,
    comentario: string,
    estado: int,
    efectivo: string,
    fechaOriginal: string,
    monto: real,
    tipo: string,
    saldoAcumulado: real)

  /** The manually entered opening balance of one customer. */
  datatype SaldoInicial = SaldoInicial(monto: real, fecha: string, ultimaModificacion: string)

  /** What the fetch services hand back: the payload, whether it came from
      the local cache, and (only for cached data) when it was stored. */
  datatype ApiResponse<T> = ApiResponse(data: T, fromCache: bool, lastUpdate: Option<string>)

  /** Everything the movements view shows for the selected customer. */
  datatype ProcessedClientData = ProcessedClientData(
    clienteId: string,
    movimientos: seq<ProcessedMovement>,
    saldoInicial: Option<SaldoInicial>,
    fromCache: bool,
    lastUpdate: Option<string>)

  /** A customer record of the directory endpoint, reduced to the fields the
      directory uses; each may be `null` in the API. */
  datatype ApiCliente = ApiCliente(numero: Option<int>, nombre: Option<string>, apellido: Option<string>)

  /** A customer as the search box lists it (`labelText` is the source's `label`). */
  datatype ClienteFormateado = ClienteFormateado(
    id: string,
    numeroFormateado: string,
    nombreCompleto: string,
    labelText: string)
}
