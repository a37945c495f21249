/** The vocabulary shared by every domain service: the operation tags handed to the
    transaction coordinator, the two-valued outcome token it answers with, the
    `{status, message}` records the services build from that token, and the
    exceptions the services throw. The coordinator itself is not modelled: every
    service receives it as a function returning a token. */
module Transaction {

  import opened Wrappers

  /** Tipo_Transaccion: the tag that tells the coordinator which kind of write to run. */
  datatype TxKind = Guardar | Actualizar | ActualizarConParametros

  /** The entity a coordinator call targets. */
  datatype EntityName = TarjetaEntity

  /** The coordinator's outcome token: 'Éxito' on commit, 'Error' on any failure. */
  datatype Token = Exito | Error

  /** Everything the coordinator may hand back to a query-style caller: a token,
      result rows (abstracted to row ids), or null. */
  datatype Reply = Tok(token: Token) | Rows(rows: seq<nat>) | Null

  /** A call to the coordinator: tag, target entity and payload. */
  datatype Call<P> = Call(kind: TxKind, entity: EntityName, payload: P)

  /** The message constants of the helper enums (Exito_Operaciones,
      Errores_Operaciones, Exito_Tarjetas, Error_Tarjeta, Errores_Cuentas).
      `ExitoTarjetas` is the whole Exito_Tarjetas helper, which tarjeta creation
      puts in its message as is. */
  datatype Message =
    | Crear | Actualizar | Eliminar | Consultar
    | ErorCrear | ErrorActualizar | ErrorEliminar | ErrorConsultar
    | ExitoTarjetas | ActualizarTarjeta | EliminarTarjeta
    | ErrorCrearTarjeta | ErrorTarjetaNoActualizada | ErrorTarjetaNoEncontrada | ErrorTajetaNoEliminada
    | CuentaNotFound

  /** The messages that report a failure. */
  predicate IsErrorMessage(m: Message) {
    m.ErorCrear? || m.ErrorActualizar? || m.ErrorEliminar? || m.ErrorConsultar? ||
    m.ErrorCrearTarjeta? || m.ErrorTarjetaNoActualizada? || m.ErrorTarjetaNoEncontrada? ||
    m.ErrorTajetaNoEliminada? || m.CuentaNotFound?
  }

  /** The `{status, message}` record the services return. */
  datatype Response = Answer(status: int, message: Message)

  /** The status every service uses for a failed coordinator call. */
  const BadRequestStatus: int := 400

  /** Exceptions the services throw (BadRequestException, UnauthorizedException,
      NotFoundException). */
  datatype HttpError = BadRequest | Unauthorized | NotFound

  /** The shared shape of every mutating service operation: success status and
      message on 'Éxito', status 400 and the error message on 'Error'. */
  function Decide(tok: Token, okStatus: int, okMessage: Message, errMessage: Message): (r: Response)
    requires okStatus != BadRequestStatus
    ensures r.status == okStatus <==> tok == Exito
    ensures r.status == BadRequestStatus <==> tok == Error
    ensures r.message == (if tok == Exito then okMessage else errMessage)
  {
    match tok
    case Exito => Answer(okStatus, okMessage)
    case Error => Answer(BadRequestStatus, errMessage)
  }

  /** What a caller can read back from a service's record: 400 means the
      coordinator said 'Error', any other status means it said 'Éxito'. */
  function TokenOf(r: Response): Token {
    if r.status == BadRequestStatus then Error else Exito
  }

  /** The token is recoverable from the record `Decide` builds. */
  lemma DecideRecoverable(tok: Token, okStatus: int, okMessage: Message, errMessage: Message)
    requires okStatus != BadRequestStatus
    ensures TokenOf(Decide(tok, okStatus, okMessage, errMessage)) == tok
  {
  }

  /** Viajes/Vuelos findOne: the repository's row is returned unchanged, a missing
      row throws NotFoundException. */
  function FindOrThrow<T>(found: Option<T>): (r: Result<T, HttpError>)
    ensures found.Some? <==> r.Success?
    ensures found.Some? ==> r.value == found.value
    ensures r.Failure? ==> r.error == NotFound
  {
    match found
    case Some(row) => Success(row)
    case None => Failure(NotFound)
  }

}
