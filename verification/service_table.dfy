/** The outcome table of the pilots, trips, flights and fares services (the
    card service answers differently and is not in it): which status each of
    them reports when the coordinator commits, written down independently of the
    services, and proved to agree with them. */
module ServiceTable {

  import opened Transaction
  import PilotosService
  import ViajesService
  import VuelosService
  import TarifaDistanciaService

  datatype Service = Pilotos | Viajes | Vuelos | TarifaDistancia

  datatype Op = Create | Update | Remove

  /** The success status of each service operation: creation answers 201 except
      for pilots, which answer 200; update and removal answer 200. */
  function SuccessStatus(s: Service, op: Op): int {
    if op == Create && s != Pilotos then 201 else 200
  }

  /** The message pair of an operation, shared by the four services. */
  function SuccessMessage(op: Op): Message {
    match op
    case Create => Crear
    case Update => Message.Actualizar
    case Remove => Eliminar
  }

  function FailureMessage(op: Op): Message {
    match op
    case Create => ErorCrear
    case Update => ErrorActualizar
    case Remove => ErrorEliminar
  }

  /** Dispatch to the service operation. */
  function Respond(s: Service, op: Op, tok: Token): Response {
    match (s, op)
    case (Pilotos, Create) => PilotosService.Create(tok)
    case (Pilotos, Update) => PilotosService.Update(tok)
    case (Pilotos, Remove) => PilotosService.Remove(tok)
    case (Viajes, Create) => ViajesService.Create(tok)
    case (Viajes, Update) => ViajesService.Update(tok)
    case (Viajes, Remove) => ViajesService.Remove(tok)
    case (Vuelos, Create) => VuelosService.Create(tok)
    case (Vuelos, Update) => VuelosService.Update(tok)
    case (Vuelos, Remove) => VuelosService.Remove(tok)
    case (TarifaDistancia, Create) => TarifaDistanciaService.Create(tok)
    case (TarifaDistancia, Update) => TarifaDistanciaService.Update(tok)
    case (TarifaDistancia, Remove) => TarifaDistanciaService.Remove(tok)
  }

  /** Every service operation agrees with the table, on both tokens. */
  lemma RespondAgreesWithTable(s: Service, op: Op, tok: Token)
    ensures Respond(s, op, tok) ==
      if tok == Exito then Answer(SuccessStatus(s, op), SuccessMessage(op))
      else Answer(BadRequestStatus, FailureMessage(op))
  {
  }

  /** A caller can tell from the record alone whether the coordinator committed,
      and an error message appears exactly on failure. */
  lemma OutcomeRecoverable(s: Service, op: Op, tok: Token)
    ensures TokenOf(Respond(s, op, tok)) == tok
    ensures IsErrorMessage(Respond(s, op, tok).message) <==> tok == Error
  {
    RespondAgreesWithTable(s, op, tok);
  }

  /** Among the pilots, trips, flights and fares services, 201 is reported exactly
      by the creations of trips, flights and fares. */
  lemma CreatedStatusOnlyOnCreate(s: Service, op: Op)
    ensures Respond(s, op, Exito).status == 201 <==> op == Create && s != Pilotos
  {
    RespondAgreesWithTable(s, op, Exito);
  }
}
