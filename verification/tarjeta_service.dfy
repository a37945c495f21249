/** TarjetaService: card create/update/findOne/remove. Removal is a soft delete:
    the coordinator is asked to set the card's `tarjeta_Status` column to
    ELIMINADO, and a card that findOne cannot find short-circuits the removal. */
module TarjetaService {

  import opened Transaction
  import opened Decimal
  import opened TarjetaDto

  /** Tarjeta_Estado; only ELIMINADO is used by the service. */
  datatype TarjetaEstado = Eliminado

  /** A stored card; the service reads nothing but its id. */
  datatype Tarjeta = Tarjeta(id_Tarjeta: nat)

  /** The payloads the service hands the coordinator. */
  datatype Payload =
    | CreateBody(create: CreateTarjetaDto)
    | UpdateBody(update: UpdateTarjetaDto)
    | SetColumn(value: TarjetaEstado, column: string, key: string)

  type Coordinator = Call<Payload> -> Token

  /** What findOne returns: `{status: 201, buscar: card}` or a `{status, message}` record. */
  datatype Lookup = Buscar(status: int, buscar: Tarjeta) | Answered(response: Response)

  const StatusColumn: string := "tarjeta_Status"

  function CreateCall(dto: CreateTarjetaDto): (c: Call<Payload>)
    ensures c.kind == Guardar && c.entity == TarjetaEntity
    ensures c.payload == CreateBody(dto)
  {
    Call(Guardar, TarjetaEntity, CreateBody(dto))
  }

  /** create: 201 with the Exito_Tarjetas helper on 'Éxito', 400 with
      ERROR_CREAR_TARJETA on 'Error'. The body is not validated here. */
  function Create(dto: CreateTarjetaDto, coord: Coordinator): (r: Response)
    ensures r.status == 201 <==> coord(CreateCall(dto)) == Exito
    ensures r.status == 400 <==> coord(CreateCall(dto)) == Error
    ensures r.status == 201 ==> r.message == ExitoTarjetas
    ensures r.status == 400 ==> r.message == ErrorCrearTarjeta
  {
    Decide(coord(CreateCall(dto)), 201, ExitoTarjetas, ErrorCrearTarjeta)
  }

  /** The update call names no card: the id is not part of it. */
  function UpdateCall(id: nat, dto: UpdateTarjetaDto): (c: Call<Payload>)
    ensures c.kind == TxKind.Actualizar && c.entity == TarjetaEntity
    ensures c.payload == UpdateBody(dto)
  {
    Call(TxKind.Actualizar, TarjetaEntity, UpdateBody(dto))
  }

  /** update: 201 with ACTUALIZAR_TARJETA on 'Éxito', 400 with
      ERROR_TARJETA_NO_ACTUALIZADA on 'Error'. */
  function Update(id: nat, dto: UpdateTarjetaDto, coord: Coordinator): (r: Response)
    ensures r.status == 201 <==> coord(UpdateCall(id, dto)) == Exito
    ensures r.status == 400 <==> coord(UpdateCall(id, dto)) == Error
    ensures r.status == 201 ==> r.message == ActualizarTarjeta
    ensures r.status == 400 ==> r.message == ErrorTarjetaNoActualizada
  {
    Decide(coord(UpdateCall(id, dto)), 201, ActualizarTarjeta, ErrorTarjetaNoActualizada)
  }

  /** findOne: the repository row under `id`, or ERROR_TARJETA_NO_ENCONTRADA. */
  function FindOne(cards: map<nat, Tarjeta>, id: nat): (r: Lookup)
    ensures r.Buscar? <==> id in cards
    ensures r.Buscar? ==> r.status == 201 && r.buscar == cards[id]
    ensures r.Answered? ==> r.response == Answer(400, ErrorTarjetaNoEncontrada)
  {
    if id in cards then Buscar(201, cards[id]) else Answered(Answer(400, ErrorTarjetaNoEncontrada))
  }

  /** The soft-delete call: set `tarjeta_Status` to ELIMINADO on the row whose key
      is `String(id)`. */
  function RemoveCall(id: nat): (c: Call<Payload>)
    ensures c.kind == ActualizarConParametros && c.entity == TarjetaEntity
    ensures c.payload.SetColumn? && c.payload.value == Eliminado && c.payload.column == StatusColumn
    ensures c.payload.SetColumn? && AllDigits(c.payload.key) && ParseNat(c.payload.key) == id
    ensures c.payload.SetColumn? && |c.payload.key| > 0 && (|c.payload.key| > 1 ==> c.payload.key[0] != '0')
  {
    ParseNatToString(id);
    Call(ActualizarConParametros, TarjetaEntity, SetColumn(Eliminado, StatusColumn, NatToString(id)))
  }

  /** remove: findOne's not-found record is returned as is; otherwise the
      soft-delete call decides between ELIMINAR_TARJETA (201) and
      ERROR_TAJETA_NO_ELIMINADA (400). */
  function Remove(cards: map<nat, Tarjeta>, id: nat, coord: Coordinator): (r: Response)
    ensures id !in cards ==> r == Answer(400, ErrorTarjetaNoEncontrada)
    ensures id in cards ==> (r.status == 201 <==> coord(RemoveCall(id)) == Exito)
    ensures id in cards && coord(RemoveCall(id)) == Exito ==> r.message == EliminarTarjeta
    ensures id in cards && coord(RemoveCall(id)) == Error ==> r == Answer(400, ErrorTajetaNoEliminada)
  {
    match FindOne(cards, id)
    case Answered(notFound) => notFound
    case Buscar(_, _) => Decide(coord(RemoveCall(id)), 201, EliminarTarjeta, ErrorTajetaNoEliminada)
  }

  /** The coordinator's token can be read back from every record create, update
      and a removal of a stored card return. */
  lemma TarjetaOutcomeRecoverable(cards: map<nat, Tarjeta>, id: nat, c: CreateTarjetaDto,
      u: UpdateTarjetaDto, coord: Coordinator)
    ensures TokenOf(Create(c, coord)) == coord(CreateCall(c))
    ensures TokenOf(Update(id, u, coord)) == coord(UpdateCall(id, u))
    ensures id in cards ==> TokenOf(Remove(cards, id, coord)) == coord(RemoveCall(id))
  {
  }

  /** Removal of a card findOne cannot find is findOne's own record; removal of
      a card it finds is decided by the soft-delete call alone. */
  lemma RemoveAgreesWithFindOne(cards: map<nat, Tarjeta>, id: nat, coord: Coordinator)
    ensures FindOne(cards, id).Answered? ==> Remove(cards, id, coord) == FindOne(cards, id).response
    ensures FindOne(cards, id).Buscar? ==>
      Remove(cards, id, coord) == Decide(coord(RemoveCall(id)), 201, EliminarTarjeta, ErrorTajetaNoEliminada)
  {
  }

  /** Removal never issues any call but the soft delete: the outcome of every
      other call is irrelevant to it. */
  lemma RemoveOnlySoftDeletes(cards: map<nat, Tarjeta>, id: nat, c1: Coordinator, c2: Coordinator)
    requires c1(RemoveCall(id)) == c2(RemoveCall(id))
    ensures Remove(cards, id, c1) == Remove(cards, id, c2)
  {
  }

  /** The removal test's key: card 1 is soft-deleted under '1'. */
  lemma RemoveCallKeyScenario()
    ensures RemoveCall(1) == Call(ActualizarConParametros, TarjetaEntity, SetColumn(Eliminado, "tarjeta_Status", "1"))
  {
  }

  /** Distinct cards are soft-deleted under distinct keys. */
  lemma RemoveCallsDistinct(a: nat, b: nat)
    requires a != b
    ensures RemoveCall(a) != RemoveCall(b)
  {
    if RemoveCall(a) == RemoveCall(b) {
      NatToStringInjective(a, b);
    }
  }

  /** Two updates with the same body issue the same call whatever the ids. */
  lemma UpdateCallIgnoresId(a: nat, b: nat, dto: UpdateTarjetaDto)
    ensures UpdateCall(a, dto) == UpdateCall(b, dto)
  {
  }

  /** The service does not validate the body: a coordinator that commits makes
      creation succeed even for an expiry the DTO rejects. */
  lemma CreateDoesNotValidate(coord: Coordinator)
    requires coord(CreateCall(CreateTarjetaDto("Juan Perez", "Calle 123", "4111111111111111", "123", "01/20"))) == Exito
    ensures !ValidCreate(CreateTarjetaDto("Juan Perez", "Calle 123", "4111111111111111", "123", "01/20"))
    ensures Create(CreateTarjetaDto("Juan Perez", "Calle 123", "4111111111111111", "123", "01/20"), coord).status == 201
  {
    SlashFormRejected();
  }

  /** Creation depends on nothing but the token the coordinator returns. */
  lemma CreateDependsOnlyOnToken(d1: CreateTarjetaDto, d2: CreateTarjetaDto, c1: Coordinator, c2: Coordinator)
    requires c1(CreateCall(d1)) == c2(CreateCall(d2))
    ensures Create(d1, c1) == Create(d2, c2)
  {
  }
}
