# Airline back office: decision core in Dafny

This project models the decision logic of a NestJS/TypeORM airline back office
("vuelos"). The repository's services mostly pass data through to TypeORM
repositories and to a generic transaction coordinator (`TransaccionService`). What is
left once those are abstracted falls into four groups:

- **Authentication** (`AuthService.register`, `AuthService.login`). Registration
  refuses an identifier that is already taken with BadRequest. Otherwise it hashes the
  password and makes one coordinator call for the new user, card and account. The
  shape of that call is an assumption of the model (see "## Left out"). It then maps the coordinator's token and the external validator's status to a reply.
  Login is a gate. An unknown identifier, a status other than `ACTIVE` and a password
  that bcrypt rejects all throw Unauthorized. Success returns a signed token and
  never the password hash.
- **Outcome-token mapping** in the domain services (tarjeta, pilotos, viajes,
  tarifa-distancia, vuelos, cuentas). Each mutating operation receives the
  coordinator's two-valued token, `'Éxito'` or `'Error'`. It turns the token into a
  `{status, message}` record, and the success status differs per service and
  operation. Card removal is a soft delete that sets `tarjeta_Status` to `ELIMINADO`.
- **Seat arithmetic** (`Viaje.calculLugaresDisponoibles`): aircraft capacity minus
  reserved passengers minus total passengers. The result is neither clamped nor
  rejected when negative.
- **Card DTO validation**. The expiry must match `^(\d{2})-(\d{2})$` and the CVV has
  at most three characters. `UpdateTarjetaDto` is the all-optional `PartialType` of
  the create DTO.

Collaborators are inputs. The transaction coordinator is a function from a call to a
`Token`. bcrypt `hash`/`compare`, JWT `signAsync` and the account validator
`validar_cuenta` are function parameters. Repository lookups are the store contents:
a sequence of account rows, a map of cards, or the `Option` a `findOne` returned.

Modules: `Wrappers` (Option/Result), `Transaction` (tags, token, records,
exceptions), `Decimal` (`String(id)`), `TarjetaDto`, `TarjetaService`,
`PilotosService`, `ViajesService`, `VuelosService`, `TarifaDistanciaService`,
`ServiceTable` (the status table of the pilots, trips, flights and fares services), `CuentasService`, `AuthService`,
`VueloEntity`, `ViajeEntity`.

Points worth knowing when reading the model:

- `calculLugaresDisponoibles` neither clamps nor rejects a negative result. One might
  expect a booking flow to refuse overselling, but no such check appears in the code
  modelled here. The model states non-negativity only as the predicate
  `ViajeEntity.SeatsConsistent` and proves that an overbooked flight gives a negative
  count (`ViajeEntity.OverbookedIsNegative`).
- It is an open question whether removing an already soft-deleted card answers "not
  found". The code that would decide this, the body of `findOne` and any status filter
  after it, is not part of this model. The model's card carries no status, and its
  removal looks only at whether the id is stored.
- The account status vocabulary is not uniform. Login admits `ACTIVE`, while the
  refused statuses in the tests are `INACTIVO` and `BLOQUEADO`. The model compares
  against the string `ACTIVE`.
- The card update call carries no card id. This is proved as
  `TarjetaService.UpdateCallIgnoresId`.
- Card creation's success message is the whole `Exito_Tarjetas` helper rather than
  one of its members. This is an observation only: the model's `ExitoTarjetas`
  constant just names that message and proves nothing about it.
- The expiry values used in the service tests (`12/25`, `01/20`) fail the DTO
  pattern (`TarjetaDto.SlashFormRejected`). The services do not validate, so creation
  still succeeds when the coordinator commits (`TarjetaService.CreateDoesNotValidate`).

## Model

| member | source | states |
|---|---|---|
| Transaction.Decide | src/resource/pilotos/pilotos.service.spec.ts:59-91 | a mutating operation reports its success status exactly when the coordinator answers 'Éxito' and 400 exactly when it answers 'Error', with the matching message |
| Transaction.DecideRecoverable | src/resource/vuelos/vuelos.service.spec.ts:45-89 | the coordinator's token can be read back from the record: 400 means 'Error', anything else 'Éxito' |
| Transaction.FindOrThrow | src/resource/viajes/viajes.service.spec.ts:101-115 | findOne returns the repository row unchanged and throws NotFound exactly when the row is missing |
| Decimal.NatToString | src/resource/tarjeta/tarjeta.service.spec.ts:184-190 | `String(id)` is a non-empty all-digit numeral without a leading zero |
| Decimal.ParseNatToString | src/resource/tarjeta/tarjeta.service.spec.ts:184-190 | reading the key back as a decimal numeral gives the card id |
| Decimal.NatToStringInjective | src/resource/tarjeta/tarjeta.service.spec.ts:184-190 | distinct ids give distinct soft-delete keys |
| TarjetaDto.MatchesPointwise | src/resource/tarjeta/dto/create-tarjeta.dto.ts:18-22 | an anchored pattern without quantifiers matches exactly the strings of its length whose characters match position by position |
| TarjetaDto.ExpiryShape | src/resource/tarjeta/dto/create-tarjeta.dto.ts:18-22 | the expiry is accepted iff it has exactly five characters: digit, digit, '-', digit, digit |
| TarjetaDto.SlashFormRejected | src/resource/tarjeta/dto/create-tarjeta.dto.ts:19 | the slash forms `12/25` and `01/20` are rejected |
| TarjetaDto.ShapeOnly | src/resource/tarjeta/dto/create-tarjeta.dto.ts:19 | month and year ranges are not checked: `99-99` and `00-00` pass |
| TarjetaDto.MatchPattern | src/resource/tarjeta/dto/create-tarjeta.dto.ts:18-22 | a single left-to-right scan decides the pattern exactly |
| TarjetaDto.Validate | src/resource/tarjeta/dto/create-tarjeta.dto.ts:4-23 | the CVV violation appears iff the CVV is longer than 3, the expiry violation iff the expiry misses the pattern, and the body is valid iff both checks hold |
| TarjetaDto.ValidateUpdate | src/resource/tarjeta/dto/update-tarjeta.dto.ts:7 | an absent field is skipped; a present CVV or expiry gets the create check |
| TarjetaDto.AsUpdate | src/resource/tarjeta/dto/update-tarjeta.dto.ts:7 | a create body viewed as an update carries every field as present |
| TarjetaDto.EmptyUpdateValid | src/resource/tarjeta/dto/update-tarjeta.dto.ts:7 | an update with no field present is valid |
| TarjetaDto.AsUpdateSameViolations | src/resource/tarjeta/dto/update-tarjeta.dto.ts:7 | a full body gets the same violations as an update as it does as a create, so it is a valid update iff it is a valid create |
| TarjetaDto.FreeFieldsUnchecked | src/resource/tarjeta/dto/create-tarjeta.dto.ts:5-12 | holder, address and card number never cause a violation |
| TarjetaService.CreateCall | src/resource/tarjeta/tarjeta.service.spec.ts:63-67 | creation issues `(Guardar, Tarjeta, dto)` with the body unchanged |
| TarjetaService.Create | src/resource/tarjeta/tarjeta.service.spec.ts:46-86 | 'Éxito' gives `{201, Exito_Tarjetas}` and 'Error' gives `{400, ERROR_CREAR_TARJETA}` |
| TarjetaService.CreateDependsOnlyOnToken | src/resource/tarjeta/tarjeta.service.spec.ts:224-249 | creation's record depends on nothing but the coordinator's token |
| TarjetaService.CreateDoesNotValidate | src/resource/tarjeta/tarjeta.service.spec.ts:224-249 | an expiry the DTO rejects still yields 201 when the coordinator commits |
| TarjetaService.UpdateCall | src/resource/tarjeta/tarjeta.service.spec.ts:144-148 | update issues `(Actualizar, Tarjeta, dto)` with the body unchanged |
| TarjetaService.UpdateCallIgnoresId | src/resource/tarjeta/tarjeta.service.spec.ts:144-148 | the update call is the same whatever the card id |
| TarjetaService.Update | src/resource/tarjeta/tarjeta.service.spec.ts:129-166 | 'Éxito' gives `{201, ACTUALIZAR_TARJETA}` and 'Error' gives `{400, ERROR_TARJETA_NO_ACTUALIZADA}` |
| TarjetaService.FindOne | src/resource/tarjeta/tarjeta.service.spec.ts:101-127 | a stored card gives `{201, buscar: card}`; a missing one gives `{400, ERROR_TARJETA_NO_ENCONTRADA}` |
| TarjetaService.RemoveCall | src/resource/tarjeta/tarjeta.service.spec.ts:184-190 | removal is the parameter update `(Actualizar_Con_Parametros, Tarjeta, ELIMINADO, 'tarjeta_Status', String(id))`, never a delete; the key is the canonical decimal numeral of the id (non-empty, digits only, no leading zero, parsing back to the id) |
| TarjetaService.RemoveCallKeyScenario | src/resource/tarjeta/tarjeta.service.spec.ts:184-190 | removing card 1 issues exactly `(Actualizar_Con_Parametros, Tarjeta, ELIMINADO, 'tarjeta_Status', '1')` |
| TarjetaService.Remove | src/resource/tarjeta/tarjeta.service.spec.ts:168-222 | a missing card returns findOne's not-found record unchanged; otherwise 'Éxito' gives `{201, ELIMINAR_TARJETA}` and 'Error' gives `{400, ERROR_TAJETA_NO_ELIMINADA}` |
| TarjetaService.TarjetaOutcomeRecoverable | src/resource/tarjeta/tarjeta.service.spec.ts:46-222 | the coordinator's token can be read back from the record of create, update and a removal of a stored card |
| TarjetaService.RemoveAgreesWithFindOne | src/resource/tarjeta/tarjeta.service.spec.ts:168-205 | removing a card findOne reports not found returns findOne's record; otherwise the soft-delete call alone decides |
| TarjetaService.RemoveOnlySoftDeletes | src/resource/tarjeta/tarjeta.service.spec.ts:184-190 | removal's record depends only on the coordinator's answer to the soft-delete call |
| TarjetaService.RemoveCallsDistinct | src/resource/tarjeta/tarjeta.service.spec.ts:184-190 | distinct cards are soft-deleted by distinct calls |
| PilotosService.Create | src/resource/pilotos/pilotos.service.spec.ts:43-93 | 'Éxito' gives `{200, Crear}`, so the code is 200 and not 201; 'Error' gives `{400, EROR_CREAR}` |
| PilotosService.Update | src/resource/pilotos/pilotos.service.spec.ts:124-158 | 'Éxito' gives `{200, Actualizar}` and 'Error' gives `{400, ERROR_ACTUALIZAR}` |
| PilotosService.Remove | src/resource/pilotos/pilotos.service.spec.ts:160-186 | 'Éxito' gives `{200, Eliminar}` and 'Error' gives `{400, ERROR_ELIMINAR}` |
| PilotosService.FindByName | src/resource/pilotos/pilotos.service.spec.ts:188-197 | the result is null exactly when the coordinator yields null |
| ViajesService.Create | src/resource/viajes/viajes.service.spec.ts:55-91 | 'Éxito' gives `{201, Crear}` and 'Error' gives `{400, EROR_CREAR}` |
| ViajesService.FindOne | src/resource/viajes/viajes.service.spec.ts:101-115 | a found trip is returned unchanged; a missing one throws NotFound |
| ViajesService.Update | src/resource/viajes/viajes.service.spec.ts:117-155 | 'Éxito' gives `{200, Actualizar}` and 'Error' gives `{400, ERROR_ACTUALIZAR}` |
| ViajesService.Remove | src/resource/viajes/viajes.service.spec.ts:157-177 | 'Éxito' gives `{200, Eliminar}` and 'Error' gives `{400, ERROR_ELIMINAR}` |
| VuelosService.Create | src/resource/vuelos/vuelos.service.spec.ts:45-89 | 'Éxito' gives `{201, Crear}` and 'Error' gives `{400, EROR_CREAR}` |
| VuelosService.FindOne | src/resource/vuelos/vuelos.service.spec.ts:99-113 | a found flight is returned unchanged; a missing one throws NotFound |
| VuelosService.Update | src/resource/vuelos/vuelos.service.spec.ts:115-161 | 'Éxito' gives `{200, Actualizar}` and 'Error' gives `{400, ERROR_ACTUALIZAR}` |
| VuelosService.Remove | src/resource/vuelos/vuelos.service.spec.ts:163-183 | 'Éxito' gives `{200, Eliminar}` and 'Error' gives `{400, ERROR_ELIMINAR}` |
| TarifaDistanciaService.Create | src/resource/tarifas-distancia/tarifa-distancia.service.spec.ts:46-80 | 'Éxito' gives `{201, Crear}` and 'Error' gives `{400, EROR_CREAR}` |
| TarifaDistanciaService.FindByName | src/resource/tarifas-distancia/tarifa-distancia.service.spec.ts:90-111 | only the token 'Error' gives `{400, ERROR_CONSULTAR}`; any other coordinator result gives `{200, Consultar}` |
| TarifaDistanciaService.FindByNameDropsRows | src/resource/tarifas-distancia/tarifa-distancia.service.spec.ts:90-100 | the rows found are not returned: any two row sets give the same record |
| TarifaDistanciaService.Update | src/resource/tarifas-distancia/tarifa-distancia.service.spec.ts:113-149 | 'Éxito' gives `{200, Actualizar}` and 'Error' gives `{400, ERROR_ACTUALIZAR}` |
| TarifaDistanciaService.Remove | src/resource/tarifas-distancia/tarifa-distancia.service.spec.ts:151-171 | 'Éxito' gives `{200, Eliminar}` and 'Error' gives `{400, ERROR_ELIMINAR}` |
| ServiceTable.RespondAgreesWithTable | src/resource/viajes/viajes.service.spec.ts:55-177 | on both tokens, every operation of pilots, trips, flights and fares agrees with one independent status/message table |
| ServiceTable.OutcomeRecoverable | src/resource/tarifas-distancia/tarifa-distancia.service.spec.ts:46-171 | for the pilots, trips, flights and fares services, the coordinator's token is recoverable from every record, and an error message appears exactly on 'Error' |
| ServiceTable.CreatedStatusOnlyOnCreate | src/resource/pilotos/pilotos.service.spec.ts:59-66 | among the pilots, trips, flights and fares services, a success reports 201 exactly for creating a trip, flight or fare; pilot creation, updates and removals report 200 (the card service, outside this table, answers 201 on every success) |
| CuentasService.FirstMatch | src/resource/cuentas/cuentas.service.spec.ts:113-115 | the lookup picks the first row whose `cuenta_Identificador` equals the email, and finds none iff no row has it |
| CuentasService.Project | src/resource/cuentas/cuentas.service.spec.ts:99-112 | the account keeps id, identifier, password, status and role; the user keeps id, name and surname |
| CuentasService.ProjectForgetsOnlyEdad | src/resource/cuentas/cuentas.service.spec.ts:91-112 | two rows project alike iff they differ at most in `usuario_Edad` |
| CuentasService.FindOneByEmail | src/resource/cuentas/cuentas.service.spec.ts:83-126 | the answer is `false` iff no account has the email; otherwise it is the projection of a stored account with that identifier |
| CuentasService.ActualizarContrasena | src/resource/cuentas/cuentas.service.spec.ts:128-146 | an unknown identifier gives `{400, CUENTA_NOT_FOUND}`; a known one proceeds with the first stored account carrying that identifier |
| CuentasService.ActualizarAgreesWithLookup | src/resource/cuentas/cuentas.service.spec.ts:118-146 | the password change is refused exactly when findOneByEmail answers `false`, and otherwise goes on with the account findOneByEmail projects |
| AuthService.NewRegistration | src/auth/auth.service.spec.ts:70-75 | the group handed to the coordinator carries the hash of the password and every user and card field of the body |
| AuthService.Register | src/auth/auth.service.spec.ts:55-152 | a taken identifier, and only that, throws BadRequest; a coordinator 'Error' gives exactly `{400, 'Usuario no creado'}`; a commit plus validator 201 gives `{usuario_Nombre, identificador, 'Usuario creado'}` echoing the body |
| AuthService.RegisterTakenIgnoresCollaborators | src/auth/auth.service.spec.ts:120-151 | with a taken identifier no hash, coordinator or validator answer changes the BadRequest |
| AuthService.RegisterErrorSkipsValidator | src/auth/auth.service.spec.ts:91-117 | after a coordinator 'Error' the validator's answer is irrelevant |
| AuthService.RegisterTwiceRefused | src/auth/auth.service.spec.ts:120-151 | an identifier used by any stored account is refused with BadRequest |
| AuthService.RegisterScenario | src/auth/auth.service.spec.ts:56-88 | the test's fresh registration with commit and validator 201 yields `{John, test@example.com, 'Usuario creado'}` |
| AuthService.Login | src/auth/auth.service.spec.ts:157-298 | login succeeds iff the account exists, is `ACTIVE` and bcrypt accepts the password; every failure is Unauthorized; success returns `{access_Token, identificador, role, 'Sesión activa'}`, where the token is whatever signing the claims gives |
| AuthService.InactiveRejectedWhateverPassword | src/auth/auth.service.spec.ts:239-297 | a status other than `ACTIVE` refuses login whatever the password comparison says |
| AuthService.SessionIndependentOfHash | src/auth/auth.service.spec.ts:158-192 | the session does not depend on the stored password hash, so it cannot echo it |
| CuentasService.FirstMatchIgnoresHash | src/resource/cuentas/cuentas.service.spec.ts:113-115 | replacing an account's password hash does not change which account the lookup picks |
| AuthService.LoginScenarios | src/auth/auth.service.spec.ts:158-297 | the test scenarios: matching password succeeds; wrong password, unknown identifier, `INACTIVO` and `BLOQUEADO` are Unauthorized |
| VueloEntity.EstadoColumn | src/resource/vuelos/entities/vuelo.entity.ts:51-57 | a status column without a value takes `POR_INICIAR`; a given value is kept |
| VueloEntity.NewVuelo | src/resource/vuelos/entities/vuelo.entity.ts:15-57 | a new flight defaults its status to `POR_INICIAR` and stores references and counters as given |
| ViajeEntity.NewViaje | src/resource/viajes/entities/viaje.entity.ts:27-42 | a new trip defaults `estadoViaje` to `POR_INICIAR` and keeps its airports and flight |
| ViajeEntity.LugaresDisponibles | src/resource/viajes/entities/viaje.entity.ts:49-55 | seats plus reserved plus total passengers equal capacity; the result is non-negative iff capacity covers both counters |
| ViajeEntity.MoreApartadosFewerSeats | src/resource/viajes/entities/viaje.entity.ts:51-53 | raising `pasajerosApartados` by k lowers the seats by exactly k |
| ViajeEntity.MoreTotalesFewerSeats | src/resource/viajes/entities/viaje.entity.ts:51-53 | raising `pasajerosTotales` by k lowers the seats by exactly k |
| ViajeEntity.SwapCountersSameSeats | src/resource/viajes/entities/viaje.entity.ts:51-53 | swapping the two counters leaves the seats unchanged |
| ViajeEntity.SeatsReadOnlyCounters | src/resource/viajes/entities/viaje.entity.ts:49-55 | only capacity and the two counters are read |
| ViajeEntity.OverbookedIsNegative | src/resource/viajes/entities/viaje.entity.ts:50-54 | there is no clamping: capacity 100 with 20 reserved and 90 total gives -10 |

## Left out

- CuentasService.ActualizarContrasena: only the lookup is pinned: an unknown identifier gives `{400, CUENTA_NOT_FOUND}`, a known one goes on with its stored account. Hashing the new password, checking the code and writing the change are not modelled, so `nueva` and `codigo` are unused.

- Dependency injection, the testing module and jest spies are framework plumbing. Mocked return values are function inputs.
- TransaccionService (transaction demarcation, commit, rollback) is not part of this model. The model claims no atomicity for it.
- The `resultado` payload of the registration coordinator's answer is left out. Register reads only its token.
- The coordinator calls issued by the pilots, trips, fares and flights services are left out. The tests do not show their tags or payloads, so those services are modelled from the token on.
- Tags of Tipo_Transaccion other than `Guardar`, `Actualizar` and `Actualizar_Con_Parametros` are left out. None appears in the calls the tests assert.
- The persisting of the hashed activation code after validator status 201 is not modelled. Its call shape and how its outcome is used are not shown.
- AuthService.NewRegistration: the payload shape of the registration coordinator call is an assumption. The tests only mock `transaction` and never assert its arguments, so the one-group payload and its fields are the model's choice.
- AuthService.Login: the claims signed into the token (identifier and role) are an assumption. No test shows the arguments of `signAsync`.
- AuthService.Register: for a validator status other than 201 it returns the marker `ValidatorDeclined(status)`. The source fixes no result for that case.
- TarifaDistanciaService.FindByName: only two cases are pinned by the source: rows give `{200, Consultar}` and the token 'Error' gives `{400, ERROR_CONSULTAR}`. Mapping null and the token 'Éxito' to `{200, Consultar}` is the model's choice.
- PilotosService.FindByName: only the null case is pinned by the source. Passing every other coordinator result through unchanged is the model's choice.
- bcrypt hashing and comparison, JWT signing and the external account validator are foreign libraries or network calls. They are function parameters.
- `findAll` of every service, and the whole of the airport and location services, are plain repository reads with no decision.
- Dates, `timestamptz` columns, `duracion_vuelo_ms` and the fares' numeric fields are left out. No modelled decision reads them.
- Eager relations: airports, pilots, co-pilot and crew are kept as ids, and the aircraft keeps only its capacity. The trip's fare relations `tarifas_clase` and `tarifas_distancia` are dropped, because no modelled decision reads them.
- ViajeEntity.LugaresDisponibles: uses unbounded integers. JavaScript subtracts doubles, which is exact for integer columns of this size. Its requires `HasAircraft` excludes a flight without an aircraft, for which the source throws a TypeError when it dereferences `avion_Id`; that crash is not modelled.
- TarjetaDto.Validate: `IsString` is implied by the field types. The length counts Unicode scalar values, not the validator library's exact counting rule.
- Concurrency, isolation and locking for seat booking are left out. No booking or locking code is part of this model.
- The helper files holding the literal message strings are not part of this model, so messages are enum constants.
