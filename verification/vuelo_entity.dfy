/** The Vuelo table: eager references to the aircraft, pilot, co-pilot and crew,
    the two passenger counters and the trip status. */
module VueloEntity {

  import opened Wrappers

  /** Estado_Viaje: POR_INICIAR and EN_CURSO are the values the back office
      writes; `OtroEstado` stands for every other value of the enum, which no
      modelled decision tells apart. */
  datatype EstadoViaje = PorIniciar | EnCurso | OtroEstado

  /** The column default of every Estado_Viaje column: POR_INICIAR unless a value
      is given; the column is never null. */
  function EstadoColumn(given: Option<EstadoViaje>): (e: EstadoViaje)
    ensures given.None? ==> e == PorIniciar
    ensures given.Some? ==> e == given.value
  {
    if given.Some? then given.value else PorIniciar
  }

  /** The eager Avion relation; the seat computation reads only its capacity. */
  datatype Avion = Avion(avion_Capacidad_Pasajeros: int)

  /** A Vuelo row. The aircraft relation has no non-null constraint, so it may be
      missing; pilot, co-pilot and crew are required and are kept as ids; the
      passenger counters are non-null integer columns. */
  datatype Vuelo = Vuelo(
    Vuelo_ID: nat,
    avion_Id: Option<Avion>,
    piloto_Id: nat,
    copiloto_Id: nat,
    tripulacion_ID: nat,
    pasajerosTotales: int,
    pasajerosApartados: int,
    estado: EstadoViaje)

  /** Inserting a Vuelo: the status column takes its default when none is given,
      every other column is stored as given. */
  function NewVuelo(id: nat, avion: Option<Avion>, piloto: nat, copiloto: nat, tripulacion: nat,
                    totales: int, apartados: int, estado: Option<EstadoViaje>): (v: Vuelo)
    ensures estado.None? ==> v.estado == PorIniciar
    ensures estado.Some? ==> v.estado == estado.value
    ensures v.avion_Id == avion && v.piloto_Id == piloto && v.copiloto_Id == copiloto
    ensures v.tripulacion_ID == tripulacion
    ensures v.pasajerosTotales == totales && v.pasajerosApartados == apartados
  {
    Vuelo(id, avion, piloto, copiloto, tripulacion, totales, apartados, EstadoColumn(estado))
  }
}
