/** The Viaje table and its seat computation, `calculLugaresDisponoibles`:
    aircraft capacity minus reserved passengers minus total passengers of the
    trip's flight. The computation neither clamps nor rejects a negative value. */
module ViajeEntity {

  import opened Wrappers
  import opened VueloEntity

  /** A Viaje row: origin and destination airports by id, the eager flight, and
      the trip status. */
  datatype Viaje = Viaje(
    Viaje_ID: nat,
    estadoViaje: EstadoViaje,
    aeropuertoDestino: nat,
    aeropuertoOrigen: nat,
    vueloId: Vuelo)

  /** Inserting a Viaje: the status takes its default POR_INICIAR when none is given. */
  function NewViaje(id: nat, estado: Option<EstadoViaje>, destino: nat, origen: nat, vuelo: Vuelo): (t: Viaje)
    ensures estado.None? ==> t.estadoViaje == PorIniciar
    ensures estado.Some? ==> t.estadoViaje == estado.value
    ensures t.aeropuertoDestino == destino && t.aeropuertoOrigen == origen && t.vueloId == vuelo
  {
    Viaje(id, EstadoColumn(estado), destino, origen, vuelo)
  }

  /** The computation dereferences the flight's aircraft, so it needs one. */
  predicate HasAircraft(t: Viaje) {
    t.vueloId.avion_Id.Some?
  }

  function Capacity(t: Viaje): int
    requires HasAircraft(t)
  {
    t.vueloId.avion_Id.value.avion_Capacidad_Pasajeros
  }

  /** Seats left: capacity, reserved and total passengers always add up, and the
      result is non-negative exactly when the two counters fit in the aircraft. */
  function LugaresDisponibles(t: Viaje): (r: int)
    requires HasAircraft(t)
    ensures r + t.vueloId.pasajerosApartados + t.vueloId.pasajerosTotales == Capacity(t)
    ensures r >= 0 <==> Capacity(t) >= t.vueloId.pasajerosApartados + t.vueloId.pasajerosTotales
  {
    t.vueloId.avion_Id.value.avion_Capacidad_Pasajeros - t.vueloId.pasajerosApartados - t.vueloId.pasajerosTotales
  }

  /** The capacity invariant the back office would want; the computation itself
      does not enforce it. */
  predicate SeatsConsistent(t: Viaje)
    requires HasAircraft(t)
  {
    LugaresDisponibles(t) >= 0
  }

  /** Reserving k more seats lowers the result by exactly k. */
  lemma MoreApartadosFewerSeats(t: Viaje, k: int)
    requires HasAircraft(t)
    ensures LugaresDisponibles(t.(vueloId := t.vueloId.(pasajerosApartados := t.vueloId.pasajerosApartados + k)))
            == LugaresDisponibles(t) - k
  {
  }

  /** k more passengers lower the result by exactly k. */
  lemma MoreTotalesFewerSeats(t: Viaje, k: int)
    requires HasAircraft(t)
    ensures LugaresDisponibles(t.(vueloId := t.vueloId.(pasajerosTotales := t.vueloId.pasajerosTotales + k)))
            == LugaresDisponibles(t) - k
  {
  }

  /** The two counters play symmetric roles. */
  lemma SwapCountersSameSeats(t: Viaje)
    requires HasAircraft(t)
    ensures LugaresDisponibles(t.(vueloId := t.vueloId.(pasajerosApartados := t.vueloId.pasajerosTotales,
                                                         pasajerosTotales := t.vueloId.pasajerosApartados)))
            == LugaresDisponibles(t)
  {
  }

  /** Only the capacity and the two counters matter: trip status, airports,
      crew and flight status do not. */
  lemma SeatsReadOnlyCounters(t: Viaje, u: Viaje)
    requires HasAircraft(t) && HasAircraft(u)
    requires Capacity(t) == Capacity(u)
    requires t.vueloId.pasajerosApartados == u.vueloId.pasajerosApartados
    requires t.vueloId.pasajerosTotales == u.vueloId.pasajerosTotales
    ensures LugaresDisponibles(t) == LugaresDisponibles(u)
  {
  }

  /** No clamping: an overbooked flight yields a negative number of seats. */
  lemma OverbookedIsNegative()
    ensures LugaresDisponibles(Viaje(1, PorIniciar, 7, 27, Vuelo(6, Some(Avion(100)), 1, 2, 3, 90, 20, EnCurso))) == -10
    ensures !SeatsConsistent(Viaje(1, PorIniciar, 7, 27, Vuelo(6, Some(Avion(100)), 1, 2, 3, 90, 20, EnCurso)))
  {
  }
}
