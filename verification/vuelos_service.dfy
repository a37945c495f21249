/** VuelosService: create answers 201, update and remove 200 on 'Éxito';
    findOne returns the repository row or throws NotFoundException. */
module VuelosService {

  import opened Wrappers
  import opened Transaction
  import opened VueloEntity

  function Create(tok: Token): (r: Response)
    ensures r.status == 201 <==> tok == Exito
    ensures r.status == 400 <==> tok == Error
    ensures r.message == (if tok == Exito then Crear else ErorCrear)
  {
    Decide(tok, 201, Crear, ErorCrear)
  }

  function FindOne(found: Option<Vuelo>): (r: Result<Vuelo, HttpError>)
    ensures found.Some? ==> r == Success(found.value)
    ensures found.None? ==> r == Failure(NotFound)
  {
    FindOrThrow(found)
  }

  function Update(tok: Token): (r: Response)
    ensures r.status == 200 <==> tok == Exito
    ensures r.status == 400 <==> tok == Error
    ensures r.message == (if tok == Exito then Message.Actualizar else ErrorActualizar)
  {
    Decide(tok, 200, Message.Actualizar, ErrorActualizar)
  }

  function Remove(tok: Token): (r: Response)
    ensures r.status == 200 <==> tok == Exito
    ensures r.status == 400 <==> tok == Error
    ensures r.message == (if tok == Exito then Eliminar else ErrorEliminar)
  {
    Decide(tok, 200, Eliminar, ErrorEliminar)
  }
}
