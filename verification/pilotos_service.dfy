/** PilotosService: create, update and remove answer 200 on 'Éxito' (not 201);
    findbyName hands back what the coordinator returned. */
module PilotosService {

  import opened Transaction

  function Create(tok: Token): (r: Response)
    ensures r.status == 200 <==> tok == Exito
    ensures r.status == 400 <==> tok == Error
    ensures r.message == (if tok == Exito then Crear else ErorCrear)
  {
    Decide(tok, 200, Crear, ErorCrear)
  }

  function Update(tok: Token): (r: Response)
    ensures r.status == 200 <==> tok == Exito
    ensures r.status == 400 <==> tok == Error
    ensures r.message == (if tok == Exito then Message.Actualizar else ErrorActualizar)
  {
    Decide(tok, 200, Message.Actualizar, ErrorActualizar)
  }

  function Remove(tok: Token): (r: Response)
    ensures r.status == 200 <==> tok == Exito
    ensures r.status == 400 <==> tok == Error
    ensures r.message == (if tok == Exito then Eliminar else ErrorEliminar)
  {
    Decide(tok, 200, Eliminar, ErrorEliminar)
  }

  /** findbyName: a null from the coordinator comes back as null. */
  function FindByName(reply: Reply): (r: Reply)
    ensures reply.Null? <==> r.Null?
  {
    reply
  }
}
