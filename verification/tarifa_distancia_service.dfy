/** TarifaDistanciaService: create answers 201, update and remove 200 on 'Éxito';
    findbyName reports success for anything but 'Error' and never returns rows. */
module TarifaDistanciaService {

  import opened Transaction

  function Create(tok: Token): (r: Response)
    ensures r.status == 201 <==> tok == Exito
    ensures r.status == 400 <==> tok == Error
    ensures r.message == (if tok == Exito then Crear else ErorCrear)
  {
    Decide(tok, 201, Crear, ErorCrear)
  }

  /** findbyName: only the token 'Error' fails; rows, null and 'Éxito' all give
      `{200, Consultar}`, so the rows found are not handed to the caller. */
  function FindByName(reply: Reply): (r: Response)
    ensures r.status == 400 <==> reply == Tok(Error)
    ensures r.status == 200 <==> reply != Tok(Error)
    ensures r.message == (if reply == Tok(Error) then ErrorConsultar else Consultar)
  {
    if reply == Tok(Error) then Answer(400, ErrorConsultar) else Answer(200, Consultar)
  }

  /** Different rows give the same record. */
  lemma FindByNameDropsRows(a: seq<nat>, b: seq<nat>)
    ensures FindByName(Rows(a)) == FindByName(Rows(b)) == Answer(200, Consultar)
  {
  }

  function Update(tok: Token): (r: Response)
    ensures r.status == 200 <==> tok == Exito
    ensures r.status == 400 <==> tok == Error
    ensures r.message == (if tok == Exito then Message.Actualizar else ErrorActualizar)
  {
    Decide(tok, 200, Message.Actualizar, ErrorActualizar)
  }

  function Remove(tok: Token): (r: Response)
    ensures r.status == 200 <==> tok == Exito
    ensures r.status == 400 <==> tok == Error
    ensures r.message == (if tok == Exito then Eliminar else ErrorEliminar)
  {
    Decide(tok, 200, Eliminar, ErrorEliminar)
  }
}
