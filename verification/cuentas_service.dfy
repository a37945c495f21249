/** CuentasService: look an account up by its identifier, projecting it to the
    fields authentication needs, and the not-found path of the password change. */
module CuentasService {

  import opened Wrappers
  import opened Transaction

  datatype UsuarioRow = UsuarioRow(
    id_Usuario: nat,
    usuario_Nombre: string,
    usuario_Apellidos: string,
    usuario_Edad: int)

  /** A Cuenta row with its eager user. */
  datatype CuentaRow = CuentaRow(
    id_Cuenta: nat,
    cuenta_Identificador: string,
    cuenta_Contrasena: string,
    cuenta_Estado_Cuenta: string,
    cuenta_Rol: string,
    id_Usuario: UsuarioRow)

  datatype CuentaView = CuentaView(
    cuenta_ID: nat,
    cuenta_Identificador: string,
    cuenta_Contrasena: string,
    cuenta_Estado_Cuenta: string,
    cuenta_Rol: string)

  datatype UsuarioView = UsuarioView(usuario_ID: nat, usuario_Nombre: string, usuario_Apellidos: string)

  /** `{cuenta, usuario}`: the projection findOneByEmail returns. */
  datatype AccountView = AccountView(cuenta: CuentaView, usuario: UsuarioView)

  /** findOneByEmail's answer: the projection, or the literal `false`. */
  datatype Lookup = LookupFalse | Found(view: AccountView)

  /** The index of the first row whose identifier is `email` (what
      `findOne({where: {cuenta_Identificador: email}})` picks). */
  function FirstMatch(store: seq<CuentaRow>, email: string): (r: Option<nat>)
    ensures r.Some? ==> r.value < |store| && store[r.value].cuenta_Identificador == email
    ensures r.Some? ==> forall j :: 0 <= j < r.value ==> store[j].cuenta_Identificador != email
    ensures r.None? <==> forall j :: 0 <= j < |store| ==> store[j].cuenta_Identificador != email
    decreases |store|
  {
    if |store| == 0 then None
    else if store[0].cuenta_Identificador == email then Some(0)
    else match FirstMatch(store[1..], email)
      case None => None
      case Some(i) => Some(i + 1)
  }

  /** Replacing a password hash moves no account in the lookup. */
  lemma {:induction false} FirstMatchIgnoresHash(store: seq<CuentaRow>, email: string, i: nat, otherHash: string)
    requires i < |store|
    ensures FirstMatch(store[i := store[i].(cuenta_Contrasena := otherHash)], email) == FirstMatch(store, email)
    decreases |store|
  {
    var store' := store[i := store[i].(cuenta_Contrasena := otherHash)];
    if |store| > 0 && store[0].cuenta_Identificador != email && i > 0 {
      FirstMatchIgnoresHash(store[1..], email, i - 1, otherHash);
      assert store'[1..] == store[1..][i - 1 := store[1..][i - 1].(cuenta_Contrasena := otherHash)];
    } else if |store| > 0 && store[0].cuenta_Identificador != email {
      assert store'[1..] == store[1..];
    }
  }

  /** The projection: the account's five fields and the user's three; the user's
      age is dropped. */
  function Project(row: CuentaRow): (v: AccountView)
    ensures v.cuenta.cuenta_ID == row.id_Cuenta
    ensures v.cuenta.cuenta_Identificador == row.cuenta_Identificador
    ensures v.cuenta.cuenta_Contrasena == row.cuenta_Contrasena
    ensures v.cuenta.cuenta_Estado_Cuenta == row.cuenta_Estado_Cuenta
    ensures v.cuenta.cuenta_Rol == row.cuenta_Rol
    ensures v.usuario == UsuarioView(row.id_Usuario.id_Usuario, row.id_Usuario.usuario_Nombre,
                                     row.id_Usuario.usuario_Apellidos)
  {
    AccountView(
      CuentaView(row.id_Cuenta, row.cuenta_Identificador, row.cuenta_Contrasena,
                 row.cuenta_Estado_Cuenta, row.cuenta_Rol),
      UsuarioView(row.id_Usuario.id_Usuario, row.id_Usuario.usuario_Nombre, row.id_Usuario.usuario_Apellidos))
  }

  /** Two rows project alike exactly when they differ at most in the user's age. */
  lemma ProjectForgetsOnlyEdad(a: CuentaRow, b: CuentaRow)
    ensures Project(a) == Project(b) <==>
      a == b.(id_Usuario := b.id_Usuario.(usuario_Edad := a.id_Usuario.usuario_Edad))
  {
  }

  /** findOneByEmail: the projection of the account whose identifier equals the
      email, or `false` when no account has it. */
  function FindOneByEmail(store: seq<CuentaRow>, email: string): (r: Lookup)
    ensures r.LookupFalse? <==> forall j :: 0 <= j < |store| ==> store[j].cuenta_Identificador != email
    ensures r.Found? ==> r.view.cuenta.cuenta_Identificador == email
    ensures r.Found? ==> exists j :: 0 <= j < |store| && r.view == Project(store[j])
  {
    match FirstMatch(store, email)
    case None => LookupFalse
    case Some(i) => Found(Project(store[i]))
  }

  /** What actualizarContraseña does after its lookup: stop with a record, or go
      on with the account found (the rest of the change is not modelled). */
  datatype PasswordChange = Rejected(response: Response) | Proceeds(account: CuentaRow)

  /** actualizarContraseña: an unknown identifier gives `{400, CUENTA_NOT_FOUND}`. */
  function ActualizarContrasena(store: seq<CuentaRow>, email: string, nueva: string, codigo: int): (r: PasswordChange)
    ensures r.Rejected? <==> forall j :: 0 <= j < |store| ==> store[j].cuenta_Identificador != email
    ensures r.Rejected? ==> r.response == Answer(400, CuentaNotFound)
    ensures r.Proceeds? ==> r.account.cuenta_Identificador == email
    ensures r.Proceeds? ==> r.account in store
    ensures r.Proceeds? ==>
      exists j :: 0 <= j < |store| && r.account == store[j] && (forall k :: 0 <= k < j ==> store[k].cuenta_Identificador != email)
  {
    match FirstMatch(store, email)
    case None => Rejected(Answer(400, CuentaNotFound))
    case Some(i) => Proceeds(store[i])
  }

  /** The password change refuses exactly the identifiers findOneByEmail answers
      `false` for, and goes on with the very account findOneByEmail projects. */
  lemma ActualizarAgreesWithLookup(store: seq<CuentaRow>, email: string, nueva: string, codigo: int)
    ensures ActualizarContrasena(store, email, nueva, codigo).Rejected? <==> FindOneByEmail(store, email).LookupFalse?
    ensures ActualizarContrasena(store, email, nueva, codigo).Proceeds? ==>
      Project(ActualizarContrasena(store, email, nueva, codigo).account) == FindOneByEmail(store, email).view
  {
  }
}
