/** AuthService: registration and login as decisions over the collaborators'
    answers. Account lookup is findOneByEmail over the account store; bcrypt's
    hash and compare, JWT signing, the transaction coordinator and the external
    account validator are function parameters. */
module AuthService {

  import opened Wrappers
  import opened Transaction
  import opened TarjetaDto
  import opened CuentasService

  /** The registration body: credentials, the user and the card. */
  datatype RegisterDto = RegisterDto(
    identificador: string,
    contrasena: string,
    usuario_Nombre: string,
    usuario_Apellidos: string,
    usuario_Edad: int,
    usuario_Tarjeta_Titular: string,
    usuario_Tarjeta_Direccion: string,
    usuario_Tarjeta_Numero_Tarjeta: string,
    usuario_Tarjeta_Fecha_Vencimiento: string,
    usuario_Tarjeta_Cvv: string)

  /** What the coordinator is asked to create as one group: user, card and an
      account carrying the hashed password. */
  datatype Registration = Registration(
    usuario_Nombre: string,
    usuario_Apellidos: string,
    usuario_Edad: int,
    tarjeta: CreateTarjetaDto,
    identificador: string,
    contrasenaHash: string)

  /** The external validator's answer `{status, codigo}`. */
  datatype ValidatorReply = ValidatorReply(status: int, codigo: string)

  /** What register returns when it does not throw. `ValidatorDeclined` marks a
      validator status other than 201, for which the source fixes no result. */
  datatype RegisterReply =
    | Created(usuario_Nombre: string, identificador: string, message: string)
    | NotCreated(status: int, message: string)
    | ValidatorDeclined(validatorStatus: int)

  const UsuarioCreado: string := "Usuario creado"
  const UsuarioNoCreado: string := "Usuario no creado"
  const SesionActiva: string := "Sesión activa"
  const ValidatorAccepted: int := 201

  /** The group handed to the coordinator: the password only as its hash. */
  function NewRegistration(dto: RegisterDto, hash: string -> string): (g: Registration)
    ensures g.contrasenaHash == hash(dto.contrasena)
    ensures g.identificador == dto.identificador && g.usuario_Nombre == dto.usuario_Nombre
    ensures g.usuario_Apellidos == dto.usuario_Apellidos && g.usuario_Edad == dto.usuario_Edad
    ensures g.tarjeta.tarjeta_Titular == dto.usuario_Tarjeta_Titular
    ensures g.tarjeta.tarjeta_Direccion == dto.usuario_Tarjeta_Direccion
    ensures g.tarjeta.tarjeta_Numero_Tarjeta == dto.usuario_Tarjeta_Numero_Tarjeta
    ensures g.tarjeta.tarjeta_CVV == dto.usuario_Tarjeta_Cvv
    ensures g.tarjeta.tarjeta_Fecha_Vencimiento == dto.usuario_Tarjeta_Fecha_Vencimiento
  {
    Registration(dto.usuario_Nombre, dto.usuario_Apellidos, dto.usuario_Edad,
      CreateTarjetaDto(dto.usuario_Tarjeta_Titular, dto.usuario_Tarjeta_Direccion,
        dto.usuario_Tarjeta_Numero_Tarjeta, dto.usuario_Tarjeta_Cvv, dto.usuario_Tarjeta_Fecha_Vencimiento),
      dto.identificador, hash(dto.contrasena))
  }

  predicate IdentifierTaken(store: seq<CuentaRow>, id: string) {
    FindOneByEmail(store, id).Found?
  }

  /** register: an existing identifier throws BadRequest before anything is
      written; a coordinator 'Error' gives `{400, 'Usuario no creado'}`; a commit
      followed by validator status 201 gives the confirmation echoing the name
      and identifier. */
  function Register(dto: RegisterDto, store: seq<CuentaRow>, hash: string -> string,
                    coord: Registration -> Token, validate: Registration -> ValidatorReply)
    : (r: Result<RegisterReply, HttpError>)
    ensures r.Failure? <==> IdentifierTaken(store, dto.identificador)
    ensures r.Failure? ==> r.error == BadRequest
    ensures r == Success(NotCreated(400, UsuarioNoCreado)) <==>
      !IdentifierTaken(store, dto.identificador) && coord(NewRegistration(dto, hash)) == Error
    ensures r.Success? && r.value.Created? <==>
      !IdentifierTaken(store, dto.identificador) && coord(NewRegistration(dto, hash)) == Exito
      && validate(NewRegistration(dto, hash)).status == ValidatorAccepted
    ensures r.Success? && r.value.Created? ==>
      r.value == Created(dto.usuario_Nombre, dto.identificador, UsuarioCreado)
  {
    if IdentifierTaken(store, dto.identificador) then Failure(BadRequest)
    else
      var g := NewRegistration(dto, hash);
      match coord(g)
      case Error => Success(NotCreated(400, UsuarioNoCreado))
      case Exito =>
        var v := validate(g);
        if v.status == ValidatorAccepted then Success(Created(dto.usuario_Nombre, dto.identificador, UsuarioCreado))
        else Success(ValidatorDeclined(v.status))
  }

  /** An existing identifier decides register alone: no coordinator or validator
      answer changes it. */
  lemma RegisterTakenIgnoresCollaborators(dto: RegisterDto, store: seq<CuentaRow>,
      h1: string -> string, h2: string -> string,
      c1: Registration -> Token, c2: Registration -> Token,
      v1: Registration -> ValidatorReply, v2: Registration -> ValidatorReply)
    requires IdentifierTaken(store, dto.identificador)
    ensures Register(dto, store, h1, c1, v1) == Register(dto, store, h2, c2, v2) == Failure(BadRequest)
  {
  }

  /** After a coordinator 'Error' the validator is never consulted. */
  lemma RegisterErrorSkipsValidator(dto: RegisterDto, store: seq<CuentaRow>, hash: string -> string,
      coord: Registration -> Token, v1: Registration -> ValidatorReply, v2: Registration -> ValidatorReply)
    requires coord(NewRegistration(dto, hash)) == Error
    ensures Register(dto, store, hash, coord, v1) == Register(dto, store, hash, coord, v2)
  {
  }

  /** Registering an identifier that an account in the store already uses is
      refused, whatever the rest of the body. */
  lemma RegisterTwiceRefused(dto: RegisterDto, store: seq<CuentaRow>, row: CuentaRow, hash: string -> string,
      coord: Registration -> Token, validate: Registration -> ValidatorReply)
    requires row in store && row.cuenta_Identificador == dto.identificador
    ensures Register(dto, store, hash, coord, validate) == Failure(BadRequest)
  {
    var j :| 0 <= j < |store| && store[j] == row;
    assert store[j].cuenta_Identificador == dto.identificador;
  }

  /** The registration scenario of the tests: a fresh identifier, a commit and
      validator status 201 give the confirmation for John. */
  lemma RegisterScenario(hash: string -> string, coord: Registration -> Token,
      validate: Registration -> ValidatorReply)
    requires forall g :: coord(g) == Exito
    requires forall g :: validate(g) == ValidatorReply(201, "123456")
    ensures Register(RegisterDto("test@example.com", "password123", "John", "Doe", 30, "John Doe", "123 Street",
                                 "1234567890123456", "12/25", "123"), [], hash, coord, validate)
            == Success(Created("John", "test@example.com", UsuarioCreado))
  {
  }

  /** The login body. */
  datatype LoginDto = LoginDto(identificador: string, contrasena: string)

  /** The claims signed into the session token: identifier and role, no password. */
  datatype Claims = Claims(identificador: string, role: string)

  /** The login answer; it has no password field. */
  datatype Session = Session(access_Token: string, identificador: string, role: string, message: string)

  const Active: string := "ACTIVE"

  /** login: an unknown identifier, a status other than ACTIVE, or a password
      that does not match the stored hash all throw Unauthorized; otherwise the
      signed token, identifier and role come back with 'Sesión activa'. */
  function Login(dto: LoginDto, store: seq<CuentaRow>, compare: (string, string) -> bool,
                 sign: Claims -> string): (r: Result<Session, HttpError>)
    ensures r.Failure? ==> r.error == Unauthorized
    ensures r.Success? <==>
      var found := FindOneByEmail(store, dto.identificador);
      found.Found? && found.view.cuenta.cuenta_Estado_Cuenta == Active
      && compare(dto.contrasena, found.view.cuenta.cuenta_Contrasena)
    ensures r.Success? ==>
      var c := FindOneByEmail(store, dto.identificador).view.cuenta;
      r.value == Session(sign(Claims(c.cuenta_Identificador, c.cuenta_Rol)), dto.identificador, c.cuenta_Rol, SesionActiva)
  {
    match FindOneByEmail(store, dto.identificador)
    case LookupFalse => Failure(Unauthorized)
    case Found(view) =>
      if view.cuenta.cuenta_Estado_Cuenta != Active then Failure(Unauthorized)
      else if !compare(dto.contrasena, view.cuenta.cuenta_Contrasena) then Failure(Unauthorized)
      else Success(Session(sign(Claims(view.cuenta.cuenta_Identificador, view.cuenta.cuenta_Rol)),
                           view.cuenta.cuenta_Identificador, view.cuenta.cuenta_Rol, SesionActiva))
  }

  /** An account that is not ACTIVE (INACTIVO, BLOQUEADO, ...) cannot log in,
      whatever bcrypt says about the password. */
  lemma InactiveRejectedWhateverPassword(dto: LoginDto, store: seq<CuentaRow>,
      compare: (string, string) -> bool, sign: Claims -> string)
    requires FindOneByEmail(store, dto.identificador).Found?
    requires FindOneByEmail(store, dto.identificador).view.cuenta.cuenta_Estado_Cuenta != Active
    ensures Login(dto, store, compare, sign) == Failure(Unauthorized)
  {
  }

  /** The session never depends on the stored hash: two stores that differ only
      in an account's password hash give the same session whenever both logins
      succeed. */
  lemma SessionIndependentOfHash(dto: LoginDto, store: seq<CuentaRow>, i: nat, otherHash: string,
      compare: (string, string) -> bool, sign: Claims -> string)
    requires i < |store|
    requires Login(dto, store, compare, sign).Success?
    requires Login(dto, store[i := store[i].(cuenta_Contrasena := otherHash)], compare, sign).Success?
    ensures Login(dto, store, compare, sign) == Login(dto, store[i := store[i].(cuenta_Contrasena := otherHash)], compare, sign)
  {
    FirstMatchIgnoresHash(store, dto.identificador, i, otherHash);
  }

  /** The two scenarios of the login tests: a matching password on an ACTIVE
      account succeeds, a mismatching one is refused. */
  lemma LoginScenarios(compare: (string, string) -> bool, sign: Claims -> string)
    requires compare("password123", "hashedPassword")
    requires !compare("wrongpassword", "hashedPassword")
    requires sign(Claims("test@example.com", "user")) == "accessToken"
    ensures var store := [CuentaRow(1, "test@example.com", "hashedPassword", "ACTIVE", "user",
                                    UsuarioRow(1, "John", "Doe", 30))];
      && Login(LoginDto("test@example.com", "password123"), store, compare, sign)
         == Success(Session("accessToken", "test@example.com", "user", SesionActiva))
      && Login(LoginDto("test@example.com", "wrongpassword"), store, compare, sign) == Failure(Unauthorized)
      && Login(LoginDto("test@example.com", "password123"), [], compare, sign) == Failure(Unauthorized)
      && Login(LoginDto("test@example.com", "password123"), [store[0].(cuenta_Estado_Cuenta := "INACTIVO")],
               compare, sign) == Failure(Unauthorized)
      && Login(LoginDto("test@example.com", "password123"), [store[0].(cuenta_Estado_Cuenta := "BLOQUEADO")],
               compare, sign) == Failure(Unauthorized)
  {
  }
}
