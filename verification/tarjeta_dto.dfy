/** The request bodies for cards: CreateTarjetaDto with its class-validator
    decorators, and UpdateTarjetaDto, the PartialType of it. The expiry decorator
    `Matches(/^(\d{2})-(\d{2})$/)` is modelled by a small anchored pattern matcher. */
module TarjetaDto {

  import opened Wrappers
  import opened Decimal

  /** One position of an anchored pattern: `\d` (an ASCII digit) or a literal. */
  datatype Atom = AnyDigit | Char(c: char)

  type Pattern = seq<Atom>

  predicate AtomMatches(a: Atom, c: char) {
    match a
    case AnyDigit => IsDigit(c)
    case Char(x) => c == x
  }

  /** `^p$`: the whole string matches the pattern, one character per atom. */
  predicate Matches(p: Pattern, s: string)
    decreases |p|
  {
    if |p| == 0 then |s| == 0
    else |s| > 0 && AtomMatches(p[0], s[0]) && Matches(p[1..], s[1..])
  }

  /** `a{n}`. */
  function Repeat(a: Atom, n: nat): (p: Pattern)
    ensures |p| == n
    ensures forall i :: 0 <= i < n ==> p[i] == a
  {
    seq(n, _ => a)
  }

  /** `^(\d{2})-(\d{2})$`; the capture groups do not change what matches. */
  function ExpiryPattern(): Pattern {
    Repeat(AnyDigit, 2) + [Char('-')] + Repeat(AnyDigit, 2)
  }

  /** Anchored matching is position-wise matching of equal-length sequences. */
  lemma {:induction false} MatchesPointwise(p: Pattern, s: string)
    ensures Matches(p, s) <==> |p| == |s| && forall i :: 0 <= i < |p| ==> AtomMatches(p[i], s[i])
    decreases |p|
  {
    if |p| != 0 && |s| > 0 {
      MatchesPointwise(p[1..], s[1..]);
      if |p| == |s| && forall i :: 0 <= i < |p| ==> AtomMatches(p[i], s[i]) {
        assert forall i :: 0 <= i < |p[1..]| ==> AtomMatches(p[1..][i], s[1..][i]) by {
          forall i | 0 <= i < |p[1..]|
            ensures AtomMatches(p[1..][i], s[1..][i])
          {
            assert AtomMatches(p[i + 1], s[i + 1]);
          }
        }
      }
    }
  }

  /** The class-validator decision for the expiry field. */
  predicate ValidExpiry(s: string) {
    Matches(ExpiryPattern(), s)
  }

  /** The pattern accepts exactly five characters: digit, digit, '-', digit, digit. */
  lemma ExpiryShape(s: string)
    ensures ValidExpiry(s) <==>
      |s| == 5 && IsDigit(s[0]) && IsDigit(s[1]) && s[2] == '-' && IsDigit(s[3]) && IsDigit(s[4])
  {
    var p := ExpiryPattern();
    MatchesPointwise(p, s);
    assert p[0] == AnyDigit && p[1] == AnyDigit && p[2] == Char('-') && p[3] == AnyDigit && p[4] == AnyDigit;
  }

  /** The slash form used by the service-test fixtures is rejected. */
  lemma SlashFormRejected()
    ensures !ValidExpiry("12/25")
    ensures !ValidExpiry("01/20")
  {
    ExpiryShape("12/25");
    ExpiryShape("01/20");
  }

  /** Only the shape is checked: month 99 of year 99 passes. */
  lemma ShapeOnly()
    ensures ValidExpiry("99-99")
    ensures ValidExpiry("00-00")
  {
    ExpiryShape("99-99");
    ExpiryShape("00-00");
  }

  /** An executable left-to-right check that agrees with `Matches`. */
  method MatchPattern(p: Pattern, s: string) returns (ok: bool)
    ensures ok <==> Matches(p, s)
  {
    MatchesPointwise(p, s);
    if |p| != |s| {
      return false;
    }
    var i := 0;
    ok := true;
    while i < |p|
      invariant 0 <= i <= |p|
      invariant ok <==> forall j :: 0 <= j < i ==> AtomMatches(p[j], s[j])
    {
      ok := ok && AtomMatches(p[i], s[i]);
      i := i + 1;
    }
  }

  /** `MaxLength(3)`: the CVV has at most three characters; the empty string passes. */
  const MaxCvvLength: nat := 3

  predicate ValidCvv(s: string) {
    |s| <= MaxCvvLength
  }

  /** CreateTarjetaDto. Holder, address and card number carry only `IsString`. */
  datatype CreateTarjetaDto = CreateTarjetaDto(
    tarjeta_Titular: string,
    tarjeta_Direccion: string,
    tarjeta_Numero_Tarjeta: string,
    tarjeta_CVV: string,
    tarjeta_Fecha_Vencimiento: string)

  /** UpdateTarjetaDto = PartialType(CreateTarjetaDto): every field optional. */
  datatype UpdateTarjetaDto = UpdateTarjetaDto(
    tarjeta_Titular: Option<string>,
    tarjeta_Direccion: Option<string>,
    tarjeta_Numero_Tarjeta: Option<string>,
    tarjeta_CVV: Option<string>,
    tarjeta_Fecha_Vencimiento: Option<string>)

  /** The constraint a field fails; `FechaVencimiento` carries the
      Error_Registro.FECHA_VENCIMIENTO message. */
  datatype Violation = CvvMaxLength | FechaVencimiento

  /** The violations of one create body, in field order. */
  function Validate(dto: CreateTarjetaDto): (r: seq<Violation>)
    ensures CvvMaxLength in r <==> |dto.tarjeta_CVV| > MaxCvvLength
    ensures FechaVencimiento in r <==> !ValidExpiry(dto.tarjeta_Fecha_Vencimiento)
    ensures |r| == 0 <==> ValidCvv(dto.tarjeta_CVV) && ValidExpiry(dto.tarjeta_Fecha_Vencimiento)
  {
    (if ValidCvv(dto.tarjeta_CVV) then [] else [CvvMaxLength]) +
    (if ValidExpiry(dto.tarjeta_Fecha_Vencimiento) then [] else [FechaVencimiento])
  }

  predicate ValidCreate(dto: CreateTarjetaDto) {
    |Validate(dto)| == 0
  }

  /** A field of the partial type is checked only when present. */
  predicate PresentSatisfies(f: Option<string>, check: string -> bool) {
    f.None? || check(f.value)
  }

  /** The violations of one update body: absent fields are skipped, present ones
      get the create checks. */
  function ValidateUpdate(dto: UpdateTarjetaDto): (r: seq<Violation>)
    ensures CvvMaxLength in r <==> !PresentSatisfies(dto.tarjeta_CVV, ValidCvv)
    ensures FechaVencimiento in r <==> !PresentSatisfies(dto.tarjeta_Fecha_Vencimiento, ValidExpiry)
    ensures |r| == 0 <==>
      PresentSatisfies(dto.tarjeta_CVV, ValidCvv) && PresentSatisfies(dto.tarjeta_Fecha_Vencimiento, ValidExpiry)
  {
    (if PresentSatisfies(dto.tarjeta_CVV, ValidCvv) then [] else [CvvMaxLength]) +
    (if PresentSatisfies(dto.tarjeta_Fecha_Vencimiento, ValidExpiry) then [] else [FechaVencimiento])
  }

  predicate ValidUpdate(dto: UpdateTarjetaDto) {
    |ValidateUpdate(dto)| == 0
  }

  /** A create body viewed as an update with every field present. */
  function AsUpdate(dto: CreateTarjetaDto): (u: UpdateTarjetaDto)
    ensures u.tarjeta_Titular == Some(dto.tarjeta_Titular)
    ensures u.tarjeta_Direccion == Some(dto.tarjeta_Direccion)
    ensures u.tarjeta_Numero_Tarjeta == Some(dto.tarjeta_Numero_Tarjeta)
    ensures u.tarjeta_CVV == Some(dto.tarjeta_CVV)
    ensures u.tarjeta_Fecha_Vencimiento == Some(dto.tarjeta_Fecha_Vencimiento)
  {
    UpdateTarjetaDto(Some(dto.tarjeta_Titular), Some(dto.tarjeta_Direccion),
      Some(dto.tarjeta_Numero_Tarjeta), Some(dto.tarjeta_CVV), Some(dto.tarjeta_Fecha_Vencimiento))
  }

  /** The empty update is valid. */
  lemma EmptyUpdateValid()
    ensures ValidUpdate(UpdateTarjetaDto(None, None, None, None, None))
  {
  }

  /** The partial type reports exactly the create violations on a full body, so a
      create body is a valid update iff it is a valid create. */
  lemma AsUpdateSameViolations(dto: CreateTarjetaDto)
    ensures ValidateUpdate(AsUpdate(dto)) == Validate(dto)
    ensures ValidUpdate(AsUpdate(dto)) <==> ValidCreate(dto)
  {
  }

  /** Holder, address and card number never produce a violation. */
  lemma FreeFieldsUnchecked(dto: CreateTarjetaDto, titular: string, direccion: string, numero: string)
    ensures Validate(dto.(tarjeta_Titular := titular, tarjeta_Direccion := direccion,
      tarjeta_Numero_Tarjeta := numero)) == Validate(dto)
  {
  }
}
