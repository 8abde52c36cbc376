/** The public "request an account" form: what the applicant types is sanitised field by field,
    the request is refused while a required field is blank, and otherwise an e-mail to support
    is sent whose body lists the applicant and, only when the applicant says so, their company. */
module AccountRequest {

  import opened Wrappers
  import opened Text
  import opened Http
  import opened Ui

  datatype UserField = IdCedula | Nombre | Apellidos | Telefono | Correo

  datatype CompanyField = CompanyNombre | CompanyCedula | CompanyTelefono | CompanyCorreo

  /** `userData`. */
  datatype UserData = UserData(id_cedula: string, nombre: string, apellidos: string, telefono: string, correo: string)
  {
    function Get(f: UserField): string {
      match f
      case IdCedula => id_cedula
      case Nombre => nombre
      case Apellidos => apellidos
      case Telefono => telefono
      case Correo => correo
    }

    /** `{ ...userData, [f]: v }`. */
    function Set(f: UserField, v: string): (u: UserData)
      ensures u.Get(f) == v
      ensures forall g :: g != f ==> u.Get(g) == Get(g)
    {
      match f
      case IdCedula => this.(id_cedula := v)
      case Nombre => this.(nombre := v)
      case Apellidos => this.(apellidos := v)
      case Telefono => this.(telefono := v)
      case Correo => this.(correo := v)
    }
  }

  /** `companyData`. */
  datatype CompanyData = CompanyData(nombre: string, cedula: string, telefono: string, correo: string)
  {
    function Get(f: CompanyField): string {
      match f
      case CompanyNombre => nombre
      case CompanyCedula => cedula
      case CompanyTelefono => telefono
      case CompanyCorreo => correo
    }

    function Set(f: CompanyField, v: string): (c: CompanyData)
      ensures c.Get(f) == v
      ensures forall g :: g != f ==> c.Get(g) == Get(g)
    {
      match f
      case CompanyNombre => this.(nombre := v)
      case CompanyCedula => this.(cedula := v)
      case CompanyTelefono => this.(telefono := v)
      case CompanyCorreo => this.(correo := v)
    }
  }

  const BlankUser := UserData("", "", "", "", "")
  const BlankCompany := CompanyData("", "", "", "")

  // ---------------------------------------------------------------------------
  // Sanitising
  // ---------------------------------------------------------------------------

  /** `handleInputChange`'s filter: names lose their digits, the id and the phone keep only
      their digits, the e-mail is stored as typed. */
  function SanitizeUser(f: UserField, v: string): string {
    match f
    case Nombre => StripDigits(v)
    case Apellidos => StripDigits(v)
    case Telefono => KeepDigits(v)
    case IdCedula => KeepDigits(v)
    case Correo => v
  }

  /** `handleCompanyInputChange`'s filter, with the same rules for the company's fields. */
  function SanitizeCompany(f: CompanyField, v: string): string {
    match f
    case CompanyNombre => StripDigits(v)
    case CompanyTelefono => KeepDigits(v)
    case CompanyCedula => KeepDigits(v)
    case CompanyCorreo => v
  }

  predicate NameField(f: UserField) { f == Nombre || f == Apellidos }
  predicate NumericField(f: UserField) { f == Telefono || f == IdCedula }

  /** A name field holds no digit, an id or phone field holds nothing but digits, the e-mail is
      untouched; the filter only deletes characters, keeping the rest in order, and filtering
      again changes nothing. */
  lemma SanitizeUserSpec(f: UserField, v: string)
    ensures NameField(f) ==> HasNoDigits(SanitizeUser(f, v))
    ensures NumericField(f) ==> AllDigits(SanitizeUser(f, v))
    ensures f == Correo ==> SanitizeUser(f, v) == v
    ensures IsSubsequence(SanitizeUser(f, v), v)
    ensures SanitizeUser(f, SanitizeUser(f, v)) == SanitizeUser(f, v)
  {
    match f
    case Nombre => StripDigitsIsSubsequence(v); StripDigitsIdempotent(v);
    case Apellidos => StripDigitsIsSubsequence(v); StripDigitsIdempotent(v);
    case Telefono => KeepDigitsIsSubsequence(v); KeepDigitsIdempotent(v);
    case IdCedula => KeepDigitsIsSubsequence(v); KeepDigitsIdempotent(v);
    case Correo => SubsequenceReflexive(v);
  }

  /** The same for the company's fields. */
  lemma SanitizeCompanySpec(f: CompanyField, v: string)
    ensures f == CompanyNombre ==> HasNoDigits(SanitizeCompany(f, v))
    ensures f == CompanyTelefono || f == CompanyCedula ==> AllDigits(SanitizeCompany(f, v))
    ensures f == CompanyCorreo ==> SanitizeCompany(f, v) == v
    ensures IsSubsequence(SanitizeCompany(f, v), v)
    ensures SanitizeCompany(f, SanitizeCompany(f, v)) == SanitizeCompany(f, v)
  {
    match f
    case CompanyNombre => StripDigitsIsSubsequence(v); StripDigitsIdempotent(v);
    case CompanyTelefono => KeepDigitsIsSubsequence(v); KeepDigitsIdempotent(v);
    case CompanyCedula => KeepDigitsIsSubsequence(v); KeepDigitsIdempotent(v);
    case CompanyCorreo => SubsequenceReflexive(v);
  }

  lemma {:induction false} SubsequenceReflexive(s: string)
    ensures IsSubsequence(s, s)
  {
    if s != [] {
      SubsequenceReflexive(s[1..]);
    }
  }

  /** Every field of `userData` as its filter leaves it. */
  predicate UserSanitized(u: UserData) {
    HasNoDigits(u.nombre) && HasNoDigits(u.apellidos) && AllDigits(u.telefono) && AllDigits(u.id_cedula)
  }

  predicate CompanySanitized(c: CompanyData) {
    HasNoDigits(c.nombre) && AllDigits(c.telefono) && AllDigits(c.cedula)
  }

  /** Storing a filtered value keeps every field filtered. */
  lemma SetSanitizedUser(u: UserData, f: UserField, v: string)
    requires UserSanitized(u)
    ensures UserSanitized(u.Set(f, SanitizeUser(f, v)))
  {
    SanitizeUserSpec(f, v);
  }

  lemma SetSanitizedCompany(c: CompanyData, f: CompanyField, v: string)
    requires CompanySanitized(c)
    ensures CompanySanitized(c.Set(f, SanitizeCompany(f, v)))
  {
    SanitizeCompanySpec(f, v);
  }

  // ---------------------------------------------------------------------------
  // Validation
  // ---------------------------------------------------------------------------

  const MissingUserData := "Por favor completa todos los campos obligatorios."
  const MissingCompanyData := "Por favor completa los datos de la empresa."
  const SendFailed := "Error al enviar la solicitud."

  predicate UserComplete(u: UserData) {
    !IsBlank(u.id_cedula) && !IsBlank(u.nombre) && !IsBlank(u.apellidos) && !IsBlank(u.telefono) && !IsBlank(u.correo)
  }

  predicate CompanyComplete(c: CompanyData) {
    !IsBlank(c.nombre) && !IsBlank(c.cedula) && !IsBlank(c.telefono) && !IsBlank(c.correo)
  }

  /** The error `handleCreateUserRequest` stops with, if any: the applicant's fields are checked
      first, the company's only after them and only when there is a company. */
  function Validate(u: UserData, hasCompany: bool, c: CompanyData): Option<string> {
    if !UserComplete(u) then Some(MissingUserData)
    else if hasCompany && !CompanyComplete(c) then Some(MissingCompanyData)
    else None
  }

  /** The request passes exactly when no applicant field is blank and, with a company, no company
      field is blank; a blank applicant field is reported whatever the company holds, and
      without a company its fields are never looked at. */
  lemma ValidateSpec(u: UserData, hasCompany: bool, c: CompanyData, c': CompanyData)
    ensures Validate(u, hasCompany, c).None? <==> UserComplete(u) && (hasCompany ==> CompanyComplete(c))
    ensures !UserComplete(u) ==> Validate(u, hasCompany, c) == Some(MissingUserData)
    ensures UserComplete(u) && hasCompany && !CompanyComplete(c) ==> Validate(u, hasCompany, c) == Some(MissingCompanyData)
    ensures !hasCompany ==> Validate(u, hasCompany, c) == Validate(u, hasCompany, c')
  {
  }

  // ---------------------------------------------------------------------------
  // The e-mail
  // ---------------------------------------------------------------------------

  /** The support address every request goes to. */
  const SupportEmail := "SOPORTEMAPH@GMAIL.COM"

  datatype EmailData = EmailData(email: string, reason: string)

  /** The message template, piece by piece: its fixed text (lines indented by six spaces)
      and, between them, the applicant's fields. */
  function UserPieces(u: UserData): seq<string> {
    [ "\U{1F195} Solicitud de Creación de Usuario\n\n      - \U{1F194} Cédula: ", u.id_cedula,
      "\n      - \U{1F464} Nombre: ", u.nombre, " ", u.apellidos,
      "\n      - \U{1F4DE} Teléfono: ", u.telefono,
      "\n      - \U{1F4E7} Correo: ", u.correo,
      "\n\n      " ]
  }

  /** The company part of the template. */
  function CompanyPieces(c: CompanyData): seq<string> {
    [ "\n      \U{1F3E2} Información de la Empresa:\n      - \U{1F3E2} Nombre: ", c.nombre,
      "\n      - \U{1F194} Cédula Empresa: ", c.cedula,
      "\n      - \U{1F4DE} Teléfono: ", c.telefono,
      "\n      - \U{1F4E7} Correo: ", c.correo,
      "\n      " ]
  }

  /** The text the template ends with. */
  const Closing := "\n      "

  function ReasonPieces(u: UserData, hasCompany: bool, c: CompanyData): seq<string> {
    UserPieces(u) + (if hasCompany then CompanyPieces(c) else []) + [Closing]
  }

  /** `emailData.reason`. */
  function Reason(u: UserData, hasCompany: bool, c: CompanyData): string {
    Concat(ReasonPieces(u, hasCompany, c))
  }

  function BuildEmail(u: UserData, hasCompany: bool, c: CompanyData): (e: EmailData)
    ensures e.email == SupportEmail
  {
    EmailData(SupportEmail, Reason(u, hasCompany, c))
  }

  /** The company part follows the applicant's part exactly when there is a company; without
      one, the message ends right after the applicant's part and does not depend on the company
      fields at all. */
  lemma ReasonCompanyBlock(u: UserData, hasCompany: bool, c: CompanyData, c': CompanyData)
    ensures OccursAt(Reason(u, hasCompany, c), Concat(CompanyPieces(c)), |Concat(UserPieces(u))|) <==> hasCompany
    ensures !hasCompany ==> Reason(u, hasCompany, c) == Concat(UserPieces(u)) + Closing
    ensures !hasCompany ==> Reason(u, hasCompany, c) == Reason(u, hasCompany, c')
  {
    var up := UserPieces(u);
    var block := Concat(CompanyPieces(c));
    assert Concat([Closing]) == Closing + Concat([]);
    if hasCompany {
      ConcatAppend(up + CompanyPieces(c), [Closing]);
      ConcatAppend(up, CompanyPieces(c));
      var r := Reason(u, hasCompany, c);
      assert r == Concat(up) + block + Closing;
      ContainsMiddle(Concat(up), block, Closing);
      assert r[|Concat(up)|..|Concat(up)| + |block|] == block;
    } else {
      assert ReasonPieces(u, hasCompany, c) == up + [Closing];
      ConcatAppend(up, [Closing]);
      assert ReasonPieces(u, hasCompany, c') == up + [Closing];
      assert |CompanyPieces(c)[0]| > |Closing|;
      assert Concat(CompanyPieces(c)) == CompanyPieces(c)[0] + Concat(CompanyPieces(c)[1..]);
    }
  }

  /** The message names the applicant's id, names, phone and e-mail, and, with a company, each
      of the company's fields. */
  lemma ReasonMentionsFields(u: UserData, hasCompany: bool, c: CompanyData)
    ensures var r := Reason(u, hasCompany, c);
      && Contains(r, u.id_cedula) && Contains(r, u.nombre) && Contains(r, u.apellidos)
      && Contains(r, u.telefono) && Contains(r, u.correo)
      && (hasCompany ==> Contains(r, c.nombre) && Contains(r, c.cedula) && Contains(r, c.telefono) && Contains(r, c.correo))
  {
    var ps := ReasonPieces(u, hasCompany, c);
    ConcatContainsPiece(ps, 1);
    ConcatContainsPiece(ps, 3);
    ConcatContainsPiece(ps, 5);
    ConcatContainsPiece(ps, 7);
    ConcatContainsPiece(ps, 9);
    if hasCompany {
      ConcatContainsPiece(ps, 12);
      ConcatContainsPiece(ps, 14);
      ConcatContainsPiece(ps, 16);
      ConcatContainsPiece(ps, 18);
    }
  }

  // ---------------------------------------------------------------------------
  // The screen
  // ---------------------------------------------------------------------------

  const Sent := Alert("Éxito", "Tu solicitud ha sido enviada correctamente.")

  class RequestScreen {
    var userData: UserData
    var hasCompany: bool
    var companyData: CompanyData
    var error: string

    /** What the filters guarantee about the stored fields. */
    predicate Sanitized()
      reads this
    {
      UserSanitized(userData) && CompanySanitized(companyData)
    }

    constructor ()
      ensures userData == BlankUser && !hasCompany && companyData == BlankCompany && error == ""
      ensures Sanitized()
    {
      userData := BlankUser;
      hasCompany := false;
      companyData := BlankCompany;
      error := "";
    }

    /** `handleInputChange`: only field `f` changes, to the filtered value. */
    method HandleInputChange(f: UserField, v: string)
      requires Sanitized()
      modifies this`userData
      ensures userData == old(userData).Set(f, SanitizeUser(f, v))
      ensures Sanitized()
    {
      SetSanitizedUser(userData, f, v);
      userData := userData.Set(f, SanitizeUser(f, v));
    }

    /** `handleCompanyInputChange`: only company field `f` changes, to the filtered value. */
    method HandleCompanyInputChange(f: CompanyField, v: string)
      requires Sanitized()
      modifies this`companyData
      ensures companyData == old(companyData).Set(f, SanitizeCompany(f, v))
      ensures Sanitized()
    {
      SetSanitizedCompany(companyData, f, v);
      companyData := companyData.Set(f, SanitizeCompany(f, v));
    }

    /** The "¿Tiene una empresa registrada?" switch. */
    method SetHasCompany(value: bool)
      modifies this`hasCompany
      ensures hasCompany == value
    {
      hasCompany := value;
    }

    /** `handleCreateUserRequest`: a failed check sets its error and sends nothing; otherwise the
        e-mail is posted, a resolved post alerts and goes back to the login screen, a rejected
        one sets the sending error. A success leaves an earlier error in place. */
    method HandleCreateUserRequest(reply: Reply<()>)
      returns (sent: Option<EmailData>, alert: Option<Alert>, navigateTo: Option<string>)
      modifies this`error
      ensures Validate(userData, hasCompany, companyData).Some? ==>
        sent == None && alert == None && navigateTo == None
        && error == Validate(userData, hasCompany, companyData).value
      ensures Validate(userData, hasCompany, companyData).None? ==>
        sent == Some(BuildEmail(userData, hasCompany, companyData))
      ensures Validate(userData, hasCompany, companyData).None? && reply.Response? ==>
        alert == Some(Sent) && navigateTo == Some("loginScreen") && error == old(error)
      ensures Validate(userData, hasCompany, companyData).None? && reply.Thrown? ==>
        alert == None && navigateTo == None && error == SendFailed
    {
      var problem := Validate(userData, hasCompany, companyData);
      ghost var u0, h0, c0 := userData, hasCompany, companyData;
      if problem.Some? {
        error := problem.value;
        return None, None, None;
      }
      sent := Some(BuildEmail(userData, hasCompany, companyData));
      if reply.Response? {
        alert, navigateTo := Some(Sent), Some("loginScreen");
      } else {
        error := SendFailed;
        alert, navigateTo := None, None;
      }
      assert userData == u0 && hasCompany == h0 && companyData == c0;
    }
  }
}
