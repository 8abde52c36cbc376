/** The login screen: both credentials must be present, then the backend's answer decides
    between storing the session and entering the app, or one of three error messages. */
module Login {

  import opened Wrappers
  import opened Text
  import opened Decimal
  import opened Http
  import opened Session

  const UserRequired := "Usuario es obligatorio"
  const PasswordRequired := "La contraseña es obligatoria"
  const BadCredentials := "Credenciales incorrectas"
  const ActiveSession := "Ya hay una sesión activa. Cierra sesión antes de volver a entrar."
  const AuthFailed := "Error al autenticar."

  /** `response.data.data` of a successful login, when present. */
  datatype SessionData = SessionData(user: User, token: string)

  /** `response.data`: its `code` and its `data`. */
  datatype LoginBody = LoginBody(code: Code, data: Option<SessionData>)

  /** The body of `POST /auth/login`. */
  datatype Credentials = Credentials(id_cedula: string, contrasena: string)

  /** How `handleLogin` ends: an error message on the screen, or a session to store and enter. */
  datatype Outcome = Rejected(message: string) | LoggedIn(session: SessionData)

  /** The first blank credential, in the order the handler checks them. */
  function MissingField(cedula: string, contrasena: string): Option<string> {
    if IsBlank(cedula) then Some(UserRequired)
    else if IsBlank(contrasena) then Some(PasswordRequired)
    else None
  }

  /** The outcome of `handleLogin`: the user id is checked before the password; a response with
      a code loosely equal to 200 logs in (a missing `data` makes the destructuring throw, which
      ends as an authentication error); any other code means wrong credentials; a thrown error
      is an active session when the server answered 403, an authentication error otherwise. */
  function LoginOutcome(cedula: string, contrasena: string, reply: Reply<LoginBody>): Outcome {
    match MissingField(cedula, contrasena)
    case Some(m) => Rejected(m)
    case None => ReplyOutcome(reply)
  }

  /** The outcome once the request was sent: the `try` block and its `catch`. */
  function ReplyOutcome(reply: Reply<LoginBody>): Outcome {
    match reply
    case Response(_, body) =>
      if LooselyEquals(body.code, 200) then
        if body.data.Some? then LoggedIn(body.data.value) else Rejected(AuthFailed)
      else Rejected(BadCredentials)
    case Thrown(status) =>
      if status == Some(403) then Rejected(ActiveSession) else Rejected(AuthFailed)
  }

  /** Logging in happens exactly when both fields have non-space text and the server answers
      with code 200 and a session; the session entered is the one the server sent. */
  lemma LoggedInIff(cedula: string, contrasena: string, reply: Reply<LoginBody>)
    ensures LoginOutcome(cedula, contrasena, reply).LoggedIn? <==>
      !IsBlank(cedula) && !IsBlank(contrasena) && reply.Response?
      && LooselyEquals(reply.body.code, 200) && reply.body.data.Some?
    ensures LoginOutcome(cedula, contrasena, reply).LoggedIn? ==>
      LoginOutcome(cedula, contrasena, reply).session == reply.body.data.value
  {
  }

  /** A blank user id is reported whatever the password and the server would have said, and a
      blank password whatever the server would have said. */
  lemma ChecksInOrder(cedula: string, p: string, p': string, r: Reply<LoginBody>, r': Reply<LoginBody>)
    ensures IsBlank(cedula) ==>
      LoginOutcome(cedula, p, r) == LoginOutcome(cedula, p', r') == Rejected(UserRequired)
    ensures !IsBlank(cedula) && IsBlank(p) ==>
      LoginOutcome(cedula, p, r) == LoginOutcome(cedula, p, r') == Rejected(PasswordRequired)
  {
  }

  /** With both fields given, a thrown error is reported as an active session exactly when the
      server answered 403. */
  lemma ThrownMapping(cedula: string, contrasena: string, status: Option<int>)
    requires !IsBlank(cedula) && !IsBlank(contrasena)
    ensures LoginOutcome(cedula, contrasena, Thrown(status)) == Rejected(ActiveSession) <==> status == Some(403)
    ensures status != Some(403) ==> LoginOutcome(cedula, contrasena, Thrown(status)) == Rejected(AuthFailed)
  {
  }

  /** With both fields given, a response is rejected as wrong credentials exactly when its code
      is not loosely 200; a code loosely 200 without `data` makes the destructuring throw, which
      ends as an authentication error, and with `data` enters the session sent. */
  lemma ResponseMapping(cedula: string, contrasena: string, status: int, body: LoginBody)
    requires !IsBlank(cedula) && !IsBlank(contrasena)
    ensures !LooselyEquals(body.code, 200) <==>
      LoginOutcome(cedula, contrasena, Response(status, body)) == Rejected(BadCredentials)
    ensures LooselyEquals(body.code, 200) && body.data.None? ==>
      LoginOutcome(cedula, contrasena, Response(status, body)) == Rejected(AuthFailed)
    ensures LooselyEquals(body.code, 200) && body.data.Some? ==>
      LoginOutcome(cedula, contrasena, Response(status, body)) == LoggedIn(body.data.value)
  {
  }

  /** The comparison is loose: a code sent as the text of 200, with or without surrounding
      white space, logs in as the number 200 does. */
  lemma TextCodeLogsIn(cedula: string, contrasena: string, status: int, s: SessionData, pad: string)
    requires !IsBlank(cedula) && !IsBlank(contrasena)
    requires forall i :: 0 <= i < |pad| ==> IsSpace(pad[i])
    ensures LoginOutcome(cedula, contrasena, Response(status, LoginBody(StrCode(pad + "200" + pad), Some(s)))) == LoggedIn(s)
    ensures LoginOutcome(cedula, contrasena, Response(status, LoginBody(NumCode(200), Some(s)))) == LoggedIn(s)
  {
    PaddedTwoHundred(pad);
  }

  lemma PaddedTwoHundred(pad: string)
    requires forall i :: 0 <= i < |pad| ==> IsSpace(pad[i])
    ensures LooselyEquals(StrCode(pad + "200" + pad), 200)
  {
    TwoHundredText();
    PaddedIntegerText(pad, 200);
  }

  lemma TwoHundredText()
    ensures IntToString(200) == "200"
  {
    assert NatToString(2) == "2";
    assert NatToString(20) == NatToString(2) + [DigitChar(0)];
    assert NatToString(200) == NatToString(20) + [DigitChar(0)];
  }

  /** Any integer sent as text, with white space around it, compares loosely equal to itself. */
  lemma PaddedIntegerText(pad: string, n: int)
    requires forall i :: 0 <= i < |pad| ==> IsSpace(pad[i])
    ensures LooselyEquals(StrCode(pad + IntToString(n) + pad), n)
  {
    var t := IntToString(n);
    var d := NatToString(if n < 0 then -n else n);
    assert t[|t| - 1] == d[|d| - 1];
    assert !IsSpace(t[0]) && !IsSpace(t[|t| - 1]);
    StringToIntegerOfIntToString(n);
    TrimOfPadded(pad, t);
    TrimStartOfUnspaced(t);
    TrimEndOfUnspaced(t);
  }

  /** A navigation reset to a single route with its `user` parameter. */
  datatype Navigation = ResetTo(route: string, user: User)

  class LoginScreen {
    var cedula: string
    var contrasena: string
    var error: string
    /** The two AsyncStorage keys the screen writes: "token", and "user" (stored as JSON text). */
    var storedToken: Option<string>
    var storedUser: Option<User>

    constructor ()
      ensures cedula == "" && contrasena == "" && error == ""
      ensures storedToken == None && storedUser == None
    {
      cedula, contrasena, error := "", "", "";
      storedToken, storedUser := None, None;
    }

    method SetCedula(v: string)
      modifies this`cedula
      ensures cedula == v
    {
      cedula := v;
    }

    method SetContrasena(v: string)
      modifies this`contrasena
      ensures contrasena == v
    {
      contrasena := v;
    }

    /** `handleLogin`: a blank field sends nothing; otherwise the credentials are posted as
        typed and the reply is handled. */
    method HandleLogin(reply: Reply<LoginBody>) returns (sent: Option<Credentials>, navigation: Option<Navigation>)
      modifies this`error, this`storedToken, this`storedUser
      ensures sent.Some? <==> MissingField(cedula, contrasena).None?
      ensures sent.Some? ==> sent.value == Credentials(cedula, contrasena)
      ensures LoginOutcome(cedula, contrasena, reply).LoggedIn? ==>
        var s := LoginOutcome(cedula, contrasena, reply).session;
        storedToken == Some(s.token) && storedUser == Some(s.user)
        && navigation == Some(ResetTo("principalScreen", s.user)) && error == old(error)
      ensures LoginOutcome(cedula, contrasena, reply).Rejected? ==>
        error == LoginOutcome(cedula, contrasena, reply).message && navigation == None
        && storedToken == old(storedToken) && storedUser == old(storedUser)
    {
      var missing := MissingField(cedula, contrasena);
      if missing.Some? {
        error := missing.value;
        return None, None;
      }
      sent := Some(Credentials(cedula, contrasena));
      navigation := HandleReply(reply);
    }

    /** The `try` block of `handleLogin` and its `catch`: a login stores the token and the
        user and resets navigation to the principal screen with that user, leaving any earlier
        error on screen; every other outcome sets its message and stores nothing. */
    method HandleReply(reply: Reply<LoginBody>) returns (navigation: Option<Navigation>)
      modifies this`error, this`storedToken, this`storedUser
      ensures ReplyOutcome(reply).LoggedIn? ==>
        var s := ReplyOutcome(reply).session;
        storedToken == Some(s.token) && storedUser == Some(s.user)
        && navigation == Some(ResetTo("principalScreen", s.user)) && error == old(error)
      ensures ReplyOutcome(reply).Rejected? ==>
        error == ReplyOutcome(reply).message && navigation == None
        && storedToken == old(storedToken) && storedUser == old(storedUser)
    {
      navigation := None;
      if reply.Thrown? {
        if reply.errorStatus == Some(403) {
          error := ActiveSession;
        } else {
          error := AuthFailed;
        }
      } else if LooselyEquals(reply.body.code, 200) {
        if reply.body.data.None? {
          error := AuthFailed;
        } else {
          var s := reply.body.data.value;
          storedToken := Some(s.token);
          storedUser := Some(s.user);
          navigation := Some(ResetTo("principalScreen", s.user));
        }
      } else {
        error := BadCredentials;
      }
    }
  }
}
