/** The main menu: a greeting with the user's name, three entries every user gets (each handed
    the user), and two more (reports and files) that a dependent user, one whose role is "D",
    does not see. */
module Principal {

  import opened Wrappers
  import opened Text
  import opened Session

  /** `route.params?.user || {}`: an object is always truthy, so only a missing user is replaced. */
  function ScreenUser(param: Option<User>): User {
    param.GetOr(map[])
  }

  /** `user?.rol?.trim()?.toUpperCase() === "D"`. */
  predicate IsDependiente(user: User) {
    var rol := Prop(user, "rol");
    rol.Some? && ToUpper(Trim(rol.value)) == "D"
  }

  /** A user is dependent exactly when their role, once trimmed, is the letter D in either
      case; a user without a role is not. */
  lemma DependienteIff(user: User)
    ensures IsDependiente(user) <==>
      "rol" in user && (Trim(user["rol"]) == "D" || Trim(user["rol"]) == "d")
    ensures "rol" !in user ==> !IsDependiente(user)
  {
    if "rol" in user {
      UpperEqualsLetter(Trim(user["rol"]));
    }
  }

  /** Surrounding white space does not change the outcome: a role of "d" or "D" with any
      white space around it, " d " say, is a dependent's role. */
  lemma PaddedRole(user: User, pad: string, letter: char)
    requires forall i :: 0 <= i < |pad| ==> IsSpace(pad[i])
    requires letter == 'd' || letter == 'D'
    requires Prop(user, "rol") == Some(pad + [letter] + pad)
    ensures IsDependiente(user)
  {
    TrimOfPadded(pad, [letter]);
    DependienteIff(user);
  }

  /** `Bienvenido: {user.nombre || "Usuario"} {user.apellidos || ""}`. */
  function Greeting(user: User): string {
    var nombre := if Truthy(Prop(user, "nombre")) then user["nombre"] else "Usuario";
    var apellidos := if Truthy(Prop(user, "apellidos")) then user["apellidos"] else "";
    "Bienvenido: " + nombre + " " + apellidos
  }

  /** The screen greets the user it was handed, and falls back to "Usuario" when there is no
      user or no name, and to nothing when there is no surname: without a user parameter the
      greeting is "Bienvenido: Usuario ". A name leads the greeting and a surname ends it. */
  lemma GreetingOfScreenUser(param: Option<User>)
    ensures param.Some? ==> ScreenUser(param) == param.value
    ensures param.None? ==> Greeting(ScreenUser(param)) == "Bienvenido: Usuario "
    ensures var u := ScreenUser(param);
      Truthy(Prop(u, "nombre")) ==> "Bienvenido: " + u["nombre"] + " " <= Greeting(u)
    ensures var u := ScreenUser(param);
      !Truthy(Prop(u, "nombre")) ==> "Bienvenido: Usuario " <= Greeting(u)
    ensures var u := ScreenUser(param); var g := Greeting(u);
      Truthy(Prop(u, "apellidos")) ==> |u["apellidos"]| <= |g| && g[|g| - |u["apellidos"]|..] == u["apellidos"]
    ensures var u := ScreenUser(param);
      Truthy(Prop(u, "nombre")) && Truthy(Prop(u, "apellidos")) ==>
        Greeting(u) == "Bienvenido: " + u["nombre"] + " " + u["apellidos"]
    ensures var u := ScreenUser(param);
      Truthy(Prop(u, "nombre")) && !Truthy(Prop(u, "apellidos")) ==> Greeting(u) == "Bienvenido: " + u["nombre"] + " "
    ensures var u := ScreenUser(param);
      !Truthy(Prop(u, "nombre")) && Truthy(Prop(u, "apellidos")) ==>
        Greeting(u) == "Bienvenido: Usuario " + u["apellidos"]
    ensures var u := ScreenUser(param);
      !Truthy(Prop(u, "nombre")) && !Truthy(Prop(u, "apellidos")) ==> Greeting(u) == "Bienvenido: Usuario "
  {
    var u := ScreenUser(param);
    var g := Greeting(u);
    var nombre := if Truthy(Prop(u, "nombre")) then u["nombre"] else "Usuario";
    var apellidos := if Truthy(Prop(u, "apellidos")) then u["apellidos"] else "";
    assert g == ("Bienvenido: " + nombre + " ") + apellidos;
    assert g[|g| - |apellidos|..] == apellidos;
  }

  /** One menu button: its caption, the route it navigates to, and the `user` parameter it passes, if any. */
  datatype MenuEntry = MenuEntry(caption: string, route: string, user: Option<User>)

  /** The buttons in screen order. */
  function Menu(user: User): seq<MenuEntry> {
    [ MenuEntry("Perfil Profesional", "userProfile", Some(user)),
      MenuEntry("Agenda", "agendaScreen", Some(user)),
      MenuEntry("Pacientes", "patientScreen", Some(user)) ]
    + (if !IsDependiente(user) then
         [ MenuEntry("Reportes", "reportScreen", None), MenuEntry("Archivos", "patientFileScreen", None) ]
       else [])
  }

  /** The first three entries are always profile, agenda and patients, each passed the user;
      reports and files follow, without parameters, exactly when the user is not dependent,
      and nothing else is shown. */
  lemma MenuSpec(user: User)
    ensures var m := Menu(user);
      && |m| >= 3
      && m[0].route == "userProfile" && m[1].route == "agendaScreen" && m[2].route == "patientScreen"
      && (forall i :: 0 <= i < 3 ==> m[i].user == Some(user))
      && (|m| == 5 <==> !IsDependiente(user)) && (|m| == 3 <==> IsDependiente(user))
      && (!IsDependiente(user) ==> m[3].route == "reportScreen" && m[4].route == "patientFileScreen"
                                   && m[3].user == None && m[4].user == None)
  {
  }

  /** Whatever the route, reports and files are offered exactly to users whose role does not
      trim and upper-case to "D". */
  lemma RestrictedEntries(user: User)
    ensures (exists i :: 0 <= i < |Menu(user)| && Menu(user)[i].route == "reportScreen") <==> !IsDependiente(user)
    ensures (exists i :: 0 <= i < |Menu(user)| && Menu(user)[i].route == "patientFileScreen") <==> !IsDependiente(user)
  {
    var m := Menu(user);
    if !IsDependiente(user) {
      assert m[3].route == "reportScreen";
      assert m[4].route == "patientFileScreen";
    } else {
      assert |m| == 3;
    }
  }
}
