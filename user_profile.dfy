/** The professional-profile screen: it opens read-only on a copy of the user, "Editar" unlocks
    the name, surname, phone and e-mail fields (never the id), and "Aceptar" sends the edited
    copy and, on status 200, returns to the main menu with it. */
module UserProfile {

  import opened Wrappers
  import opened Http
  import opened Session

  const Updated := "Datos actualizados exitosamente"
  const UpdateFailed := "Hubo un problema al actualizar los datos"

  /** The fields the screen shows an editable input for. */
  const EditableFields: set<string> := {"nombre", "apellidos", "telefono", "correo"}

  /** A navigation to a route with its `user` parameter. */
  datatype Navigation = Navigate(route: string, user: User)

  class ProfileScreen {
    const user: User
    var formData: User
    var isEditing: bool

    constructor (user: User)
      ensures this.user == user && formData == user && !isEditing
      ensures IdKept()
    {
      this.user := user;
      formData := user;
      isEditing := false;
    }

    /** The id shown is always the one the screen was opened with. */
    predicate IdKept()
      reads this
    {
      Prop(formData, "id_cedula") == Prop(user, "id_cedula")
    }

    /** Whether typing into the input for `field` reaches `handleInputChange`. */
    predicate Editable(field: string)
      reads this
    {
      isEditing && field in EditableFields
    }

    /** `handleInputChange`: only `field` changes. */
    method HandleInputChange(field: string, value: string)
      modifies this`formData
      ensures formData == old(formData)[field := value]
      ensures forall k :: k != field ==> Prop(formData, k) == Prop(old(formData), k)
    {
      formData := formData[field := value];
    }

    /** Typing into the input for `field`: it takes effect only where the input is editable, so
        the id never changes. */
    method TypeInto(field: string, value: string)
      requires IdKept()
      modifies this`formData
      ensures formData == Typed(old(formData), isEditing, field, value)
      ensures IdKept()
    {
      if Editable(field) {
        HandleInputChange(field, value);
      }
    }

    /** `handleEdit`. */
    method HandleEdit()
      modifies this`isEditing
      ensures isEditing
    {
      isEditing := true;
    }

    /** `handleAccept`: the form is sent; status 200 alerts, ends editing and navigates to the
        main menu with the edited copy; a thrown error alerts; any other status does nothing. */
    method HandleAccept(reply: Reply<()>) returns (sent: User, alert: Option<string>, navigation: Option<Navigation>)
      modifies this`isEditing
      ensures sent == formData
      ensures reply.Response? && reply.status == 200 ==>
        !isEditing && alert == Some(Updated) && navigation == Some(Navigate("principalScreen", formData))
      ensures !(reply.Response? && reply.status == 200) ==> isEditing == old(isEditing) && navigation == None
      ensures reply.Thrown? ==> alert == Some(UpdateFailed)
      ensures reply.Response? && reply.status != 200 ==> alert == None
    {
      sent := formData;
      if reply.Response? && reply.status == 200 {
        alert := Some(Updated);
        isEditing := false;
        navigation := Some(Navigate("principalScreen", formData));
      } else if reply.Thrown? {
        alert, navigation := Some(UpdateFailed), None;
      } else {
        alert, navigation := None, None;
      }
    }
  }

  /** What typing `value` into the input for `field` leaves in the form. */
  function Typed(form: User, isEditing: bool, field: string, value: string): User {
    if isEditing && field in EditableFields then form[field := value] else form
  }

  /** The form after a run of typing, one (field, value) pair after another. */
  function TypedAll(form: User, isEditing: bool, edits: seq<(string, string)>): User
    decreases |edits|
  {
    if edits == [] then form
    else TypedAll(Typed(form, isEditing, edits[0].0, edits[0].1), isEditing, edits[1..])
  }

  /** However much is typed, the id stays the one the form started with, and nothing at all
      changes while editing is off. */
  lemma {:induction false} TypingKeepsId(form: User, isEditing: bool, edits: seq<(string, string)>)
    ensures Prop(TypedAll(form, isEditing, edits), "id_cedula") == Prop(form, "id_cedula")
    ensures !isEditing ==> TypedAll(form, isEditing, edits) == form
    decreases |edits|
  {
    if edits != [] {
      var next := Typed(form, isEditing, edits[0].0, edits[0].1);
      assert Prop(next, "id_cedula") == Prop(form, "id_cedula");
      TypingKeepsId(next, isEditing, edits[1..]);
    }
  }
}
