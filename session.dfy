/** The logged-in user the screens receive as `route.params.user`. */
module Session {

  import opened Wrappers

  /** A JSON user object: field name to value; a name that is not a key reads as `undefined`. */
  type User = map<string, string>

  /** `user[key]`, or `None` for `undefined`. */
  function Prop(user: User, key: string): Option<string> {
    if key in user then Some(user[key]) else None
  }

  /** A JavaScript condition on a maybe-absent string: absent and empty are both false. */
  predicate Truthy(v: Option<string>) {
    v.Some? && v.value != ""
  }
}
