/**
 * The `CustomUser` model instance as `create_user` builds it: the keyword
 * arguments handed to the model's constructor, the attribute each field then
 * holds (an explicit argument, else an extra field, else the field's declared
 * default), and the instance's string form.
 */
module CustomUserModel {
  import opened Wrappers
  import opened UserPositions

  /** A value passed through `**extra_fields`. */
  datatype Value = Flag(b: bool) | Text(s: string) | Null

  /**
   * A model instance built from keyword arguments: the four names, the
   * (already normalised) email, the position's storage code, and every
   * extra keyword argument unchanged.
   */
  datatype CustomUser = CustomUser(
    email: string,
    username: string,
    firstName: string,
    lastName: string,
    position: string,
    extra: map<string, Value>)

  /**
   * The defaults declared on the model's own fields; `None` for a field whose
   * default, if any, is not declared in this model.
   */
  function DeclaredDefault(field: string): (r: Option<Value>)
    ensures field == "position" ==> r == Some(Text(Name(BackendDeveloper)))
    ensures field == "is_staff" || field == "deleted" ==> r == Some(Flag(false))
    ensures field == "is_active" ==> r == Some(Flag(true))
    ensures field !in {"position", "is_staff", "is_active", "deleted"} ==> r.None?
  {
    if field == "position" then Some(Text("BACKEND_DEVELOPER"))
    else if field == "is_staff" then Some(Flag(false))
    else if field == "is_active" then Some(Flag(true))
    else if field == "deleted" then Some(Flag(false))
    else None
  }

  /** The fields `create_user` passes to the model by keyword itself. */
  const KeywordFields: set<string> := {"email", "username", "first_name", "last_name", "position"}

  /** The explicitly passed keyword arguments, by field name. */
  function Explicit(u: CustomUser): (m: map<string, Value>)
    ensures m.Keys == KeywordFields
    ensures m["email"] == Text(u.email) && m["username"] == Text(u.username)
    ensures m["first_name"] == Text(u.firstName) && m["last_name"] == Text(u.lastName)
    ensures m["position"] == Text(u.position)
  {
    map["email" := Text(u.email), "username" := Text(u.username),
        "first_name" := Text(u.firstName), "last_name" := Text(u.lastName),
        "position" := Text(u.position)]
  }

  /**
   * The attribute `field` of the constructed instance: the keyword argument
   * passed for it, explicitly or among the extra fields, else the field's
   * declared default. A Python call cannot pass the same keyword twice, so
   * the extra fields never name an explicitly passed field.
   */
  function Attribute(u: CustomUser, field: string): (r: Option<Value>)
    requires u.extra.Keys !! KeywordFields
    ensures field in KeywordFields ==> r == Some(Explicit(u)[field])
    ensures field in u.extra ==> r == Some(u.extra[field])
    ensures field !in KeywordFields && field !in u.extra ==> r == DeclaredDefault(field)
  {
    if field == "email" then Some(Text(u.email))
    else if field == "username" then Some(Text(u.username))
    else if field == "first_name" then Some(Text(u.firstName))
    else if field == "last_name" then Some(Text(u.lastName))
    else if field == "position" then Some(Text(u.position))
    else if field in u.extra then Some(u.extra[field])
    else DeclaredDefault(field)
  }

  /** `__str__`: the last name, one space, then the first name. */
  function Str(u: CustomUser): (s: string)
    ensures |s| == |u.lastName| + 1 + |u.firstName|
    ensures s[..|u.lastName|] == u.lastName
    ensures s[|u.lastName|] == ' '
    ensures s[|u.lastName| + 1..] == u.firstName
  {
    u.lastName + " " + u.firstName
  }
}
