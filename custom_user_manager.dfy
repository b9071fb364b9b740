/**
 * `CustomUserManager`: the creation guard of `create_user`, the instance it
 * builds once every check passes, and the flag defaulting of
 * `create_superuser` before it delegates to `create_user`.
 */
module CustomUserManager {
  import opened Wrappers
  import opened UserPositions
  import opened CustomUserModel

  /** The four `ValueError`s the guard raises, each with its fixed message. */
  datatype CreateError =
    | EmailRequired
    | UsernameRequired
    | FirstNameTooShort
    | LastNameTooShort

  /** The message each check raises. */
  function Message(e: CreateError): (m: string)
  {
    match e
    case EmailRequired => "Email is required"
    case UsernameRequired => "Username is required"
    case FirstNameTooShort => "First name must be at least 2 characters"
    case LastNameTooShort => "Last name must be at least 2 characters"
  }

  /** Each check raises its own message, so the message tells which check failed. */
  lemma MessagesDistinct(e: CreateError, f: CreateError)
    ensures Message(e) == Message(f) ==> e == f
  {
  }

  /**
   * The arguments of one `create_user` or `create_superuser` call. `email` and
   * `username` are `None` when the caller passed Python's `None`; `position`
   * defaults to the backend developer; `extra` holds `**extra_fields`.
   */
  datatype Request = Request(
    email: Option<string>,
    username: Option<string>,
    firstName: string,
    lastName: string,
    position: Position,
    password: Option<string>,
    extra: map<string, Value>)

  /**
   * The parameters of `create_user` and `create_superuser`, `self` included.
   * Python binds a keyword with one of these names to the parameter, so
   * `**extra_fields` never holds them (a second value for one is a
   * `TypeError` at the call).
   */
  const Parameters: set<string> := KeywordFields + {"password", "self"}

  /** The extra fields of a call Python can make. */
  predicate KeywordsOnly(extra: map<string, Value>)
  {
    extra.Keys !! Parameters
  }

  /**
   * A call that omits `position`: the parameter default is the backend
   * developer, whose code is also the column's declared default.
   */
  function DefaultRequest(email: Option<string>, username: Option<string>, firstName: string,
                          lastName: string, password: Option<string>,
                          extra: map<string, Value>): (req: Request)
    ensures req.position == BackendDeveloper
    ensures DeclaredDefault("position") == Some(Text(Name(req.position)))
    ensures req.email == email && req.username == username && req.password == password
    ensures req.firstName == firstName && req.lastName == lastName && req.extra == extra
  {
    Request(email, username, firstName, lastName, BackendDeveloper, password, extra)
  }

  /** Python truthiness of an optional string: falsy exactly for `None` and "". */
  predicate Truthy(s: Option<string>)
    ensures !Truthy(s) <==> s == None || s == Some("")
  {
    s.Some? && s.value != ""
  }

  /** The condition under which each check of the guard rejects a request. */
  predicate Violates(req: Request, e: CreateError)
  {
    match e
    case EmailRequired => !Truthy(req.email)
    case UsernameRequired => !Truthy(req.username)
    case FirstNameTooShort => |req.firstName| < 2
    case LastNameTooShort => |req.lastName| < 2
  }

  /** The place of each check in the guard, first to last. */
  function Rank(e: CreateError): (k: nat)
  {
    match e
    case EmailRequired => 0
    case UsernameRequired => 1
    case FirstNameTooShort => 2
    case LastNameTooShort => 3
  }

  /**
   * The guard of `create_user`: the first check, in source order, that the
   * request violates, or `None` when it passes all four.
   */
  function Guard(req: Request): (r: Option<CreateError>)
    ensures r.None? <==> forall e :: !Violates(req, e)
    ensures r.Some? ==> Violates(req, r.value)
    ensures r.Some? ==> forall e :: Rank(e) < Rank(r.value) ==> !Violates(req, e)
  {
    if !Truthy(req.email) then
      assert Violates(req, EmailRequired);
      Some(EmailRequired)
    else if !Truthy(req.username) then
      assert Violates(req, UsernameRequired);
      Some(UsernameRequired)
    else if |req.firstName| < 2 then
      assert Violates(req, FirstNameTooShort);
      Some(FirstNameTooShort)
    else if |req.lastName| < 2 then
      assert Violates(req, LastNameTooShort);
      Some(LastNameTooShort)
    else
      None
  }

  /** What a successful `create_user` yields before hashing and saving. */
  datatype NewUser = NewUser(user: CustomUser, password: Option<string>)

  /**
   * `create_user` as evidently intended, up to building the instance: the
   * guard, then the instance with the normalised email, the position's code
   * and the extra fields, and the password that `set_password` then
   * receives. Email normalisation is passed in as `normalizeEmail`.
   */
  function CreateUser(req: Request, normalizeEmail: string -> string): (r: Result<NewUser, CreateError>)
    requires KeywordsOnly(req.extra)
    ensures r.Success? <==> forall e :: !Violates(req, e)
    ensures r.Failure? ==> Violates(req, r.error)
    ensures r.Failure? ==> forall e :: Rank(e) < Rank(r.error) ==> !Violates(req, e)
    ensures r.Success? ==> Truthy(req.email) && r.value.user.email == normalizeEmail(req.email.value)
    ensures r.Success? ==> Truthy(req.username) && r.value.user.username == req.username.value
    ensures r.Success? ==> r.value.user.firstName == req.firstName
    ensures r.Success? ==> r.value.user.lastName == req.lastName
    ensures r.Success? ==> FromCode(r.value.user.position) == Some(req.position)
    ensures r.Success? ==> r.value.user.extra == req.extra
    ensures r.Success? ==> r.value.user.extra.Keys !! KeywordFields
    ensures r.Success? ==> r.value.password == req.password
  {
    match Guard(req)
    case Some(e) => Failure(e)
    case None =>
      assert !Violates(req, EmailRequired) && !Violates(req, UsernameRequired);
      FromCodeName(req.position);
      var user := CustomUser(normalizeEmail(req.email.value), req.username.value,
                             req.firstName, req.lastName, Name(req.position), req.extra);
      Success(NewUser(user, req.password))
  }

  /**
   * What `create_user` raises as written: a guard `ValueError`, or, once the
   * guard passes, an `AttributeError`, because `models.Manager` has no
   * `normalize_email`.
   */
  datatype Raised = Invalid(check: CreateError) | NoNormalizeEmail

  /** `create_user` as written: every call that passes the guard fails at line 39. */
  function CreateUserAsWritten(req: Request): (r: Result<NewUser, Raised>)
    requires KeywordsOnly(req.extra)
    ensures r.Failure?
    ensures r.error == NoNormalizeEmail <==> forall e :: !Violates(req, e)
    ensures r.error.Invalid? ==> Violates(req, r.error.check)
    ensures r.error.Invalid? ==> forall e :: Rank(e) < Rank(r.error.check) ==> !Violates(req, e)
  {
    match Guard(req)
    case Some(e) => Failure(Invalid(e))
    case None => Failure(NoNormalizeEmail)
  }

  /**
   * As written, `create_user` never returns a user: exactly the calls the
   * intended `CreateUser` accepts end in the `AttributeError`, and every
   * other call raises the same `ValueError` as `CreateUser`.
   */
  lemma AsWrittenNeverCreates(req: Request, normalizeEmail: string -> string)
    requires KeywordsOnly(req.extra)
    ensures CreateUserAsWritten(req).Failure?
    ensures CreateUser(req, normalizeEmail).Success? <==> CreateUserAsWritten(req) == Failure(NoNormalizeEmail)
    ensures CreateUser(req, normalizeEmail).Failure? ==>
            CreateUserAsWritten(req) == Failure(Invalid(CreateUser(req, normalizeEmail).error))
  {
    var g := Guard(req);
    if g.Some? {
      assert CreateUser(req, normalizeEmail) == Failure(g.value);
    }
  }

  /**
   * A call with valid arguments, `create_user("a@b.com", "alice", "Al", "Bo",
   * password="pw")`: the intended model builds the user, the code as written
   * raises the `AttributeError`.
   */
  lemma AsWrittenRejectsValidCall(normalizeEmail: string -> string)
    ensures var req := Request(Some("a@b.com"), Some("alice"), "Al", "Bo", BackendDeveloper,
                               Some("pw"), map[]);
            CreateUser(req, normalizeEmail).Success? &&
            CreateUser(req, normalizeEmail).value.user.position == "BACKEND_DEVELOPER" &&
            CreateUserAsWritten(req) == Failure(NoNormalizeEmail)
  {
    var req := Request(Some("a@b.com"), Some("alice"), "Al", "Bo", BackendDeveloper, Some("pw"), map[]);
    assert Truthy(req.email) && Truthy(req.username);
  }

  /** The three flags `create_superuser` defaults to `True`. */
  const SuperuserFlags: set<string> := {"is_staff", "is_active", "is_superuser"}

  /** `dict.setdefault(key, value)`: adds `key` only when it is absent. */
  function SetDefault(m: map<string, Value>, key: string, value: Value): (r: map<string, Value>)
    ensures r.Keys == m.Keys + {key}
    ensures key in m ==> r[key] == m[key]
    ensures key !in m ==> r[key] == value
    ensures forall k :: k in m ==> r[k] == m[k]
  {
    if key in m then m else m[key := value]
  }

  /** The extra fields after the three `setdefault` calls of `create_superuser`. */
  function SuperuserExtra(extra: map<string, Value>): (r: map<string, Value>)
    ensures r.Keys == extra.Keys + SuperuserFlags
    ensures forall k :: k in extra ==> r[k] == extra[k]
    ensures forall k :: k in SuperuserFlags && k !in extra ==> r[k] == Flag(true)
  {
    SetDefault(SetDefault(SetDefault(extra, "is_staff", Flag(true)),
                          "is_active", Flag(true)),
               "is_superuser", Flag(true))
  }

  /** `create_superuser`: default the three flags, then delegate to `create_user`. */
  function CreateSuperuser(req: Request, normalizeEmail: string -> string): (r: Result<NewUser, CreateError>)
    requires KeywordsOnly(req.extra)
    ensures r.Success? <==> forall e :: !Violates(req, e)
    ensures r.Failure? ==> r == CreateUser(req, normalizeEmail)
    ensures r.Success? ==> r.value.user.extra == SuperuserExtra(req.extra)
  {
    var req' := req.(extra := SuperuserExtra(req.extra));
    assert forall e :: Violates(req', e) == Violates(req, e);
    CreateUser(req', normalizeEmail)
  }

  /** `create_superuser` as written: it delegates to `create_user` and so never returns a user either. */
  function CreateSuperuserAsWritten(req: Request): (r: Result<NewUser, Raised>)
    requires KeywordsOnly(req.extra)
    ensures r.Failure?
    ensures r.error == NoNormalizeEmail <==> forall e :: !Violates(req, e)
    ensures r == CreateUserAsWritten(req)
  {
    var req' := req.(extra := SuperuserExtra(req.extra));
    assert forall e :: Violates(req', e) == Violates(req, e);
    assert Guard(req') == Guard(req);
    CreateUserAsWritten(req')
  }

  /** A falsy email fails with the email message whatever the other arguments are. */
  lemma EmailCheckedFirst(req: Request, normalizeEmail: string -> string)
    requires KeywordsOnly(req.extra)
    requires !Truthy(req.email)
    ensures CreateUser(req, normalizeEmail) == Failure(EmailRequired)
    ensures Message(CreateUser(req, normalizeEmail).error) == "Email is required"
  {
  }

  /** The username message is raised exactly when the email is present and the username is not. */
  lemma UsernameCheckedSecond(req: Request, normalizeEmail: string -> string)
    requires KeywordsOnly(req.extra)
    ensures CreateUser(req, normalizeEmail) == Failure(UsernameRequired)
            <==> Truthy(req.email) && !Truthy(req.username)
  {
  }

  /**
   * With email and username present, a first name shorter than two characters
   * fails before the last name is looked at.
   */
  lemma FirstNameCheckedBeforeLastName(req: Request, normalizeEmail: string -> string)
    requires KeywordsOnly(req.extra)
    requires Truthy(req.email) && Truthy(req.username) && |req.firstName| < 2
    ensures CreateUser(req, normalizeEmail) == Failure(FirstNameTooShort)
  {
  }

  /** Names of exactly two characters are long enough. */
  lemma TwoCharacterNamesPass(req: Request, normalizeEmail: string -> string)
    requires KeywordsOnly(req.extra)
    requires Truthy(req.email) && Truthy(req.username)
    requires |req.firstName| == 2 && |req.lastName| == 2
    ensures CreateUser(req, normalizeEmail).Success?
  {
  }

  /**
   * The stored position is the member's code, which is the label only for the
   * three members whose name and value coincide.
   */
  lemma StoredPositionIsCode(req: Request, normalizeEmail: string -> string)
    requires KeywordsOnly(req.extra)
    requires Truthy(req.email) && Truthy(req.username) && |req.firstName| >= 2 && |req.lastName| >= 2
    ensures CreateUser(req, normalizeEmail).value.user.position == Name(req.position)
    ensures CreateUser(req, normalizeEmail).value.user.position == Label(req.position)
            <==> req.position in {CEO, CTO, QA}
  {
    var code := CreateUser(req, normalizeEmail).value.user.position;
    NameInjective(FromCode(code).value, req.position);
    NameIsLabelExactly(req.position);
  }

  /**
   * A call that omits `position` stores the backend developer's code, the same
   * value as the column's declared default.
   */
  lemma OmittedPositionMatchesFieldDefault(email: Option<string>, username: Option<string>,
                                           firstName: string, lastName: string,
                                           password: Option<string>, extra: map<string, Value>,
                                           normalizeEmail: string -> string)
    requires KeywordsOnly(extra)
    requires Truthy(email) && Truthy(username) && |firstName| >= 2 && |lastName| >= 2
    ensures var u := CreateUser(DefaultRequest(email, username, firstName, lastName, password, extra),
                                normalizeEmail).value.user;
            u.position == "BACKEND_DEVELOPER" &&
            Attribute(u, "position") == DeclaredDefault("position")
  {
    StoredPositionIsCode(DefaultRequest(email, username, firstName, lastName, password, extra),
                         normalizeEmail);
  }

  /**
   * A user created without the flags among its extra fields gets the declared
   * defaults: not staff, active, not deleted.
   */
  lemma CreatedUserFieldDefaults(req: Request, normalizeEmail: string -> string)
    requires KeywordsOnly(req.extra)
    requires Truthy(req.email) && Truthy(req.username) && |req.firstName| >= 2 && |req.lastName| >= 2
    requires "is_staff" !in req.extra && "is_active" !in req.extra && "deleted" !in req.extra
    ensures var u := CreateUser(req, normalizeEmail).value.user;
            Attribute(u, "is_staff") == Some(Flag(false)) &&
            Attribute(u, "is_active") == Some(Flag(true)) &&
            Attribute(u, "deleted") == Some(Flag(false))
  {
  }

  /**
   * `create_superuser` rejects exactly the calls `create_user` rejects, with
   * the same error.
   */
  lemma SuperuserValidationMatches(req: Request, normalizeEmail: string -> string)
    requires KeywordsOnly(req.extra)
    ensures CreateSuperuser(req, normalizeEmail).Failure? == CreateUser(req, normalizeEmail).Failure?
    ensures CreateSuperuser(req, normalizeEmail).Failure? ==>
            CreateSuperuser(req, normalizeEmail).error == CreateUser(req, normalizeEmail).error
  {
  }

  /**
   * A successful `create_superuser` builds the same instance `create_user`
   * would have built, except for the defaulted extra fields.
   */
  lemma SuperuserIsDefaultedUser(req: Request, normalizeEmail: string -> string)
    requires KeywordsOnly(req.extra)
    requires Truthy(req.email) && Truthy(req.username) && |req.firstName| >= 2 && |req.lastName| >= 2
    ensures CreateUser(req, normalizeEmail).Success? && CreateSuperuser(req, normalizeEmail).Success?
    ensures CreateSuperuser(req, normalizeEmail).value ==
            CreateUser(req, normalizeEmail).value.(user := CreateUser(req, normalizeEmail).value.user.(extra := SuperuserExtra(req.extra)))
  {
  }

  /**
   * On an instance, defaulting the extra fields sets each of the three flags
   * to `True` unless the instance already had it, and leaves every other
   * attribute as it was.
   */
  lemma DefaultedAttribute(u: CustomUser, field: string)
    requires u.extra.Keys !! KeywordFields
    ensures field in SuperuserFlags ==>
              Attribute(u.(extra := SuperuserExtra(u.extra)), field)
              == Some(if field in u.extra then u.extra[field] else Flag(true))
    ensures field !in SuperuserFlags ==>
              Attribute(u.(extra := SuperuserExtra(u.extra)), field) == Attribute(u, field)
  {
    var s := u.(extra := SuperuserExtra(u.extra));
    assert Explicit(s) == Explicit(u);
    if field in SuperuserFlags {
      assert field !in Explicit(s) && field in s.extra;
    } else if field !in Explicit(u) {
      assert field in s.extra <==> field in u.extra;
    }
  }

  /**
   * A superuser's three flags are `True` unless the caller supplied them, in
   * which case the supplied value (`False` included) is kept; every other
   * attribute is the one `create_user` would have given.
   */
  lemma SuperuserFlagsDefaulted(req: Request, normalizeEmail: string -> string, field: string)
    requires KeywordsOnly(req.extra)
    requires Truthy(req.email) && Truthy(req.username) && |req.firstName| >= 2 && |req.lastName| >= 2
    ensures CreateUser(req, normalizeEmail).Success? && CreateSuperuser(req, normalizeEmail).Success?
    ensures field in SuperuserFlags ==>
              Attribute(CreateSuperuser(req, normalizeEmail).value.user, field)
              == Some(if field in req.extra then req.extra[field] else Flag(true))
    ensures field !in SuperuserFlags ==>
              Attribute(CreateSuperuser(req, normalizeEmail).value.user, field)
              == Attribute(CreateUser(req, normalizeEmail).value.user, field)
  {
    SuperuserIsDefaultedUser(req, normalizeEmail);
    DefaultedAttribute(CreateUser(req, normalizeEmail).value.user, field);
  }

  /** Defaulting the flags a second time changes nothing. */
  lemma SuperuserExtraIdempotent(extra: map<string, Value>)
    ensures SuperuserExtra(SuperuserExtra(extra)) == SuperuserExtra(extra)
  {
  }

  /**
   * The string form of a created user splits back into its names: the space
   * sits right after the last name, and it is at least five characters long.
   */
  lemma CreatedUserStr(req: Request, normalizeEmail: string -> string)
    requires KeywordsOnly(req.extra)
    requires Truthy(req.email) && Truthy(req.username) && |req.firstName| >= 2 && |req.lastName| >= 2
    ensures var s := Str(CreateUser(req, normalizeEmail).value.user);
            |s| >= 5 && s[..|req.lastName|] == req.lastName && s[|req.lastName|] == ' ' &&
            s[|req.lastName| + 1..] == req.firstName
  {
  }
}
