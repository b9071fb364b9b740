# User accounts: positions, creation guard and superuser defaults

This project models the user-account core of a Django application in Dafny.
The core is `users/models.py`. It covers four things:

- the `UserPositions` role table: sixteen roles, each with a storage code (the
  member name, such as `BACKEND_DEVELOPER`) and a display label (the value, such
  as `Backend Developer`). Its `choices()` lists the (code, label) pairs in
  declaration order, and those pairs constrain the `position` column;
- `CustomUserManager.create_user`, as far as building the model instance. Four
  checks run in a fixed order and each raises `ValueError` with its own message.
  As written, a call that passes all four then raises `AttributeError` at
  `self.normalize_email`, because `models.Manager` has no such method (see
  "## Findings"). The model states that as `CreateUserAsWritten` and models the
  evident intent as `CreateUser`. Once all four checks pass, `CreateUser`
  builds a `CustomUser` holding the normalised email, the position's code and
  every extra keyword argument;
- `CustomUserManager.create_superuser`. It defaults `is_staff`, `is_active` and
  `is_superuser` to `True` with `setdefault`, then delegates to `create_user`;
- the `CustomUser` model: the defaults its fields declare (`position`,
  `is_staff`, `is_active`, `deleted`) and its string form `"{last_name} {first_name}"`.

Files:

- `wrappers.dfy` (module `Wrappers`): `Option` and `Result`.
- `positions.dfy` (module `UserPositions`): the `Position` datatype, with `Name`,
  `Label`, declaration order, `Choices()` and the code lookup `FromCode`.
- `custom_user.dfy` (module `CustomUserModel`): the `CustomUser` instance, the
  extra-field values (`Value`), `Attribute` and `Str`.
- `custom_user_manager.dfy` (module `CustomUserManager`): the `CreateError`
  messages, the call arguments (`Request`), `CreateUser`, `SetDefault`,
  `SuperuserExtra`, `CreateSuperuser` and the lemmas about them.

Each source method is modelled as a pure function. A raised `ValueError` becomes
`Failure(e)`, and a failed call carries no instance. The model keeps Python's
meaning of `not email`: an email or username is rejected when it is `None` or
the empty string.

Calls into code this file cannot see are parameters or are left out:

- `normalize_email` is the parameter `normalizeEmail`, and no rule is assumed for it;
- the password is carried unchanged to where `set_password` would receive it;
- `save` is not modelled.

Extra keyword arguments are a `map<string, Value>`. Python binds a keyword named
after a parameter (`self`, `email`, `username`, `first_name`, `last_name`,
`position`, `password`) to that parameter, so `**extra_fields` never holds one of those
names. `CreateUser` and `CreateSuperuser` require this (`KeywordsOnly`).
`Attribute` gives the value a field holds on the new instance: the keyword
argument passed for it, or else the field's declared default.

## Model

| member | source | states |
|---|---|---|
| `UserPositions.Choices` | users/models.py:24-26 | `choices()` has exactly 16 pairs. The pair at declaration index k is (name, label) of the k-th declared member. |
| `UserPositions.ChoicesOf` | users/models.py:26 | The comprehension yields one (name, value) pair per member, in iteration order, and nothing else. |
| `UserPositions.MemberAt` | users/models.py:7-22 | The member declared at index k has ordinal k, so the table lists the sixteen members in declaration order. |
| `UserPositions.Members` | users/models.py:6-22 | Iterating the enumeration yields 16 members, and each member sits at its declaration index. |
| `UserPositions.Name` | users/models.py:7-22 | A member's `.name` is a non-empty code made of upper-case letters and underscores. |
| `UserPositions.Label` | users/models.py:7-22 | A member's `.value` is non-empty and exactly as long as its name. |
| `UserPositions.Ordinal` | users/models.py:7-22 | Each member has a declaration index below 16. |
| `UserPositions.OrdinalBijection` | users/models.py:7-22 | Every member sits at exactly one declaration index. |
| `UserPositions.NameInjective` | users/models.py:7-22 | Two members with the same storage code are the same member. |
| `UserPositions.ChoiceNamesDistinct` | users/models.py:24-26 | The 16 codes in `choices()` are pairwise distinct. |
| `UserPositions.CodeLookup` | users/models.py:57 | The lookup finds the first pair whose code matches. It answers `None` only when no pair has that code. |
| `UserPositions.FromCode` | users/models.py:57 | A stored code that the column's choices accept names a member with exactly that code. A rejected code is the name of no member. |
| `UserPositions.FromCodeName` | users/models.py:24-26 | Every member's code is accepted and maps back to that member (round trip). |
| `UserPositions.NameIsLabelExactly` | users/models.py:7-22 | Code and label coincide exactly for CEO, CTO and QA. For the other 13 members, storing the code differs from storing the label. |
| `CustomUserManager.Message` | users/models.py:31-37 | The four fixed `ValueError` messages, one per check. |
| `CustomUserManager.MessagesDistinct` | users/models.py:30-37 | The four `ValueError` messages are distinct, so the message tells which check failed. |
| `CustomUserManager.Truthy` | users/models.py:30-33 | `not email` and `not username` hold exactly for `None` and the empty string. |
| `CustomUserManager.DefaultRequest` | users/models.py:29 | Omitting `position` selects the backend developer, whose code is the column's declared default. Every other argument is passed unchanged. |
| `CustomUserManager.Guard` | users/models.py:30-37 | The guard reports the first violated check in source order, and reports nothing exactly when no check is violated. |
| `CustomUserManager.CreateUserAsWritten` | users/models.py:29-43 | As written, `create_user` never returns a user. It raises the first violated check's `ValueError`, or the `AttributeError` at line 39 exactly when all checks pass. |
| `CustomUserManager.AsWrittenNeverCreates` | users/models.py:28-43 | The calls the intended `CreateUser` accepts are exactly those that end in the `AttributeError` as written. Every other call raises the same `ValueError` in both. |
| `CustomUserManager.AsWrittenRejectsValidCall` | users/models.py:39 | `create_user("a@b.com", "alice", "Al", "Bo", password="pw")` builds a user in the intended model, storing `"BACKEND_DEVELOPER"`. As written it raises the `AttributeError`. |
| `CustomUserManager.CreateSuperuserAsWritten` | users/models.py:45-49 | As written, `create_superuser` never returns a user either. It fails exactly as `create_user` as written does on the same arguments: with the first violated check's `ValueError`, or with the `AttributeError` exactly when the guard passes. |
| `CustomUserManager.CreateUser` | users/models.py:29-43 | Success happens exactly when no check is violated. A failure reports a violated check, and every earlier check passed. On success the instance holds the normalised email, the username, first and last name unchanged, the position's code (which maps back to the given member) and the extra fields unchanged. The password handed on is the one given. |
| `CustomUserManager.EmailCheckedFirst` | users/models.py:30-31 | A `None` or empty email fails with "Email is required", whatever the other arguments are. |
| `CustomUserManager.UsernameCheckedSecond` | users/models.py:30-33 | "Username is required" is raised if and only if the email is present and the username is not. |
| `CustomUserManager.FirstNameCheckedBeforeLastName` | users/models.py:34-37 | With email and username present, a first name of length 0 or 1 fails with the first-name error, whatever the last name is. |
| `CustomUserManager.TwoCharacterNamesPass` | users/models.py:34-37 | First and last names of exactly two characters pass the guard. |
| `CustomUserManager.StoredPositionIsCode` | users/models.py:40 | A created instance stores the member's name. It equals the label only for CEO, CTO and QA. |
| `CustomUserManager.OmittedPositionMatchesFieldDefault` | users/models.py:29-40 | A call that omits `position` stores `"BACKEND_DEVELOPER"`, which is also the column's declared default. |
| `CustomUserManager.CreatedUserFieldDefaults` | users/models.py:59-64 | A created user whose extra fields omit the flags is not staff, is active and is not deleted. |
| `CustomUserModel.DeclaredDefault` | users/models.py:57-64 | The declared defaults: position `"BACKEND_DEVELOPER"` (the backend developer's code), `is_staff` False, `is_active` True, `deleted` False. No other field's default is declared in this model. |
| `CustomUserModel.Attribute` | users/models.py:52-65 | A field passed by keyword, whether explicitly or among the extra fields, holds that argument. Any other field holds its declared default. The extra fields never name an explicitly passed field. |
| `CustomUserModel.Explicit` | users/models.py:40 | The keywords `create_user` passes itself are exactly `email`, `username`, `first_name`, `last_name` and `position`, bound to the email, the names and the position's code. |
| `CustomUserManager.SetDefault` | users/models.py:46-48 | `setdefault` adds the key when it is absent and never overrides a present value. Every other key keeps its value. |
| `CustomUserManager.SuperuserExtra` | users/models.py:46-48 | The three flags are present afterwards. Each one the caller omitted is `True`. Every key the caller supplied keeps its value, and no other key is added. |
| `CustomUserManager.CreateSuperuser` | users/models.py:45-49 | Succeeds exactly when `create_user`'s guard passes. A failure is identical to `create_user`'s. On success the extra fields are the defaulted ones. |
| `CustomUserManager.SuperuserValidationMatches` | users/models.py:45-49 | `create_superuser` and `create_user` reject the same calls with the same error. |
| `CustomUserManager.SuperuserIsDefaultedUser` | users/models.py:45-49 | A superuser's instance is the one `create_user` builds, except that its extra fields are defaulted. |
| `CustomUserManager.DefaultedAttribute` | users/models.py:46-48 | On an instance, defaulting sets each absent flag to `True`, keeps a present one and changes no other attribute. |
| `CustomUserManager.SuperuserFlagsDefaulted` | users/models.py:45-49 | A superuser's `is_staff`, `is_active` and `is_superuser` are `True` unless the caller supplied them. A supplied value, `False` included, is kept. Every other attribute equals `create_user`'s. |
| `CustomUserManager.SuperuserExtraIdempotent` | users/models.py:46-48 | Defaulting the flags twice gives the same result as defaulting them once. |
| `CustomUserModel.Str` | users/models.py:77-78 | The string form is the last name, then one space, then the first name, with nothing else. |
| `CustomUserManager.CreatedUserStr` | users/models.py:77-78 | A created user's string form is at least five characters long and splits at the space back into its last and first names. |

## Findings

| source | as written | input that shows it | evidently intended | confidence | as-written member | corrected member |
|---|---|---|---|---|---|---|
| users/models.py:28-39 | `CustomUserManager` subclasses `models.Manager`, which has no `normalize_email`. Every call that passes the four checks raises `AttributeError` at line 39, so no user is ever created. | `create_user("a@b.com", "alice", "Al", "Bo", password="pw")` | Subclass `BaseUserManager`, so that the email is normalised and the user is built and saved | high (not executed) | `CustomUserManager.CreateUserAsWritten` | `CustomUserManager.CreateUser` |

## Left out

- Persistence: `save(using=self._db)` and the database uniqueness of `username` and `email` belong to the ORM and the database.
- Password hashing: `set_password` comes from Django's `AbstractBaseUser`. The model only carries the password that would be handed to it.
- Email normalisation: `CustomUserManager` derives from `models.Manager`, which does not define `normalize_email`. As written, every call that passes the guard therefore raises `AttributeError` at line 39, and neither creation method ever returns a user (`CreateUserAsWritten`, `CreateSuperuserAsWritten`). `CreateUser` models the evident intent, a manager that does have `normalize_email`. That rule is not part of this model, so it is an opaque parameter.
- Field validators and limits: the `max_length` limits, `EmailField` syntax and the `choices` check run in Django's validation, not in `create_user`. `FromCode` states which codes the choices accept, but the model does not say when Django applies that check.
- Timestamps: `date_joined`, `updated_at` and `last_login` are set by the framework clock.
- Soft delete: no code here relates `deleted` to `deleted_at`, so no invariant between them is stated.
- Base-class defaults: the default of `is_superuser` comes from `PermissionsMixin`, and the defaults of `phone`, `last_login` and `deleted_at` come from Django's field machinery. None of these is part of this model, so `Attribute` gives `None` for them.
- Keyword arguments that Django's model constructor does not know, and extra values of the wrong type, raise or are coerced inside Django. The model passes them through unchanged.
- Non-string names: `len(first_name)` on `None` raises `TypeError` in Python. The model takes first and last names as strings.
- Translation: `gettext_lazy` messages are fixed strings, and `Meta`, `USERNAME_FIELD` and `REQUIRED_FIELDS` are metadata.
- Non-member positions: any object with a `.name` passes `position.name`, a member of another `Enum` for one, and its name would be stored without validation. The model takes only `UserPositions` members.
