# User service settings and user schemas, in Dafny

This project models two self-contained pieces of the user-account service:
the normalising validators of its `Settings` class
(`app/core/config.py`) and the user schemas of its API (`app/schemas/user.py`).

- `wrappers.dfy` — `Option` and `Result`.
- `python.dfy` (module `Python`) — the Python the validators rely on: a
  `PyValue` datatype (None, bool, int, str, list), truthiness, `a and b`,
  `a or b`, `dict.get`, `str.startswith`, `str.split` on one character,
  `str.strip` with Python's whitespace set, the exceptions raised
  (`ValueError`, `TypeError`, `KeyError`), and `Arg`, a keyword argument that may
  be left out. Split is proved to be the inverse of join in both directions.
- `config.dfy` (module `Config`) — each validator as a function of the value
  it receives (the raw input for the four `pre=True` validators; for
  `get_project_name`, the value already validated as `Optional[str]`) and of `values`, the map of fields declared earlier in the
  class: `assemble_cors_origins`, `sentry_dsn_can_be_blank`,
  `assemble_db_connection`, `get_project_name`, `get_emails_enabled`; the
  field order, with proofs that each validator reads only earlier fields; and the constants `AccessTokenExpireMinutes` (60) and
  `EmailResetTokenExpireHours` (48).
- `user_schema.dfy` (module `UserSchemas`) — the closed `Role` enumeration
  (`RoleEnum`), the records `UserBase`, `UserCreate`, `UserUpdate`,
  `UserInDBBase`, `User` and `UserInDB`, their default-filling constructor
  functions with the validation errors for required fields, and the
  dictionary view a client receives.

The API schemas declare `email` optional on every record except `UserCreate`
(app/schemas/user.py:16,24), although the stored column is required
(app/models/user.py:14); the model follows the schemas.

## Model

| member | source | states |
|---|---|---|
| `Python.Get` | app/core/config.py:45-48 | `values.get(k)` is the stored value when `k` is present and None otherwise |
| `Python.Truthy` | app/core/config.py:61-75 | `bool(v)`: the falsy values are exactly None, False, 0, "" and [] |
| `Python.And` | app/core/config.py:71-75 | `a and b` is `a` when `a` is falsy and `b` otherwise, so it is truthy exactly when both operands are |
| `Python.Or` | app/core/config.py:48 | `a or b` is `a` when `a` is truthy and `b` otherwise |
| `Python.StartsWith` | app/core/config.py:17 | `s.startswith(prefix)` holds exactly when `prefix` fits in `s` and agrees with it character by character |
| `Python.IsSpace` | app/core/config.py:18 | the characters `strip()` removes include space, tab, newline and carriage return, and never a comma or "[" |
| `Python.SkipSpace` | app/core/config.py:18 | the first non-whitespace position at or after the start, with only whitespace skipped |
| `Python.SkipSpaceBack` | app/core/config.py:18 | the end of the last non-whitespace character before the bound, with only whitespace skipped |
| `Python.Strip` | app/core/config.py:18 | `strip()` is the slice of the input left after removing the whitespace at both ends, with no whitespace at either end |
| `Python.StripIdempotent` | app/core/config.py:18 | stripping twice is the same as stripping once |
| `Python.StripTrimmed` | app/core/config.py:18 | `strip()` leaves a string with no whitespace at either end unchanged |
| `Python.StripKeepsAbsent` | app/core/config.py:18 | stripping a string without commas leaves a string without commas |
| `Python.Split` | app/core/config.py:18 | `s.split(sep)` always yields at least one piece |
| `Python.JoinSplit` | app/core/config.py:18 | joining the pieces of `s.split(sep)` with `sep` gives `s` back, so the CORS pieces before stripping rejoin with "," into the input |
| `Python.SplitJoin` | app/core/config.py:18 | splitting the join of a non-empty list of separator-free pieces gives exactly those pieces, so split is the one decomposition into separator-free pieces |
| `Python.SplitLength` | app/core/config.py:18 | `s.split(sep)` has one more piece than `s` has separators |
| `Python.SplitPiecesHaveNoSeparator` | app/core/config.py:18 | no piece of `s.split(sep)` contains the separator |
| `Python.SplitNoSeparator` | app/core/config.py:18 | a string without the separator splits into itself alone |
| `Python.SplitAtFirstSeparator` | app/core/config.py:18 | splitting `a + sep + b`, `a` separator-free, gives `a` followed by the pieces of `b` |
| `Python.JoinStartsWithFirst` | app/core/config.py:18 | a joined list begins with its first piece, followed by the separator when there are more |
| `Config.AssembleCorsOrigins` | app/core/config.py:15-21 | a string not starting with "[" becomes a list of (commas + 1) comma-free, stripped origins, the k-th being the k-th piece stripped; a string starting with "[" and any list pass unchanged; any other value raises ValueError of that value, and only those do |
| `Config.CorsEntries` | app/core/config.py:18 | the parsed list has one entry per piece, in input order, each the stripped piece |
| `Config.CorsUnpaddedPieces` | app/core/config.py:17-18 | when no piece has surrounding whitespace, the parsed origins are exactly the split pieces |
| `Config.CorsEmptyString` | app/core/config.py:17-18 | the empty string yields a single empty origin |
| `Config.CorsRoundTrip` | app/core/config.py:15-21 | a list of comma-free, unpadded origins whose first does not start with "[", written as a comma list, is parsed back to the same list |
| `Config.SentryDsnCanBeBlank` | app/core/config.py:27-31 | the empty string (and an empty list) becomes None; every other string or list is returned unchanged; `len` of None, a bool or an int raises TypeError |
| `Config.SentryDsnBlankIff` | app/core/config.py:28-31 | for a string DSN the result is None exactly when it is blank, and the DSN itself exactly when it is not |
| `Config.DatabaseName` | app/core/config.py:48 | the database name used is POSTGRES_DB when present, "" when absent |
| `Config.AssembleDbConnection` | app/core/config.py:39-49 | a string URI is returned unchanged; any other value gives a `postgresql` DSN with user, password and host read by `values.get` and path "/" followed by the database name |
| `Config.DbPathIsRootIff` | app/core/config.py:48 | the built path is exactly "/" when POSTGRES_DB is missing or empty |
| `Config.DbUriIgnoresFieldsWhenGiven` | app/core/config.py:41-42 | a given URI string is the result whatever the POSTGRES_* fields hold |
| `Config.GetProjectName` | app/core/config.py:59-63 | a truthy name is kept; a falsy one (None or "") is replaced by `values["PROJECT_NAME"]`, or raises KeyError when PROJECT_NAME is not in `values` |
| `Config.SenderNameNeverBlank` | app/core/config.py:60-63 | with a non-blank PROJECT_NAME in `values` the sender name settled on is never blank |
| `Config.GetEmailsEnabled` | app/core/config.py:69-75 | the result is the truth of SMTP_HOST, SMTP_PORT and EMAILS_FROM_EMAIL, each looked up with `values.get` |
| `Config.EmailsEnabledIff` | app/core/config.py:70-75 | emails are enabled exactly when all three fields are present in `values` and truthy |
| `Config.EmailsEnabledIgnoresArgument` | app/core/config.py:70-75 | the value given for EMAILS_ENABLED does not change the result |
| `Config.AccessTokenExpireMinutes` | app/core/config.py:10 | an access token lives 60 minutes |
| `Config.EmailResetTokenExpireHours` | app/core/config.py:65 | a password-reset token lives 48 hours |
| `Config.SettingsFields` | app/core/config.py:8-80 | the 27 fields of `Settings` in declaration order |
| `Config.Restrict` | app/core/config.py:40-75 | `values` cut down to a list of fields keeps exactly the listed keys that are present, with their values |
| `Config.DbConnectionReadsEarlierFields` | app/core/config.py:39-49 | `assemble_db_connection` gives the same result when `values` holds only the fields declared before SQLALCHEMY_DATABASE_URI |
| `Config.ProjectNameReadsEarlierFields` | app/core/config.py:59-63 | `get_project_name` gives the same result when `values` holds only the fields declared before EMAILS_FROM_NAME |
| `Config.EmailsEnabledReadsEarlierFields` | app/core/config.py:69-75 | `get_emails_enabled` gives the same result when `values` holds only the fields declared before EMAILS_ENABLED |
| `UserSchemas.RoleValue` | app/schemas/user.py:8-11 | each member's value is one of "admin", "client", "staff", "contractor" |
| `UserSchemas.RoleFromValue` | app/schemas/user.py:7-11 | `RoleEnum(s)` finds a member exactly for the four values, and the member found has value `s` |
| `UserSchemas.RolesAreExactlyFour` | app/schemas/user.py:7-11 | every role is one of admin, client, staff, contractor, and these four are distinct |
| `UserSchemas.RoleValueIsName` | app/schemas/user.py:7-11 | each member's string value equals its name, and `RoleEnum(s)` gives `r` exactly when `s` is r's value |
| `UserSchemas.RequiredErrors` | app/schemas/user.py:23-25 | a required field yields no error only when given a non-None value; left out it is missing, given None it is refused |
| `UserSchemas.NewUserBase` | app/schemas/user.py:15-19 | each field holds its argument when given and its default otherwise: email None, is_active True, full_name None, role staff |
| `UserSchemas.NewUserCreate` | app/schemas/user.py:23-25 | succeeds exactly when email and password are both given and not None, with the base defaults for the other fields; otherwise fails with the email error then the password error |
| `UserSchemas.NewUserUpdate` | app/schemas/user.py:29-30 | the base fields take the base defaults and password defaults to None |
| `UserSchemas.NewUserInDBBase` | app/schemas/user.py:33-42 | the base fields take the base defaults and id defaults to None; `User` is this record |
| `UserSchemas.NewUserInDB` | app/schemas/user.py:46-47 | succeeds exactly when hashed_password is given and not None, with the defaults for the rest |
| `UserSchemas.UserBaseDefaults` | app/schemas/user.py:15-19 | `UserBase()` has email None, is_active True, full_name None, role staff |
| `UserSchemas.UserCreateFromCredentials` | app/schemas/user.py:23-25 | a UserCreate from only email and password has role staff and is_active True |
| `UserSchemas.UserCreateKeepsRole` | app/schemas/user.py:23-25 | any of the four roles given to UserCreate is kept on the record |
| `UserSchemas.UserCreateRequiresCredentials` | app/schemas/user.py:23-25 | UserCreate without email or without password is refused; with neither, both are reported missing in field order |
| `UserSchemas.UserUpdateDefaults` | app/schemas/user.py:15-30 | `UserUpdate()` has password None and email None but role staff and is_active True |
| `UserSchemas.RecordsRebuildFromFields` | app/schemas/user.py:15-47 | each record rebuilt from its own fields as keyword arguments is the same record |
| `UserSchemas.Fields` | app/schemas/user.py:15-47 | every schema lists the four base fields first, in their declared order, and no field twice |
| `UserSchemas.UserHasNoPassword` | app/schemas/user.py:33-47 | User has id plus the base fields and neither password nor hashed_password; UserInDB is User plus hashed_password |
| `UserSchemas.UserDict` | app/schemas/user.py:41-42 | the dictionary of a User has exactly User's fields as keys |
| `UserSchemas.UserInDBDict` | app/schemas/user.py:46-47 | the dictionary of a UserInDB has exactly UserInDB's fields as keys |
| `UserSchemas.UserFromInDB` | app/schemas/user.py:33-47 | a stored user read as the API's User shows exactly the stored fields without the hash |
| `UserSchemas.UserViewHidesHash` | app/schemas/user.py:41-47 | two stored users differing only in their hash look the same through the API |
| `UserSchemas.RoleJsonIdentifiesRole` | app/tests/api/api_v1/test_users.py:26-42 | a user's serialised `role` equals the enum member `r` exactly when the user has role `r` |

## Left out

- The authentication core (password hashing, token issue and verification, login, role checks, CRUD): `app/core/security.py`, `app/crud` and `app/api/deps` are not part of this model.
- Loading settings from the environment and `.env`, and pydantic's rules for running validators on default values: no member claims what value a field takes when it is left unset.
- `PostgresDsn.build` is an abstract constructor (`DsnParts`); its URL encoding is not modelled.
- Python values other than None, bool, int, str and list: float, dict, tuple and bytes values are not modelled, so neither is, for example, `len` of an empty dict or tuple mapping a Sentry DSN to None.
- `EmailStr`, `AnyHttpUrl`, `HttpUrl` and `PostgresDsn` validation, and type coercion of argument values other than refusing None for a required field.
- `Config.AssembleDbConnection`: requires POSTGRES_DB to be a string when present (its declared type `str`, enforced by pydantic), because formatting other values with `str()` is not modelled.
- `SECRET_KEY`'s random default (`secrets.token_urlsafe`) and the literal credentials among the defaults.
- The FastAPI application, CORS middleware and Sentry set-up in `app/main.py`: framework and network plumbing.
- The SQLAlchemy table in `app/models/user.py`: email uniqueness is a store constraint, and the stored role is a free string.
- The test suite's database sessions, HTTP clients and status codes; the tests serve only as evidence for defaults and roles.
