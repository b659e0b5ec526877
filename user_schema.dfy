/**
 * The user schemas of the API (app/schemas/user.py): the closed role
 * enumeration and the records exchanged with clients or kept in the store,
 * each with a constructor function that fills in the declared defaults and
 * reports the required fields that are missing.
 */
module UserSchemas {
  import opened Wrappers
  import opened Python

  // ---------------------------------------------------------------------
  // RoleEnum

  /** `RoleEnum`: a `str` enumeration with exactly four members. */
  datatype Role = Admin | Client | Staff | Contractor

  const AllRoles: set<Role> := {Admin, Client, Staff, Contractor}

  /**
   * The identifier a member is declared under (`admin = ...`), transcribed
   * from the class body, as distinct from the string value on its right.
   */
  function RoleName(r: Role): string {
    match r
    case Admin => "admin"
    case Client => "client"
    case Staff => "staff"
    case Contractor => "contractor"
  }

  /** The string value of a member; as a `str` enum it compares equal to that string. */
  function RoleValue(r: Role): (s: string)
    ensures s in ["admin", "client", "staff", "contractor"]
  {
    match r
    case Admin => "admin"
    case Client => "client"
    case Staff => "staff"
    case Contractor => "contractor"
  }

  /** `RoleEnum(s)`: the member whose value is `s`, None when there is none. */
  function RoleFromValue(s: string): (r: Option<Role>)
    ensures r.Some? ==> RoleValue(r.value) == s
    ensures r.None? <==> s !in ["admin", "client", "staff", "contractor"]
  {
    if s == "admin" then Some(Admin)
    else if s == "client" then Some(Client)
    else if s == "staff" then Some(Staff)
    else if s == "contractor" then Some(Contractor)
    else None
  }

  /** The enumeration is closed: four distinct members and no other. */
  lemma RolesAreExactlyFour()
    ensures forall r: Role :: r in AllRoles
    ensures |AllRoles| == 4
  {
    forall r: Role ensures r in AllRoles {
      match r
      case Admin =>
      case Client =>
      case Staff =>
      case Contractor =>
    }
    assert AllRoles == {Admin} + {Client} + {Staff} + {Contractor};
  }

  /** Every member's value is its own name, and RoleEnum(s) finds `r` exactly when s is that value. */
  lemma RoleValueIsName(r: Role, s: string)
    ensures RoleValue(r) == RoleName(r)
    ensures RoleFromValue(s) == Some(r) <==> s == RoleValue(r)
  {
  }

  // ---------------------------------------------------------------------
  // Records

  /** The declared defaults of the shared fields. */
  const DefaultIsActive: Option<bool> := Some(true)
  const DefaultRole: Option<Role> := Some(Staff)

  /** `UserBase`: the properties every user schema shares. */
  datatype UserBase = UserBase(email: Option<string>, isActive: Option<bool>, fullName: Option<string>,
                               role: Option<Role>)

  /** `UserCreate`: as UserBase, with `email` required and a required `password`. */
  datatype UserCreate = UserCreate(email: string, isActive: Option<bool>, fullName: Option<string>,
                                   role: Option<Role>, password: string)

  /** `UserUpdate`: as UserBase, with an optional `password`. */
  datatype UserUpdate = UserUpdate(email: Option<string>, isActive: Option<bool>, fullName: Option<string>,
                                   role: Option<Role>, password: Option<string>)

  /** `UserInDBBase`: as UserBase, with an optional `id`. */
  datatype UserInDBBase = UserInDBBase(email: Option<string>, isActive: Option<bool>, fullName: Option<string>,
                                       role: Option<Role>, id: Option<int>)

  /** `User`, the record the API returns, declares nothing beyond UserInDBBase. */
  type User = UserInDBBase

  /** `UserInDB`: as UserInDBBase, with a required `hashed_password`. */
  datatype UserInDB = UserInDB(email: Option<string>, isActive: Option<bool>, fullName: Option<string>,
                               role: Option<Role>, id: Option<int>, hashedPassword: string)

  /** A validation error for one required field. */
  datatype FieldError = Missing(field: string) | NoneNotAllowed(field: string)

  /** A field holds the argument when one was given, and its default otherwise. */
  predicate DefaultApplied<T(==)>(field: T, arg: Arg<T>, default: T) {
    (arg.Omitted? ==> field == default) && (arg.Given? ==> field == arg.value)
  }

  /** A required field gets a value only from an argument that is given and not None. */
  predicate Supplied<T>(arg: Arg<Option<T>>) {
    arg.Given? && arg.value.Some?
  }

  /** The errors for one required field: missing when left out, refused when None. */
  function RequiredErrors<T>(name: string, arg: Arg<Option<T>>): (errs: seq<FieldError>)
    ensures errs == [] <==> Supplied(arg)
    ensures arg.Omitted? ==> errs == [Missing(name)]
    ensures arg == Given(None) ==> errs == [NoneNotAllowed(name)]
  {
    match arg
    case Omitted => [Missing(name)]
    case Given(None) => [NoneNotAllowed(name)]
    case Given(Some(_)) => []
  }

  /** `UserBase(**kwargs)`. */
  function NewUserBase(email: Arg<Option<string>>, isActive: Arg<Option<bool>>, fullName: Arg<Option<string>>,
                       role: Arg<Option<Role>>): (u: UserBase)
    ensures DefaultApplied(u.email, email, None)
    ensures DefaultApplied(u.isActive, isActive, Some(true))
    ensures DefaultApplied(u.fullName, fullName, None)
    ensures DefaultApplied(u.role, role, Some(Staff))
  {
    UserBase(email.OrDefault(None), isActive.OrDefault(DefaultIsActive), fullName.OrDefault(None), role.OrDefault(DefaultRole))
  }

  /** `UserCreate(**kwargs)`: fails with one error per required field not supplied, in field order. */
  function NewUserCreate(email: Arg<Option<string>>, isActive: Arg<Option<bool>>, fullName: Arg<Option<string>>,
                         role: Arg<Option<Role>>, password: Arg<Option<string>>)
    : (r: Result<UserCreate, seq<FieldError>>)
    ensures r.Ok? <==> Supplied(email) && Supplied(password)
    ensures r.Err? ==> r.error == RequiredErrors("email", email) + RequiredErrors("password", password)
    ensures r.Ok? ==>
      && r.value.email == email.value.value && r.value.password == password.value.value
      && DefaultApplied(r.value.isActive, isActive, Some(true))
      && DefaultApplied(r.value.fullName, fullName, None)
      && DefaultApplied(r.value.role, role, Some(Staff))
  {
    var errs := RequiredErrors("email", email) + RequiredErrors("password", password);
    if errs != [] then Err(errs)
    else
      Ok(UserCreate(email.value.value, isActive.OrDefault(DefaultIsActive), fullName.OrDefault(None), role.OrDefault(DefaultRole),
                    password.value.value))
  }

  /** `UserUpdate(**kwargs)`. */
  function NewUserUpdate(email: Arg<Option<string>>, isActive: Arg<Option<bool>>, fullName: Arg<Option<string>>,
                         role: Arg<Option<Role>>, password: Arg<Option<string>>): (u: UserUpdate)
    ensures DefaultApplied(u.email, email, None)
    ensures DefaultApplied(u.isActive, isActive, Some(true))
    ensures DefaultApplied(u.fullName, fullName, None)
    ensures DefaultApplied(u.role, role, Some(Staff))
    ensures DefaultApplied(u.password, password, None)
  {
    UserUpdate(email.OrDefault(None), isActive.OrDefault(DefaultIsActive), fullName.OrDefault(None), role.OrDefault(DefaultRole),
               password.OrDefault(None))
  }

  /** `UserInDBBase(**kwargs)`, and so `User(**kwargs)`. */
  function NewUserInDBBase(email: Arg<Option<string>>, isActive: Arg<Option<bool>>, fullName: Arg<Option<string>>,
                           role: Arg<Option<Role>>, id: Arg<Option<int>>): (u: UserInDBBase)
    ensures DefaultApplied(u.email, email, None)
    ensures DefaultApplied(u.isActive, isActive, Some(true))
    ensures DefaultApplied(u.fullName, fullName, None)
    ensures DefaultApplied(u.role, role, Some(Staff))
    ensures DefaultApplied(u.id, id, None)
  {
    UserInDBBase(email.OrDefault(None), isActive.OrDefault(DefaultIsActive), fullName.OrDefault(None), role.OrDefault(DefaultRole), id.OrDefault(None))
  }

  /** `UserInDB(**kwargs)`: fails unless `hashed_password` is supplied. */
  function NewUserInDB(email: Arg<Option<string>>, isActive: Arg<Option<bool>>, fullName: Arg<Option<string>>,
                       role: Arg<Option<Role>>, id: Arg<Option<int>>, hashedPassword: Arg<Option<string>>)
    : (r: Result<UserInDB, seq<FieldError>>)
    ensures r.Ok? <==> Supplied(hashedPassword)
    ensures r.Err? ==> r.error == RequiredErrors("hashed_password", hashedPassword)
    ensures r.Ok? ==>
      && r.value.hashedPassword == hashedPassword.value.value
      && DefaultApplied(r.value.email, email, None)
      && DefaultApplied(r.value.isActive, isActive, Some(true))
      && DefaultApplied(r.value.fullName, fullName, None)
      && DefaultApplied(r.value.role, role, Some(Staff))
      && DefaultApplied(r.value.id, id, None)
  {
    var errs := RequiredErrors("hashed_password", hashedPassword);
    if errs != [] then Err(errs)
    else
      Ok(UserInDB(email.OrDefault(None), isActive.OrDefault(DefaultIsActive), fullName.OrDefault(None), role.OrDefault(DefaultRole), id.OrDefault(None),
                  hashedPassword.value.value))
  }

  // ---------------------------------------------------------------------
  // Defaults, as the API's callers rely on them

  /** `UserBase()` holds no email and no name, and an active staff member. */
  lemma UserBaseDefaults()
    ensures NewUserBase(Omitted, Omitted, Omitted, Omitted) == UserBase(None, Some(true), None, Some(Staff))
  {
  }

  /** A UserCreate given only email and password is an active staff member. */
  lemma UserCreateFromCredentials(email: string, password: string)
    ensures NewUserCreate(Given(Some(email)), Omitted, Omitted, Omitted, Given(Some(password)))
         == Ok(UserCreate(email, Some(true), None, Some(Staff), password))
  {
  }

  /** Whatever role is given to UserCreate is the role the record carries. */
  lemma UserCreateKeepsRole(email: string, password: string, role: Role)
    ensures NewUserCreate(Given(Some(email)), Omitted, Omitted, Given(Some(role)), Given(Some(password)))
         == Ok(UserCreate(email, Some(true), None, Some(role), password))
  {
  }

  /** UserCreate without an email or without a password is refused, naming what is missing. */
  lemma UserCreateRequiresCredentials(email: Arg<Option<string>>, password: Arg<Option<string>>)
    ensures NewUserCreate(Omitted, Omitted, Omitted, Omitted, password).Err?
    ensures NewUserCreate(email, Omitted, Omitted, Omitted, Omitted).Err?
    ensures NewUserCreate(Omitted, Omitted, Omitted, Omitted, Omitted) == Err([Missing("email"), Missing("password")])
  {
    assert RequiredErrors<string>("email", Omitted) + RequiredErrors<string>("password", Omitted) == [Missing("email"), Missing("password")];
  }

  /** `UserUpdate()` holds no password or email, yet still carries role staff and is_active true. */
  lemma UserUpdateDefaults()
    ensures NewUserUpdate(Omitted, Omitted, Omitted, Omitted, Omitted)
         == UserUpdate(None, Some(true), None, Some(Staff), None)
  {
  }

  /** Rebuilding any record from its own fields gives it back. */
  lemma RecordsRebuildFromFields(b: UserBase, c: UserCreate, u: UserUpdate, i: UserInDBBase, d: UserInDB)
    ensures NewUserBase(Given(b.email), Given(b.isActive), Given(b.fullName), Given(b.role)) == b
    ensures NewUserCreate(Given(Some(c.email)), Given(c.isActive), Given(c.fullName), Given(c.role),
                          Given(Some(c.password))) == Ok(c)
    ensures NewUserUpdate(Given(u.email), Given(u.isActive), Given(u.fullName), Given(u.role), Given(u.password)) == u
    ensures NewUserInDBBase(Given(i.email), Given(i.isActive), Given(i.fullName), Given(i.role), Given(i.id)) == i
    ensures NewUserInDB(Given(d.email), Given(d.isActive), Given(d.fullName), Given(d.role), Given(d.id),
                        Given(Some(d.hashedPassword))) == Ok(d)
  {
  }

  // ---------------------------------------------------------------------
  // Fields and serialisation

  /** The schemas of the module. */
  datatype Model = UserBaseModel | UserCreateModel | UserUpdateModel | UserInDBBaseModel | UserModel | UserInDBModel

  const BaseFields: seq<string> := ["email", "is_active", "full_name", "role"]

  /**
   * The fields of each schema in pydantic's order: the inherited ones first
   * (a redeclared field keeps its place), then the ones the class adds.
   */
  function Fields(m: Model): (fs: seq<string>)
    ensures |fs| >= |BaseFields| && fs[..|BaseFields|] == BaseFields
    ensures forall i, j :: 0 <= i < j < |fs| ==> fs[i] != fs[j]
  {
    match m
    case UserBaseModel => BaseFields
    case UserCreateModel => BaseFields + ["password"]
    case UserUpdateModel => BaseFields + ["password"]
    case UserInDBBaseModel => BaseFields + ["id"]
    case UserModel => BaseFields + ["id"]
    case UserInDBModel => BaseFields + ["id"] + ["hashed_password"]
  }

  /** The API's User carries the id and the base fields and no password of any kind; only UserInDB has the hash. */
  lemma UserHasNoPassword()
    ensures Fields(UserModel) == BaseFields + ["id"]
    ensures "password" !in Fields(UserModel) && "hashed_password" !in Fields(UserModel)
    ensures "password" !in Fields(UserInDBModel)
    ensures Fields(UserInDBModel) == Fields(UserModel) + ["hashed_password"]
    ensures Fields(UserCreateModel) == Fields(UserUpdateModel)
  {
  }

  function OptStr(o: Option<string>): PyValue {
    if o.Some? then PyStr(o.value) else PyNone
  }

  function OptBool(o: Option<bool>): PyValue {
    if o.Some? then PyBool(o.value) else PyNone
  }

  function OptInt(o: Option<int>): PyValue {
    if o.Some? then PyInt(o.value) else PyNone
  }

  function OptRole(o: Option<Role>): PyValue {
    if o.Some? then PyStr(RoleValue(o.value)) else PyNone
  }

  /**
   * `user.dict()` for the API's User. `role` is rendered as its string value,
   * which the `str` enum member that `.dict()` keeps compares equal to.
   */
  function UserDict(u: User): (d: map<string, PyValue>)
    ensures forall f :: f in d <==> f in Fields(UserModel)
  {
    map["email" := OptStr(u.email), "is_active" := OptBool(u.isActive), "full_name" := OptStr(u.fullName),
        "role" := OptRole(u.role), "id" := OptInt(u.id)]
  }

  /** `user.dict()` for UserInDB. */
  function UserInDBDict(u: UserInDB): (d: map<string, PyValue>)
    ensures forall f :: f in d <==> f in Fields(UserInDBModel)
  {
    map["email" := OptStr(u.email), "is_active" := OptBool(u.isActive), "full_name" := OptStr(u.fullName),
        "role" := OptRole(u.role), "id" := OptInt(u.id), "hashed_password" := PyStr(u.hashedPassword)]
  }

  /**
   * Reading a stored user as the API's User (orm_mode, extra fields ignored):
   * the client sees exactly the stored object without its hash.
   */
  function UserFromInDB(d: UserInDB): (u: User)
    ensures UserDict(u) == UserInDBDict(d) - {"hashed_password"}
  {
    var u := UserInDBBase(d.email, d.isActive, d.fullName, d.role, d.id);
    assert UserDict(u).Keys == (UserInDBDict(d) - {"hashed_password"}).Keys;
    u
  }

  /** Two stored users that differ only in their hash look the same through the API. */
  lemma UserViewHidesHash(d1: UserInDB, d2: UserInDB)
    requires d1.(hashedPassword := d2.hashedPassword) == d2
    ensures UserFromInDB(d1) == UserFromInDB(d2)
  {
  }

  /** A user's JSON `role` equals the enum member `r` exactly when the user has role `r`. */
  lemma RoleJsonIdentifiesRole(u: User, r: Role)
    ensures UserDict(u)["role"] == PyStr(RoleValue(r)) <==> u.role == Some(r)
  {
    if UserDict(u)["role"] == PyStr(RoleValue(r)) {
      assert u.role.Some?;
      assert RoleFromValue(RoleValue(u.role.value)) == Some(u.role.value);
    }
  }
}
