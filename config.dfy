/**
 * The validators of the service's `Settings` class (app/core/config.py).
 * Each validator is a function of the value `v` it is handed and, where the
 * source takes one, of `values`: the fields declared earlier in the class that
 * have already been validated. The four `pre=True` validators are handed the
 * raw input; `get_project_name` is handed the value already validated as
 * `Optional[str]`, so there `v` is None or a string.
 */
module Config {
  import opened Wrappers
  import opened Python

  /** Lifetime of an access token, in minutes. */
  const AccessTokenExpireMinutes: nat := 60
  /** Lifetime of a password-reset token, in hours. */
  const EmailResetTokenExpireHours: nat := 48

  /** The fields of `Settings` in declaration order (the order validation runs in). */
  const SettingsFields: seq<string> := [
    "API_V1_STR", "SECRET_KEY", "ACCESS_TOKEN_EXPIRE_MINUTES", "SERVER_NAME", "SERVER_HOST",
    "BACKEND_CORS_ORIGINS", "PROJECT_NAME", "SENTRY_DSN", "POSTGRES_SERVER", "POSTGRES_USER",
    "POSTGRES_PASSWORD", "POSTGRES_DB", "SQLALCHEMY_DATABASE_URI", "SMTP_TLS", "SMTP_PORT",
    "SMTP_HOST", "SMTP_USER", "SMTP_PASSWORD", "EMAILS_FROM_EMAIL", "EMAILS_FROM_NAME",
    "EMAIL_RESET_TOKEN_EXPIRE_HOURS", "EMAIL_TEMPLATES_DIR", "EMAILS_ENABLED", "EMAIL_TEST_USER",
    "FIRST_SUPERUSER", "FIRST_SUPERUSER_PASSWORD", "USERS_OPEN_REGISTRATION"]

  /**
   * `values` cut down to the given fields. The validator of field
   * `SettingsFields[n]` sees at most `Restrict(values, SettingsFields[..n])`.
   */
  function Restrict(values: map<string, PyValue>, fields: seq<string>): (m: map<string, PyValue>)
    ensures forall k :: k in m <==> k in values && k in fields
    ensures forall k :: k in m ==> m[k] == values[k]
  {
    map k | k in values && k in fields :: values[k]
  }

  // ---------------------------------------------------------------------
  // BACKEND_CORS_ORIGINS

  /** The origins of a comma-separated list: every piece, stripped. */
  function CorsEntries(s: string): (r: seq<PyValue>)
    ensures |r| == |Split(s, ',')|
    ensures forall k :: 0 <= k < |r| ==> r[k] == PyStr(Strip(Split(s, ',')[k]))
  {
    var pieces := Split(s, ',');
    seq(|pieces|, k requires 0 <= k < |pieces| => PyStr(Strip(pieces[k])))
  }

  /**
   * `assemble_cors_origins`: a string that does not start with "[" is split on
   * every comma and each piece stripped; any other string, and any list, is
   * passed on unchanged; every other value raises ValueError.
   */
  function AssembleCorsOrigins(v: PyValue): (r: Result<PyValue, PyError>)
    ensures r.Err? <==> !(v.PyStr? || v.PyList?)
    ensures r.Err? ==> r.error == ValueError(v)
    ensures v.PyList? ==> r == Ok(v)
    ensures v.PyStr? && StartsWith(v.s, "[") ==> r == Ok(v)
    ensures v.PyStr? && !StartsWith(v.s, "[") ==>
      && r.Ok? && r.value.PyList?
      && |r.value.items| == |Split(v.s, ',')| == Count(v.s, ',') + 1
      && (forall k :: 0 <= k < |r.value.items| ==>
            && r.value.items[k] == PyStr(Strip(Split(v.s, ',')[k]))
            && ',' !in r.value.items[k].s && Trimmed(r.value.items[k].s))
  {
    if v.PyStr? && !StartsWith(v.s, "[") then
      SplitLength(v.s, ',');
      SplitPiecesHaveNoSeparator(v.s, ',');
      var pieces := Split(v.s, ',');
      assert forall k :: 0 <= k < |pieces| ==> ',' !in Strip(pieces[k]) by {
        forall k | 0 <= k < |pieces| ensures ',' !in Strip(pieces[k]) {
          StripKeepsAbsent(pieces[k], ',');
        }
      }
      Ok(PyList(CorsEntries(v.s)))
    else if v.PyStr? || v.PyList? then
      Ok(v)
    else
      Err(ValueError(v))
  }

  /** Python strings, one per element. */
  function Strs(xs: seq<string>): (r: seq<PyValue>)
    ensures |r| == |xs|
    ensures forall k :: 0 <= k < |xs| ==> r[k] == PyStr(xs[k])
  {
    seq(|xs|, k requires 0 <= k < |xs| => PyStr(xs[k]))
  }

  /** When no piece has whitespace around it, the parsed origins are exactly the pieces. */
  lemma CorsUnpaddedPieces(s: string)
    requires !StartsWith(s, "[")
    requires forall k :: 0 <= k < |Split(s, ',')| ==> Trimmed(Split(s, ',')[k])
    ensures AssembleCorsOrigins(PyStr(s)) == Ok(PyList(Strs(Split(s, ','))))
  {
    var pieces := Split(s, ',');
    forall k | 0 <= k < |pieces| ensures Strip(pieces[k]) == pieces[k] {
      StripTrimmed(pieces[k]);
    }
    assert AssembleCorsOrigins(PyStr(s)).value.items == Strs(pieces);
  }

  /** The empty string is one empty origin. */
  lemma CorsEmptyString()
    ensures AssembleCorsOrigins(PyStr("")) == Ok(PyList([PyStr("")]))
  {
    assert Split("", ',') == [""];
    StripTrimmed("");
    assert AssembleCorsOrigins(PyStr("")).value.items == [PyStr("")];
  }

  /**
   * Round trip: a non-empty list of origins, none holding a comma or
   * surrounding whitespace and the first not starting with "[", written out
   * as a comma list, is parsed back into the same list.
   */
  lemma {:induction false} CorsRoundTrip(origins: seq<string>)
    requires |origins| >= 1
    requires forall k :: 0 <= k < |origins| ==> ',' !in origins[k] && Trimmed(origins[k])
    requires origins[0] == "" || origins[0][0] != '['
    ensures AssembleCorsOrigins(PyStr(Join(origins, ','))) == Ok(PyList(Strs(origins)))
  {
    var s := Join(origins, ',');
    SplitJoin(origins, ',');
    JoinStartsWithFirst(origins, ',');
    assert !StartsWith(s, "[") by {
      if |origins[0]| > 0 {
        assert s[0] == s[..|origins[0]|][0] == origins[0][0];
      } else if |origins| > 1 {
        assert s[0] == ',';
      } else {
        assert s == origins[0] == "";
      }
    }
    CorsUnpaddedPieces(s);
  }

  // ---------------------------------------------------------------------
  // SENTRY_DSN

  /**
   * `sentry_dsn_can_be_blank`: a value of length 0 becomes None, any other
   * string or list is kept; `len` of any other value raises TypeError.
   */
  function SentryDsnCanBeBlank(v: PyValue): (r: Result<PyValue, PyError>)
    ensures v == PyStr("") ==> r == Ok(PyNone)
    ensures v.PyStr? && v.s != "" ==> r == Ok(v)
    ensures v.PyList? ==> r == (if v.items == [] then Ok(PyNone) else Ok(v))
    ensures !(v.PyStr? || v.PyList?) ==> r == Err(TypeError(v))
  {
    match v
    case PyStr(s) => if |s| == 0 then Ok(PyNone) else Ok(v)
    case PyList(items) => if |items| == 0 then Ok(PyNone) else Ok(v)
    case _ => Err(TypeError(v))
  }

  /** For strings: the validator yields None exactly for the blank DSN, and otherwise the DSN itself. */
  lemma SentryDsnBlankIff(dsn: string)
    ensures SentryDsnCanBeBlank(PyStr(dsn)) == Ok(PyNone) <==> dsn == ""
    ensures SentryDsnCanBeBlank(PyStr(dsn)) == Ok(PyStr(dsn)) <==> dsn != ""
  {
  }

  // ---------------------------------------------------------------------
  // SQLALCHEMY_DATABASE_URI

  /** The arguments of `PostgresDsn.build`, which is kept abstract here. */
  datatype DsnParts = DsnParts(scheme: string, user: PyValue, password: PyValue, host: PyValue, path: string)

  /** The validated database URI: a string passed through, or a DSN built from the parts. */
  datatype DatabaseUri = PassedThrough(uri: string) | Built(parts: DsnParts)

  /** POSTGRES_DB, declared `str`, is a string whenever it is in `values`. */
  predicate DatabaseNameTyped(values: map<string, PyValue>) {
    "POSTGRES_DB" in values ==> values["POSTGRES_DB"].PyStr?
  }

  /** The database name the built DSN uses: POSTGRES_DB, or "" when it is missing or empty. */
  function DatabaseName(values: map<string, PyValue>): (name: string)
    requires DatabaseNameTyped(values)
    ensures "POSTGRES_DB" in values ==> name == values["POSTGRES_DB"].s
    ensures "POSTGRES_DB" !in values ==> name == ""
  {
    var db := Or(Get(values, "POSTGRES_DB"), PyStr(""));
    db.s
  }

  /**
   * `assemble_db_connection`: a string is returned unchanged; anything else
   * is replaced by a `postgresql` DSN built from the POSTGRES_* fields, with
   * path "/" followed by the database name.
   */
  function AssembleDbConnection(v: PyValue, values: map<string, PyValue>): (r: DatabaseUri)
    requires DatabaseNameTyped(values)
    ensures v.PyStr? ==> r == PassedThrough(v.s)
    ensures !v.PyStr? ==> (
      && r.Built?
      && r.parts.scheme == "postgresql"
      && r.parts.user == Get(values, "POSTGRES_USER")
      && r.parts.password == Get(values, "POSTGRES_PASSWORD")
      && r.parts.host == Get(values, "POSTGRES_SERVER")
      && |r.parts.path| >= 1 && r.parts.path[0] == '/'
      && r.parts.path[1..] == DatabaseName(values))
  {
    if v.PyStr? then PassedThrough(v.s)
    else
      var path := "/" + DatabaseName(values);
      assert path[1..] == DatabaseName(values);
      Built(DsnParts("postgresql", Get(values, "POSTGRES_USER"), Get(values, "POSTGRES_PASSWORD"),
                     Get(values, "POSTGRES_SERVER"), path))
  }

  /** The built path is just "/" exactly when POSTGRES_DB is missing or empty. */
  lemma DbPathIsRootIff(v: PyValue, values: map<string, PyValue>)
    requires DatabaseNameTyped(values) && !v.PyStr?
    ensures AssembleDbConnection(v, values).parts.path == "/" <==>
      ("POSTGRES_DB" !in values || values["POSTGRES_DB"].s == "")
  {
    var path := AssembleDbConnection(v, values).parts.path;
    if path == "/" {
      assert path[1..] == "";
    }
  }

  /** A given URI string wins whatever the POSTGRES_* fields hold. */
  lemma DbUriIgnoresFieldsWhenGiven(uri: string, values1: map<string, PyValue>, values2: map<string, PyValue>)
    requires DatabaseNameTyped(values1) && DatabaseNameTyped(values2)
    ensures AssembleDbConnection(PyStr(uri), values1) == AssembleDbConnection(PyStr(uri), values2)
  {
  }

  // ---------------------------------------------------------------------
  // EMAILS_FROM_NAME

  /**
   * `get_project_name`: a falsy name (None or "") is replaced by
   * `values["PROJECT_NAME"]`, which raises KeyError when PROJECT_NAME is not
   * in `values`; any other name is kept. It runs after pydantic has validated
   * the field as `Optional[str]` (so an input 0 arrives as "0"); that
   * coercion is not part of this function.
   */
  function GetProjectName(v: PyValue, values: map<string, PyValue>): (r: Result<PyValue, PyError>)
    ensures Truthy(v) ==> r == Ok(v)
    ensures !Truthy(v) && "PROJECT_NAME" in values ==> r == Ok(values["PROJECT_NAME"])
    ensures !Truthy(v) && "PROJECT_NAME" !in values ==> r == Err(KeyError("PROJECT_NAME"))
  {
    if !Truthy(v) then
      if "PROJECT_NAME" in values then Ok(values["PROJECT_NAME"]) else Err(KeyError("PROJECT_NAME"))
    else Ok(v)
  }

  /** The sender name the validator settles on is never blank when the project name is not. */
  lemma SenderNameNeverBlank(v: PyValue, values: map<string, PyValue>)
    requires "PROJECT_NAME" in values && Truthy(values["PROJECT_NAME"])
    ensures GetProjectName(v, values).Ok? && Truthy(GetProjectName(v, values).value)
  {
  }

  // ---------------------------------------------------------------------
  // EMAILS_ENABLED

  /**
   * `get_emails_enabled`: the truth of `SMTP_HOST and SMTP_PORT and
   * EMAILS_FROM_EMAIL` as looked up in `values`; the value given for the
   * field itself is not consulted.
   */
  function GetEmailsEnabled(v: PyValue, values: map<string, PyValue>): (r: bool)
    ensures r <==> Truthy(Get(values, "SMTP_HOST")) && Truthy(Get(values, "SMTP_PORT"))
                   && Truthy(Get(values, "EMAILS_FROM_EMAIL"))
  {
    Truthy(And(And(Get(values, "SMTP_HOST"), Get(values, "SMTP_PORT")), Get(values, "EMAILS_FROM_EMAIL")))
  }

  /** Emails are enabled exactly when all three SMTP fields are present in `values` and truthy. */
  lemma EmailsEnabledIff(v: PyValue, values: map<string, PyValue>)
    ensures GetEmailsEnabled(v, values) <==>
      && "SMTP_HOST" in values && Truthy(values["SMTP_HOST"])
      && "SMTP_PORT" in values && Truthy(values["SMTP_PORT"])
      && "EMAILS_FROM_EMAIL" in values && Truthy(values["EMAILS_FROM_EMAIL"])
  {
  }

  /** The value handed to `get_emails_enabled` does not affect its answer. */
  lemma EmailsEnabledIgnoresArgument(v1: PyValue, v2: PyValue, values: map<string, PyValue>)
    ensures GetEmailsEnabled(v1, values) == GetEmailsEnabled(v2, values)
  {
  }

  // ---------------------------------------------------------------------
  // Field order

  /**
   * `assemble_db_connection` reads only fields declared before
   * SQLALCHEMY_DATABASE_URI: cutting `values` down to those fields changes nothing.
   */
  lemma DbConnectionReadsEarlierFields(v: PyValue, values: map<string, PyValue>)
    requires DatabaseNameTyped(values)
    ensures SettingsFields[12] == "SQLALCHEMY_DATABASE_URI"
    ensures DatabaseNameTyped(Restrict(values, SettingsFields[..12]))
    ensures AssembleDbConnection(v, Restrict(values, SettingsFields[..12])) == AssembleDbConnection(v, values)
  {
    var earlier := SettingsFields[..12];
    assert earlier[8] == "POSTGRES_SERVER" && earlier[9] == "POSTGRES_USER";
    assert earlier[10] == "POSTGRES_PASSWORD" && earlier[11] == "POSTGRES_DB";
  }

  /**
   * `get_project_name` reads only fields declared before EMAILS_FROM_NAME:
   * cutting `values` down to those fields changes nothing.
   */
  lemma ProjectNameReadsEarlierFields(v: PyValue, values: map<string, PyValue>)
    ensures SettingsFields[19] == "EMAILS_FROM_NAME"
    ensures GetProjectName(v, Restrict(values, SettingsFields[..19])) == GetProjectName(v, values)
  {
    var earlier := SettingsFields[..19];
    assert earlier[6] == "PROJECT_NAME";
  }

  /**
   * `get_emails_enabled` reads only fields declared before EMAILS_ENABLED:
   * cutting `values` down to those fields changes nothing.
   */
  lemma EmailsEnabledReadsEarlierFields(v: PyValue, values: map<string, PyValue>)
    ensures SettingsFields[22] == "EMAILS_ENABLED"
    ensures GetEmailsEnabled(v, Restrict(values, SettingsFields[..22])) == GetEmailsEnabled(v, values)
  {
    var earlier := SettingsFields[..22];
    assert earlier[14] == "SMTP_PORT" && earlier[15] == "SMTP_HOST" && earlier[18] == "EMAILS_FROM_EMAIL";
  }
}
