/**
 * The lead store (Backend/models/client_model.py): input sanitising and
 * required-field validation, the e-mail lookup, the transaction that saves a
 * contact-form submission into the `clientinfo` and `clientquery` tables of
 * the database chosen by its website source, the WHERE-clause builder of the
 * client listing, and the legacy wrappers. Tables are sequences of rows;
 * database failures and the clock enter as parameters.
 */
module ClientModel {
  import opened Wrappers
  import opened Strings
  import opened PyValues
  import opened DbConfig

  // ---------------------------------------------------------------------
  // sanitize_input

  /** `max_lengths.get(key, 255)`. */
  function MaxLength(key: string): nat {
    if key == "email" then 100
    else if key == "clientfname" || key == "clientlname" then 45
    else if key == "countrycode" then 5
    else if key == "mobile" then 15
    else if key == "query" then 500
    else if key == "website_source" then 50
    else 255
  }

  /** One value of `sanitize_input`: text is stripped, then cut to the
      field's limit; `None` and every other value pass through. */
  function SanitizeValue(key: string, v: PyValue): (r: PyValue)
    ensures !v.PyStr? ==> r == v
    ensures v.PyStr? ==> r.PyStr? && StartsWith(PyTrim(v.s), r.s)
    ensures v.PyStr? ==> |r.s| == if |PyTrim(v.s)| <= MaxLength(key) then |PyTrim(v.s)| else MaxLength(key)
  {
    match v
    case PyStr(s) =>
      var t := PyTrim(s);
      if |t| > MaxLength(key) then PyStr(t[..MaxLength(key)]) else PyStr(t)
    case _ => v
  }

  /** The dictionary `sanitize_input` returns. */
  function Sanitized(data: Dict): Dict {
    map k | k in data :: SanitizeValue(k, data[k])
  }

  /** `sanitize_input`: the loop over the input's items. */
  method SanitizeInput(data: Dict) returns (sanitized: Dict)
    ensures sanitized == Sanitized(data)
  {
    sanitized := map[];
    var todo := data.Keys;
    while todo != {}
      invariant todo <= data.Keys
      invariant sanitized.Keys == data.Keys - todo
      invariant forall k :: k in sanitized ==> sanitized[k] == SanitizeValue(k, data[k])
      decreases |todo|
    {
      var key :| key in todo;
      sanitized := sanitized[key := SanitizeValue(key, data[key])];
      todo := todo - {key};
    }
  }

  /** Sanitising keeps exactly the input's keys, keeps `None` and
      non-text values, and leaves text that is already stripped and within
      its limit as it is. */
  lemma SanitizedMeaning(data: Dict)
    ensures Sanitized(data).Keys == data.Keys
    ensures forall k :: k in data && !data[k].PyStr? ==> Sanitized(data)[k] == data[k]
    ensures forall k :: (k in data && data[k].PyStr? && PyTrim(data[k].s) == data[k].s
      && |data[k].s| <= MaxLength(k)) ==> Sanitized(data)[k] == data[k]
    ensures TextFields(data) ==> TextFields(Sanitized(data))
  {
  }

  /** Sanitised text never starts with whitespace and never exceeds its
      field's limit. */
  lemma SanitizedTextBounds(key: string, s: string)
    ensures var r := SanitizeValue(key, PyStr(s)).s;
      |r| <= MaxLength(key) && (r != [] ==> !IsPySpace(r[0]))
  {
    StripShape(s, IsPySpace);
  }

  // ---------------------------------------------------------------------
  // validate_required_fields

  /** `value is None or (isinstance(value, str) and not value.strip())`. */
  predicate EmptyValue(v: PyValue) {
    v.PyNone? || (v.PyStr? && PyBlank(v.s))
  }

  function MissingMessage(field: string): string {
    "Missing required field: " + field
  }

  function EmptyMessage(field: string): string {
    "Field '" + field + "' cannot be empty"
  }

  /** The loop over the required fields, in list order. */
  function RequiredError(data: Dict, fields: seq<string>): Option<string> {
    if fields == [] then None
    else if fields[0] !in data then Some(MissingMessage(fields[0]))
    else if EmptyValue(data[fields[0]]) then Some(EmptyMessage(fields[0]))
    else RequiredError(data, fields[1..])
  }

  /** A required field is present with a non-empty value. */
  predicate FieldFilled(data: Dict, field: string) {
    field in data && !EmptyValue(data[field])
  }

  /** No error exactly when every required field is filled; otherwise the
      message names the first field in list order that is not, and says
      whether it is missing or empty. */
  lemma {:induction false} RequiredErrorMeaning(data: Dict, fields: seq<string>)
    ensures RequiredError(data, fields).None? <==> forall i :: 0 <= i < |fields| ==> FieldFilled(data, fields[i])
    ensures RequiredError(data, fields).Some? ==> exists i ::
      && 0 <= i < |fields|
      && (forall j :: 0 <= j < i ==> FieldFilled(data, fields[j]))
      && !FieldFilled(data, fields[i])
      && RequiredError(data, fields).value ==
           if fields[i] !in data then MissingMessage(fields[i]) else EmptyMessage(fields[i])
  {
    if fields != [] && FieldFilled(data, fields[0]) {
      var tail := fields[1..];
      RequiredErrorMeaning(data, tail);
      forall i | 0 < i < |fields| ensures fields[i] == tail[i - 1] {}
      if RequiredError(data, tail).Some? {
        var i :| && 0 <= i < |tail|
                 && (forall j :: 0 <= j < i ==> FieldFilled(data, tail[j]))
                 && !FieldFilled(data, tail[i])
                 && RequiredError(data, tail).value ==
                      if tail[i] !in data then MissingMessage(tail[i]) else EmptyMessage(tail[i]);
        assert forall j :: 0 <= j < i + 1 ==> FieldFilled(data, fields[j]);
        assert fields[i + 1] == tail[i];
      }
    }
  }

  /** The e-mail test: after stripping, the address has an '@' and a '.'
      in its part after the last '@'. */
  predicate EmailFormatOk(email: string) {
    var t := PyTrim(email);
    '@' in t && '.' in LastPiece(t, '@')
  }

  /** The e-mail test stated without splitting: some '@' of the stripped
      address has no later '@' and a '.' after it. */
  lemma EmailFormatMeaning(email: string)
    ensures var t := PyTrim(email);
      EmailFormatOk(email) <==>
        exists i :: 0 <= i < |t| && t[i] == '@' && '@' !in t[i + 1..] && '.' in t[i + 1..]
  {
    var t := PyTrim(email);
    var last := LastPiece(t, '@');
    SplitLast(t, '@');
    var j := |t| - |last| - 1;
    if EmailFormatOk(email) {
      assert t[j] == '@' && t[j + 1..] == last;
    }
    if exists i :: 0 <= i < |t| && t[i] == '@' && '@' !in t[i + 1..] && '.' in t[i + 1..] {
      var i :| 0 <= i < |t| && t[i] == '@' && '@' !in t[i + 1..] && '.' in t[i + 1..];
      assert '@' in t;
    }
  }

  /** `'email' in data and data['email']`. */
  predicate EmailGiven(data: Dict) {
    "email" in data && Truthy(data["email"])
  }

  /** `validate_required_fields`: the first missing or empty field, then
      the e-mail format. Calling `.strip()` on a truthy non-text e-mail
      would raise, so the e-mail, when given, is text. */
  function ValidateRequiredFields(data: Dict, fields: seq<string>): (r: Option<string>)
    requires EmailGiven(data) ==> data["email"].PyStr?
    ensures RequiredError(data, fields).Some? ==> r == RequiredError(data, fields)
    ensures RequiredError(data, fields).None? ==>
      (r.Some? <==> EmailGiven(data) && !EmailFormatOk(data["email"].s))
    ensures r.Some? && RequiredError(data, fields).None? ==> r.value == "Invalid email format"
  {
    match RequiredError(data, fields)
    case Some(e) => Some(e)
    case None =>
      if EmailGiven(data) && !EmailFormatOk(data["email"].s) then Some("Invalid email format")
      else None
  }

  /** The e-mail format is only reported once every required field is
      filled. */
  lemma FormatErrorAfterRequired(data: Dict, fields: seq<string>)
    requires EmailGiven(data) ==> data["email"].PyStr?
    requires ValidateRequiredFields(data, fields) == Some("Invalid email format")
    ensures forall i :: 0 <= i < |fields| ==> FieldFilled(data, fields[i])
  {
    RequiredErrorMeaning(data, fields);
  }

  // ---------------------------------------------------------------------
  // check_email_exists

  /** A `clientinfo` row. */
  datatype ClientRow = ClientRow(
    fname: PyValue, lname: PyValue, email: string,
    countrycode: PyValue, mobile: PyValue, websiteSource: PyValue, created: int)

  /** A `clientquery` row. */
  datatype QueryRow = QueryRow(email: string, query: PyValue, websiteSource: PyValue, created: int)

  /** Both tables exist in every configured database. */
  ghost predicate Tables(clientinfo: map<string, seq<ClientRow>>, clientquery: map<string, seq<QueryRow>>) {
    forall k :: IsDbKey(k) ==> k in clientinfo && k in clientquery
  }

  /** `email.strip().lower()[:255]`. */
  function NormalizeEmail(email: string): (r: string)
    ensures |r| <= 255
  {
    var t := Lower(PyTrim(email));
    if |t| > 255 then t[..255] else t
  }

  /** `SELECT COUNT(*) FROM clientinfo WHERE LOWER(email) = %s`. */
  function CountEmail(rows: seq<ClientRow>, email: string): nat {
    if rows == [] then 0
    else (if Lower(rows[0].email) == email then 1 else 0) + CountEmail(rows[1..], email)
  }

  /** The count is positive exactly when some row holds the address. */
  lemma {:induction false} CountEmailPositive(rows: seq<ClientRow>, email: string)
    ensures CountEmail(rows, email) > 0 <==> exists i :: 0 <= i < |rows| && Lower(rows[i].email) == email
  {
    if rows != [] {
      CountEmailPositive(rows[1..], email);
      if exists i :: 0 <= i < |rows| && Lower(rows[i].email) == email {
        var i :| 0 <= i < |rows| && Lower(rows[i].email) == email;
        if i > 0 {
          assert rows[1..][i - 1] == rows[i];
        }
      }
      if exists i :: 0 <= i < |rows[1..]| && Lower(rows[1..][i].email) == email {
        var i :| 0 <= i < |rows[1..]| && Lower(rows[1..][i].email) == email;
        assert rows[i + 1] == rows[1..][i];
      }
    }
  }

  /** The answer of `check_email_exists`. */
  datatype EmailCheck =
    | Checked(found: bool, database: string, key: string, email: string)
    | CheckError(error: string)

  /** `website_source` as `get_database_by_website_source` receives it. */
  function SourceText(v: PyValue): Option<string> {
    if v.PyStr? then Some(v.s) else None
  }

  /** The error `get_database_by_website_source` raises on reaching
      `source.lower()`: a truthy source that is not text has no such
      method. Falsy values return the default before that call. */
  function LowerMethodError(source: PyValue): (e: Option<string>)
    ensures e.Some? <==> Truthy(source) && !source.PyStr?
  {
    match source
    case PyInt(i) => if i != 0 then Some("'int' object has no attribute 'lower'") else None
    case PyBool(b) => if b then Some("'bool' object has no attribute 'lower'") else None
    case _ => None
  }

  /** `check_email_exists`: the address is stripped first, then the source
      is mapped to a database, then the count query runs; `failure` is the
      database error, if that query raises. A `None` address fails on
      `.strip()`, a truthy non-text source on `.lower()`. */
  function CheckEmail(env: map<string, string>, clientinfo: map<string, seq<ClientRow>>,
                      email: PyValue, source: PyValue, failure: Option<string>): (r: EmailCheck)
    requires email.PyStr? || email.PyNone?
    requires forall k :: IsDbKey(k) ==> k in clientinfo
    ensures r.Checked? <==> email.PyStr? && !(Truthy(source) && !source.PyStr?) && failure.None?
    ensures email.PyNone? ==> r == CheckError("'NoneType' object has no attribute 'strip'")
    ensures email.PyStr? && LowerMethodError(source).Some? ==> r == CheckError(LowerMethodError(source).value)
    ensures email.PyStr? && LowerMethodError(source).None? && failure.Some? ==> r == CheckError(failure.value)
    ensures r.Checked? ==>
      && r.key == DatabaseFor(SourceText(source))
      && IsDbKey(r.key)
      && r.database == DbName(env, r.key)
      && r.email == NormalizeEmail(email.s)
      && (r.found <==> exists i :: 0 <= i < |clientinfo[r.key]| && Lower(clientinfo[r.key][i].email) == r.email)
  {
    if email.PyNone? then CheckError("'NoneType' object has no attribute 'strip'")
    else if LowerMethodError(source).Some? then CheckError(LowerMethodError(source).value)
    else if failure.Some? then CheckError(failure.value)
    else
      var key := DatabaseFor(SourceText(source));
      DatabaseForIsConfigured(SourceText(source));
      var e := NormalizeEmail(email.s);
      CountEmailPositive(clientinfo[key], e);
      Checked(CountEmail(clientinfo[key], e) > 0, DbName(env, key), key, e)
  }

  /** `check_client_email_exists_async`: `result.get('exists', False)`. */
  function EmailExistsLegacy(r: EmailCheck): (b: bool)
    ensures b <==> r.Checked? && r.found
  {
    match r
    case Checked(found, _, _, _) => found
    case CheckError(_) => false
  }

  // ---------------------------------------------------------------------
  // save_client

  datatype SaveStatus = Success | Duplicate | SaveError

  /** The dictionary `save_client` returns; absent keys are `None`. */
  datatype SaveResult = SaveResult(status: SaveStatus, message: string, database: Option<string>, isNewClient: Option<bool>)

  /** `save_client` returns a result or lets an exception escape. */
  datatype SaveOutcome = Returned(result: SaveResult) | Raised(error: string)

  /** What the database does with the transaction: it commits, one of its
      statements raises inside the `try`, or the connection cannot be
      opened at all. */
  datatype WriteOutcome = Commits | FailsWith(error: string) | NoConnection(error: string)

  /** The required fields: the e-mail and the query always, the two names
      only for an address not yet registered. */
  function RequiredFor(registered: bool): (fields: seq<string>)
    ensures "email" in fields && "query" in fields
    ensures "clientfname" in fields <==> !registered
    ensures "clientlname" in fields <==> !registered
    ensures forall f :: f in fields ==> |f| > 0
  {
    if registered then ["email", "query"] else ["email", "query", "clientfname", "clientlname"]
  }

  /** The status after a rollback: `duplicate` when the error text mentions
      a duplicate entry or MySQL error 1062, `error` otherwise. */
  function FailureStatus(error: string): (r: SaveStatus)
    ensures r != Success
    ensures r == Duplicate <==> Contains(Lower(error), "duplicate") || Contains(Lower(error), "1062")
  {
    var e := Lower(error);
    if Contains(e, "duplicate") || Contains(e, "1062") then Duplicate else SaveError
  }

  function FailureResult(error: string, dbName: string): (r: SaveResult)
    ensures r.status == FailureStatus(error) && r.database == Some(dbName) && r.isNewClient == None
  {
    if FailureStatus(error) == Duplicate then
      SaveResult(Duplicate, "Email already exists in this database", Some(dbName), None)
    else
      SaveResult(SaveError, "Database error: " + error, Some(dbName), None)
  }

  /** The row inserted for a new client. */
  function NewClientRow(s: Dict, source: PyValue, now: int): ClientRow
    requires "email" in s && s["email"].PyStr?
  {
    ClientRow(Get(s, "clientfname", PyNone), Get(s, "clientlname", PyNone), Lower(s["email"].s),
      Get(s, "countrycode", PyNone), Get(s, "mobile", PyNone), source, now)
  }

  /** The query row inserted on every successful save. */
  function NewQueryRow(s: Dict, source: PyValue, now: int): QueryRow
    requires "email" in s && s["email"].PyStr? && "query" in s
  {
    QueryRow(Lower(s["email"].s), s["query"], source, now)
  }

  /** The decisions `save_client` takes before it writes anything. */
  datatype SavePlan = SavePlan(
    sanitized: Dict, source: PyValue, check: EmailCheck, registered: bool,
    error: Option<string>, key: string)

  /** The sanitised input, the e-mail check against the tables as they are,
      the required fields that follow from it, and the database key. The
      key is the check's own when the check succeeds and the fallback
      lookup otherwise, and the two agree. */
  function PlanSave(env: map<string, string>, clientinfo: map<string, seq<ClientRow>>,
                    data: Dict, checkFailure: Option<string>): (p: SavePlan)
    requires TextFields(data) && "email" in data
    requires forall k :: IsDbKey(k) ==> k in clientinfo
    ensures TextFields(p.sanitized) && "email" in p.sanitized
    ensures IsDbKey(p.key)
    ensures p.error.None? ==> p.sanitized["email"].PyStr? && "query" in p.sanitized
    ensures p.error.None? ==> !p.registered ==> "clientfname" in p.sanitized && "clientlname" in p.sanitized
  {
    SanitizedMeaning(data);
    var s := Sanitized(data);
    var source := Get(s, "website_source", PyNone);
    var check := CheckEmail(env, clientinfo, s["email"], source, checkFailure);
    var registered := check.Checked? && check.found;
    var fields := RequiredFor(registered);
    var error := ValidateRequiredFields(s, fields);
    var key := DatabaseFor(SourceText(source));
    DatabaseForIsConfigured(SourceText(source));
    ValidatedHasFields(s, registered);
    SavePlan(s, source, check, registered, error, key)
  }

  /** Input that passes validation holds a text e-mail and a query, and
      both names when the address is new. */
  lemma ValidatedHasFields(s: Dict, registered: bool)
    requires TextFields(s)
    ensures ValidateRequiredFields(s, RequiredFor(registered)).None? ==>
      "email" in s && s["email"].PyStr? && "query" in s
    ensures ValidateRequiredFields(s, RequiredFor(registered)).None? && !registered ==>
      "clientfname" in s && "clientlname" in s
  {
    var fields := RequiredFor(registered);
    if ValidateRequiredFields(s, fields).None? {
      RequiredErrorMeaning(s, fields);
      assert FieldFilled(s, fields[0]) && FieldFilled(s, fields[1]);
      if !registered {
        assert FieldFilled(s, fields[2]) && FieldFilled(s, fields[3]);
      }
    }
  }

  /** The key `save_client` writes to is the check's key whenever the check
      answered. */
  lemma PlanKeyIsCheckKey(env: map<string, string>, clientinfo: map<string, seq<ClientRow>>,
                          data: Dict, checkFailure: Option<string>)
    requires TextFields(data) && "email" in data
    requires forall k :: IsDbKey(k) ==> k in clientinfo
    ensures var p := PlanSave(env, clientinfo, data, checkFailure);
      p.check.Checked? ==> p.key == p.check.key
  {
  }

  /** The `clientinfo` tables after a committed save. */
  function ClientsAfterSave(info: map<string, seq<ClientRow>>, p: SavePlan, now: int): map<string, seq<ClientRow>>
    requires p.key in info && "email" in p.sanitized && p.sanitized["email"].PyStr?
  {
    if p.registered then info else info[p.key := info[p.key] + [NewClientRow(p.sanitized, p.source, now)]]
  }

  /** A stripped address within the e-mail limit survives sanitising and
      is its own normalised form once lower-cased. */
  lemma SanitizedEmail(data: Dict)
    requires "email" in data && data["email"].PyStr?
    requires |PyTrim(data["email"].s)| <= MaxLength("email")
    ensures var e := PyTrim(data["email"].s);
      Sanitized(data)["email"] == PyStr(e) && NormalizeEmail(e) == Lower(e) && Lower(Lower(e)) == Lower(e)
  {
    var e := PyTrim(data["email"].s);
    StripIdempotent(data["email"].s, IsPySpace);
    LowerHasNoUpper(e);
    NoUpperIsLower(Lower(e));
  }

  /** Dropping the two name fields from the required list cannot make
      valid input invalid. */
  lemma FewerFieldsStillValid(s: Dict)
    requires TextFields(s)
    requires ValidateRequiredFields(s, RequiredFor(false)).None?
    ensures ValidateRequiredFields(s, RequiredFor(true)).None?
  {
    RequiredErrorMeaning(s, RequiredFor(false));
    RequiredErrorMeaning(s, RequiredFor(true));
  }

  /** A row appended with the address makes the count positive. */
  lemma FoundAfterAppend(rows: seq<ClientRow>, row: ClientRow, email: string)
    requires Lower(row.email) == email
    ensures CountEmail(rows + [row], email) > 0
  {
    var all := rows + [row];
    assert all[|rows|] == row;
    CountEmailPositive(all, email);
  }

  /** Once a submission is committed, submitting it again finds the
      address already registered, in the same database, so the names are
      no longer required. */
  lemma ResubmitIsRegistered(env: map<string, string>, info: map<string, seq<ClientRow>>, data: Dict, now: int)
    requires forall k :: IsDbKey(k) ==> k in info
    requires TextFields(data) && "email" in data && data["email"].PyStr?
    requires |PyTrim(data["email"].s)| <= MaxLength("email")
    requires PlanSave(env, info, data, None).error.None?
    ensures var p := PlanSave(env, info, data, None);
      var q := PlanSave(env, ClientsAfterSave(info, p, now), data, None);
      q.registered && q.key == p.key && q.error.None?
  {
    var p := PlanSave(env, info, data, None);
    var info2 := ClientsAfterSave(info, p, now);
    var q := PlanSave(env, info2, data, None);
    SanitizedEmail(data);
    var e := PyTrim(data["email"].s);
    if !p.registered {
      var row := NewClientRow(p.sanitized, p.source, now);
      assert row.email == Lower(e);
      FoundAfterAppend(info[p.key], row, NormalizeEmail(e));
      assert q.check.Checked? && q.check.key == p.key;
      CountEmailPositive(info2[p.key], NormalizeEmail(e));
      assert q.registered;
      FewerFieldsStillValid(p.sanitized);
    }
  }

  /** What `save_client` returns or raises: a missing `email` key raises
      `KeyError`, a validation error is returned as `error`, a connection
      that cannot be opened raises, a failed statement is classified after
      the rollback, and a commit reports success with the database name and
      whether the client is new. */
  function SaveResponse(env: map<string, string>, info: map<string, seq<ClientRow>>,
                        data: Dict, checkFailure: Option<string>, write: WriteOutcome): (r: SaveOutcome)
    requires TextFields(data)
    requires forall k :: IsDbKey(k) ==> k in info
    ensures r.Raised? <==> "email" !in data || (PlanSave(env, info, data, checkFailure).error.None? && write.NoConnection?)
    ensures r.Returned? && r.result.status == Success <==>
      "email" in data && PlanSave(env, info, data, checkFailure).error.None? && write.Commits?
    ensures r.Returned? && r.result.status == Duplicate <==>
      "email" in data && PlanSave(env, info, data, checkFailure).error.None? && write.FailsWith?
      && FailureStatus(write.error) == Duplicate
    ensures "email" in data && PlanSave(env, info, data, checkFailure).error.Some? ==>
      r == Returned(SaveResult(SaveError, PlanSave(env, info, data, checkFailure).error.value, None, None))
    ensures r.Returned? && r.result.status == Success ==>
      var p := PlanSave(env, info, data, checkFailure);
      r.result.database == Some(DbName(env, p.key)) && r.result.isNewClient == Some(!p.registered)
  {
    if "email" !in data then Raised("'email'")
    else
      var p := PlanSave(env, info, data, checkFailure);
      if p.error.Some? then Returned(SaveResult(SaveError, p.error.value, None, None))
      else
        match write
        case NoConnection(e) => Raised(e)
        case FailsWith(e) => Returned(FailureResult(e, DbName(env, p.key)))
        case Commits =>
          Returned(SaveResult(Success, "Client data saved successfully", Some(DbName(env, p.key)), Some(!p.registered)))
  }

  /** The `clientinfo` and `clientquery` tables after `save_client`: as
      they were unless the input validates and the transaction commits;
      then one query row is appended, and a client row when the address is
      new, in the database of the website source. */
  function SavedTables(env: map<string, string>, info: map<string, seq<ClientRow>>, queries: map<string, seq<QueryRow>>,
                       data: Dict, checkFailure: Option<string>, write: WriteOutcome, now: int)
    : (map<string, seq<ClientRow>>, map<string, seq<QueryRow>>)
    requires TextFields(data) && Tables(info, queries)
  {
    if "email" !in data then (info, queries)
    else
      var p := PlanSave(env, info, data, checkFailure);
      if p.error.Some? || !write.Commits? then (info, queries)
      else (ClientsAfterSave(info, p, now), queries[p.key := queries[p.key] + [NewQueryRow(p.sanitized, p.source, now)]])
  }

  /** The tables change exactly when the save reports success. Then the
      source's database gains one query row carrying the lower-cased
      address, and a client row exactly when the save reports a new
      client; every other database is untouched. */
  lemma SavedTablesMeaning(env: map<string, string>, info: map<string, seq<ClientRow>>, queries: map<string, seq<QueryRow>>,
                           data: Dict, checkFailure: Option<string>, write: WriteOutcome, now: int)
    requires TextFields(data) && Tables(info, queries)
    ensures var t := SavedTables(env, info, queries, data, checkFailure, write, now);
      var r := SaveResponse(env, info, data, checkFailure, write);
      && (t != (info, queries) <==> r.Returned? && r.result.status == Success)
      && (r.Returned? && r.result.status == Success ==>
            var key := PlanSave(env, info, data, checkFailure).key;
            && IsDbKey(key)
            && t.0 == info[key := t.0[key]] && t.1 == queries[key := t.1[key]]
            && |t.1[key]| == |queries[key]| + 1 && t.1[key][..|queries[key]|] == queries[key]
            && t.1[key][|queries[key]|].email == Lower(Sanitized(data)["email"].s)
            && |t.0[key]| == |info[key]| + (if r.result.isNewClient == Some(true) then 1 else 0)
            && t.0[key][..|info[key]|] == info[key])
  {
    var t := SavedTables(env, info, queries, data, checkFailure, write, now);
    var r := SaveResponse(env, info, data, checkFailure, write);
    if "email" in data {
      var p := PlanSave(env, info, data, checkFailure);
      if p.error.None? && write.Commits? {
        assert r.result.isNewClient == Some(!p.registered);
        assert p.sanitized == Sanitized(data);
        CommittedTables(info, queries, p, now);
      }
    }
  }

  /** The committed writes of a plan, over any tables holding its key. */
  lemma CommittedTables(info: map<string, seq<ClientRow>>, queries: map<string, seq<QueryRow>>, p: SavePlan, now: int)
    requires p.key in info && p.key in queries
    requires "email" in p.sanitized && p.sanitized["email"].PyStr? && "query" in p.sanitized
    ensures var t := (ClientsAfterSave(info, p, now), queries[p.key := queries[p.key] + [NewQueryRow(p.sanitized, p.source, now)]]);
      && t != (info, queries)
      && t.0 == info[p.key := t.0[p.key]] && t.1 == queries[p.key := t.1[p.key]]
      && |t.1[p.key]| == |queries[p.key]| + 1 && t.1[p.key][..|queries[p.key]|] == queries[p.key]
      && t.1[p.key][|queries[p.key]|].email == Lower(p.sanitized["email"].s)
      && |t.0[p.key]| == |info[p.key]| + (if !p.registered then 1 else 0)
      && t.0[p.key][..|info[p.key]|] == info[p.key]
  {
    var q := queries[p.key := queries[p.key] + [NewQueryRow(p.sanitized, p.source, now)]];
    assert |q[p.key]| != |queries[p.key]|;
  }

  /** The lead store: the two tables of each configured database. */
  class ClientStore {
    /** The environment the database registry was read from. */
    const env: map<string, string>
    var clientinfo: map<string, seq<ClientRow>>
    var clientquery: map<string, seq<QueryRow>>

    ghost predicate Valid()
      reads this
    {
      Tables(clientinfo, clientquery)
    }

    constructor (env: map<string, string>)
      ensures this.env == env && Valid()
      ensures forall k :: IsDbKey(k) ==> clientinfo[k] == [] && clientquery[k] == []
    {
      this.env := env;
      clientinfo := map k | k in DbKeys :: [];
      clientquery := map k | k in DbKeys :: [];
    }

    /** `check_email_exists` against the current tables. */
    function CheckEmailExists(email: PyValue, source: PyValue, failure: Option<string>): EmailCheck
      reads this
      requires Valid() && (email.PyStr? || email.PyNone?)
    {
      CheckEmail(env, clientinfo, email, source, failure)
    }

    /** `save_client`. Without an `email` key, reading it raises
        `KeyError`; a validation failure returns before any write; a
        failure inside the transaction rolls both tables back; a commit
        adds one `clientquery` row, and one `clientinfo` row when the
        address was not registered, both in the database of the website
        source and both with the lower-cased address. */
    method SaveClient(data: Dict, checkFailure: Option<string>, write: WriteOutcome, now: int)
      returns (r: SaveOutcome)
      modifies this
      requires Valid() && TextFields(data)
      ensures Valid()
      ensures r == SaveResponse(env, old(clientinfo), data, checkFailure, write)
      ensures (clientinfo, clientquery) == SavedTables(env, old(clientinfo), old(clientquery), data, checkFailure, write, now)
      ensures "email" !in data ==> clientinfo == old(clientinfo) && clientquery == old(clientquery)
      ensures "email" in data ==> var p := PlanSave(env, old(clientinfo), data, checkFailure);
        && (p.error.Some? || !write.Commits? ==> clientinfo == old(clientinfo) && clientquery == old(clientquery))
        && (p.error.None? && write.Commits? ==>
              && clientquery == old(clientquery)[p.key := old(clientquery)[p.key] + [NewQueryRow(p.sanitized, p.source, now)]]
              && clientinfo == if p.registered then old(clientinfo)
                               else old(clientinfo)[p.key := old(clientinfo)[p.key] + [NewClientRow(p.sanitized, p.source, now)]])
    {
      if "email" !in data {
        return Raised("'email'");
      }
      var p := PlanSave(env, clientinfo, data, checkFailure);
      if p.error.Some? {
        return Returned(SaveResult(SaveError, p.error.value, None, None));
      }
      var dbName := DbName(env, p.key);
      match write {
        case NoConnection(e) =>
          r := Raised(e);
        case FailsWith(e) =>
          r := Returned(FailureResult(e, dbName));
        case Commits =>
          Insert(p, now);
          r := Returned(SaveResult(Success, "Client data saved successfully", Some(dbName), Some(!p.registered)));
      }
    }

    /** The two inserts of a committed transaction. */
    method Insert(p: SavePlan, now: int)
      modifies this
      requires Valid() && IsDbKey(p.key)
      requires "email" in p.sanitized && p.sanitized["email"].PyStr? && "query" in p.sanitized
      ensures Valid()
      ensures clientquery == old(clientquery)[p.key := old(clientquery)[p.key] + [NewQueryRow(p.sanitized, p.source, now)]]
      ensures clientinfo == if p.registered then old(clientinfo)
                            else old(clientinfo)[p.key := old(clientinfo)[p.key] + [NewClientRow(p.sanitized, p.source, now)]]
    {
      if !p.registered {
        clientinfo := clientinfo[p.key := clientinfo[p.key] + [NewClientRow(p.sanitized, p.source, now)]];
      }
      clientquery := clientquery[p.key := clientquery[p.key] + [NewQueryRow(p.sanitized, p.source, now)]];
    }
  }

  /** `save_client_data_async`: `True`, `"duplicate"` or `False`. */
  datatype LegacySave = SavedTrue | SavedDuplicate | SavedFalse

  function SaveClientDataLegacy(r: SaveResult): (v: LegacySave)
    ensures v == SavedTrue <==> r.status == Success
    ensures v == SavedDuplicate <==> r.status == Duplicate
    ensures v == SavedFalse <==> r.status == SaveError
  {
    match r.status
    case Success => SavedTrue
    case Duplicate => SavedDuplicate
    case SaveError => SavedFalse
  }

  /** `save_query_data_async`: whether the status is `success`. */
  function SaveQueryDataLegacy(r: SaveResult): (b: bool)
    ensures b <==> r.status == Success
  {
    r.status == Success
  }

  // ---------------------------------------------------------------------
  // get_clients

  /** A filter the listing understands, with a truthy value. */
  predicate Applies(f: (string, string)) {
    f.1 != "" && (f.0 == "email" || f.0 == "website_source" || f.0 == "clientfname" || f.0 == "clientlname")
  }

  /** The condition of one filter. */
  function Clause(key: string): string {
    if key == "email" then "LOWER(email) = LOWER(%s)"
    else if key == "website_source" then "website_source = %s"
    else if key == "clientfname" then "clientfname LIKE %s"
    else "clientlname LIKE %s"
  }

  /** The parameter of one filter: names are matched as substrings. */
  function Param(key: string, value: string): string {
    if key == "clientfname" || key == "clientlname" then "%" + value + "%" else value
  }

  /** The filters that contribute a condition, in iteration order. */
  function Applying(filters: seq<(string, string)>): (r: seq<(string, string)>)
    ensures |r| <= |filters|
    ensures forall f :: f in r <==> f in filters && Applies(f)
  {
    if filters == [] then []
    else
      var init := filters[..|filters| - 1];
      var last := filters[|filters| - 1];
      assert filters == init + [last];
      Applying(init) + if Applies(last) then [last] else []
  }

  /** Applying the filters one more step. */
  lemma ApplyingStep(filters: seq<(string, string)>, n: nat)
    requires n < |filters|
    ensures Applying(filters[..n + 1]) == Applying(filters[..n]) + if Applies(filters[n]) then [filters[n]] else []
  {
    assert filters[..n + 1][..n] == filters[..n];
  }

  /** `clauses` and `params` hold one condition and one parameter for each
      of `fs`, in order. */
  predicate Rendered(clauses: seq<string>, params: seq<string>, fs: seq<(string, string)>) {
    && |clauses| == |params| == |fs|
    && forall i :: 0 <= i < |fs| ==> clauses[i] == Clause(fs[i].0) && params[i] == Param(fs[i].0, fs[i].1)
  }

  lemma RenderedSnoc(clauses: seq<string>, params: seq<string>, fs: seq<(string, string)>, f: (string, string))
    requires Rendered(clauses, params, fs)
    ensures Rendered(clauses + [Clause(f.0)], params + [Param(f.0, f.1)], fs + [f])
  {
  }

  /** The loop over `filters.items()` that fills `where_clauses` and
      `params`: one condition and one parameter per applying filter, in
      order. */
  method BuildWhere(filters: seq<(string, string)>) returns (clauses: seq<string>, params: seq<string>)
    ensures Rendered(clauses, params, Applying(filters))
  {
    clauses, params := [], [];
    var n := 0;
    while n < |filters|
      invariant 0 <= n <= |filters|
      invariant Rendered(clauses, params, Applying(filters[..n]))
    {
      var key, value := filters[n].0, filters[n].1;
      ApplyingStep(filters, n);
      ghost var next := Applying(filters[..n + 1]);
      if value != "" {
        if key == "email" || key == "website_source" || key == "clientfname" || key == "clientlname" {
          assert next == Applying(filters[..n]) + [(key, value)];
          RenderedSnoc(clauses, params, Applying(filters[..n]), (key, value));
          clauses := clauses + [Clause(key)];
          params := params + [Param(key, value)];
        } else {
          assert next == Applying(filters[..n]);
        }
      } else {
        assert next == Applying(filters[..n]);
      }
      n := n + 1;
    }
    assert filters[..n] == filters;
  }

  /** `" AND ".join(parts)`. */
  function JoinAnd(parts: seq<string>): string {
    if parts == [] then "" else if |parts| == 1 then parts[0] else parts[0] + " AND " + JoinAnd(parts[1..])
  }

  /** `where_sql`: empty exactly when no filter applies. */
  function WhereSql(clauses: seq<string>): (r: string)
    ensures r == "" <==> clauses == []
  {
    if clauses == [] then "" else "WHERE " + JoinAnd(clauses)
  }

  /** The statement parameters the listing sends. */
  datatype ClientsQuery = ClientsQuery(whereSql: string, params: seq<PyValue>, pagedParams: seq<PyValue>)

  /** The statements' WHERE part and parameters for `filters`: one
      condition per applying filter joined with AND, its parameter in the
      same position, and the page's limit and offset after them. */
  function ListingQuery(filters: seq<(string, string)>, limit: int, offset: int): ClientsQuery {
    var fs := Applying(filters);
    var values := seq(|fs|, i requires 0 <= i < |fs| => PyStr(Param(fs[i].0, fs[i].1)));
    ClientsQuery(WhereSql(seq(|fs|, i requires 0 <= i < |fs| => Clause(fs[i].0))), values,
                 values + [PyInt(limit), PyInt(offset)])
  }

  /** Every parameter of the listing comes from a filter with a known key
      and a truthy value, every such filter contributes its parameter, and
      the page's limit and offset follow them. */
  lemma ListingQueryParams(filters: seq<(string, string)>, limit: int, offset: int)
    ensures var q := ListingQuery(filters, limit, offset);
      && (forall i :: 0 <= i < |q.params| ==>
            exists f :: f in filters && Applies(f) && q.params[i] == PyStr(Param(f.0, f.1)))
      && (forall f :: f in filters && Applies(f) ==> PyStr(Param(f.0, f.1)) in q.params)
      && q.pagedParams == q.params + [PyInt(limit), PyInt(offset)]
  {
    var q := ListingQuery(filters, limit, offset);
    var fs := Applying(filters);
    forall i | 0 <= i < |q.params|
      ensures exists f :: f in filters && Applies(f) && q.params[i] == PyStr(Param(f.0, f.1))
    {
      assert fs[i] in fs;
    }
    forall f | f in filters && Applies(f) ensures PyStr(Param(f.0, f.1)) in q.params {
      var j :| 0 <= j < |fs| && fs[j] == f;
      assert q.params[j] == PyStr(Param(f.0, f.1));
    }
  }

  /** What `get_clients` returns. */
  datatype ClientsResult =
    | ClientsPage(clients: seq<Dict>, total: int)
    | ClientsFailed(message: string, database: Option<string>)

  /** The answer of `get_clients`: the page read, or the error, which names
      the database only when the key was known. */
  function ClientsResponse(env: map<string, string>, dbKey: string, answer: Result<(seq<Dict>, int), string>): (r: ClientsResult)
    ensures r.ClientsPage? <==> IsDbKey(dbKey) && answer.Ok?
    ensures r.ClientsPage? ==> r.clients == answer.value.0 && r.total == answer.value.1
    ensures r.ClientsFailed? ==> (r.database.Some? <==> IsDbKey(dbKey))
    ensures !IsDbKey(dbKey) ==> r.message == "Invalid database key: " + dbKey
  {
    if !IsDbKey(dbKey) then ClientsFailed("Invalid database key: " + dbKey, None)
    else match answer
      case Ok(page) => ClientsPage(page.0, page.1)
      case Err(e) => ClientsFailed(e, Some(DbName(env, dbKey)))
  }

  /** `get_clients`: an unknown key is refused before any statement is
      built; otherwise the filtered count and page are read, `answer`
      being the database's reply (rows and total, or the error raised). */
  method GetClients(env: map<string, string>, dbKey: string, filters: seq<(string, string)>,
                    limit: int, offset: int, answer: Result<(seq<Dict>, int), string>)
    returns (r: ClientsResult, sent: Option<ClientsQuery>)
    ensures !IsDbKey(dbKey) ==> r == ClientsFailed("Invalid database key: " + dbKey, None) && sent == None
    ensures IsDbKey(dbKey) ==> sent == Some(ListingQuery(filters, limit, offset))
    ensures sent.Some? ==>
      && |sent.value.params| == |Applying(filters)|
      && sent.value.pagedParams == sent.value.params + [PyInt(limit), PyInt(offset)]
      && (sent.value.whereSql == "" <==> Applying(filters) == [])
    ensures r == ClientsResponse(env, dbKey, answer)
  {
    if !IsDbKey(dbKey) {
      return ClientsFailed("Invalid database key: " + dbKey, None), None;
    }
    var clauses, params := BuildWhere(filters);
    var fs := Applying(filters);
    assert clauses == seq(|fs|, i requires 0 <= i < |fs| => Clause(fs[i].0));
    var values := seq(|params|, i requires 0 <= i < |params| => PyStr(params[i]));
    assert values == seq(|fs|, i requires 0 <= i < |fs| => PyStr(Param(fs[i].0, fs[i].1)));
    sent := Some(ClientsQuery(WhereSql(clauses), values, values + [PyInt(limit), PyInt(offset)]));
    match answer {
      case Ok(page) => r := ClientsPage(page.0, page.1);
      case Err(e) => r := ClientsFailed(e, Some(DbName(env, dbKey)));
    }
  }
}
