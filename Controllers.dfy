/**
 * The HTTP layer (Backend/controllers/client.py): the field validators of
 * the client request, the dictionaries the endpoints hand to the services,
 * and the mapping from service results to HTTP replies. Request parsing,
 * `EmailStr` and FastAPI's own 422 responses are library behaviour; a
 * rejected request is modelled as a 422 reply carrying the validator
 * messages.
 */
module Controllers {
  import opened Wrappers
  import opened Strings
  import opened PyValues
  import opened DbConfig
  import opened ClientModel
  import opened EmailService
  import opened ClientService

  /** An endpoint's reply: a body, or an `HTTPException`. */
  datatype HttpReply<T> = Respond(body: T) | HttpError(code: int, detail: string)

  const NameTooLong := "Name too long (max 100 characters)"
  const QueryTooShort := "Query must be at least 5 characters"
  const QueryTooLong := "Query too long (max 2000 characters)"
  const SourceTooLong := "Website source too long (max 100 characters)"

  /** `validate_name`: at most 100 characters once stripped; the value is
      returned stripped, and `None` or `""` as they are. */
  function ValidateName(v: Option<string>): (r: Result<Option<string>, string>)
    ensures r.Err? <==> v.Some? && |PyTrim(v.value)| > 100
    ensures r.Err? ==> r.error == NameTooLong
    ensures r.Ok? && v.Some? && v.value != "" ==> r.value == Some(PyTrim(v.value))
    ensures r.Ok? && (v.None? || v.value == "") ==> r.value == v
    ensures r.Ok? && r.value.Some? ==> |r.value.value| <= 100
  {
    match v
    case None => Ok(None)
    case Some(s) =>
      if |PyTrim(s)| > 100 then Err(NameTooLong)
      else if s != "" then Ok(Some(PyTrim(s)))
      else Ok(v)
  }

  /** `validate_query`: rejected when empty or shorter than five characters
      once stripped, or longer than 2000 characters as sent; otherwise
      returned stripped. */
  function ValidateQuery(v: string): (r: Result<string, string>)
    ensures r.Ok? <==> |PyTrim(v)| >= 5 && |v| <= 2000
    ensures r.Ok? ==> r.value == PyTrim(v)
    ensures r.Err? ==> r.error == (if |PyTrim(v)| < 5 then QueryTooShort else QueryTooLong)
  {
    if v == "" || |PyTrim(v)| < 5 then Err(QueryTooShort)
    else if |v| > 2000 then Err(QueryTooLong)
    else Ok(PyTrim(v))
  }

  /** An accepted query has between 5 and 2000 characters and is never
      blank, so it always passes the store's required-field check. */
  lemma AcceptedQueryBounds(v: string)
    requires ValidateQuery(v).Ok?
    ensures 5 <= |ValidateQuery(v).value| <= 2000
    ensures !PyBlank(ValidateQuery(v).value)
  {
    var t := PyTrim(v);
    StripIdempotent(v, IsPySpace);
    PyBlankIsEmptyTrim(t);
  }

  /** `validate_website_source`: at most 100 characters as sent; returned
      stripped, and `"default"` when absent or empty. */
  function ValidateWebsiteSource(v: Option<string>): (r: Result<string, string>)
    ensures r.Err? <==> v.Some? && |v.value| > 100
    ensures r.Err? ==> r.error == SourceTooLong
    ensures r.Ok? ==> |r.value| <= 100
    ensures r.Ok? && (v.None? || v.value == "") ==> r.value == "default"
    ensures r.Ok? && v.Some? && v.value != "" ==> r.value == PyTrim(v.value)
  {
    match v
    case None => Ok("default")
    case Some(s) =>
      if s != "" && |s| > 100 then Err(SourceTooLong)
      else if s != "" then Ok(PyTrim(s))
      else Ok("default")
  }

  /** The fields of a `ClientRequest` after parsing; `email` is the
      address `EmailStr` has already validated and normalised, and an
      omitted website source and an explicit `null` both become
      `"default"`. */
  datatype ClientRequest = ClientRequest(
    clientfname: Option<string>, clientlname: Option<string>, email: string,
    countrycode: Option<string>, mobile: Option<string>, websiteSource: Option<string>, query: string)

  function OptText(v: Option<string>): PyValue {
    if v.Some? then PyStr(v.value) else PyNone
  }

  /** The messages of the validators that reject, in field order. */
  function RequestErrors(c: ClientRequest): seq<string> {
    (if ValidateName(c.clientfname).Err? then [NameTooLong] else [])
    + (if ValidateName(c.clientlname).Err? then [NameTooLong] else [])
    + (if ValidateWebsiteSource(c.websiteSource).Err? then [SourceTooLong] else [])
    + (match ValidateQuery(c.query) case Err(e) => [e] case Ok(_) => [])
  }

  /** Every validator accepts its field. */
  predicate Accepted(c: ClientRequest) {
    ValidateName(c.clientfname).Ok? && ValidateName(c.clientlname).Ok?
    && ValidateWebsiteSource(c.websiteSource).Ok? && ValidateQuery(c.query).Ok?
  }

  /** The request's seven keys with the given values. */
  function ClientFields(fname: Option<string>, lname: Option<string>, email: string, countrycode: Option<string>,
                        mobile: Option<string>, source: string, query: string): Dict {
    map[
      "clientfname" := OptText(fname), "clientlname" := OptText(lname),
      "email" := PyStr(email), "countrycode" := OptText(countrycode),
      "mobile" := OptText(mobile), "website_source" := PyStr(source), "query" := PyStr(query)]
  }

  /** Every value under the seven keys is text or `None`. */
  lemma ClientFieldsText(fname: Option<string>, lname: Option<string>, email: string, countrycode: Option<string>,
                         mobile: Option<string>, source: string, query: string)
    ensures TextFields(ClientFields(fname, lname, email, countrycode, mobile, source, query))
  {
    var d := ClientFields(fname, lname, email, countrycode, mobile, source, query);
    forall k | k in d ensures TextOrNone(d[k]) {
    }
  }

  /** `client.model_dump()` for an accepted request: the validated values
      under the request's seven keys. */
  function ClientDump(c: ClientRequest): Dict
    requires Accepted(c)
  {
    ClientFields(ValidateName(c.clientfname).value, ValidateName(c.clientlname).value, c.email,
      c.countrycode, c.mobile, ValidateWebsiteSource(c.websiteSource).value, ValidateQuery(c.query).value)
  }

  /** The dump holds only text or `None`, the validated address, the
      stripped query and a text website source: never `None`, so the
      notification's subject can always be formed for a `create_client`
      submission. */
  lemma ClientDumpValues(c: ClientRequest)
    requires Accepted(c)
    ensures TextFields(ClientDump(c))
    ensures "email" in ClientDump(c) && "query" in ClientDump(c) && "website_source" in ClientDump(c)
    ensures ClientDump(c)["email"] == PyStr(c.email)
    ensures ClientDump(c)["query"] == PyStr(PyTrim(c.query))
    ensures ClientDump(c)["website_source"].PyStr?
  {
    ClientFieldsText(ValidateName(c.clientfname).value, ValidateName(c.clientlname).value, c.email,
      c.countrycode, c.mobile, ValidateWebsiteSource(c.websiteSource).value, ValidateQuery(c.query).value);
  }

  /** A request is accepted exactly when every validator accepts its
      field. */
  lemma RequestErrorsMeaning(c: ClientRequest)
    ensures RequestErrors(c) == [] <==> Accepted(c)
    ensures !Accepted(c) ==> forall e :: e in RequestErrors(c) ==>
      e == NameTooLong || e == SourceTooLong || e == QueryTooShort || e == QueryTooLong
  {
  }

  /** The controller's test of the service status in `create_client`. */
  function ClientReply(r: ServiceResult): (reply: HttpReply<ServiceResult>)
    ensures reply.HttpError? <==> r.status == StatusError || r.status == StatusDuplicate
    ensures r.status == StatusError ==> reply == HttpError(400, r.message)
    ensures r.status == StatusDuplicate ==> reply == HttpError(409, r.message)
    ensures reply.Respond? ==> reply.body == r
  {
    match r.status
    case StatusError => HttpError(400, r.message)
    case StatusDuplicate => HttpError(409, r.message)
    case _ => Respond(r)
  }

  /** `create_client`: validation, then the service, then the status
      mapping. A partial success is still a normal reply. */
  function CreateClient(c: ClientRequest, save: ClientRequest -> SaveOutcome, env: MailEnv, answer: ProviderAnswer)
    : (reply: HttpReply<ServiceResult>)
    ensures !Accepted(c) ==> reply.HttpError? && reply.code == 422
    ensures Accepted(c) ==> reply == ClientReply(Submitted(save(c), env, ClientDump(c), answer))
  {
    if !Accepted(c) then
      RequestErrorsMeaning(c);
      HttpError(422, Join(RequestErrors(c), '\n'))
    else ClientReply(Submitted(save(c), env, ClientDump(c), answer))
  }

  /** `create_client` never answers 409: the service has already folded a
      duplicate into `error`, which becomes 400. */
  lemma CreateClientNever409(c: ClientRequest, save: ClientRequest -> SaveOutcome, env: MailEnv, answer: ProviderAnswer)
    ensures CreateClient(c, save, env, answer).HttpError? ==> CreateClient(c, save, env, answer).code != 409
  {
    if Accepted(c) {
      var r := Submitted(save(c), env, ClientDump(c), answer);
      assert r.status != StatusDuplicate;
    }
  }

  /** A `QueryRequest` after parsing; `email` is the normalised address
      `EmailStr` gives, and `websiteSource` is `None` for an explicit
      `null` and `"default"` when the field is omitted. */
  datatype QueryRequest = QueryRequest(email: string, query: string, websiteSource: Option<string>)

  /** The dictionary `create_query` hands to the service: the three fields
      and nothing else. */
  function QueryDump(q: QueryRequest): (d: Dict)
    ensures d.Keys == {"email", "query", "website_source"}
    ensures d["email"] == PyStr(q.email) && d["query"] == PyStr(q.query)
    ensures d["website_source"] == OptText(q.websiteSource)
    ensures TextFields(d)
  {
    map["email" := PyStr(q.email), "query" := PyStr(q.query), "website_source" := OptText(q.websiteSource)]
  }

  /** The controller's test of the service status in `create_query`; it
      has no `duplicate` branch. */
  function QueryReply(r: ServiceResult): (reply: HttpReply<ServiceResult>)
    ensures reply.HttpError? <==> r.status == StatusError
    ensures reply.HttpError? ==> reply == HttpError(400, r.message)
    ensures reply.Respond? ==> reply.body == r
  {
    if r.status == StatusError then HttpError(400, r.message) else Respond(r)
  }

  /** A query for an address registered in no database is refused by the
      store for its missing first name: `create_query` sends no names, and
      an unregistered address requires them. */
  lemma QueryNeedsRegisteredClient(env: map<string, string>, info: map<string, seq<ClientRow>>,
                                   q: QueryRequest, checkFailure: Option<string>, write: WriteOutcome)
    requires forall k :: IsDbKey(k) ==> k in info
    requires !PyBlank(q.email) && !PyBlank(q.query)
    requires checkFailure.Some? || forall k, i :: IsDbKey(k) && 0 <= i < |info[k]| ==>
      Lower(info[k][i].email) != NormalizeEmail(SanitizeValue("email", PyStr(q.email)).s)
    ensures SaveResponse(env, info, QueryDump(q), checkFailure, write)
         == Returned(SaveResult(SaveError, MissingMessage("clientfname"), None, None))
  {
    QueryPlanError(env, info, q, checkFailure);
  }

  /** The validation step of that refusal. */
  lemma QueryPlanError(env: map<string, string>, info: map<string, seq<ClientRow>>,
                       q: QueryRequest, checkFailure: Option<string>)
    requires forall k :: IsDbKey(k) ==> k in info
    requires !PyBlank(q.email) && !PyBlank(q.query)
    requires checkFailure.Some? || forall k, i :: IsDbKey(k) && 0 <= i < |info[k]| ==>
      Lower(info[k][i].email) != NormalizeEmail(SanitizeValue("email", PyStr(q.email)).s)
    ensures PlanSave(env, info, QueryDump(q), checkFailure).error == Some(MissingMessage("clientfname"))
  {
    var d := QueryDump(q);
    QueryPlanUnregistered(env, info, q, checkFailure);
    QueryDumpSanitized(q);
    MissingFirstName(Sanitized(d));
  }

  /** Sanitising the query dump keeps a non-blank address and query and
      adds no first name. */
  lemma QueryDumpSanitized(q: QueryRequest)
    requires !PyBlank(q.email) && !PyBlank(q.query)
    ensures var s := Sanitized(QueryDump(q));
      FieldFilled(s, "email") && FieldFilled(s, "query") && "clientfname" !in s
  {
    var s := Sanitized(QueryDump(q));
    assert s["email"] == SanitizeValue("email", PyStr(q.email));
    assert s["query"] == SanitizeValue("query", PyStr(q.query));
    NotBlankAfterSanitizing("email", q.email);
    NotBlankAfterSanitizing("query", q.query);
  }

  /** The e-mail check of such a query never finds the address. */
  lemma QueryPlanUnregistered(env: map<string, string>, info: map<string, seq<ClientRow>>,
                              q: QueryRequest, checkFailure: Option<string>)
    requires forall k :: IsDbKey(k) ==> k in info
    requires checkFailure.Some? || forall k, i :: IsDbKey(k) && 0 <= i < |info[k]| ==>
      Lower(info[k][i].email) != NormalizeEmail(SanitizeValue("email", PyStr(q.email)).s)
    ensures !PlanSave(env, info, QueryDump(q), checkFailure).registered
  {
    var d := QueryDump(q);
    var p := PlanSave(env, info, d, checkFailure);
    assert Sanitized(d)["email"] == SanitizeValue("email", PyStr(q.email));
    if p.check.Checked? {
      CountEmailPositive(info[p.check.key], p.check.email);
    }
  }

  /** Input with an e-mail and a query but no first name fails on the
      first name when the names are required. */
  lemma MissingFirstName(s: Dict)
    requires FieldFilled(s, "email") && FieldFilled(s, "query") && "clientfname" !in s
    ensures RequiredError(s, RequiredFor(false)) == Some(MissingMessage("clientfname"))
  {
    var fields := RequiredFor(false);
    assert fields[1..] == ["query", "clientfname", "clientlname"];
    assert fields[2..] == ["clientfname", "clientlname"];
    assert RequiredError(s, fields[2..]) == Some(MissingMessage("clientfname"));
  }

  /** Text that is not blank stays non-blank after sanitising. */
  lemma NotBlankAfterSanitizing(key: string, v: string)
    requires !PyBlank(v)
    ensures !EmptyValue(SanitizeValue(key, PyStr(v)))
  {
    PyBlankIsEmptyTrim(v);
    SanitizedTextBounds(key, v);
    assert MaxLength(key) > 0;
  }

  /** What `check_email_exists` returns. */
  datatype EmailCheckReply = EmailCheckReply(found: bool, database: string, email: string, valid: bool)

  /** `check_email_exists`: a model error becomes 500; otherwise the
      answer, marked valid. */
  function CheckEmailReply(r: EmailCheck): (reply: HttpReply<EmailCheckReply>)
    ensures reply.HttpError? <==> r.CheckError?
    ensures r.CheckError? ==> reply == HttpError(500, r.error)
    ensures r.Checked? ==> reply.body == EmailCheckReply(r.found, r.database, r.email, true)
  {
    match r
    case CheckError(e) => HttpError(500, e)
    case Checked(found, database, _, email) => Respond(EmailCheckReply(found, database, email, true))
  }

  /** The filters `get_clients` builds: the e-mail (already normalised by
      `EmailStr`), then the website source, each only when given and
      non-empty. */
  function ListingFilters(email: Option<string>, source: Option<string>): (fs: seq<(string, string)>)
    ensures forall f :: f in fs ==> Applies(f)
    ensures ("email", email.GetOr("")) in fs <==> email.Some? && email.value != ""
    ensures ("website_source", source.GetOr("")) in fs <==> source.Some? && source.value != ""
    ensures |fs| <= 2
  {
    (if email.Some? && email.value != "" then [("email", email.value)] else [])
    + (if source.Some? && source.value != "" then [("website_source", source.value)] else [])
  }

  /** The query bounds FastAPI enforces before `get_clients` runs. */
  predicate PageBoundsOk(limit: int, offset: int) {
    1 <= limit <= 1000 && offset >= 0
  }

  /** `get_clients`: out-of-range paging is refused, a service error
      becomes 400, and a page is returned as it is. */
  method GetClientsEndpoint(env: map<string, string>, database: string, limit: int, offset: int,
                            email: Option<string>, source: Option<string>,
                            answer: Result<(seq<Dict>, int), string>)
    returns (reply: HttpReply<ClientsResult>)
    ensures !PageBoundsOk(limit, offset) ==> reply.HttpError? && reply.code == 422
    ensures PageBoundsOk(limit, offset) ==>
      var r := ClientsResponse(env, database, answer);
      && (r.ClientsFailed? ==> reply == HttpError(400, r.message))
      && (r.ClientsPage? ==> reply == Respond(r))
    ensures reply.Respond? ==> IsDbKey(database) && answer.Ok?
  {
    if !PageBoundsOk(limit, offset) {
      return HttpError(422, "limit must be in 1..1000 and offset at least 0");
    }
    var r := GetClientsInfo(env, database, ListingFilters(email, source), limit, offset, answer);
    if r.ClientsFailed? {
      reply := HttpError(400, r.message);
    } else {
      reply := Respond(r);
    }
  }
}
