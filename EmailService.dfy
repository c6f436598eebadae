/**
 * The lead notification (Backend/services/email_service.py): two
 * configuration checks, the field fallback chains, the subject line, and the
 * result shape after the provider answers. The environment values and the
 * provider's answer are parameters; the message bodies are not modelled.
 */
module EmailService {
  import opened Wrappers
  import opened Strings
  import opened PyValues

  /** The three `os.getenv` readings; an unset variable is `None`. */
  datatype MailEnv = MailEnv(apiKey: Option<string>, fromEmail: Option<string>, toEmail: Option<string>)

  /** `not value` for an environment reading. */
  predicate Unset(v: Option<string>) {
    v.None? || v.value == ""
  }

  const MissingKeyError := "SendGrid API key is missing. Check your .env file"
  const MissingAddressError := "Email addresses are not configured in .env file"

  /** `d.get(k1, d.get(k2, ... default))`: the value of the first key of the
      chain present in `d`, `None` included, else the default. */
  function Chain(d: Dict, keys: seq<string>, default: PyValue): PyValue {
    if keys == [] then default
    else if keys[0] in d then d[keys[0]]
    else Chain(d, keys[1..], default)
  }

  /** The chain yields the value of its first present key, and the default
      only when no key of the chain is present. */
  lemma {:induction false} ChainMeaning(d: Dict, keys: seq<string>, default: PyValue)
    ensures (forall i :: 0 <= i < |keys| ==> keys[i] !in d) ==> Chain(d, keys, default) == default
    ensures forall i :: 0 <= i < |keys| && keys[i] in d && (forall j :: 0 <= j < i ==> keys[j] !in d) ==>
      Chain(d, keys, default) == d[keys[i]]
  {
    if keys != [] {
      ChainMeaning(d, keys[1..], default);
      forall i | 0 < i < |keys| ensures keys[i] == keys[1..][i - 1] {}
    }
  }

  /** A one-key chain is a plain `get`. */
  lemma ChainOfOne(d: Dict, k: string, default: PyValue)
    ensures Chain(d, [k], default) == Get(d, k, default)
  {
    assert [k][1..] == [];
  }

  /** A three-key chain tries its keys in order. */
  lemma ChainOfThree(d: Dict, a: string, b: string, c: string, default: PyValue)
    ensures Chain(d, [a, b, c], default) ==
      if a in d then d[a] else if b in d then d[b] else if c in d then d[c] else default
  {
    assert [a, b, c][1..] == [b, c];
    assert [b, c][1..] == [c];
    ChainOfOne(d, c, default);
    assert Chain(d, [b, c], default) == if b in d then d[b] else Chain(d, [c], default);
  }

  /** The values the notification reports about the lead. */
  datatype LeadFields = LeadFields(
    fname: PyValue, lname: PyValue, email: PyValue, countryCode: PyValue,
    mobile: PyValue, query: PyValue, websiteSource: PyValue)

  const NA := PyStr("N/A")

  /** The fallback chains, with `database` as the default website source. */
  function ResolveFields(d: Dict, database: string): LeadFields {
    LeadFields(
      Chain(d, ["clientfname", "fname", "client_fname"], NA),
      Chain(d, ["clientlname", "lname", "client_lname"], NA),
      Chain(d, ["email"], NA),
      Chain(d, ["countrycode", "country_code", "CountryCode"], NA),
      Chain(d, ["mobile", "phone", "Phone"], NA),
      Chain(d, ["query"], PyStr("No query provided")),
      Chain(d, ["website_source"], PyStr(database)))
  }

  /** The contact form's own keys win over every alias; an absent website
      source falls back to the database name, an absent query to the fixed
      placeholder, and a lead without any name key is reported as `N/A`. */
  lemma ResolveFieldsMeaning(d: Dict, database: string)
    ensures "clientfname" in d ==> ResolveFields(d, database).fname == d["clientfname"]
    ensures "clientlname" in d ==> ResolveFields(d, database).lname == d["clientlname"]
    ensures "countrycode" in d ==> ResolveFields(d, database).countryCode == d["countrycode"]
    ensures "mobile" in d ==> ResolveFields(d, database).mobile == d["mobile"]
    ensures ResolveFields(d, database).email == Get(d, "email", NA)
    ensures ResolveFields(d, database).query == Get(d, "query", PyStr("No query provided"))
    ensures ResolveFields(d, database).websiteSource == Get(d, "website_source", PyStr(database))
    ensures "clientfname" !in d && "fname" !in d && "client_fname" !in d ==> ResolveFields(d, database).fname == NA
    ensures "clientfname" !in d && "fname" in d ==> ResolveFields(d, database).fname == d["fname"]
  {
    ChainOfThree(d, "clientfname", "fname", "client_fname", NA);
    ChainOfThree(d, "clientlname", "lname", "client_lname", NA);
    ChainOfThree(d, "countrycode", "country_code", "CountryCode", NA);
    ChainOfThree(d, "mobile", "phone", "Phone", NA);
    ChainOfOne(d, "email", NA);
    ChainOfOne(d, "query", PyStr("No query provided"));
    ChainOfOne(d, "website_source", PyStr(database));
  }

  function ClientType(isNewClient: bool): string {
    if isNewClient then "NEW CLIENT REGISTRATION" else "ADDITIONAL QUERY FROM EXISTING CLIENT"
  }

  const NoneHasNoUpper := "'NoneType' object has no attribute 'upper'"

  /** The prefix of every error caught around the provider call. */
  const ProviderException := "Exception in SendGrid process: "

  /** The message of the `AttributeError` that `.upper()` raises on a
      value that is not text. */
  function NoUpperMethod(v: PyValue): string {
    match v
    case PyNone => NoneHasNoUpper
    case PyInt(_) => "'int' object has no attribute 'upper'"
    case PyBool(_) => "'bool' object has no attribute 'upper'"
    case PyStr(_) => ""
  }

  /** `f"{client_type} - {website_source.upper()}"`: the client type, a
      dash, and the source in capitals; a source that is not text raises. */
  function Subject(isNewClient: bool, websiteSource: PyValue): (r: Result<string, string>)
    ensures r.Ok? <==> websiteSource.PyStr?
    ensures r.Ok? ==> var prefix := ClientType(isNewClient) + " - ";
      && |r.value| == |prefix| + |websiteSource.s|
      && r.value[..|prefix|] == prefix
      && forall k :: 0 <= k < |websiteSource.s| ==>
           r.value[|prefix| + k] == UpperChar(websiteSource.s[k])
  {
    match websiteSource
    case PyStr(s) => Ok(ClientType(isNewClient) + " - " + Upper(s))
    case _ => Err(NoUpperMethod(websiteSource))
  }

  /** The subject shows no lower-case ASCII letter of the source. */
  lemma SubjectSourceInCapitals(isNewClient: bool, s: string)
    ensures var r := Subject(isNewClient, PyStr(s)).value;
      var n := |ClientType(isNewClient) + " - "|;
      forall k :: n <= k < |r| ==> !('a' <= r[k] <= 'z')
  {
  }

  /** What is handed to the provider. */
  datatype Notification = Notification(fromEmail: string, toEmail: string, subject: string, fields: LeadFields)

  /** The provider's answer: an HTTP status, or an exception. */
  datatype ProviderAnswer = Responded(status: int) | ProviderRaised(error: string)

  /** The dictionary the function returns; absent keys are `None`. */
  datatype MailResult = MailResult(
    success: bool, emailSent: bool, error: Option<string>,
    recipient: Option<string>, statusCode: Option<int>, message: Option<string>)

  function Failure(error: string, status: Option<int>): MailResult {
    MailResult(false, false, Some(error), None, status, None)
  }

  /** The result together with the notification actually sent, if any. */
  datatype MailOutcome = MailOutcome(result: MailResult, sent: Option<Notification>)

  /** `process_contact_email_async`. */
  function ProcessContactEmail(env: MailEnv, d: Dict, isNewClient: bool, database: string,
                               answer: ProviderAnswer): (o: MailOutcome)
    ensures o.result.success == o.result.emailSent
    ensures Unset(env.apiKey) ==> o == MailOutcome(Failure(MissingKeyError, None), None)
    ensures !Unset(env.apiKey) && (Unset(env.fromEmail) || Unset(env.toEmail)) ==>
      o == MailOutcome(Failure(MissingAddressError, None), None)
    ensures o.sent.Some? <==>
      !Unset(env.apiKey) && !Unset(env.fromEmail) && !Unset(env.toEmail)
      && ResolveFields(d, database).websiteSource.PyStr?
    ensures o.sent.Some? ==>
      (o.sent.value.fields == ResolveFields(d, database)
       && Subject(isNewClient, ResolveFields(d, database).websiteSource) == Ok(o.sent.value.subject))
    ensures o.result.success <==> o.sent.Some? && answer.Responded? && (answer.status == 200 || answer.status == 202)
    ensures o.result.success ==> o.result.recipient == env.toEmail && o.result.statusCode == Some(answer.status)
    ensures !o.result.success ==> o.result.error.Some? && o.result.recipient == None
  {
    if Unset(env.apiKey) then MailOutcome(Failure(MissingKeyError, None), None)
    else if Unset(env.fromEmail) || Unset(env.toEmail) then MailOutcome(Failure(MissingAddressError, None), None)
    else
      var fields := ResolveFields(d, database);
      match Subject(isNewClient, fields.websiteSource)
      case Err(e) => MailOutcome(Failure(ProviderException + e, None), None)
      case Ok(subject) =>
        var n := Notification(env.fromEmail.value, env.toEmail.value, subject, fields);
        match answer
        case ProviderRaised(e) => MailOutcome(Failure(ProviderException + e, None), Some(n))
        case Responded(status) =>
          if status == 200 || status == 202 then
            MailOutcome(MailResult(true, true, None, env.toEmail, Some(status), Some("Email notification sent successfully")), Some(n))
          else
            MailOutcome(Failure("SendGrid returned status " + IntToString(status), Some(status)), Some(n))
  }

  /** A missing API key decides the result before anything else is looked
      at: the data, the addresses and the provider do not matter. */
  lemma MissingKeyDecidesFirst(env: MailEnv, d: Dict, d2: Dict, isNewClient: bool, isNew2: bool,
                               database: string, database2: string, answer: ProviderAnswer, answer2: ProviderAnswer,
                               fromEmail: Option<string>, toEmail: Option<string>)
    requires Unset(env.apiKey)
    ensures ProcessContactEmail(env, d, isNewClient, database, answer)
         == ProcessContactEmail(MailEnv(env.apiKey, fromEmail, toEmail), d2, isNew2, database2, answer2)
  {
  }

  /** A website source given explicitly as `None` is present, so it does
      not fall back to the database name; the subject then raises and no
      notification is sent, whatever the provider would have answered. */
  lemma NullSourceSendsNothing(env: MailEnv, d: Dict, isNewClient: bool, database: string, answer: ProviderAnswer)
    requires !Unset(env.apiKey) && !Unset(env.fromEmail) && !Unset(env.toEmail)
    requires "website_source" in d && d["website_source"] == PyNone
    ensures var o := ProcessContactEmail(env, d, isNewClient, database, answer);
      o.sent == None && !o.result.success
      && o.result.error == Some(ProviderException + NoneHasNoUpper)
  {
    ChainOfOne(d, "website_source", PyStr(database));
    assert ResolveFields(d, database).websiteSource == PyNone;
    assert Subject(isNewClient, PyNone) == Err(NoneHasNoUpper);
  }
}
