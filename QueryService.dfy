/**
 * The query-only service (Backend/services/query_service.py): it checks the
 * e-mail and the query, saves through the legacy `save_query_data_async`,
 * and sends the notification only after a successful save.
 */
module QueryService {
  import opened Wrappers
  import opened Strings
  import opened PyValues
  import opened ClientModel
  import opened EmailService

  /** The outcome of the field loop: all present, the first field that is
      missing or blank, or the exception `.strip()` raises on a value that
      is not text. */
  datatype FieldCheck = AllPresent | Required(field: string) | StripRaised(error: string)

  /** The message of the `AttributeError` that `.strip()` raises. */
  function NoStripMethod(v: PyValue): string {
    match v
    case PyNone => "'NoneType' object has no attribute 'strip'"
    case PyInt(_) => "'int' object has no attribute 'strip'"
    case PyBool(_) => "'bool' object has no attribute 'strip'"
    case PyStr(_) => ""
  }

  /** The test of one field: absent, or text that strips to nothing, is
      required; a value that is not text raises on `.strip()`. */
  function CheckField(d: Dict, field: string): FieldCheck {
    if field !in d then Required(field)
    else if !d[field].PyStr? then StripRaised(NoStripMethod(d[field]))
    else if PyTrim(d[field].s) == "" then Required(field)
    else AllPresent
  }

  /** The first answer of a sequence of field tests that is not a pass. */
  function FirstRefusal(checks: seq<FieldCheck>): FieldCheck {
    if checks == [] then AllPresent
    else if checks[0] != AllPresent then checks[0]
    else FirstRefusal(checks[1..])
  }

  /** The loop over the required fields with its early returns: the
      fields are tested in order and the first one that does not pass
      decides. */
  function CheckFields(d: Dict, fields: seq<string>): FieldCheck {
    FirstRefusal(seq(|fields|, i requires 0 <= i < |fields| => CheckField(d, fields[i])))
  }

  /** A field passes the loop when it is present text that does not strip
      to nothing (that is, text that is not blank). */
  predicate TextGiven(d: Dict, field: string) {
    field in d && d[field].PyStr? && PyTrim(d[field].s) != ""
  }

  /** A field's test passes exactly when the field is given, and a
      refusal of it names it. */
  lemma CheckFieldMeaning(d: Dict, field: string)
    ensures CheckField(d, field) == AllPresent <==> TextGiven(d, field)
    ensures CheckField(d, field).Required? ==> CheckField(d, field).field == field
  {
  }

  /** A run of tests passes exactly when each test does. */
  lemma {:induction false} FirstRefusalPass(checks: seq<FieldCheck>)
    ensures FirstRefusal(checks) == AllPresent <==> forall i :: 0 <= i < |checks| ==> checks[i] == AllPresent
  {
    if checks != [] && checks[0] == AllPresent {
      FirstRefusalPass(checks[1..]);
      assert forall i :: 0 < i < |checks| ==> checks[i] == checks[1..][i - 1];
    }
  }

  /** A refusal is the answer of some test, after only passing tests. */
  lemma {:induction false} FirstRefusalAt(checks: seq<FieldCheck>) returns (i: int)
    requires FirstRefusal(checks) != AllPresent
    ensures 0 <= i < |checks| && checks[i] == FirstRefusal(checks)
    ensures forall j :: 0 <= j < i ==> checks[j] == AllPresent
  {
    if checks[0] != AllPresent {
      i := 0;
    } else {
      var t := FirstRefusalAt(checks[1..]);
      i := t + 1;
      assert forall j :: 0 < j <= i ==> checks[j] == checks[1..][j - 1];
    }
  }

  /** All fields pass exactly when each is present, non-blank text. */
  lemma CheckFieldsPass(d: Dict, fields: seq<string>)
    ensures CheckFields(d, fields) == AllPresent <==> forall i :: 0 <= i < |fields| ==> TextGiven(d, fields[i])
  {
    var checks := seq(|fields|, i requires 0 <= i < |fields| => CheckField(d, fields[i]));
    assert CheckFields(d, fields) == FirstRefusal(checks);
    FirstRefusalPass(checks);
    forall i | 0 <= i < |fields| ensures checks[i] == AllPresent <==> TextGiven(d, fields[i]) {
      assert checks[i] == CheckField(d, fields[i]);
      CheckFieldMeaning(d, fields[i]);
    }
  }

  /** A refusal names the position of a field that does not pass, after
      only passing fields. */
  lemma CheckFieldsRefusal(d: Dict, fields: seq<string>) returns (i: int)
    requires CheckFields(d, fields).Required?
    ensures 0 <= i < |fields| && fields[i] == CheckFields(d, fields).field && !TextGiven(d, fields[i])
    ensures forall j :: 0 <= j < i ==> TextGiven(d, fields[j])
  {
    var checks := seq(|fields|, i requires 0 <= i < |fields| => CheckField(d, fields[i]));
    assert CheckFields(d, fields) == FirstRefusal(checks);
    i := FirstRefusalAt(checks);
    assert checks[i] == CheckField(d, fields[i]);
    CheckFieldMeaning(d, fields[i]);
    forall j | 0 <= j < i ensures TextGiven(d, fields[j]) {
      assert checks[j] == CheckField(d, fields[j]) == AllPresent;
      CheckFieldMeaning(d, fields[j]);
    }
  }

  /** All fields pass exactly when each is present, non-blank text; a
      refusal names a field that does not, after only passing fields. */
  lemma CheckFieldsMeaning(d: Dict, fields: seq<string>)
    ensures CheckFields(d, fields) == AllPresent <==> forall i :: 0 <= i < |fields| ==> TextGiven(d, fields[i])
    ensures CheckFields(d, fields).Required? ==> exists i ::
      && 0 <= i < |fields| && fields[i] == CheckFields(d, fields).field
      && !TextGiven(d, fields[i])
      && (forall j :: 0 <= j < i ==> TextGiven(d, fields[j]))
  {
    CheckFieldsPass(d, fields);
    if CheckFields(d, fields).Required? {
      var i := CheckFieldsRefusal(d, fields);
    }
  }

  /** The fields the service insists on, in order. */
  const QueryFields := ["email", "query"]

  /** The body of the service's reply. */
  datatype QueryBody = Text(text: string) | ErrorBody(error: string) | MessageBody(message: string)

  /** A reply with its status code, or an exception that escapes. */
  datatype QueryOutcome = Answered(body: QueryBody, code: int) | QueryRaised(error: string)

  /** `submit_query_info_async` for a given save outcome: the field check
      first, then the save's status. */
  function QueryResponse(d: Dict, save: SaveOutcome): (r: QueryOutcome)
    ensures CheckFields(d, QueryFields).Required? ==>
      r == Answered(Text(CheckFields(d, QueryFields).field + " is required."), 400)
    ensures CheckFields(d, QueryFields) == AllPresent && save.Returned? && save.result.status != Success ==>
      r == Answered(ErrorBody("Error inserting query"), 500)
    ensures r.Answered? && r.code == 201 <==>
      CheckFields(d, QueryFields) == AllPresent && save.Returned? && save.result.status == Success
  {
    match CheckFields(d, QueryFields)
    case Required(f) => Answered(Text(f + " is required."), 400)
    case StripRaised(e) => QueryRaised(e)
    case AllPresent =>
      match save
      case Raised(e) => QueryRaised(e)
      case Returned(s) =>
        if s.status != Success then Answered(ErrorBody("Error inserting query"), 500)
        else Answered(MessageBody("Query submitted succesfully"), 201)
  }

  /** A request that fails the field check gets the same reply whatever
      the store would have done: validation comes before any save. */
  lemma ValidationBeforeSave(d: Dict, save: SaveOutcome, save2: SaveOutcome)
    requires CheckFields(d, QueryFields) != AllPresent
    ensures QueryResponse(d, save) == QueryResponse(d, save2)
  {
  }

  /** The e-mail is checked before the query: a request missing both is
      refused for its e-mail. */
  lemma EmailCheckedFirst(d: Dict)
    requires "email" !in d
    ensures QueryResponse(d, Raised("")) == Answered(Text("email is required."), 400)
  {
    assert QueryFields[0] == "email";
    assert CheckFields(d, QueryFields) == Required("email");
    assert "email" + " is required." == "email is required.";
  }

  /** `submit_query_info_async`. The notification goes out, with the
      default new-client flag and database name, only after a successful
      save; the store is untouched unless the field check passes, and then
      holds the tables the save leaves. */
  method SubmitQueryInfo(store: ClientStore, d: Dict, checkFailure: Option<string>, write: WriteOutcome,
                         now: int, env: MailEnv, answer: ProviderAnswer)
    returns (r: QueryOutcome, sent: Option<Notification>)
    modifies store
    requires store.Valid() && TextFields(d)
    ensures store.Valid()
    ensures CheckFields(d, QueryFields) != AllPresent ==>
      && r == QueryResponse(d, Raised(""))
      && sent == None
      && store.clientinfo == old(store.clientinfo) && store.clientquery == old(store.clientquery)
    ensures CheckFields(d, QueryFields) == AllPresent ==>
      var save := SaveResponse(store.env, old(store.clientinfo), d, checkFailure, write);
      && r == QueryResponse(d, save)
      && (store.clientinfo, store.clientquery) ==
           SavedTables(store.env, old(store.clientinfo), old(store.clientquery), d, checkFailure, write, now)
      && sent == (if r.Answered? && r.code == 201 then ProcessContactEmail(env, d, false, "unknown", answer).sent else None)
  {
    if CheckFields(d, QueryFields) != AllPresent {
      return QueryResponse(d, Raised("")), None;
    }
    var save := store.SaveClient(d, checkFailure, write, now);
    r := QueryResponse(d, save);
    if r.Answered? && r.code == 201 {
      var mail := ProcessContactEmail(env, d, false, "unknown", answer);
      sent := mail.sent;
    } else {
      sent := None;
    }
  }
}
