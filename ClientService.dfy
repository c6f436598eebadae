/**
 * The submission service (Backend/services/client_service.py): it saves the
 * lead, sends the notification only after a successful save, and combines
 * the two outcomes into one status; the listing is passed through.
 */
module ClientService {
  import opened Wrappers
  import opened PyValues
  import opened ClientModel
  import opened EmailService

  /** `success`, `partial_success`, `error`, and the `duplicate` status the
      controller also tests for. */
  datatype ServiceStatus = StatusSuccess | StatusPartial | StatusError | StatusDuplicate

  /** The dictionary `submit_client_info` returns; absent keys are `None`.
      Timestamps are not modelled. */
  datatype ServiceResult = ServiceResult(
    status: ServiceStatus, message: string, database: Option<string>,
    emailSent: Option<bool>, clientSaved: Option<bool>, isNewClient: Option<bool>,
    emailError: Option<string>, recipient: Option<string>)

  /** `email_sent or success`. */
  predicate MailDelivered(m: MailResult) {
    m.emailSent || m.success
  }

  /** The database name the save reported, as passed to the notification. */
  function SavedDatabase(s: SaveResult): string {
    s.database.GetOr("unknown")
  }

  /** The result for a save outcome and, after a successful save, the
      notification's result. */
  function Combine(save: SaveOutcome, mail: MailResult): (r: ServiceResult)
    ensures r.status != StatusDuplicate
    ensures r.status == StatusSuccess <==> save.Returned? && save.result.status == Success && MailDelivered(mail)
    ensures r.status == StatusPartial <==> save.Returned? && save.result.status == Success && !MailDelivered(mail)
    ensures r.clientSaved == Some(true) <==> save.Returned? && save.result.status == Success
    ensures save.Returned? && save.result.status != Success ==>
      r.clientSaved == Some(false) && r.message == save.result.message && r.emailSent == None
    ensures r.status == StatusPartial ==> r.emailSent == Some(false) && r.emailError.Some?
    ensures r.status == StatusSuccess ==> r.emailSent == Some(true)
    ensures save.Returned? && save.result.status == Success ==>
      r.isNewClient == Some(save.result.isNewClient.GetOr(false)) && r.database == Some(SavedDatabase(save.result))
  {
    match save
    case Raised(e) =>
      ServiceResult(StatusError, "Internal server error: " + e, None, None, None, None, None, None)
    case Returned(s) =>
      if s.status != Success then
        ServiceResult(StatusError, s.message, Some(SavedDatabase(s)), None, Some(false), None, None, None)
      else if !MailDelivered(mail) then
        ServiceResult(StatusPartial, "Client data saved but email notification failed", Some(SavedDatabase(s)),
          Some(false), Some(true), Some(s.isNewClient.GetOr(false)),
          Some(mail.error.GetOr(mail.message.GetOr("Unknown email error"))), None)
      else
        ServiceResult(StatusSuccess, "Client information submitted successfully", Some(SavedDatabase(s)),
          Some(true), Some(true), Some(s.isNewClient.GetOr(false)), None, Some(mail.recipient.GetOr("unknown")))
  }

  /** Whether `submit_client_info` calls the notification at all. */
  predicate Notifies(save: SaveOutcome) {
    save.Returned? && save.result.status == Success
  }

  /** The notification call after a successful save: the raw submission,
      with the save's new-client flag and database name. */
  function Notify(env: MailEnv, data: Dict, s: SaveResult, answer: ProviderAnswer): MailOutcome {
    ProcessContactEmail(env, data, s.isNewClient.GetOr(false), SavedDatabase(s), answer)
  }

  /** `submit_client_info` for a given save outcome. */
  function Submitted(save: SaveOutcome, env: MailEnv, data: Dict, answer: ProviderAnswer): ServiceResult {
    if Notifies(save) then Combine(save, Notify(env, data, save.result, answer).result)
    else Combine(save, Failure("", None))
  }

  /** A failed save decides the result alone: the mail configuration and
      the provider are never consulted, and the client is reported unsaved
      with the save's own message. */
  lemma FailedSaveIgnoresMail(save: SaveOutcome, env: MailEnv, env2: MailEnv, data: Dict,
                              answer: ProviderAnswer, answer2: ProviderAnswer)
    requires !Notifies(save)
    ensures Submitted(save, env, data, answer) == Submitted(save, env2, data, answer2)
    ensures Submitted(save, env, data, answer).status == StatusError
    ensures Submitted(save, env, data, answer).clientSaved != Some(true)
  {
  }

  /** The service never reports `duplicate`: a duplicate save is folded
      into `error`, so the controller's 409 branch cannot be reached
      through it. */
  lemma DuplicateBecomesError(save: SaveOutcome, env: MailEnv, data: Dict, answer: ProviderAnswer)
    requires save.Returned? && save.result.status == Duplicate
    ensures Submitted(save, env, data, answer).status == StatusError
    ensures Submitted(save, env, data, answer).message == save.result.message
  {
  }

  /** After a successful save with a working mail configuration and a
      provider that accepts the message, the submission succeeds
      outright. */
  lemma SavedAndAcceptedIsSuccess(s: SaveResult, env: MailEnv, data: Dict, status: int)
    requires s.status == Success
    requires !Unset(env.apiKey) && !Unset(env.fromEmail) && !Unset(env.toEmail)
    requires ResolveFields(data, SavedDatabase(s)).websiteSource.PyStr?
    requires status == 200 || status == 202
    ensures Submitted(Returned(s), env, data, Responded(status)).status == StatusSuccess
    ensures Submitted(Returned(s), env, data, Responded(status)).recipient == Some(env.toEmail.value)
  {
  }

  /** `submit_client_info`: the save, then the notification only when the
      save succeeded. The tables are those the save leaves, and what is
      sent is the notification for the raw submission with the save's
      new-client flag and database name. */
  method SubmitClientInfo(store: ClientStore, data: Dict, checkFailure: Option<string>, write: WriteOutcome,
                          now: int, env: MailEnv, answer: ProviderAnswer)
    returns (r: ServiceResult, sent: Option<Notification>)
    modifies store
    requires store.Valid() && TextFields(data)
    ensures store.Valid()
    ensures (store.clientinfo, store.clientquery) ==
      SavedTables(store.env, old(store.clientinfo), old(store.clientquery), data, checkFailure, write, now)
    ensures var save := SaveResponse(store.env, old(store.clientinfo), data, checkFailure, write);
      && r == Submitted(save, env, data, answer)
      && sent == (if Notifies(save) then Notify(env, data, save.result, answer).sent else None)
  {
    var save := store.SaveClient(data, checkFailure, write, now);
    if !Notifies(save) {
      return Combine(save, Failure("", None)), None;
    }
    var mail := Notify(env, data, save.result, answer);
    r := Combine(save, mail.result);
    sent := mail.sent;
  }

  /** `get_clients_info`: the model's answer, unchanged. */
  method GetClientsInfo(env: map<string, string>, dbKey: string, filters: seq<(string, string)>,
                        limit: int, offset: int, answer: Result<(seq<Dict>, int), string>)
    returns (r: ClientsResult)
    ensures r == ClientsResponse(env, dbKey, answer)
  {
    var sentQuery;
    r, sentQuery := GetClients(env, dbKey, filters, limit, offset, answer);
  }
}
