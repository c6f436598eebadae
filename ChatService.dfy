/**
 * The chat client (services/chatService.ts): one POST to the chat endpoint,
 * whose reply text is cleaned of surrounding quotes and whitespace. The
 * fetch itself is I/O: its outcome enters as a parameter.
 */
module ChatService {
  import opened Wrappers
  import opened Strings

  /** A character of the class `["'\s]`. */
  predicate QuoteOrSpace(c: char) {
    c == '"' || c == '\'' || IsSpace(c)
  }

  /** `replace(/^["'\s]+|["'\s]+$/g, '').trim()`. */
  function CleanReply(body: string): string {
    Trim(Strip(body, QuoteOrSpace))
  }

  /** The cleaned reply is a contiguous piece of the body that neither
      starts nor ends with a quote or whitespace, and only quotes and
      whitespace were cut from either end. */
  lemma CleanReplyShape(body: string)
    ensures CutFrom(body, CleanReply(body), QuoteOrSpace)
    ensures var r := CleanReply(body); r != [] ==> !QuoteOrSpace(r[0]) && !QuoteOrSpace(r[|r| - 1])
  {
    StripWithoutTrim(body);
    StripShape(body, QuoteOrSpace);
  }

  /** After the quote strip the final `trim()` has nothing left to remove. */
  lemma StripWithoutTrim(body: string)
    ensures CleanReply(body) == Strip(body, QuoteOrSpace)
  {
    var s := Strip(body, QuoteOrSpace);
    StripShape(body, QuoteOrSpace);
    StripUnchanged(s, IsSpace);
  }

  /** Cleaning an already cleaned reply changes nothing. */
  lemma CleanReplyIdempotent(body: string)
    ensures CleanReply(CleanReply(body)) == CleanReply(body)
  {
    StripWithoutTrim(body);
    StripWithoutTrim(Strip(body, QuoteOrSpace));
    StripIdempotent(body, QuoteOrSpace);
  }

  /** A body made only of quotes and whitespace cleans to the empty text. */
  lemma OnlyQuotesCleanToEmpty(body: string)
    requires forall k :: 0 <= k < |body| ==> QuoteOrSpace(body[k])
    ensures CleanReply(body) == ""
  {
    StripAllDropped(body, QuoteOrSpace);
  }

  /** The HTTP response, when the fetch completed at all. */
  datatype Response = Response(ok: bool, status: int, text: string)

  const ConnectError := "Unable to connect to backend"

  /** `sendChatMessage`: `None` is a fetch that threw. Every failure, a
      non-OK status included, surfaces as the one connection error. */
  function SendChatMessage(outcome: Option<Response>): (r: Result<string, string>)
    ensures r.Err? <==> outcome.None? || !outcome.value.ok
    ensures r.Err? ==> r.error == ConnectError
    ensures r.Ok? ==> r.value == CleanReply(outcome.value.text)
  {
    match outcome
    case None => Err(ConnectError)
    case Some(resp) =>
      if !resp.ok then Err(ConnectError) else Ok(CleanReply(resp.text))
  }
}
