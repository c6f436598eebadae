/**
 * The `mailto:` links both application components build: the recipient, then
 * a query of two header fields, `subject` and `body`, whose values have been
 * percent-encoded (section 2 of RFC 6068). The encoder is the browser's
 * `encodeURIComponent` and enters as a parameter.
 */
module Mailto {
  import opened Strings

  /** The recruitment mailbox both components write to. */
  const HrEmail := "careers@nordisksupport.com"

  /** `mailto:${to}?subject=${enc(subject)}&body=${enc(body)}`. */
  function MailtoLink(to: string, subject: string, body: string, enc: string -> string): string {
    "mailto:" + to + "?subject=" + enc(subject) + "&body=" + enc(body)
  }

  /** A value that cannot end a header field or start a new one, as is
      true of everything `encodeURIComponent` returns. */
  predicate QuerySafe(v: string) {
    '&' !in v && '?' !in v && '=' !in v
  }

  /** A link read back: the recipient and the two still-encoded values. */
  datatype ParsedLink = NotALink | Link(to: string, subject: string, body: string)

  /** The recipient and the two raw field values of a link, when the link
      has exactly the shape `mailto:<to>?subject=<s>&body=<b>`. */
  function ParseMailto(link: string): ParsedLink
  {
    var halves := Split(link, '?');
    if |halves| != 2 || !StartsWith(halves[0], "mailto:") then NotALink
    else
      var fields := Split(halves[1], '&');
      if |fields| != 2 || !StartsWith(fields[0], "subject=") || !StartsWith(fields[1], "body=") then NotALink
      else Link(halves[0][7..], fields[0][8..], fields[1][5..])
  }

  /** Reading a built link back gives its recipient and the two encoded
      values, whenever the encoder keeps the query's delimiters out. */
  lemma ParseMailtoLink(to: string, subject: string, body: string, enc: string -> string)
    requires '?' !in to && '&' !in to
    requires QuerySafe(enc(subject)) && QuerySafe(enc(body))
    ensures ParseMailto(MailtoLink(to, subject, body, enc)) == Link(to, enc(subject), enc(body))
  {
    var es, eb := enc(subject), enc(body);
    var head := "mailto:" + to;
    var f1, f2 := "subject=" + es, "body=" + eb;
    var query := f1 + "&" + f2;
    LinkPieces(to, es, eb);
    SplitTwo(head, query, '?');
    SplitTwo(f1, f2, '&');
    assert head[7..] == to && f1[8..] == es && f2[5..] == eb;
  }

  /** How a link is assembled from its recipient and two field values. */
  lemma LinkPieces(to: string, es: string, eb: string)
    requires '?' !in to && '&' !in to && QuerySafe(es) && QuerySafe(eb)
    ensures "mailto:" + to + "?subject=" + es + "&body=" + eb
      == ("mailto:" + to) + ['?'] + (("subject=" + es) + ['&'] + ("body=" + eb))
    ensures '?' !in "mailto:" + to && '?' !in ("subject=" + es) + ['&'] + ("body=" + eb)
    ensures '&' !in "subject=" + es && '&' !in "body=" + eb
    ensures StartsWith("mailto:" + to, "mailto:") && StartsWith("subject=" + es, "subject=") && StartsWith("body=" + eb, "body=")
  {
  }
}
