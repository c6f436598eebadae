/**
 * The IT-support contact page (itsupport/Contact.tsx): it derives the
 * `website_source` sent to the backend from the location, titles the page by
 * it, and checks a typed e-mail address against the backend through a
 * debounced request whose answer decides whether the name fields are shown.
 */
module ContactPage {
  import opened Wrappers
  import opened Strings
  import opened SiteRegistry
  import opened Paths

  /** What one non-empty, lower-cased first segment maps to. */
  function SegmentSource(seg: string): string {
    if Contains(seg, "itsupport") || Contains(seg, "it-support") then "itsupport"
    else if Contains(seg, "software") then "software"
    else if Contains(seg, "guidance") then "guidance"
    else seg
  }

  /** `getWebsiteSource`: the first non-empty segment of the lower-cased
      pathname, mapped by `SegmentSource`, or `itsupport` when there is none. */
  function WebsiteSource(pathname: string): string {
    var segs := NonEmpty(Split(Lower(pathname), '/'));
    if |segs| > 0 then SegmentSource(segs[0]) else "itsupport"
  }

  /** The source is never empty, holds no '/' and no upper-case letter: it is
      one of the three database names or a lower-cased path segment. */
  lemma WebsiteSourceShape(pathname: string)
    ensures var r := WebsiteSource(pathname);
      && r != "" && '/' !in r && Lower(r) == r
      && (r in {"itsupport", "software", "guidance"} || r in NonEmpty(Split(Lower(pathname), '/')))
  {
    var low := Lower(pathname);
    var parts := Split(low, '/');
    var segs := NonEmpty(parts);
    if |segs| > 0 {
      LowerHasNoUpper(pathname);
      SplitHasNoUpper(low, '/');
      assert segs[0] in parts;
      SegmentSourceShape(segs[0]);
    } else {
      NoUpperIsLower("itsupport");
    }
  }

  lemma SegmentSourceShape(seg: string)
    requires seg != "" && '/' !in seg && NoUpper(seg)
    ensures var r := SegmentSource(seg);
      r != "" && '/' !in r && Lower(r) == r && (r in {"itsupport", "software", "guidance"} || r == seg)
  {
    var r := SegmentSource(seg);
    assert NoUpper(r);
    NoUpperIsLower(r);
  }

  /** Splitting a string without upper-case letters gives pieces without them. */
  lemma {:induction false} SplitHasNoUpper(s: string, sep: char)
    requires NoUpper(s)
    ensures forall j :: 0 <= j < |Split(s, sep)| ==> NoUpper(Split(s, sep)[j])
    decreases |s|
  {
    if sep in s {
      var i := IndexOf(s, sep);
      SplitHasNoUpper(s[i + 1..], sep);
      assert Split(s, sep) == [s[..i]] + Split(s[i + 1..], sep);
    }
  }

  lemma LowerKeyName(k: SiteKey)
    ensures Lower(KeyName(k)) == KeyName(k)
  {
    match k
    case Software =>
    case Guidance =>
    case ItSupport =>
    case FlowSupport =>
  }

  /** Each brand key maps to itself; `flowsupport` matches none of the three
      patterns and is passed through as is. */
  lemma SegmentSourceOfKey(k: SiteKey)
    ensures SegmentSource(KeyName(k)) == KeyName(k)
  {
    match k
    case Software =>
      NoOccurrence("software", "itsupport");
      NoOccurrence("software", "it-support");
      assert OccursAt("software", "software", 0);
    case Guidance =>
      NoOccurrence("guidance", "itsupport");
      NoOccurrence("guidance", "it-support");
      NoOccurrence("guidance", "software");
      assert OccursAt("guidance", "guidance", 0);
    case ItSupport =>
      assert OccursAt("itsupport", "itsupport", 0);
    case FlowSupport =>
      NoOccurrence("flowsupport", "itsupport");
      NoOccurrence("flowsupport", "it-support");
      NoOccurrence("flowsupport", "software");
      NoOccurrence("flowsupport", "guidance");
  }

  /** On any page of a brand the contact form reports that brand's key. */
  lemma WebsiteSourceOfBrandPath(k: SiteKey, page: string)
    requires '/' !in page
    ensures WebsiteSource(BrandPath(k, page)) == KeyName(k)
  {
    var low := Lower(page);
    LowerBrandPath(k, page);
    LowerKeepsSlashes(page);
    KeyNameHasNoSlash(k);
    BrandPathJoin(k, low);
    SplitJoin(BrandParts(k, low), '/');
    var parts := BrandParts(k, low);
    assert parts[1..] == (if low == "" then [KeyName(k)] else [KeyName(k), low]);
    assert NonEmpty(parts) == NonEmpty(parts[1..]);
    SegmentSourceOfKey(k);
  }

  /** A pathname with no non-empty segment gives `itsupport`. */
  lemma WebsiteSourceOfRoot()
    ensures WebsiteSource("/") == "itsupport"
    ensures WebsiteSource("") == "itsupport"
  {
    assert Split("", '/') == [""];
    SplitJoin(["", ""], '/');
    assert Join(["", ""], '/') == "/";
    assert Lower("/") == "/";
  }

  /** `getPageTitle`. */
  function PageTitle(source: string): (r: string)
    ensures r == "Contact Us" <==> source !in {"itsupport", "software", "guidance"}
  {
    if source == "itsupport" then "IT Support Contact"
    else if source == "software" then "Software Solutions Contact"
    else if source == "guidance" then "Guidance Contact"
    else "Contact Us"
  }

  /** The flow-support brand's contact page gets the generic title. */
  lemma PageTitleOfBrand(k: SiteKey, page: string)
    requires '/' !in page
    ensures PageTitle(WebsiteSource(BrandPath(k, page))) == "Contact Us" <==> k == FlowSupport
  {
    WebsiteSourceOfBrandPath(k, page);
  }

  /** The e-mail check's state; `known` is `exists`, `None` for JavaScript's `null`. */
  datatype EmailStatus = EmailStatus(checking: bool, known: Option<bool>, valid: bool, error: Option<string>)

  const InitialStatus := EmailStatus(false, None, false, None)

  const CheckFailedText := "Email check failed. Please try again."

  /** `getEmailBorderColor`: green for a known address, then blue for a
      checked one, red for any other typed text, grey for an empty field. */
  function EmailBorderColor(status: EmailStatus, email: string): (r: string)
    ensures r == "#28a745" <==> status.known == Some(true)
    ensures r == "#2575fc" <==> status.known != Some(true) && status.valid
    ensures r == "#dc3545" <==> status.known != Some(true) && !status.valid && email != ""
    ensures r == "#ccc" <==> status.known != Some(true) && !status.valid && email == ""
  {
    if status.known == Some(true) then "#28a745"
    else if status.valid then "#2575fc"
    else if email != "" then "#dc3545"
    else "#ccc"
  }

  /** The guard under which a check is scheduled, on the untrimmed text. */
  predicate ShouldSchedule(email: string) {
    email != "" && '@' in email && '.' in email && |email| > 5
  }

  /** The guard under which a fired check goes on, on the trimmed text; the
      same test resets the name fields to visible. */
  predicate LooksLikeEmail(trimmed: string) {
    trimmed != "" && '@' in trimmed && '.' in trimmed
  }

  /** A scheduled check never stops at its own guard: trimming cannot remove
      the '@' or the '.' that made it scheduled. */
  lemma ScheduledCheckProceeds(email: string)
    requires ShouldSchedule(email)
    ensures LooksLikeEmail(Trim(email))
  {
    var t := Trim(email);
    assert !IsSpace('@') && !IsSpace('.');
    TrimKeeps(email, '@');
    TrimKeeps(email, '.');
    assert '@' in t && '.' in t;
  }

  /** A well-formed address of five characters is never checked. */
  lemma ShortAddressNotChecked()
    ensures LooksLikeEmail("a@b.c") && !ShouldSchedule("a@b.c")
  {
    assert "a@b.c"[1] == '@' && "a@b.c"[3] == '.';
  }

  /** The check the timer slot holds: the e-mail and source its closure saw. */
  datatype PendingCheck = PendingCheck(email: string, source: string)

  /** The request a fired check sends; `source` is present when non-empty. */
  datatype CheckRequest = CheckRequest(email: string, source: Option<string>)

  /** What the backend's answer turned into: `Boolean(data.exists)` and
      `data.error`, or a failed or non-OK request. */
  datatype CheckResult = Answered(found: bool, error: Option<string>) | CheckFailed

  /** The timer slot after the check effect has run: any earlier timer is
      cleared, and a new one is set only when the guard holds. */
  function Scheduled(email: string, source: string): (r: Option<PendingCheck>)
    ensures r.Some? <==> ShouldSchedule(email)
  {
    if ShouldSchedule(email) then Some(PendingCheck(email, source)) else None
  }

  /** The state after an answer. */
  function StatusAfter(result: CheckResult): (r: EmailStatus)
    ensures !r.checking
    ensures r.valid <==> result.Answered?
    ensures r.known.None? <==> result.CheckFailed?
    ensures result.CheckFailed? ==> r.error == Some(CheckFailedText)
  {
    match result
    case Answered(found, error) => EmailStatus(false, Some(found), true, error)
    case CheckFailed => EmailStatus(false, None, false, Some(CheckFailedText))
  }

  /** After a failed check the field is red while it holds text; after an
      answer it is green for a known address and blue for a new one. */
  lemma BorderAfterCheck(result: CheckResult, email: string)
    ensures result.CheckFailed? ==> EmailBorderColor(StatusAfter(result), email) == (if email == "" then "#ccc" else "#dc3545")
    ensures result.Answered? ==> EmailBorderColor(StatusAfter(result), email) == (if result.found then "#28a745" else "#2575fc")
  {
  }

  /** The contact form's fields; only the e-mail and the source take part in
      the page's logic. */
  datatype ContactFields = ContactFields(
    clientfname: string, clientlname: string, email: string,
    countrycode: string, mobile: string, query: string, websiteSource: string)

  function InitialFields(source: string): ContactFields {
    ContactFields("", "", "", "+45", "", "", source)
  }

  /** The component's state: the form, the check status, whether the name
      fields are shown, and the debounce timer's single slot. */
  class ContactForm {
    var form: ContactFields
    var status: EmailStatus
    var showAllFields: bool
    var pending: Option<PendingCheck>

    /** Mounting at `pathname`: the source effect writes the same source
        again, the e-mail is empty so no check is scheduled. */
    constructor (pathname: string)
      ensures form == InitialFields(WebsiteSource(pathname))
      ensures status == InitialStatus && showAllFields && pending == None
    {
      form := InitialFields(WebsiteSource(pathname));
      status := InitialStatus;
      showAllFields := true;
      pending := None;
    }

    /** An e-mail value and the two effects keyed on it. React re-runs an
        effect only when a dependency changed, so the same address again
        leaves the visibility and the timer slot as they were. */
    method SetEmail(email: string)
      modifies this
      ensures form == old(form).(email := email)
      ensures email == old(form.email) ==> showAllFields == old(showAllFields) && pending == old(pending)
      ensures email != old(form.email) ==>
        && showAllFields == (if LooksLikeEmail(Trim(email)) then old(showAllFields) else true)
        && pending == Scheduled(email, form.websiteSource)
      ensures status == old(status)
    {
      if email != form.email {
        form := form.(email := email);
        ResetVisibility();
        Reschedule();
      }
    }

    /** The effect that shows the name fields again for an implausible address. */
    method ResetVisibility()
      modifies this
      ensures showAllFields == (if LooksLikeEmail(Trim(form.email)) then old(showAllFields) else true)
      ensures form == old(form) && status == old(status) && pending == old(pending)
    {
      if !LooksLikeEmail(Trim(form.email)) {
        showAllFields := true;
      }
    }

    /** The check effect: clear the timer, then set one when the guard holds. */
    method Reschedule()
      modifies this
      ensures pending == Scheduled(form.email, form.websiteSource)
      ensures form == old(form) && status == old(status) && showAllFields == old(showAllFields)
    {
      pending := None;
      if ShouldSchedule(form.email) {
        pending := Some(PendingCheck(form.email, form.websiteSource));
      }
    }

    /** A location change: the source is derived again, and the check effect
        re-runs only when the source actually changed. */
    method SetLocation(pathname: string)
      modifies this
      ensures form == old(form).(websiteSource := WebsiteSource(pathname))
      ensures pending == if form.websiteSource == old(form.websiteSource) then old(pending) else Scheduled(form.email, form.websiteSource)
      ensures status == old(status) && showAllFields == old(showAllFields)
    {
      var source := WebsiteSource(pathname);
      var changed := source != form.websiteSource;
      form := form.(websiteSource := source);
      if changed {
        Reschedule();
      }
    }

    /** The timer fires: the slot empties; the check stops at its guard or
        marks the status as checking and sends its request. */
    method FireTimer() returns (request: Option<CheckRequest>)
      requires pending.Some?
      modifies this
      ensures pending == None && form == old(form) && showAllFields == old(showAllFields)
      ensures var email := Trim(old(pending).value.email);
        && (request.Some? <==> LooksLikeEmail(email))
        && (request.Some? ==>
              && request.value.email == email
              && request.value.source == (if old(pending).value.source != "" then Some(old(pending).value.source) else None)
              && status == old(status).(checking := true))
        && (request.None? ==> status == old(status))
    {
      var check := pending.value;
      pending := None;
      var email := Trim(check.email);
      if !LooksLikeEmail(email) {
        return None;
      }
      status := status.(checking := true);
      var source := if check.source != "" then Some(check.source) else None;
      request := Some(CheckRequest(email, source));
    }

    /** The answer arrives: the status is replaced, and a known address hides
        the name fields. */
    method Receive(result: CheckResult)
      modifies this
      ensures status == StatusAfter(result)
      ensures showAllFields == (if result.Answered? && result.found then false else old(showAllFields))
      ensures form == old(form) && pending == old(pending)
    {
      match result
      case Answered(found, error) =>
        status := EmailStatus(false, Some(found), true, error);
        if found {
          showAllFields := false;
        }
      case CheckFailed =>
        status := EmailStatus(false, None, false, Some(CheckFailedText));
    }
  }

  /** A scheduled check that fires sends its request, with the trimmed
      address. */
  method ScheduleThenFire(c: ContactForm, email: string) returns (request: Option<CheckRequest>)
    requires ShouldSchedule(email) && email != c.form.email
    modifies c
    ensures request.Some? && request.value.email == Trim(email)
    ensures c.pending == None
  {
    c.SetEmail(email);
    ScheduledCheckProceeds(email);
    request := c.FireTimer();
  }
}
