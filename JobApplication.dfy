/**
 * The job application dialog (itsupport/JobApplicationForm.tsx): a form of
 * text fields and a terms checkbox, validated field by field into a map of
 * error messages, then sent as a `mailto:` link to the recruitment mailbox.
 */
module JobApplication {
  import opened Wrappers
  import opened Strings
  import opened Mailto

  /** The text fields of the form, keyed by their input names. */
  type Fields = map<string, string>

  /** A field's text; every input name the form renders is always present. */
  function Get(fields: Fields, name: string): string {
    if name in fields then fields[name] else ""
  }

  /** The initial values: a 30-day notice period, `Website` as the referral
      source, every other text field empty. */
  function DefaultFields(): Fields {
    map[
      "full_name" := "", "email" := "", "phone" := "",
      "current_company" := "", "current_position" := "",
      "linkedin_url" := "", "portfolio_url" := "", "cover_letter" := "",
      "salary_expectation" := "", "notice_period" := "30", "referral_source" := "Website"]
  }

  /** A character the pattern's `[^\s@]` class accepts. */
  predicate PlainChar(c: char) {
    !IsSpace(c) && c != '@'
  }

  predicate Plain(s: string) {
    forall k :: 0 <= k < |s| ==> PlainChar(s[k])
  }

  /** The pattern `^[^\s@]+@[^\s@]+\.[^\s@]+$`: a non-empty local part, '@',
      a non-empty piece, '.', and a non-empty tail, none holding '@' or
      whitespace. */
  ghost predicate MatchesEmailPattern(s: string) {
    exists i, j :: 0 < i && i + 1 < j && j + 1 < |s| && s[i] == '@' && s[j] == '.'
      && Plain(s[..i]) && Plain(s[i + 1..j]) && Plain(s[j + 1..])
  }

  /** The regular expression's test: the first '@' opens a non-empty local
      part, no further '@' or whitespace follows, and a '.' sits strictly
      inside what comes after the '@'. */
  predicate EmailPatternTest(s: string) {
    && '@' in s
    && var i := IndexOf(s, '@');
    && 0 < i && i + 3 <= |s|
    && Plain(s[..i]) && Plain(s[i + 1..])
    && '.' in s[i + 2..|s| - 1]
  }

  /** The first occurrence is the only one before it. */
  lemma IndexOfFirst(s: string, c: char, i: int)
    requires 0 <= i < |s| && s[i] == c && c !in s[..i]
    ensures c in s && IndexOf(s, c) == i
  {
    var f := IndexOf(s, c);
    assert s[..f + 1][f] == c;
  }

  /** The test accepts exactly the strings the pattern matches. */
  lemma EmailPatternTestCorrect(s: string)
    ensures EmailPatternTest(s) <==> MatchesEmailPattern(s)
  {
    if EmailPatternTest(s) {
      TestImpliesPattern(s);
    }
    if MatchesEmailPattern(s) {
      var i, j :| 0 < i && i + 1 < j && j + 1 < |s| && s[i] == '@' && s[j] == '.'
        && Plain(s[..i]) && Plain(s[i + 1..j]) && Plain(s[j + 1..]);
      PatternImpliesTest(s, i, j);
    }
  }

  lemma TestImpliesPattern(s: string)
    requires EmailPatternTest(s)
    ensures MatchesEmailPattern(s)
  {
    var i := IndexOf(s, '@');
    var mid := s[i + 2..|s| - 1];
    var d :| 0 <= d < |mid| && mid[d] == '.';
    var j := i + 2 + d;
    assert s[j] == '.';
    var rest := s[i + 1..];
    assert Plain(rest);
    var domain, tail := s[i + 1..j], s[j + 1..];
    forall k | 0 <= k < |domain| ensures PlainChar(domain[k]) {
      assert domain[k] == rest[k];
    }
    forall k | 0 <= k < |tail| ensures PlainChar(tail[k]) {
      assert tail[k] == rest[k + j - i];
    }
  }

  lemma PatternImpliesTest(s: string, i: int, j: int)
    requires 0 < i && i + 1 < j && j + 1 < |s| && s[i] == '@' && s[j] == '.'
    requires Plain(s[..i]) && Plain(s[i + 1..j]) && Plain(s[j + 1..])
    ensures EmailPatternTest(s)
  {
    forall k | 0 <= k < i ensures s[..i][k] != '@' {
      assert PlainChar(s[..i][k]);
    }
    IndexOfFirst(s, '@', i);
    var rest := s[i + 1..];
    forall k | 0 <= k < |rest| ensures PlainChar(rest[k]) {
      if i + 1 + k < j {
        assert rest[k] == s[i + 1..j][k];
      } else if i + 1 + k > j {
        assert rest[k] == s[j + 1..][i + k - j];
      }
    }
    assert s[i + 2..|s| - 1][j - i - 2] == '.';
  }

  /** The address is tested as typed, so surrounding spaces fail the
      pattern even though the address is not blank. */
  lemma PaddedAddressRejected()
    ensures !Blank(" a@b.co") && !EmailPatternTest(" a@b.co")
  {
    var s := " a@b.co";
    assert s[0] == ' ' && s[2] == '@';
    assert '@' !in s[..2];
    IndexOfFirst(s, '@', 2);
    assert !PlainChar(s[..2][0]);
    assert !IsSpace(s[1]);
  }

  const FullNameRequired := "Full name is required"
  const EmailRequired := "Email is required"
  const EmailInvalid := "Enter a valid email address"
  const PhoneRequired := "Phone number is required"
  const CoverLetterRequired := "Cover letter is required"
  const TermsRequired := "You must agree to the terms"

  /** The fields `validateForm` can flag. */
  function CheckedFields(): set<string> {
    {"full_name", "email", "phone", "cover_letter", "agree_to_terms"}
  }

  /** The message `validateForm` records for the e-mail field, if any: the
      "required" message takes precedence over the format message. */
  function EmailError(email: string): Option<string> {
    if Blank(email) then Some(EmailRequired)
    else if !EmailPatternTest(email) then Some(EmailInvalid)
    else None
  }

  /** The error map built from the outcome of each check. */
  function ErrorsOf(nameBlank: bool, emailError: Option<string>, phoneBlank: bool, coverBlank: bool, agree: bool): map<string, string> {
    var e1 := if nameBlank then map["full_name" := FullNameRequired] else map[];
    var e2 := match emailError case Some(m) => e1["email" := m] case None => e1;
    var e3 := if phoneBlank then e2["phone" := PhoneRequired] else e2;
    var e4 := if coverBlank then e3["cover_letter" := CoverLetterRequired] else e3;
    if !agree then e4["agree_to_terms" := TermsRequired] else e4
  }

  /** Each check adds its own key, with its own message, and nothing else. */
  lemma ErrorsOfKeys(nameBlank: bool, emailError: Option<string>, phoneBlank: bool, coverBlank: bool, agree: bool)
    ensures var e := ErrorsOf(nameBlank, emailError, phoneBlank, coverBlank, agree);
      && e.Keys <= CheckedFields()
      && ("full_name" in e <==> nameBlank)
      && ("email" in e <==> emailError.Some?)
      && ("email" in e ==> e["email"] == emailError.value)
      && ("phone" in e <==> phoneBlank)
      && ("cover_letter" in e <==> coverBlank)
      && ("agree_to_terms" in e <==> !agree)
      && (e == map[] <==> !nameBlank && emailError.None? && !phoneBlank && !coverBlank && agree)
  {
    var e := ErrorsOf(nameBlank, emailError, phoneBlank, coverBlank, agree);
    if !agree {
      assert "agree_to_terms" in e;
    }
  }

  /** The errors `validateForm` collects for a form. */
  function ValidationErrors(fields: Fields, agree: bool): map<string, string> {
    ErrorsOf(Blank(Get(fields, "full_name")), EmailError(Get(fields, "email")),
      Blank(Get(fields, "phone")), Blank(Get(fields, "cover_letter")), agree)
  }

  /** The conditions the form must meet. */
  predicate FormValid(fields: Fields, agree: bool) {
    && !Blank(Get(fields, "full_name"))
    && !Blank(Get(fields, "email")) && EmailPatternTest(Get(fields, "email"))
    && !Blank(Get(fields, "phone"))
    && !Blank(Get(fields, "cover_letter"))
    && agree
  }

  /** Validation finds no error exactly when the form meets every condition;
      only the five checked fields can be flagged, each with its message. */
  lemma ValidationErrorsMeaning(fields: Fields, agree: bool)
    ensures ValidationErrors(fields, agree) == map[] <==> FormValid(fields, agree)
    ensures ValidationErrors(fields, agree).Keys <= CheckedFields()
    ensures "full_name" in ValidationErrors(fields, agree) <==> Blank(Get(fields, "full_name"))
    ensures "email" in ValidationErrors(fields, agree) <==> EmailError(Get(fields, "email")).Some?
    ensures "email" in ValidationErrors(fields, agree) ==> ValidationErrors(fields, agree)["email"] == EmailError(Get(fields, "email")).value
    ensures "phone" in ValidationErrors(fields, agree) <==> Blank(Get(fields, "phone"))
    ensures "cover_letter" in ValidationErrors(fields, agree) <==> Blank(Get(fields, "cover_letter"))
    ensures "agree_to_terms" in ValidationErrors(fields, agree) <==> !agree
  {
    ErrorsOfKeys(Blank(Get(fields, "full_name")), EmailError(Get(fields, "email")),
      Blank(Get(fields, "phone")), Blank(Get(fields, "cover_letter")), agree);
  }

  /** The optional fields never produce an error, whatever they hold. */
  lemma OptionalFieldsNeverFlagged(fields: Fields, agree: bool, name: string, value: string)
    requires name in {"current_company", "current_position", "linkedin_url", "portfolio_url", "salary_expectation"}
    ensures name !in ValidationErrors(fields, agree)
    ensures ValidationErrors(fields[name := value], agree) == ValidationErrors(fields, agree)
  {
    ValidationErrorsMeaning(fields, agree);
    assert Get(fields[name := value], "full_name") == Get(fields, "full_name");
    assert Get(fields[name := value], "email") == Get(fields, "email");
    assert Get(fields[name := value], "phone") == Get(fields, "phone");
    assert Get(fields[name := value], "cover_letter") == Get(fields, "cover_letter");
  }

  /** A freshly reset form is rejected on every checked field. */
  lemma DefaultFormRejected()
    ensures ValidationErrors(DefaultFields(), false).Keys == CheckedFields()
  {
    var d := DefaultFields();
    assert Get(d, "full_name") == "" && Get(d, "email") == "" && Get(d, "phone") == "" && Get(d, "cover_letter") == "";
    ValidationErrorsMeaning(d, false);
  }

  /** The position a dialog was opened for. */
  datatype JobPosition = JobPosition(id: string, title: string, department: string, location: string, jobType: Option<string>)

  /** `jobPosition?.title || 'General Application'`. */
  function TitleOr(position: Option<JobPosition>): string {
    if position.Some? && position.value.title != "" then position.value.title else "General Application"
  }

  /** The e-mail subject. */
  function Subject(position: Option<JobPosition>, fullName: string): string {
    "Job Application: " + TitleOr(position) + " - " + fullName
  }

  /** The subject names the position's title when it has one and the
      generic application otherwise, and ends with the applicant's name. */
  lemma SubjectParts(position: Option<JobPosition>, fullName: string)
    ensures StartsWith(Subject(position, fullName), "Job Application: ")
    ensures var s := Subject(position, fullName);
      s[17..|s| - |fullName| - 3] == (if position.Some? && position.value.title != "" then position.value.title else "General Application")
    ensures var s := Subject(position, fullName); s[|s| - |fullName| - 3..] == " - " + fullName
  {
    var t := TitleOr(position);
    var s := Subject(position, fullName);
    assert s == ("Job Application: " + t) + (" - " + fullName);
  }

  /** The dialog's state. `fields` and `agree` are `formData`. */
  class ApplicationForm {
    var fields: Fields
    var agree: bool
    var errors: map<string, string>
    var loading: bool
    var success: bool
    const position: Option<JobPosition>

    constructor (position: Option<JobPosition>)
      ensures fields == DefaultFields() && !agree && errors == map[]
      ensures !loading && !success && this.position == position
    {
      fields := DefaultFields();
      agree := false;
      errors := map[];
      loading := false;
      success := false;
      this.position := position;
    }

    /** `handleChange`: the named field takes the value, and that field's
        error, when it has a non-empty one, is blanked. */
    method HandleChange(name: string, value: string)
      modifies this
      ensures fields == old(fields)[name := value]
      ensures errors == if name in old(errors) && old(errors)[name] != "" then old(errors)[name := ""] else old(errors)
      ensures agree == old(agree) && loading == old(loading) && success == old(success)
    {
      fields := fields[name := value];
      if name in errors && errors[name] != "" {
        errors := errors[name := ""];
      }
    }

    /** `handleCheckboxChange` on the terms box. */
    method HandleCheckboxChange(checked: bool)
      modifies this
      ensures agree == checked
      ensures fields == old(fields) && errors == old(errors) && loading == old(loading) && success == old(success)
    {
      agree := checked;
    }

    /** `handleSelectChange`: like a text change, but errors are kept. */
    method HandleSelectChange(name: string, value: string)
      modifies this
      ensures fields == old(fields)[name := value]
      ensures agree == old(agree) && errors == old(errors) && loading == old(loading) && success == old(success)
    {
      fields := fields[name := value];
    }

    /** `validateForm`: fills the error map check by check, stores it, and
        reports whether it stayed empty. */
    method Validate() returns (ok: bool)
      modifies this
      ensures errors == ValidationErrors(fields, agree)
      ensures ok <==> FormValid(fields, agree)
      ensures fields == old(fields) && agree == old(agree) && loading == old(loading) && success == old(success)
    {
      var nameBlank := Blank(Get(fields, "full_name"));
      var emailError := EmailError(Get(fields, "email"));
      var phoneBlank := Blank(Get(fields, "phone"));
      var coverBlank := Blank(Get(fields, "cover_letter"));
      var newErrors: map<string, string> := map[];
      if nameBlank {
        newErrors := newErrors["full_name" := FullNameRequired];
      }
      if emailError.Some? {
        newErrors := newErrors["email" := emailError.value];
      }
      if phoneBlank {
        newErrors := newErrors["phone" := PhoneRequired];
      }
      if coverBlank {
        newErrors := newErrors["cover_letter" := CoverLetterRequired];
      }
      if !agree {
        newErrors := newErrors["agree_to_terms" := TermsRequired];
      }
      assert newErrors == ErrorsOf(nameBlank, emailError, phoneBlank, coverBlank, agree);
      errors := newErrors;
      ErrorsOfKeys(nameBlank, emailError, phoneBlank, coverBlank, agree);
      ok := |newErrors| == 0;
    }

    /** `handleSubmit`: an invalid form only shows its errors; a valid one
        sets loading and success and yields the link to open. `body` is the
        message text, which embeds the current date; `opens` is false when
        opening the mail client throws. */
    method HandleSubmit(body: string, enc: string -> string, opens: bool) returns (link: Option<string>)
      modifies this
      ensures fields == old(fields) && agree == old(agree)
      ensures !FormValid(fields, agree) ==>
        link == None && errors == ValidationErrors(fields, agree) && loading == old(loading) && success == old(success)
      ensures FormValid(fields, agree) && opens ==>
        link == Some(MailtoLink(HrEmail, Subject(position, Get(fields, "full_name")), body, enc))
        && loading && success && errors == map[]
      ensures FormValid(fields, agree) && !opens ==>
        link == None && !loading && success == old(success)
        && errors == map["submit" := "Failed to open email client. Please try again."]
    {
      var ok := Validate();
      if !ok {
        return None;
      }
      loading := true;
      if !opens {
        errors := map["submit" := "Failed to open email client. Please try again."];
        loading := false;
        return None;
      }
      success := true;
      link := Some(MailtoLink(HrEmail, Subject(position, Get(fields, "full_name")), body, enc));
    }

    /** The timer three seconds after a successful submit: the dialog closes
        and the form returns to its initial state. Returns that the parent's
        `onClose` was called. */
    method ResetAfterSuccess() returns (closed: bool)
      modifies this
      ensures closed
      ensures fields == DefaultFields() && !agree && errors == map[] && !loading && !success
    {
      success := false;
      loading := false;
      closed := true;
      fields := DefaultFields();
      agree := false;
      errors := map[];
    }

    /** `handleClose`: nothing happens while loading; otherwise the parent is
        told and errors and success are cleared. */
    method HandleClose() returns (closed: bool)
      modifies this
      ensures closed <==> !old(loading)
      ensures old(loading) ==> errors == old(errors) && success == old(success)
      ensures !old(loading) ==> errors == map[] && !success
      ensures fields == old(fields) && agree == old(agree) && loading == old(loading)
    {
      if loading {
        return false;
      }
      closed := true;
      errors := map[];
      success := false;
    }
  }
}
