/**
 * The e-mail apply button of a job card (itsupport/SimpleEmailApplyButton.tsx):
 * applying opens a `mailto:` link, but only once the candidate has ticked the
 * GDPR consent box; the same message can be copied or downloaded as text.
 */
module ApplyButton {
  import opened Wrappers
  import opened Strings
  import opened Mailto

  /** The component's properties. */
  datatype ApplyProps = ApplyProps(
    jobTitle: string, jobId: Option<JobId>, department: Option<string>,
    location: Option<string>, jobType: Option<string>)

  /** `jobId?: string | number`; the job cards pass their whole-number ids. */
  datatype JobId = IdText(text: string) | IdNumber(n: int)

  /** JavaScript truthiness of an id: `""` and `0` are falsy. */
  predicate IdTruthy(id: JobId) {
    match id
    case IdText(t) => t != ""
    case IdNumber(n) => n != 0
  }

  /** What `${jobId ? `Job ID: ${jobId}` : ''}` shows after the caption:
      the id's text when the id is truthy, a number in decimal. */
  function JobIdText(id: Option<JobId>): (r: Option<string>)
    ensures r.Some? <==> id.Some? && IdTruthy(id.value)
    ensures r.Some? ==> r.value != ""
    ensures r.Some? && id.value.IdText? ==> r.value == id.value.text
    ensures r.Some? && id.value.IdNumber? ==> r.value == IntToString(id.value.n) && '\n' !in r.value
  {
    match id
    case None => None
    case Some(IdText(t)) => if t != "" then Some(t) else None
    case Some(IdNumber(n)) =>
      if n != 0 then NumberTextSingleLine(n); Some(IntToString(n)) else None
  }

  /** A number's decimal text holds no line break. */
  lemma NumberTextSingleLine(n: int)
    ensures '\n' !in IntToString(n)
  {
    var m: nat := if n < 0 then -n else n;
    var digits := NatToString(m);
    assert forall k :: 0 <= k < |digits| ==> digits[k] != '\n';
    assert IntToString(n) == (if n < 0 then "-" + digits else digits);
  }

  /** `jobType = 'Full-time'`: the default applies only when the prop is absent. */
  function JobTypeOf(p: ApplyProps): string {
    p.jobType.GetOr("Full-time")
  }

  /** `${v ? `<caption>${v}` : ''}`. */
  function OptLine(caption: string, v: Option<string>): string {
    if v.Some? && v.value != "" then caption + v.value else ""
  }

  /** `${gdprTimestamp}`: the text of the timestamp, or "null" before the box
      was ever touched. */
  function TimestampText(ts: Option<string>): string {
    match ts
    case Some(t) => t
    case None => "null"
  }

  function ApplySubject(p: ApplyProps): string {
    "Application: " + p.jobTitle
  }

  /** The first lines of the body: the title and the four optional details. */
  function DetailLines(p: ApplyProps): seq<string> {
    [ "Application for: " + p.jobTitle,
      OptLine("Job ID: ", JobIdText(p.jobId)),
      OptLine("Department: ", p.department),
      OptLine("Location: ", p.location),
      OptLine("Job Type: ", Some(JobTypeOf(p))) ]
  }

  /** The fixed request for documents. */
  function InstructionLines(): seq<string> {
    [ "",
      "Please include:",
      "\U{2022} Resume/CV (attached)",
      "\U{2022} Cover letter",
      "\U{2022} Contact information",
      "\U{2022} Current position",
      "" ]
  }

  /** The consent record and the closing. */
  function ConsentLines(ts: Option<string>): seq<string> {
    [ "--- GDPR CONSENT ---",
      "Accepted on: " + TimestampText(ts),
      "Purpose: Recruitment and hiring process",
      "",
      "Best regards,",
      "[Your Name]" ]
  }

  /** The message body, line by line. */
  function BodyLines(p: ApplyProps, ts: Option<string>): seq<string> {
    DetailLines(p) + InstructionLines() + ConsentLines(ts)
  }

  function EmailBody(p: ApplyProps, ts: Option<string>): string {
    Join(BodyLines(p, ts), '\n')
  }

  /** No property holds a line break. */
  predicate SingleLine(p: ApplyProps, ts: Option<string>) {
    && '\n' !in p.jobTitle
    && (p.jobId.Some? && p.jobId.value.IdText? ==> '\n' !in p.jobId.value.text)
    && (p.department.Some? ==> '\n' !in p.department.value)
    && (p.location.Some? ==> '\n' !in p.location.value)
    && (p.jobType.Some? ==> '\n' !in p.jobType.value)
    && (ts.Some? ==> '\n' !in ts.value)
  }

  predicate NoBreaks(lines: seq<string>) {
    forall k :: 0 <= k < |lines| ==> '\n' !in lines[k]
  }

  lemma NoBreaksAppend(a: seq<string>, b: seq<string>)
    requires NoBreaks(a) && NoBreaks(b)
    ensures NoBreaks(a + b)
  {
    forall k | 0 <= k < |a + b| ensures '\n' !in (a + b)[k] {
      if k >= |a| {
        assert (a + b)[k] == b[k - |a|];
      }
    }
  }

  lemma DetailLinesSingle(p: ApplyProps, ts: Option<string>)
    requires SingleLine(p, ts)
    ensures NoBreaks(DetailLines(p))
  {
    var id := JobIdText(p.jobId);
    assert id.Some? ==> '\n' !in id.value;
    OptLineSingle("Job ID: ", id);
    OptLineSingle("Department: ", p.department);
    OptLineSingle("Location: ", p.location);
    OptLineSingle("Job Type: ", Some(JobTypeOf(p)));
  }

  lemma OptLineSingle(caption: string, v: Option<string>)
    requires '\n' !in caption && (v.Some? ==> '\n' !in v.value)
    ensures '\n' !in OptLine(caption, v)
  {
  }

  lemma InstructionLinesSingle()
    ensures NoBreaks(InstructionLines())
  {
  }

  lemma ConsentLinesSingle(ts: Option<string>)
    requires ts.Some? ==> '\n' !in ts.value
    ensures NoBreaks(ConsentLines(ts))
  {
    var lines := ConsentLines(ts);
    assert '\n' !in lines[0] && '\n' !in lines[1];
    PurposeLineSingle();
    assert '\n' !in lines[3] && '\n' !in lines[4] && '\n' !in lines[5];
  }

  lemma PurposeLineSingle()
    ensures '\n' !in "Purpose: Recruitment and hiring process"
  {
    var a, b, c, d := "Purpose: ", "Recruitment ", "and hiring ", "process";
    assert '\n' !in a && '\n' !in b;
    assert '\n' !in c && '\n' !in d;
    assert "Purpose: Recruitment and hiring process" == a + b + c + d;
  }

  lemma BodyLinesSingle(p: ApplyProps, ts: Option<string>)
    requires SingleLine(p, ts)
    ensures NoBreaks(BodyLines(p, ts))
  {
    DetailLinesSingle(p, ts);
    InstructionLinesSingle();
    ConsentLinesSingle(ts);
    NoBreaksAppend(DetailLines(p), InstructionLines());
    NoBreaksAppend(DetailLines(p) + InstructionLines(), ConsentLines(ts));
  }

  /** Read back line by line, the body has its lines in order: the id,
      department and location lines are empty exactly when the property is
      absent or empty, and the job type line defaults to `Full-time`. */
  lemma BodyReadsBack(p: ApplyProps, ts: Option<string>)
    requires SingleLine(p, ts)
    ensures Split(EmailBody(p, ts), '\n') == BodyLines(p, ts)
    ensures var lines := Split(EmailBody(p, ts), '\n');
      && (lines[1] == "" <==> p.jobId.None? || !IdTruthy(p.jobId.value))
      && (lines[2] == "" <==> p.department.None? || p.department.value == "")
      && (lines[3] == "" <==> p.location.None? || p.location.value == "")
      && lines[4] == (if p.jobType == Some("") then "" else "Job Type: " + JobTypeOf(p))
      && lines[13] == "Accepted on: " + TimestampText(ts)
  {
    BodyLinesSingle(p, ts);
    SplitJoin(BodyLines(p, ts), '\n');
    BodyLinesAt(p, ts);
    OptLineEmpty("Job ID: ", JobIdText(p.jobId));
    OptLineEmpty("Department: ", p.department);
    OptLineEmpty("Location: ", p.location);
  }

  /** Where the detail lines and the consent timestamp sit in the body. */
  lemma BodyLinesAt(p: ApplyProps, ts: Option<string>)
    ensures |BodyLines(p, ts)| == 18
    ensures BodyLines(p, ts)[1] == OptLine("Job ID: ", JobIdText(p.jobId))
    ensures BodyLines(p, ts)[2] == OptLine("Department: ", p.department)
    ensures BodyLines(p, ts)[3] == OptLine("Location: ", p.location)
    ensures BodyLines(p, ts)[4] == OptLine("Job Type: ", Some(JobTypeOf(p)))
    ensures BodyLines(p, ts)[13] == "Accepted on: " + TimestampText(ts)
  {
    var d, i, c := DetailLines(p), InstructionLines(), ConsentLines(ts);
    assert BodyLines(p, ts) == d + i + c;
    assert (d + i + c)[13] == c[1];
  }

  /** An optional line is empty exactly when its value is absent or empty. */
  lemma OptLineEmpty(caption: string, v: Option<string>)
    requires caption != ""
    ensures OptLine(caption, v) == "" <==> v.None? || v.value == ""
  {
  }

  /** The text both copied and downloaded: the recipient, the subject, a
      blank line and the body. */
  function EmailTemplate(p: ApplyProps, ts: Option<string>): string {
    "To: " + HrEmail + "\nSubject: " + ApplySubject(p) + "\n\n" + EmailBody(p, ts)
  }

  /** The template is three header lines followed by the body's lines. */
  lemma TemplateReadsBack(p: ApplyProps, ts: Option<string>)
    requires SingleLine(p, ts)
    ensures Split(EmailTemplate(p, ts), '\n') == ["To: " + HrEmail, "Subject: " + ApplySubject(p), ""] + BodyLines(p, ts)
  {
    var head := ["To: " + HrEmail, "Subject: " + ApplySubject(p), ""];
    var lines := BodyLines(p, ts);
    TemplateIsJoin(p, ts);
    BodyLinesSingle(p, ts);
    HeadLinesSingle(p);
    NoBreaksAppend(head, lines);
    SplitJoin(head + lines, '\n');
  }

  /** The template is the header lines and the body lines joined. */
  lemma TemplateIsJoin(p: ApplyProps, ts: Option<string>)
    ensures EmailTemplate(p, ts) == Join(["To: " + HrEmail, "Subject: " + ApplySubject(p), ""] + BodyLines(p, ts), '\n')
  {
    BodyLinesAt(p, ts);
    HeaderThenLines(ApplySubject(p), BodyLines(p, ts));
  }

  /** The header with any subject, then any body lines. */
  lemma HeaderThenLines(subject: string, lines: seq<string>)
    requires |lines| >= 1
    ensures "To: " + HrEmail + "\nSubject: " + subject + "\n\n" + Join(lines, '\n')
         == Join(["To: " + HrEmail, "Subject: " + subject, ""] + lines, '\n')
  {
    var head := ["To: " + HrEmail, "Subject: " + subject, ""];
    HeadJoin("To: " + HrEmail, "Subject: " + subject);
    JoinAppend(head, lines, '\n');
    HeaderGlue("To: " + HrEmail, subject, Join(lines, '\n'));
  }

  /** The template's literal pieces regrouped as lines and breaks. */
  lemma HeaderGlue(to: string, subject: string, body: string)
    ensures to + "\nSubject: " + subject + "\n\n" + body == to + "\n" + ("Subject: " + subject) + "\n" + ['\n'] + body
  {
    assert "\nSubject: " == "\n" + "Subject: ";
    assert "\n\n" == "\n" + "\n";
  }

  /** Three lines, the last empty, joined by line breaks. */
  lemma HeadJoin(a: string, b: string)
    ensures Join([a, b, ""], '\n') == a + "\n" + b + "\n"
  {
    var head := [a, b, ""];
    assert head[1..][1..] == [""];
    assert head[1..] == [b, ""];
    assert Join([""], '\n') == "";
    assert Join([b, ""], '\n') == b + "\n" + "";
  }

  lemma HeadLinesSingle(p: ApplyProps)
    requires '\n' !in p.jobTitle
    ensures NoBreaks(["To: " + HrEmail, "Subject: " + ApplySubject(p), ""])
  {
  }

  /** `jobTitle.replace(/\s+/g, '_')`: each maximal run of whitespace becomes
      one underscore. */
  function ReplaceSpaceRuns(s: string): (r: string)
    ensures forall k :: 0 <= k < |r| ==> !IsSpace(r[k])
    decreases |s|
  {
    if s == [] then []
    else if IsSpace(s[0]) then
      var rest := DropLeading(s, IsSpace);
      "_" + ReplaceSpaceRuns(rest)
    else [s[0]] + ReplaceSpaceRuns(s[1..])
  }

  /** The characters that are neither whitespace nor '_', in order. */
  function Visible(s: string): string {
    if s == [] then []
    else if IsSpace(s[0]) || s[0] == '_' then Visible(s[1..])
    else [s[0]] + Visible(s[1..])
  }

  /** A leading whitespace run carries no visible character. */
  lemma {:induction false} VisibleDropLeading(s: string)
    ensures Visible(DropLeading(s, IsSpace)) == Visible(s)
    decreases |s|
  {
    if s != [] && IsSpace(s[0]) {
      VisibleDropLeading(s[1..]);
    }
  }

  /** Replacing whitespace runs keeps every other character, in order. */
  lemma {:induction false} ReplaceKeepsVisible(s: string)
    ensures Visible(ReplaceSpaceRuns(s)) == Visible(s)
    decreases |s|
  {
    if s == [] {
    } else if IsSpace(s[0]) {
      var rest := DropLeading(s, IsSpace);
      ReplaceKeepsVisible(rest);
      VisibleDropLeading(s);
      assert ("_" + ReplaceSpaceRuns(rest))[1..] == ReplaceSpaceRuns(rest);
    } else {
      ReplaceKeepsVisible(s[1..]);
      assert ([s[0]] + ReplaceSpaceRuns(s[1..]))[1..] == ReplaceSpaceRuns(s[1..]);
    }
  }

  /** A title without whitespace is used as it is; so replacing twice is
      replacing once. */
  lemma {:induction false} ReplaceWithoutSpaces(s: string)
    requires forall k :: 0 <= k < |s| ==> !IsSpace(s[k])
    ensures ReplaceSpaceRuns(s) == s
    decreases |s|
  {
    if s != [] {
      ReplaceWithoutSpaces(s[1..]);
    }
  }

  lemma ReplaceIdempotent(s: string)
    ensures ReplaceSpaceRuns(ReplaceSpaceRuns(s)) == ReplaceSpaceRuns(s)
  {
    ReplaceWithoutSpaces(ReplaceSpaceRuns(s));
  }

  /** The download's file name. */
  function FileName(p: ApplyProps): string {
    "Application_" + ReplaceSpaceRuns(p.jobTitle) + ".txt"
  }

  /** The file name holds no whitespace and keeps every other character of
      the title. */
  lemma FileNameShape(p: ApplyProps)
    ensures forall k :: 0 <= k < |FileName(p)| ==> !IsSpace(FileName(p)[k])
    ensures Visible(FileName(p)[12..|FileName(p)| - 4]) == Visible(p.jobTitle)
  {
    var r := ReplaceSpaceRuns(p.jobTitle);
    assert FileName(p)[12..|FileName(p)| - 4] == r;
    ReplaceKeepsVisible(p.jobTitle);
  }

  datatype Severity = Success | Error | Info | Warning

  datatype Snackbar = Snackbar(open: bool, message: string, severity: Severity)

  const ConsentWarning := "You must accept the GDPR agreement to apply."

  /** The button's state. */
  class ApplyButtonState {
    const props: ApplyProps
    var isLoading: bool
    var copied: bool
    var gdprAccepted: bool
    var gdprTimestamp: Option<string>
    var snackbar: Snackbar

    constructor (props: ApplyProps)
      ensures this.props == props && !isLoading && !copied && !gdprAccepted
      ensures gdprTimestamp == None && snackbar == Snackbar(false, "", Success)
    {
      this.props := props;
      isLoading := false;
      copied := false;
      gdprAccepted := false;
      gdprTimestamp := None;
      snackbar := Snackbar(false, "", Success);
    }

    /** `disabled={isLoading || !gdprAccepted}`. */
    predicate ApplyDisabled()
      reads this
    {
      isLoading || !gdprAccepted
    }

    /** The checkbox: the consent follows the box and the timestamp is
        refreshed on every change, unticking included. */
    method ConsentChanged(checked: bool, now: string)
      modifies this
      ensures gdprAccepted == checked && gdprTimestamp == Some(now)
      ensures isLoading == old(isLoading) && copied == old(copied) && snackbar == old(snackbar)
    {
      gdprAccepted := checked;
      gdprTimestamp := Some(now);
    }

    /** `handleApply`: without consent a warning is shown and nothing opens;
        with it, loading starts and the link is opened. */
    method HandleApply(enc: string -> string) returns (link: Option<string>)
      modifies this
      ensures !old(gdprAccepted) ==>
        link == None && isLoading == old(isLoading) && snackbar == Snackbar(true, ConsentWarning, Warning)
      ensures old(gdprAccepted) ==>
        && link == Some(MailtoLink(HrEmail, ApplySubject(props), EmailBody(props, gdprTimestamp), enc))
        && isLoading && snackbar == old(snackbar)
      ensures gdprAccepted == old(gdprAccepted) && gdprTimestamp == old(gdprTimestamp) && copied == old(copied)
    {
      if !gdprAccepted {
        snackbar := Snackbar(true, ConsentWarning, Warning);
        return None;
      }
      isLoading := true;
      link := Some(MailtoLink(HrEmail, ApplySubject(props), EmailBody(props, gdprTimestamp), enc));
    }

    /** The 800 ms timer after applying. */
    method LoadingTimerFires()
      modifies this
      ensures !isLoading
      ensures copied == old(copied) && gdprAccepted == old(gdprAccepted) && gdprTimestamp == old(gdprTimestamp) && snackbar == old(snackbar)
    {
      isLoading := false;
    }

    /** `copyEmailContent`: the text written to the clipboard. */
    method CopyEmailContent() returns (text: string)
      modifies this
      ensures text == EmailTemplate(props, gdprTimestamp)
      ensures copied && snackbar == Snackbar(true, "Email content copied!", Success)
      ensures isLoading == old(isLoading) && gdprAccepted == old(gdprAccepted) && gdprTimestamp == old(gdprTimestamp)
    {
      text := "To: " + HrEmail + "\nSubject: " + ApplySubject(props) + "\n\n" + EmailBody(props, gdprTimestamp);
      copied := true;
      snackbar := Snackbar(true, "Email content copied!", Success);
    }

    /** The 2000 ms timer after copying. */
    method CopiedTimerFires()
      modifies this
      ensures !copied
      ensures isLoading == old(isLoading) && gdprAccepted == old(gdprAccepted) && gdprTimestamp == old(gdprTimestamp) && snackbar == old(snackbar)
    {
      copied := false;
    }

    /** `downloadEmailTemplate`:the file's name and contents; the state is
        not touched. */
    method DownloadEmailTemplate() returns (name: string, contents: string)
      ensures contents == EmailTemplate(props, gdprTimestamp)
      ensures name == FileName(props)
      ensures forall k :: 0 <= k < |name| ==> !IsSpace(name[k])
    {
      contents := "To: " + HrEmail + "\nSubject: " + ApplySubject(props) + "\n\n" + EmailBody(props, gdprTimestamp);
      name := "Application_" + ReplaceSpaceRuns(props.jobTitle) + ".txt";
      FileNameShape(props);
    }
  }
}
