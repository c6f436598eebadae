/**
 * The closing-date label of a job opening (itsupport/Career.tsx,
 * `formatDate`). Instants are integer milliseconds: the closing instant is
 * `None` when the date text does not parse, and "now" is a parameter.
 */
module Career {
  import opened Wrappers
  import opened Strings

  /** `1000 * 60 * 60 * 24`. */
  const MsPerDay: int := 86400000

  /** `Math.ceil(x / d)` for a positive divisor: Dafny's `/` rounds down,
      so the ceiling is the negated floor of the negated dividend. */
  function CeilDiv(x: int, d: int): (r: int)
    requires d > 0
    ensures (r - 1) * d < x <= r * d
  {
    -((-x) / d)
  }

  /** The whole days left until closing, rounded up. */
  function DiffDays(closing: int, now: int): (days: int)
    ensures (days - 1) * MsPerDay < closing - now <= days * MsPerDay
  {
    CeilDiv(closing - now, MsPerDay)
  }

  /** What the label says; `ClosingDate` is shown through the locale's date
      format, which is not part of this model. */
  datatype Label =
    | OpenUntilFilled
    | Closed
    | ClosesToday
    | ClosesTomorrow
    | ClosesIn(days: int)
    | ClosingDate(instant: int)

  /** `formatDate`: the guarded returns in source order. */
  function ClosingLabel(closing: Option<int>, now: int): Label {
    match closing
    case None => OpenUntilFilled
    case Some(c) =>
      var days := DiffDays(c, now);
      if days < 0 then Closed
      else if days == 0 then ClosesToday
      else if days == 1 then ClosesTomorrow
      else if days <= 7 then ClosesIn(days)
      else ClosingDate(c)
  }

  /** The label's text; `formatted` renders a closing instant as a date. */
  function LabelText(l: Label, formatted: int -> string): string {
    match l
    case OpenUntilFilled => "Open until filled"
    case Closed => "Closed"
    case ClosesToday => "Closes today"
    case ClosesTomorrow => "Closes tomorrow"
    case ClosesIn(n) => "Closes in " + IntToString(n) + " days"
    case ClosingDate(c) => formatted(c)
  }

  /** An unparseable closing date is always open. */
  lemma UnparsedIsOpen(now: int)
    ensures ClosingLabel(None, now) == OpenUntilFilled
    ensures LabelText(ClosingLabel(None, now), (c: int) => "") == "Open until filled"
  {
  }

  /** The label read off the time left in milliseconds: the five branches
      cover consecutive, disjoint ranges of `closing - now`, so every
      instant gets exactly one of them. */
  lemma LabelByTimeLeft(closing: int, now: int)
    ensures var l := ClosingLabel(Some(closing), now); var t := closing - now;
      && (l == Closed <==> t <= -MsPerDay)
      && (l == ClosesToday <==> -MsPerDay < t <= 0)
      && (l == ClosesTomorrow <==> 0 < t <= MsPerDay)
      && (l.ClosesIn? <==> MsPerDay < t <= 7 * MsPerDay)
      && (l.ClosingDate? <==> 7 * MsPerDay < t)
      && l != OpenUntilFilled
  {
    var t := closing - now;
    var days := DiffDays(closing, now);
    if days < 0 {
      assert days * MsPerDay <= -MsPerDay;
    } else if days == 0 {
    } else if days == 1 {
    } else if days <= 7 {
      assert (days - 1) * MsPerDay >= MsPerDay;
      assert days * MsPerDay <= 7 * MsPerDay;
    } else {
      assert (days - 1) * MsPerDay >= 7 * MsPerDay;
    }
  }

  /** "Closes in N days" always names between two and seven days, and N is
      the rounded-up day difference. */
  lemma ClosesInRange(closing: int, now: int)
    requires ClosingLabel(Some(closing), now).ClosesIn?
    ensures var n := ClosingLabel(Some(closing), now).days;
      2 <= n <= 7 && n == DiffDays(closing, now)
  {
  }

  /** A date more than a week away is shown as a date, never as a
      "Closes"/"Closed" label. */
  lemma FarDateShownAsDate(closing: int, now: int)
    requires closing - now > 7 * MsPerDay
    ensures ClosingLabel(Some(closing), now) == ClosingDate(closing)
  {
    LabelByTimeLeft(closing, now);
  }
}
