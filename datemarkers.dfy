// The markers under the two dots of the timeline cover: the first word of
// each formatted date.
module DateMarkers {
  import opened Wrappers
  import opened Text
  import opened Dates

  /**
   * The marker under a dot as the generator computes it,
   * `date.split()[0] if date else ""`: None where `split()` finds no word and
   * indexing it raises.
   */
  function TimelineMarkerAsWritten(date: string): Option<string>
  {
    if date != "" then FirstToken(date) else Some("")
  }

  /** The marker as intended: the first word of the date, or nothing when there is none. */
  function DateMarker(date: string): string
  {
    match FirstToken(date)
    case Some(w) => w
    case None => ""
  }

  /**
   * As written, a date made only of whitespace passes the `if date` test and
   * then has no first word: the generator raises after the main table has
   * already been added. A request with `date_debut == " "` reaches it, since
   * the date formatter returns text it cannot parse unchanged.
   */
  lemma {:induction false} BlankDateMarkerRaises()
    ensures FormatDateFr(" ") == " "
    ensures TimelineMarkerAsWritten(FormatDateFr(" ")).None?
  {
    assert ParseYmd(" ").None?;
    FirstWordNone(" ", IsPySpace);
  }

  /** The corrected marker agrees with the generator wherever the generator does not raise, and is defined everywhere. */
  lemma {:induction false} DateMarkerAgrees(date: string)
    ensures TimelineMarkerAsWritten(date).Some? ==> TimelineMarkerAsWritten(date).value == DateMarker(date)
    ensures TimelineMarkerAsWritten(date).None? <==> date != "" && forall i :: 0 <= i < |date| ==> IsPySpace(date[i])
  {
    FirstWordNone(date, IsPySpace);
    if date == "" {
      FirstWordNone("", IsPySpace);
    }
  }

  /** A marker text that starts with a number and a blank shows that number, as written and as corrected. */
  lemma {:induction false} MarkerOfNumberFirst(date: string, digits: string, rest: string)
    requires date == digits + rest
    requires digits != [] && AllDigits(digits)
    requires rest != [] && rest[0] == ' '
    ensures DateMarker(date) == digits
    ensures TimelineMarkerAsWritten(date) == Some(digits)
  {
    forall i | 0 <= i < |digits| ensures !IsPySpace(digits[i]) {
      assert IsDigit(digits[i]);
    }
    FirstWordOfWordThenSpace(digits, rest, IsPySpace);
  }

  /** Under each dot of a date that parses, the marker is the day of the month. */
  lemma {:induction false} MarkerOfParsedDate(date: string)
    requires ParseYmd(date).Some?
    ensures DateMarker(FormatDateFr(date)) == NatToString(ParseYmd(date).value.day)
    ensures TimelineMarkerAsWritten(FormatDateFr(date)) == Some(NatToString(ParseYmd(date).value.day))
  {
    var dt := ParseYmd(date).value;
    NatToStringDigits(dt.day);
    MarkerOfNumberFirst(LongForm(dt), NatToString(dt.day), " " + MonthName(dt.month) + " " + NatToString(dt.year));
  }

  /** In particular for every date picked in the form. */
  lemma {:induction false} MarkerOfIsoDate(dt: Date)
    requires ValidDate(dt)
    ensures DateMarker(FormatDateFr(IsoString(dt))) == NatToString(dt.day)
  {
    ParseIsoRoundTrip(dt);
    MarkerOfParsedDate(IsoString(dt));
  }
}
