/** The strftime format behind `get_timestamp`: the date and time pieces,
    year first, joined up to the requested precision. Reading the clock and
    formatting it are not part of this model; the format string is. */
module Timestamp {
  import opened Results

  /** One entry of the precision table: its key, whether its template
      starts with the `{seperator}` placeholder, and the text after it. */
  datatype Piece = Piece(key: string, separated: bool, text: string)

  /** The precision table, in its insertion order. */
  const Pieces: seq<Piece> := [
    Piece("year", false, "%Y"),
    Piece("month", true, "%m"),
    Piece("day", true, "%d"),
    Piece("hours", false, "_%H"),
    Piece("minutes", true, "%M"),
    Piece("seconds", true, "%S")
  ]

  /** `value.format(seperator=separator)`. */
  function Render(p: Piece, separator: string): (t: string)
    ensures p.separated ==> t == separator + p.text
    ensures !p.separated ==> t == p.text
  {
    (if p.separated then separator else "") + p.text
  }

  /** The first n pieces rendered and joined. */
  function Format(separator: string, n: nat): string
    requires n <= |Pieces|
  {
    if n == 0 then "" else Format(separator, n - 1) + Render(Pieces[n - 1], separator)
  }

  /** The position of a precision in the table, if it is a key of it. */
  function PrecisionIndex(precision: string): (k: int)
    ensures -1 <= k < |Pieces|
    ensures k >= 0 ==> Pieces[k].key == precision
    ensures k >= 0 <==> exists j :: 0 <= j < |Pieces| && Pieces[j].key == precision
  {
    if precision == "year" then 0
    else if precision == "month" then 1
    else if precision == "day" then 2
    else if precision == "hours" then 3
    else if precision == "minutes" then 4
    else if precision == "seconds" then 5
    else -1
  }

  /** `get_timestamp` up to the strftime call: an unknown precision raises
      first, then the separator "%"; otherwise the pieces are appended in
      table order until the one named by `precision` has been added. */
  method TimestampFormat(precision: string, separator: string) returns (r: Result<string>)
    ensures PrecisionIndex(precision) < 0 ==> r == Fail(InvalidPrecision(precision))
    ensures PrecisionIndex(precision) >= 0 && separator == "%" ==> r == Fail(InvalidSeparator)
    ensures PrecisionIndex(precision) >= 0 && separator != "%" ==>
      r == Ok(Format(separator, PrecisionIndex(precision) + 1))
  {
    var k := PrecisionIndex(precision);
    if k < 0 {
      return Fail(InvalidPrecision(precision));
    }
    if separator == "%" {
      return Fail(InvalidSeparator);
    }
    var format := "";
    var i := 0;
    while i < |Pieces|
      invariant i <= k
      invariant format == Format(separator, i)
    {
      format := format + Render(Pieces[i], separator);
      if Pieces[i].key == precision {
        break;
      }
      i := i + 1;
    }
    r := Ok(format);
  }

  /** For one separator, a coarser precision's format is a prefix of a
      finer one's. */
  lemma {:induction false} CoarserIsPrefix(separator: string, m: nat, n: nat)
    requires m <= n <= |Pieces|
    ensures Format(separator, m) <= Format(separator, n)
    decreases n
  {
    if m < n {
      CoarserIsPrefix(separator, m, n - 1);
    }
  }

  /** The hours piece is "_%H" whatever the separator. */
  lemma HoursIgnoreSeparator(separator: string)
    ensures Format(separator, 4) == Format(separator, 3) + "_%H"
  {
  }

  /** The day and seconds formats written out. */
  lemma FormatsSpelledOut(separator: string)
    ensures Format(separator, 3) == "%Y" + separator + "%m" + separator + "%d"
    ensures Format(separator, 6) ==
      "%Y" + separator + "%m" + separator + "%d" + "_%H" + separator + "%M" + separator + "%S"
  {
    assert Format(separator, 1) == "%Y";
    assert Format(separator, 2) == "%Y" + separator + "%m";
    assert Format(separator, 4) == "%Y" + separator + "%m" + separator + "%d" + "_%H";
    assert Format(separator, 5) == "%Y" + separator + "%m" + separator + "%d" + "_%H" + separator + "%M";
  }

  /** The documented examples: seconds without a separator, seconds with
      "-", and day with "/". */
  lemma SecondsExample()
    ensures Format("", PrecisionIndex("seconds") + 1) == "%Y%m%d_%H%M%S"
  {
    assert PrecisionIndex("seconds") == 5;
    UnseparatedStep(0);
    assert Format("", 1) == "%Y";
    UnseparatedStep(1);
    assert Format("", 2) == "%Y%m";
    UnseparatedStep(2);
    assert Format("", 3) == "%Y%m%d";
    UnseparatedStep(3);
    assert Format("", 4) == "%Y%m%d_%H";
    UnseparatedStep(4);
    assert Format("", 5) == "%Y%m%d_%H%M";
    UnseparatedStep(5);
  }

  /** With the empty separator each piece adds just its text. */
  lemma UnseparatedStep(n: nat)
    requires n < |Pieces|
    ensures Format("", n + 1) == Format("", n) + Pieces[n].text
  {
    assert Render(Pieces[n], "") == Pieces[n].text;
  }

  lemma DashedSecondsExample()
    ensures Format("-", PrecisionIndex("seconds") + 1) == "%Y-%m-%d_%H-%M-%S"
  {
    assert PrecisionIndex("seconds") == 5;
    assert Format("-", 1) == "%Y";
    assert Format("-", 2) == "%Y-%m";
    assert Format("-", 3) == "%Y-%m-%d";
    assert Format("-", 4) == "%Y-%m-%d_%H";
    assert Format("-", 5) == "%Y-%m-%d_%H-%M";
  }

  lemma SlashedDayExample()
    ensures Format("/", PrecisionIndex("day") + 1) == "%Y/%m/%d"
  {
    assert PrecisionIndex("day") == 2;
    assert Format("/", 1) == "%Y";
    assert Format("/", 2) == "%Y/%m";
  }
}
