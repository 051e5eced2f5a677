/**
 * The search composer: how the three search widgets (free text, field
 * option, date option) become the ordered writes that drive the mail
 * client's query mode.
 */
module SearchComposer {

  import opened Options

  /** BEL (0x07) cancels pending input, then the command that opens a virtual folder from a query. */
  const ExecQuery: string := "\U{7}:exec vfolder-from-query\n"

  const TodayToken: string := "date:today "
  const WeekToken: string := "date:7d.. "
  const MonthToken: string := "date:1m.. "
  const FromToken: string := "from:"
  const SubjectToken: string := "subject:"
  const EndOfQuery: string := "\n"

  /** The date filter a date option selects; "any", NULL and unknown options filter nothing. */
  datatype DateRange = NoDateFilter | Today | LastWeek | LastMonth

  /** The field prefix a field option selects; NULL and unknown options select none. */
  datatype Field = AllFields | From | Subject

  /** A search as the query language sees it. */
  datatype SearchQuery = SearchQuery(date: DateRange, field: Field, text: string)

  function DateRangeOf(dateId: Option<string>): DateRange
  {
    if dateId == Some("today") then Today
    else if dateId == Some("week") then LastWeek
    else if dateId == Some("month") then LastMonth
    else NoDateFilter
  }

  function FieldOf(option: Option<string>): Field
  {
    if option == Some("from") then From
    else if option == Some("sub") then Subject
    else AllFields
  }

  function DateWrites(d: DateRange): seq<string>
  {
    match d
    case NoDateFilter => []
    case Today => [TodayToken]
    case LastWeek => [WeekToken]
    case LastMonth => [MonthToken]
  }

  function FieldWrites(f: Field): seq<string>
  {
    match f
    case AllFields => []
    case From => [FromToken]
    case Subject => [SubjectToken]
  }

  /** The writes of one search: invoke, date filter, field prefix, text, newline. */
  function Serialize(q: SearchQuery): seq<string>
  {
    [ExecQuery] + DateWrites(q.date) + FieldWrites(q.field) + [q.text, EndOfQuery]
  }

  /** Empty text with the date option "any" (not merely no date option) is a no-op. */
  predicate IsNoOp(text: string, dateId: Option<string>)
  {
    text == "" && dateId == Some("any")
  }

  /** What one submit of the search widgets writes to the terminal. */
  function SearchWrites(text: string, option: Option<string>, dateId: Option<string>): seq<string>
  {
    if IsNoOp(text, dateId) then []
    else Serialize(SearchQuery(DateRangeOf(dateId), FieldOf(option), text))
  }

  /** A submit writes nothing exactly when the text is empty and the date option is "any". */
  lemma SearchNoOpExactly(text: string, option: Option<string>, dateId: Option<string>)
    ensures SearchWrites(text, option, dateId) == [] <==> text == "" && dateId == Some("any")
  {
  }

  /**
   * Every submit that is not a no-op writes, in this order: the invoke
   * command first; the date token second, present exactly for the options
   * today, week and month; the field prefix next, present exactly for the
   * options from and sub; the text second to last; the newline last.
   */
  lemma SearchWriteOrder(text: string, option: Option<string>, dateId: Option<string>)
    requires !IsNoOp(text, dateId)
    ensures var w := SearchWrites(text, option, dateId);
            var hasDate := dateId in {Some("today"), Some("week"), Some("month")};
            var hasField := option in {Some("from"), Some("sub")};
            && |w| == 3 + (if hasDate then 1 else 0) + (if hasField then 1 else 0)
            && w[0] == ExecQuery
            && (dateId == Some("today") ==> w[1] == "date:today ")
            && (dateId == Some("week") ==> w[1] == "date:7d.. ")
            && (dateId == Some("month") ==> w[1] == "date:1m.. ")
            && (option == Some("from") ==> w[|w| - 3] == "from:")
            && (option == Some("sub") ==> w[|w| - 3] == "subject:")
            && w[|w| - 2] == text
            && w[|w| - 1] == "\n"
  {
  }

  /** The worked example: text "foo", field "from", date "week" gives exactly five writes. */
  lemma SearchFooFromWeek()
    ensures SearchWrites("foo", Some("from"), Some("week")) ==
            ["\U{7}:exec vfolder-from-query\n", "date:7d.. ", "from:", "foo", "\n"]
  {
  }

  /** A NULL date option is not "any": empty text still starts a search, with no date token. */
  lemma SearchNullDateIsNotAny(option: Option<string>)
    ensures SearchWrites("", option, None) == [ExecQuery] + FieldWrites(FieldOf(option)) + ["", EndOfQuery]
  {
  }

  /** The date tokens: the only writes that can open the token part of a search. */
  const DateTokens: set<string> := {TodayToken, WeekToken, MonthToken}

  /** The token part of a search starts with a date token exactly when a date filter is selected. */
  lemma DateSlotVisible(d: DateRange, f: Field)
    ensures var tokens := DateWrites(d) + FieldWrites(f);
            d != NoDateFilter <==> |tokens| > 0 && tokens[0] in DateTokens
    ensures |DateWrites(d)| == (if d == NoDateFilter then 0 else 1)
  {
  }

  /**
   * Distinct queries give distinct sequences of separate feed calls: the
   * list of writes determines the date filter, field prefix and text.
   * The byte stream the mail client reads does not (see WritesCollideOnTheWire).
   */
  lemma SerializeInjective(q1: SearchQuery, q2: SearchQuery)
    requires Serialize(q1) == Serialize(q2)
    ensures q1 == q2
  {
    var w := Serialize(q1);
    var n1 := |DateWrites(q1.date)| + |FieldWrites(q1.field)|;
    var n2 := |DateWrites(q2.date)| + |FieldWrites(q2.field)|;
    assert |w| == 3 + n1 == 3 + n2;
    assert q1.text == w[|w| - 2] == q2.text;
    // The writes between the invoke command and the text are the tokens.
    var tokens := w[1..|w| - 2];
    assert tokens == DateWrites(q1.date) + FieldWrites(q1.field);
    assert tokens == DateWrites(q2.date) + FieldWrites(q2.field);
    DateSlotVisible(q1.date, q1.field);
    DateSlotVisible(q2.date, q2.field);
    var k := |DateWrites(q1.date)|;
    assert k == |DateWrites(q2.date)|;
    assert DateWrites(q1.date) == tokens[..k] == DateWrites(q2.date);
    assert FieldWrites(q1.field) == tokens[k..] == FieldWrites(q2.field);
  }

  /** The bytes the mail client reads: every write, one after the other, on the one terminal stream. */
  function OnTheWire(writes: seq<string>): string
  {
    if writes == [] then "" else writes[0] + OnTheWire(writes[1..])
  }

  /**
   * Once the writes are joined on the terminal stream, the field prefix
   * cannot be told from text that starts with it: the text "from:foo" with
   * no field and the text "foo" with the field "from" send the same bytes.
   */
  lemma WritesCollideOnTheWire()
    ensures SearchWrites("from:foo", None, Some("any")) != SearchWrites("foo", Some("from"), Some("any"))
    ensures OnTheWire(SearchWrites("from:foo", None, Some("any"))) == OnTheWire(SearchWrites("foo", Some("from"), Some("any")))
  {
    assert SearchWrites("from:foo", None, Some("any")) == [ExecQuery, "from:foo", EndOfQuery];
    assert SearchWrites("foo", Some("from"), Some("any")) == [ExecQuery, FromToken, "foo", EndOfQuery];
    assert [ExecQuery, "from:foo", EndOfQuery][1..] == ["from:foo", EndOfQuery];
    assert [ExecQuery, "from:foo", EndOfQuery][1..][1..] == [EndOfQuery];
    assert [ExecQuery, FromToken, "foo", EndOfQuery][1..] == [FromToken, "foo", EndOfQuery];
    assert [ExecQuery, FromToken, "foo", EndOfQuery][1..][1..] == ["foo", EndOfQuery];
    assert [ExecQuery, FromToken, "foo", EndOfQuery][1..][1..][1..] == [EndOfQuery];
    assert FromToken + "foo" == "from:foo";
  }
}
