/**
 The two readings of a training plan's raw text (src/components/training-plan/TrainingPlanDisplay.tsx):
 the calendar reading, which attaches every line to a day of the plan, and the list reading,
 which shows the non-blank lines and marks the ones that name a day. Calendar dates are day
 numbers; `parseDate` stands for date-fns `parseISO` followed by `isValid` and gives `None`
 for an invalid date.
 */
module PlanDisplay {
  import opened Wrappers
  import opened Text
  import opened Seqs

  /** One workout line placed on a day. `isPrimary` marks a line that carried the date itself;
      the others continue the day of the latest dated line. */
  datatype ParsedWorkout = ParsedWorkout(date: int, description: string, isPrimary: bool)

  // ---------------------------------------------------------------------------
  // The date prefix `^(\d{4}-\d{2}-\d{2})\s*[:\-–—]?\s*(.*)`

  /** `dddd-dd-dd` with ASCII digits. */
  predicate DatePattern(s: string) {
    && |s| == 10
    && IsDigit(s[0]) && IsDigit(s[1]) && IsDigit(s[2]) && IsDigit(s[3]) && s[4] == '-'
    && IsDigit(s[5]) && IsDigit(s[6]) && s[7] == '-' && IsDigit(s[8]) && IsDigit(s[9])
  }

  predicate HasDatePrefix(line: string) {
    |line| >= 10 && DatePattern(line[..10])
  }

  /** The separators allowed between the date and the description: colon, hyphen, en and em dash. */
  predicate IsSeparator(c: char) {
    c == ':' || c == '-' || c == '\U{2013}' || c == '\U{2014}'
  }

  /** What `.*` matches: the text before the first line terminator. */
  function UpToLineEnd(s: string): (r: string)
    ensures |r| <= |s| && r == s[..|r|]
    ensures forall i :: 0 <= i < |r| ==> !IsLineTerminator(r[i])
    ensures |r| < |s| ==> IsLineTerminator(s[|r|])
    decreases |s|
  {
    if |s| == 0 || IsLineTerminator(s[0]) then ""
    else
      var rest := UpToLineEnd(s[1..]);
      assert forall i :: 0 < i < 1 + |rest| ==> ([s[0]] + rest)[i] == s[1..][i - 1];
      [s[0]] + rest
  }

  /** The second group after the date, trimmed: greedy whitespace, at most one separator,
      greedy whitespace, then the rest of the line. */
  function DescriptionAfterDate(rest: string): (r: string)
    ensures |r| <= |rest|
    ensures |r| > 0 ==> !IsSpace(r[0]) && !IsSpace(r[|r| - 1])
    ensures forall i :: 0 <= i < |r| ==> !IsLineTerminator(r[i])
    ensures IsBlank(rest) ==> r == ""
  {
    var a := TrimStart(rest);
    var b := if |a| > 0 && IsSeparator(a[0]) then a[1..] else a;
    var line := UpToLineEnd(TrimStart(b));
    TrimKeepsLine(line);
    BlankTrimsAway(rest);
    Trim(line)
  }

  /** A whitespace-only text has nothing left once its start is trimmed. */
  lemma BlankTrimsAway(s: string)
    ensures IsBlank(s) ==> TrimStart(s) == ""
  {
    TrimEnds(s);
  }

  /** Trimming a text without line terminators leaves none. */
  lemma TrimKeepsLine(s: string)
    requires forall i :: 0 <= i < |s| ==> !IsLineTerminator(s[i])
    ensures forall i :: 0 <= i < |Trim(s)| ==> !IsLineTerminator(Trim(s)[i])
  {
    var r := Trim(s);
    TrimIsPadded(s);
    var k := |s| - |TrimStart(s)|;
    forall i | 0 <= i < |r| ensures !IsLineTerminator(r[i]) {
      assert r[i] == s[k + i];
    }
  }

  /** The description of a date-prefixed line: `match[2].trim()`. */
  function DatedDescription(line: string): string
    requires HasDatePrefix(line)
  {
    DescriptionAfterDate(line[10..])
  }

  /** `line.toLowerCase().startsWith('week ')`: a week heading, never a workout. */
  predicate IsWeekHeading(line: string) {
    StartsWith(ToLower(line), "week ")
  }

  predicate NotBlank(line: string) {
    !IsBlank(line)
  }

  // ---------------------------------------------------------------------------
  // The calendar reading

  /** A line as the loop looks at it: the trimmed text, the date text when the line opens with
      `dddd-dd-dd`, the description after that date, and whether it is a week heading. */
  datatype Line = Line(trimmed: string, dateText: Option<string>, description: string, weekHeading: bool)

  function Classify(line: string): (r: Line)
    ensures r.trimmed == Trim(line) && r.weekHeading == IsWeekHeading(line)
    ensures r.dateText.Some? <==> HasDatePrefix(line)
    ensures r.dateText.Some? ==> DatePattern(r.dateText.value) && r.dateText.value == line[..10]
                                 && r.description == DescriptionAfterDate(line[10..])
    ensures r.dateText.None? ==> r.description == ""
  {
    if HasDatePrefix(line) then Line(Trim(line), Some(line[..10]), DatedDescription(line), IsWeekHeading(line))
    else Line(Trim(line), None, "", IsWeekHeading(line))
  }

  /** The line carries a valid date inside the plan, start and end included. */
  predicate DatedInPlan(parseDate: string -> Option<int>, start: int, end: int, l: Line) {
    && l.dateText.Some?
    && var date := parseDate(l.dateText.value);
       date.Some? && start <= date.value <= end
  }

  function InPlanOf(parseDate: string -> Option<int>, start: int, end: int): Line -> bool {
    (l: Line) => DatedInPlan(parseDate, start, end, l)
  }

  /** What one line contributes: at most one workout, and the current day after the line. */
  datatype Placement = Placement(workout: Option<ParsedWorkout>, cursor: Option<int>)

  /** The line, trimmed, as a further workout of the current day. */
  function Continue(cursor: Option<int>, l: Line): (r: Placement)
    requires cursor.Some?
    ensures r.cursor == cursor && r.workout.Some? && !r.workout.value.isPrimary
    ensures r.workout.value.date == cursor.value
  {
    Placement(Some(ParsedWorkout(cursor.value, l.trimmed, false)), cursor)
  }

  /** One line of the loop. `cursor` is the day of the latest line dated inside the plan,
      `None` before the first: a dated line inside the plan opens its day; any other line can
      only add to the current day, and never moves it. */
  function Step(parseDate: string -> Option<int>, start: int, end: int, cursor: Option<int>, l: Line)
    : (r: Placement)
    ensures DatedInPlan(parseDate, start, end, l) ==>
              r.cursor == parseDate(l.dateText.value) && r.workout.Some? && r.workout.value.isPrimary
              && r.workout.value.description == l.description
    ensures !DatedInPlan(parseDate, start, end, l) ==>
              r.cursor == cursor && (r.workout.Some? ==> !r.workout.value.isPrimary)
    ensures cursor.None? && !DatedInPlan(parseDate, start, end, l) ==> r.workout.None?
    ensures r.workout.Some? ==> r.cursor.Some? && r.workout.value.date == r.cursor.value
    ensures l.dateText.Some? && !DatedInPlan(parseDate, start, end, l) ==>
              (r.workout.Some? <==> cursor.Some? && |l.description| > 0)
    ensures l.dateText.None? ==>
              (r.workout.Some? <==> cursor.Some? && |l.trimmed| > 0 && !l.weekHeading)
    ensures r.workout.Some? && !DatedInPlan(parseDate, start, end, l) ==>
              r.workout.value.description == l.trimmed
  {
    if DatedInPlan(parseDate, start, end, l) then
      var date := parseDate(l.dateText.value);
      Placement(Some(ParsedWorkout(date.value, l.description, true)), date)
    else if l.dateText.Some? then
      if cursor.Some? && |l.description| > 0 then Continue(cursor, l) else Placement(None, cursor)
    else if cursor.Some? && |l.trimmed| > 0 && !l.weekHeading then Continue(cursor, l)
    else Placement(None, cursor)
  }

  function Placed(p: Placement): (r: seq<ParsedWorkout>)
    ensures |r| <= 1
  {
    if p.workout.Some? then [p.workout.value] else []
  }

  predicate Within(start: int, end: int, w: ParsedWorkout) {
    start <= w.date <= end
  }

  /** The workouts of `lines` in text order, from the current day `cursor`. */
  function Walk(parseDate: string -> Option<int>, start: int, end: int, cursor: Option<int>, lines: seq<Line>)
    : (r: seq<ParsedWorkout>)
    ensures |r| <= |lines|
    decreases |lines|
  {
    if |lines| == 0 then []
    else
      var step := Step(parseDate, start, end, cursor, lines[0]);
      Placed(step) + Walk(parseDate, start, end, step.cursor, lines[1..])
  }

  /** From a day inside the plan, or from no day, every workout falls inside the plan. */
  lemma {:induction false} WalkWithinPlan(parseDate: string -> Option<int>, start: int, end: int,
                                          cursor: Option<int>, lines: seq<Line>)
    requires cursor.None? || start <= cursor.value <= end
    ensures forall i :: 0 <= i < |Walk(parseDate, start, end, cursor, lines)| ==>
              Within(start, end, Walk(parseDate, start, end, cursor, lines)[i])
    decreases |lines|
  {
    if |lines| > 0 {
      var step := Step(parseDate, start, end, cursor, lines[0]);
      var first := Placed(step);
      var rest := Walk(parseDate, start, end, step.cursor, lines[1..]);
      WalkWithinPlan(parseDate, start, end, step.cursor, lines[1..]);
      var w := Walk(parseDate, start, end, cursor, lines);
      assert w == first + rest;
      forall i | 0 <= i < |w|
        ensures Within(start, end, w[i])
      {
        if i >= |first| {
          assert w[i] == rest[i - |first|];
        }
      }
    }
  }

  function IsPrimary(w: ParsedWorkout): bool { w.isPrimary }

  function Description(w: ParsedWorkout): string { w.description }

  function LineDescription(l: Line): string { l.description }

  /** One line's share of the primary workouts: its description when it is dated inside the
      plan, nothing otherwise. */
  lemma PrimaryOfLine(parseDate: string -> Option<int>, start: int, end: int, cursor: Option<int>, l: Line)
    ensures Map(Description, Filter(IsPrimary, Placed(Step(parseDate, start, end, cursor, l))))
            == Map(LineDescription, Filter(InPlanOf(parseDate, start, end), [l]))
  {
    var step := Step(parseDate, start, end, cursor, l);
    if DatedInPlan(parseDate, start, end, l) {
      assert Filter(IsPrimary, Placed(step)) == Placed(step);
      assert Filter(InPlanOf(parseDate, start, end), [l]) == [l];
    } else {
      assert Filter(IsPrimary, Placed(step)) == [];
      assert Filter(InPlanOf(parseDate, start, end), [l]) == [];
    }
  }

  /** The primary workouts are exactly the lines dated inside the plan, in text order, each
      with the description that follows its date. */
  lemma {:induction false} PrimariesAreDatedLines(parseDate: string -> Option<int>, start: int, end: int,
                                                  cursor: Option<int>, lines: seq<Line>)
    ensures Map(Description, Filter(IsPrimary, Walk(parseDate, start, end, cursor, lines)))
            == Map(LineDescription, Filter(InPlanOf(parseDate, start, end), lines))
    decreases |lines|
  {
    var inPlan := InPlanOf(parseDate, start, end);
    if |lines| > 0 {
      var step := Step(parseDate, start, end, cursor, lines[0]);
      var first := Placed(step);
      var rest := Walk(parseDate, start, end, step.cursor, lines[1..]);
      PrimariesAreDatedLines(parseDate, start, end, step.cursor, lines[1..]);
      PrimaryOfLine(parseDate, start, end, cursor, lines[0]);
      assert Walk(parseDate, start, end, cursor, lines) == first + rest;
      FilterAppend(IsPrimary, first, rest);
      MapAppend(Description, Filter(IsPrimary, first), Filter(IsPrimary, rest));
      FilterAppend(inPlan, [lines[0]], lines[1..]);
      MapAppend(LineDescription, Filter(inPlan, [lines[0]]), Filter(inPlan, lines[1..]));
    }
  }

  /** Before the first line dated inside the plan nothing is placed: a text without such a
      line yields no workouts at all. */
  lemma {:induction false} NothingBeforeFirstDate(parseDate: string -> Option<int>, start: int, end: int,
                                                  lines: seq<Line>)
    requires forall i :: 0 <= i < |lines| ==> !DatedInPlan(parseDate, start, end, lines[i])
    ensures Walk(parseDate, start, end, None, lines) == []
    decreases |lines|
  {
    if |lines| > 0 {
      NothingBeforeFirstDate(parseDate, start, end, lines[1..]);
    }
  }

  // ---------------------------------------------------------------------------
  // The stable sort by date (`Array.prototype.sort` is stable)

  predicate SortedByDate(s: seq<ParsedWorkout>) {
    forall i, j :: 0 <= i < j < |s| ==> s[i].date <= s[j].date
  }

  /** `x` placed after every element of `s` whose date is not later than its own. */
  function Insert(s: seq<ParsedWorkout>, x: ParsedWorkout): (r: seq<ParsedWorkout>)
    requires SortedByDate(s)
    ensures SortedByDate(r)
    ensures multiset(r) == multiset(s) + multiset{x}
    decreases |s|
  {
    if |s| == 0 || s[|s| - 1].date <= x.date then
      SortedAppend(s, x);
      s + [x]
    else
      var init, last := s[..|s| - 1], s[|s| - 1];
      assert s == init + [last];
      SortedInit(s);
      var front := Insert(init, x);
      forall k | 0 <= k < |front|
        ensures front[k].date <= last.date
      {
        assert front[k] in multiset(init) + multiset{x};
      }
      SortedAppend(front, last);
      front + [last]
  }

  lemma SortedInit(s: seq<ParsedWorkout>)
    requires SortedByDate(s) && |s| > 0
    ensures SortedByDate(s[..|s| - 1])
  {
  }

  lemma SortedAppend(s: seq<ParsedWorkout>, x: ParsedWorkout)
    requires SortedByDate(s)
    requires forall k :: 0 <= k < |s| ==> s[k].date <= x.date
    ensures SortedByDate(s + [x])
  {
  }

  /** `workouts.sort((a, b) => compareAsc(a.date, b.date))`. */
  function SortByDate(s: seq<ParsedWorkout>): (r: seq<ParsedWorkout>)
    ensures SortedByDate(r)
    ensures multiset(r) == multiset(s)
    decreases |s|
  {
    if |s| == 0 then []
    else
      assert s == s[..|s| - 1] + [s[|s| - 1]];
      Insert(SortByDate(s[..|s| - 1]), s[|s| - 1])
  }

  /** Sorting only reorders: every sorted workout comes from the input. */
  lemma SortedFromInput(s: seq<ParsedWorkout>)
    ensures forall i :: 0 <= i < |SortByDate(s)| ==> SortByDate(s)[i] in s
  {
    var r := SortByDate(s);
    forall i | 0 <= i < |r|
      ensures r[i] in s
    {
      assert r[i] in multiset(r);
    }
  }

  /** `[x]` when `x` falls on day `d`, nothing otherwise. */
  function Own(x: ParsedWorkout, d: int): seq<ParsedWorkout> {
    if x.date == d then [x] else []
  }

  /** The workouts of day `d`, in their order in `s`. */
  function OnDay(s: seq<ParsedWorkout>, d: int): (r: seq<ParsedWorkout>)
    ensures forall i :: 0 <= i < |r| ==> r[i].date == d
    decreases |s|
  {
    if |s| == 0 then []
    else
      OnDay(s[..|s| - 1], d) + Own(s[|s| - 1], d)
  }

  lemma OnDayAppend(s: seq<ParsedWorkout>, x: ParsedWorkout, d: int)
    ensures OnDay(s + [x], d) == OnDay(s, d) + Own(x, d)
  {
    assert (s + [x])[..|s|] == s;
  }

  /** Inserting keeps the order of every day's workouts. */
  lemma {:induction false} InsertStable(s: seq<ParsedWorkout>, x: ParsedWorkout, d: int)
    requires SortedByDate(s)
    ensures OnDay(Insert(s, x), d) == OnDay(s + [x], d)
    decreases |s|
  {
    if |s| > 0 && s[|s| - 1].date > x.date {
      var init, last := s[..|s| - 1], s[|s| - 1];
      SortedInit(s);
      var front := Insert(init, x);
      assert Insert(s, x) == front + [last];
      InsertStable(init, x, d);
      OnDayAppend(front, last, d);
      OnDayAppend(init, x, d);
      OnDayAppend(s, x, d);
      assert Own(x, d) + Own(last, d) == Own(last, d) + Own(x, d);
    }
  }

  /** The sort is stable: the workouts of any one day keep their text order. */
  lemma {:induction false} SortStable(s: seq<ParsedWorkout>, d: int)
    ensures OnDay(SortByDate(s), d) == OnDay(s, d)
    decreases |s|
  {
    if |s| > 0 {
      var init, last := s[..|s| - 1], s[|s| - 1];
      var sorted := SortByDate(init);
      calc {
        OnDay(SortByDate(s), d);
        OnDay(Insert(sorted, last), d);
        { InsertStable(sorted, last, d); }
        OnDay(sorted + [last], d);
        { OnDayAppend(sorted, last, d); }
        OnDay(sorted, d) + Own(last, d);
        { SortStable(init, d); }
        OnDay(init, d) + Own(last, d);
        OnDay(s, d);
      }
    }
  }

  // ---------------------------------------------------------------------------
  // parseCalendarWorkouts

  /** The non-blank lines of the raw text. */
  function PlanLines(text: string): seq<string> {
    Filter(NotBlank, Split(text, '\n'))
  }

  /** The non-blank lines, classified. */
  function Lines(text: string): seq<Line> {
    Map(Classify, PlanLines(text))
  }

  /** The workouts of `lines` for the plan from `start` to `end`, sorted by day. */
  function Calendar(parseDate: string -> Option<int>, start: int, end: int, lines: seq<Line>)
    : (r: seq<ParsedWorkout>)
    ensures forall i :: 0 <= i < |r| ==> Within(start, end, r[i])
    ensures SortedByDate(r)
    ensures multiset(r) == multiset(Walk(parseDate, start, end, None, lines))
    ensures forall d :: OnDay(r, d) == OnDay(Walk(parseDate, start, end, None, lines), d)
  {
    var placed := Walk(parseDate, start, end, None, lines);
    WalkWithinPlan(parseDate, start, end, None, lines);
    SortedFromInput(placed);
    forall d ensures OnDay(SortByDate(placed), d) == OnDay(placed, d) {
      SortStable(placed, d);
    }
    SortByDate(placed)
  }

  /** The calendar reading of a plan: nothing when either plan date is invalid, otherwise every
      workout on a day of the plan, sorted by day. */
  function ParseCalendarWorkouts(parseDate: string -> Option<int>, text: string, startText: string, endText: string)
    : (r: seq<ParsedWorkout>)
    ensures parseDate(startText).None? || parseDate(endText).None? ==> r == []
    ensures parseDate(startText).Some? && parseDate(endText).Some? ==>
              forall i :: 0 <= i < |r| ==> Within(parseDate(startText).value, parseDate(endText).value, r[i])
    ensures parseDate(startText).Some? && parseDate(endText).Some? ==>
              r == Calendar(parseDate, parseDate(startText).value, parseDate(endText).value, Lines(text))
    ensures SortedByDate(r)
  {
    var start := parseDate(startText);
    var end := parseDate(endText);
    if start.None? || end.None? then [] else Calendar(parseDate, start.value, end.value, Lines(text))
  }

  lemma NoLinesInEmpty()
    ensures PlanLines(Join([], "\n")) == []
  {
    var e: string := Join([], "\n");
    assert '\n' !in e;
    assert AllSpace(e);
    assert Filter(NotBlank, [e]) == [];
  }

  lemma SkipBlankAlone(before: seq<string>, blank: string, after: seq<string>)
    requires '\n' !in blank && IsBlank(blank)
    requires |before + after| == 0
    ensures PlanLines(Join(before + [blank] + after, "\n")) == PlanLines(Join(before + after, "\n"))
  {
    assert Filter(NotBlank, [blank]) == [];
    NoLinesInEmpty();
    assert before + [blank] + after == [blank];
    assert before + after == [];
  }

  lemma SkipBlankAmongLines(before: seq<string>, blank: string, after: seq<string>)
    requires forall i :: 0 <= i < |before| ==> '\n' !in before[i]
    requires forall i :: 0 <= i < |after| ==> '\n' !in after[i]
    requires '\n' !in blank && IsBlank(blank)
    requires |before + after| > 0
    ensures PlanLines(Join(before + [blank] + after, "\n")) == PlanLines(Join(before + after, "\n"))
  {
    NoNewlinesJoined(before, [blank] + after);
    NoNewlinesJoined(before, after);
    SkipBlankLine(before, blank, after);
  }

  lemma SkipBlankLine(before: seq<string>, blank: string, after: seq<string>)
    requires NoNewlines(before + ([blank] + after)) && NoNewlines(before + after)
    requires !NotBlank(blank)
    requires |before + after| > 0
    ensures PlanLines(Join(before + [blank] + after, "\n")) == PlanLines(Join(before + after, "\n"))
  {
    var withBlank := before + [blank] + after;
    assert withBlank == before + ([blank] + after);
    LinesOfJoin(withBlank);
    LinesOfJoin(before + after);
    FilterSkips(NotBlank, before, blank, after);
  }

  /** No line of `lines` holds a line break. */
  predicate NoNewlines(lines: seq<string>) {
    forall i :: 0 <= i < |lines| ==> '\n' !in lines[i]
  }

  lemma NoNewlinesJoined(a: seq<string>, b: seq<string>)
    requires forall i :: 0 <= i < |a| ==> '\n' !in a[i]
    requires forall i :: 0 <= i < |b| ==> '\n' !in b[i]
    ensures NoNewlines(a + b)
  {
    forall i | 0 <= i < |a + b|
      ensures '\n' !in (a + b)[i]
    {
      if i < |a| {
        assert (a + b)[i] == a[i];
      } else {
        assert (a + b)[i] == b[i - |a|];
      }
    }
  }

  /** Joining lines with line breaks and reading the plan lines back keeps the non-blank ones. */
  lemma LinesOfJoin(lines: seq<string>)
    requires |lines| >= 1 && NoNewlines(lines)
    ensures PlanLines(Join(lines, "\n")) == Filter(NotBlank, lines)
  {
    assert "\n" == ['\n'];
    SplitJoin(lines, '\n');
  }

  /** Removing a whitespace-only line leaves the non-blank lines as they were. */
  lemma PlanLinesSkipBlank(before: seq<string>, blank: string, after: seq<string>)
    requires forall i :: 0 <= i < |before| ==> '\n' !in before[i]
    requires forall i :: 0 <= i < |after| ==> '\n' !in after[i]
    requires '\n' !in blank && IsBlank(blank)
    ensures PlanLines(Join(before + [blank] + after, "\n")) == PlanLines(Join(before + after, "\n"))
  {
    if |before + after| > 0 {
      SkipBlankAmongLines(before, blank, after);
    } else {
      SkipBlankAlone(before, blank, after);
    }
  }

  /** Blank lines change nothing: removing a whitespace-only line from anywhere in the text
      leaves the calendar as it was. */
  lemma BlankLineIrrelevant(parseDate: string -> Option<int>, before: seq<string>, blank: string,
                            after: seq<string>, startText: string, endText: string)
    requires forall i :: 0 <= i < |before| ==> '\n' !in before[i]
    requires forall i :: 0 <= i < |after| ==> '\n' !in after[i]
    requires '\n' !in blank && IsBlank(blank)
    ensures ParseCalendarWorkouts(parseDate, Join(before + [blank] + after, "\n"), startText, endText)
         == ParseCalendarWorkouts(parseDate, Join(before + after, "\n"), startText, endText)
  {
    PlanLinesSkipBlank(before, blank, after);
  }

  // ---------------------------------------------------------------------------
  // getScheduleListItems

  datatype PlanListItem = PlanListItem(id: string, text: string, isDateLine: bool)

  const Weekdays: seq<string> := ["monday", "tuesday", "wednesday", "thursday", "friday", "saturday", "sunday"]

  /** The line opens with an English weekday name in any letter case. */
  predicate StartsWithWeekday(line: string) {
    exists k :: 0 <= k < |Weekdays| && StartsWith(ToLower(line), Weekdays[k])
  }

  /** A line the list shows as a day heading. */
  predicate IsDateLine(line: string)
    ensures HasDatePrefix(line) ==> IsDateLine(line)
    ensures StartsWith(ToLower(line), "monday") ==> IsDateLine(line)
    ensures IsDateLine(line) ==> HasDatePrefix(line) || |line| >= |"monday"|
  {
    assert Weekdays[0] == "monday";
    assert forall k :: 0 <= k < |Weekdays| ==> |Weekdays[k]| >= 6;
    HasDatePrefix(line) || StartsWithWeekday(line)
  }

  function ItemId(k: nat): string {
    "item-" + NatToString(k)
  }

  predicate NonEmpty(s: string) {
    |s| > 0
  }

  /** The list reading: every non-empty trimmed line, numbered from zero. */
  function ScheduleListItems(text: string): (r: seq<PlanListItem>)
    ensures forall k :: 0 <= k < |r| ==> |r[k].text| > 0 && r[k].id == ItemId(k)
    ensures forall k :: 0 <= k < |r| ==> r[k].isDateLine == IsDateLine(r[k].text)
  {
    var kept := Filter(NonEmpty, Map(Trim, Split(text, '\n')));
    seq(|kept|, k requires 0 <= k < |kept| => PlanListItem(ItemId(k), kept[k], IsDateLine(kept[k])))
  }

  function ItemText(item: PlanListItem): string { item.text }

  /** The list shows the calendar's lines, trimmed: one item per non-blank line, in order. */
  lemma ListShowsPlanLines(text: string)
    ensures Map(ItemText, ScheduleListItems(text)) == Map(Trim, PlanLines(text))
  {
    FilterMap(NonEmpty, Trim, NotBlank, Split(text, '\n'));
  }

  /** Item ids are distinct. */
  lemma ItemIdsDistinct(text: string, i: nat, j: nat)
    requires i < j < |ScheduleListItems(text)|
    ensures ScheduleListItems(text)[i].id != ScheduleListItems(text)[j].id
  {
    var r := ScheduleListItems(text);
    if r[i].id == r[j].id {
      assert ItemId(i)[5..] == NatToString(i);
      assert ItemId(j)[5..] == NatToString(j);
      NatToStringInjective(i, j);
    }
  }

  /** Trimming keeps a date prefix: its first and last characters are digits, not whitespace. */
  lemma TrimKeepsDatePrefix(line: string)
    requires HasDatePrefix(line)
    ensures HasDatePrefix(Trim(line))
  {
    var p := line[..10];
    assert line[0] == p[0] && line[9] == p[9];
    DigitIsNotSpace(p[0]);
    DigitIsNotSpace(p[9]);
    assert TrimStart(line) == line;
    TrimEndKeepsPrefix(line, 10);
    assert Trim(line)[..10] == p;
  }

  lemma DigitIsNotSpace(c: char)
    requires IsDigit(c)
    ensures !IsSpace(c)
  {
  }

  /** Trimming the end never cuts into a prefix that ends in a non-space character. */
  lemma TrimEndKeepsPrefix(s: string, n: nat)
    requires 0 < n <= |s| && !IsSpace(s[n - 1])
    ensures |TrimEnd(s)| >= n && TrimEnd(s)[..n] == s[..n]
  {
    var t := TrimEnd(s);
    assert t[..n] == s[..|t|][..n];
  }

  /** A line the calendar reads as dated is a day heading in the list. */
  lemma DatedLineIsDateLine(line: string)
    requires HasDatePrefix(line)
    ensures IsDateLine(Trim(line))
  {
    TrimKeepsDatePrefix(line);
  }
}
