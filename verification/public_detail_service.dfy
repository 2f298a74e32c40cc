/** The public business service: schedules arrive as "DAY open-close" strings
    and are turned into Spanish display rows. */
module PublicDetailService {
  import opened Text
  import PrivateDetailService

  type DisplaySchedule = PrivateDetailService.DisplaySchedule

  const EnglishDays: map<string, string> := map[
    "MONDAY" := "Lunes",
    "TUESDAY" := "Martes",
    "WEDNESDAY" := "Miércoles",
    "THURSDAY" := "Jueves",
    "FRIDAY" := "Viernes",
    "SATURDAY" := "Sábado",
    "SUNDAY" := "Domingo"]

  /** `translateDay`: the Spanish name of an English day in capitals; any other text unchanged. */
  function TranslateDay(day: string): (r: string)
    ensures day in EnglishDays ==> r == EnglishDays[day]
    ensures day !in EnglishDays ==> r == day
  {
    if day in EnglishDays then EnglishDays[day] else day
  }

  /** The English table names the same seven days, in the same Sunday-first order,
      as the owner-side service's numeric table. */
  lemma DayTablesAgree()
    ensures var english := ["SUNDAY", "MONDAY", "TUESDAY", "WEDNESDAY", "THURSDAY", "FRIDAY", "SATURDAY"];
      forall d :: 0 <= d < 7 ==> TranslateDay(english[d]) == PrivateDetailService.DayNames[d]
  {
  }

  /** `formatHours`: "a-b" reads "a - b"; only the first two pieces are kept; text
      without a dash is unchanged. */
  function FormatHours(hours: string): (r: string)
    ensures '-' !in hours ==> r == hours
    ensures '-' in hours ==> r == Split(hours, '-')[0] + " - " + Split(hours, '-')[1]
  {
    if '-' in hours then
      CountPositive(hours, '-');
      var pieces := Split(hours, '-');
      pieces[0] + " - " + pieces[1]
    else hours
  }

  /** A single range gains spaces around its dash. */
  lemma FormatRange(a: string, b: string)
    requires '-' !in a && '-' !in b
    ensures FormatHours(a + "-" + b) == a + " - " + b
  {
    SplitAfterPiece(a, '-', b);
    SplitWithoutSeparator(b, '-');
    assert a + "-" + b == a + ['-'] + b;
  }

  /** Anything after a second dash is dropped. */
  lemma FormatDropsExtraPieces(a: string, b: string, c: string)
    requires '-' !in a && '-' !in b
    ensures FormatHours(a + "-" + b + "-" + c) == a + " - " + b
  {
    SplitAfterPiece(a, '-', b + "-" + c);
    SplitAfterPiece(b, '-', c);
    assert a + "-" + b + "-" + c == a + ['-'] + (b + ['-'] + c);
  }

  /** One display row: the first space-separated token is the day, the second the hours. */
  function FormatEntry(schedule: string): (r: DisplaySchedule)
    ensures r.day == TranslateDay(Split(schedule, ' ')[0])
    ensures |Split(schedule, ' ')| == 1 ==> r.hours == "Cerrado"
    ensures |Split(schedule, ' ')| > 1 && Split(schedule, ' ')[1] == "CLOSED" ==> r.hours == "Cerrado"
    ensures |Split(schedule, ' ')| > 1 && Split(schedule, ' ')[1] != "CLOSED" ==>
      r.hours == FormatHours(Split(schedule, ' ')[1])
  {
    var parts := Split(schedule, ' ');
    var hours := if |parts| > 1 then parts[1] else "CLOSED";
    PrivateDetailService.DisplaySchedule(TranslateDay(parts[0]), if hours == "CLOSED" then "Cerrado" else FormatHours(hours))
  }

  /** `formatSchedules`: one row per string, in order. */
  function FormatSchedules(schedules: seq<string>): (r: seq<DisplaySchedule>)
    ensures |r| == |schedules|
    ensures forall i :: 0 <= i < |r| ==> r[i] == FormatEntry(schedules[i])
  {
    seq(|schedules|, i requires 0 <= i < |schedules| => FormatEntry(schedules[i]))
  }

  /** A typical entry: "MONDAY 08:00-17:00" reads as Monday with spaced hours. */
  lemma FormatTypicalEntry(day: string, open: string, close: string)
    requires day in EnglishDays && ' ' !in day
    requires ' ' !in open && '-' !in open && ' ' !in close && '-' !in close
    ensures FormatEntry(day + " " + open + "-" + close)
      == PrivateDetailService.DisplaySchedule(EnglishDays[day], open + " - " + close)
  {
    var rest := open + "-" + close;
    SplitDayHours(day, rest);
    assert day + " " + open + "-" + close == day + " " + rest;
    FormatRange(open, close);
  }

  /** A day and hours without spaces split into exactly those two tokens. */
  lemma SplitDayHours(day: string, rest: string)
    requires ' ' !in day && ' ' !in rest
    ensures Split(day + " " + rest, ' ') == [day, rest]
  {
    SplitAfterPiece(day, ' ', rest);
    SplitWithoutSeparator(rest, ' ');
    assert day + " " + rest == day + [' '] + rest;
  }

  /** A day alone reads as closed. */
  lemma FormatBareDay(day: string)
    requires day in EnglishDays && ' ' !in day
    ensures FormatEntry(day) == PrivateDetailService.DisplaySchedule(EnglishDays[day], "Cerrado")
  {
    SplitWithoutSeparator(day, ' ');
  }
}
