/**
 * The text of the CSV export (`exportToCsv`) and the logged-set keys it looks
 * measurements up by. One row is written per (day, exercise, set number
 * 1..sets) in plan order, after a fixed header; a missing weight or RPE is an
 * empty field and the last field says whether the set was ticked.
 * Writing the text to the chosen document is not modelled.
 */
module CsvExport {
  import opened Text
  import opened Calendar
  import opened Workout
  import opened PlanGenerator

  /** One (day, exercise, set number) triple of a plan. */
  datatype SetRow = SetRow(date: Date, name: string, setIdx: nat)

  /** Sets 1..n of one exercise on one day. */
  function SetRows(date: Date, name: string, n: nat): seq<SetRow> {
    if n == 0 then [] else SetRows(date, name, n - 1) + [SetRow(date, name, n)]
  }

  /** The sets of a day's exercises, exercise by exercise. */
  function ItemRows(date: Date, items: seq<ExerciseItem>): seq<SetRow> {
    if |items| == 0 then []
    else
      var last := items[|items| - 1];
      ItemRows(date, items[..|items| - 1]) + SetRows(date, last.name, SetCount(last))
  }

  /** All (day, exercise, set) triples of a plan, in the order the export visits them. */
  function Rows(days: seq<PlanDay>): seq<SetRow> {
    if |days| == 0 then []
    else
      var last := days[|days| - 1];
      Rows(days[..|days| - 1]) + ItemRows(last.date, last.items)
  }

  /** Total number of sets over all exercises of all days. */
  function TotalSets(days: seq<PlanDay>): nat {
    if |days| == 0 then 0 else TotalSets(days[..|days| - 1]) + SetsOf(days[|days| - 1].items)
  }

  /** The logged-set key `date|name|setN` under which measurements are stored. */
  function KeyText(row: SetRow): string {
    DateText(row.date) + "|" + row.name + "|set" + NatText(row.setIdx)
  }

  /** A stored text value, or the empty field when there is none. */
  function Lookup(values: map<string, string>, key: string): string {
    if key in values then values[key] else ""
  }

  /** "yes" only for a set whose stored completion flag is true. */
  function Completed(checks: map<string, bool>, key: string): string {
    if key in checks && checks[key] then "yes" else "no"
  }

  /** The six columns of a set's row: date, exercise, set, weight_kg, rpe, completed. */
  function RowFields(row: SetRow, weights: map<string, string>, rpes: map<string, string>,
                     checks: map<string, bool>): seq<string>
  {
    var key := KeyText(row);
    [DateText(row.date), row.name, NatText(row.setIdx),
     Lookup(weights, key + "|w"), Lookup(rpes, key + "|r"), Completed(checks, key)]
  }

  /** One line of the export, newline included. */
  function RowLine(row: SetRow, weights: map<string, string>, rpes: map<string, string>,
                   checks: map<string, bool>): string
  {
    var key := KeyText(row);
    DateText(row.date) + "," + row.name + "," + NatText(row.setIdx) + ","
      + Lookup(weights, key + "|w") + "," + Lookup(rpes, key + "|r") + ","
      + Completed(checks, key) + "\n"
  }

  lemma JoinSix(a: string, b: string, c: string, d: string, e: string, f: string, sep: char)
    ensures Join([a, b, c, d, e, f], sep) == a + [sep] + b + [sep] + c + [sep] + d + [sep] + e + [sep] + f
  {
    var p := [a, b, c, d, e, f];
    assert p[1..][1..][1..][1..][1..] == [f];
    assert Join(p[1..][1..][1..][1..], sep) == e + [sep] + f;
    assert Join(p[1..][1..][1..], sep) == d + [sep] + e + [sep] + f;
    assert Join(p[1..][1..], sep) == c + [sep] + d + [sep] + e + [sep] + f;
    assert Join(p[1..], sep) == b + [sep] + c + [sep] + d + [sep] + e + [sep] + f;
  }

  /** A line is its six columns joined by commas, then a newline. */
  lemma RowLineFields(row: SetRow, weights: map<string, string>, rpes: map<string, string>,
                      checks: map<string, bool>)
    ensures RowLine(row, weights, rpes, checks) == Join(RowFields(row, weights, rpes, checks), ',') + "\n"
  {
    var f := RowFields(row, weights, rpes, checks);
    JoinSix(f[0], f[1], f[2], f[3], f[4], f[5], ',');
    assert f == [f[0], f[1], f[2], f[3], f[4], f[5]];
  }

  /** The line renderer for one set of stored measurements. */
  function Render(weights: map<string, string>, rpes: map<string, string>,
                  checks: map<string, bool>): SetRow -> string
  {
    row => RowLine(row, weights, rpes, checks)
  }

  /** The rows' lines, one after the other. */
  function Lines(rows: seq<SetRow>, render: SetRow -> string): string {
    if |rows| == 0 then "" else Lines(rows[..|rows| - 1], render) + render(rows[|rows| - 1])
  }

  lemma LinesSnoc(rows: seq<SetRow>, row: SetRow, render: SetRow -> string)
    ensures Lines(rows + [row], render) == Lines(rows, render) + render(row)
  {
    assert (rows + [row])[..|rows|] == rows;
  }

  /** The lines of consecutive rows are the concatenation of their lines. */
  lemma {:induction false} LinesAppend(a: seq<SetRow>, b: seq<SetRow>, render: SetRow -> string)
    ensures Lines(a + b, render) == Lines(a, render) + Lines(b, render)
    decreases |b|
  {
    if |b| == 0 {
      assert a + b == a;
    } else {
      var b', last := b[..|b| - 1], b[|b| - 1];
      assert a + b == (a + b') + [last];
      LinesSnoc(a + b', last, render);
      LinesAppend(a, b', render);
    }
  }

  lemma ItemRowsSnoc(date: Date, items: seq<ExerciseItem>, j: nat)
    requires j < |items|
    ensures ItemRows(date, items[..j + 1]) == ItemRows(date, items[..j]) + SetRows(date, items[j].name, SetCount(items[j]))
  {
    assert items[..j + 1][..j] == items[..j];
  }

  lemma RowsSnoc(days: seq<PlanDay>, i: nat)
    requires i < |days|
    ensures Rows(days[..i + 1]) == Rows(days[..i]) + ItemRows(days[i].date, days[i].items)
  {
    assert days[..i + 1][..i] == days[..i];
  }

  lemma AppendAssoc(a: string, b: string, c: string)
    ensures (a + b) + c == a + (b + c)
  {
  }

  const HeaderLine := "date,exercise,set,weight_kg,rpe,completed"
  const Header := HeaderLine + "\n"

  /** Specification of the text `exportToCsv` builds. */
  function CsvText(plan: WorkoutPlan, weights: map<string, string>, rpes: map<string, string>,
                   checks: map<string, bool>): string
  {
    Header + Lines(Rows(plan.days), Render(weights, rpes, checks))
  }

  /**
   * The body of the innermost loop of `exportToCsv`: the key lookups and the
   * line of one set. It computes `RowLine`; what that line holds is proved
   * about `RowLine` in `RowLineFields` and `RowRoundTrip`.
   */
  method SetLine(date: Date, name: string, setIdx: nat, weights: map<string, string>,
                 rpes: map<string, string>, checks: map<string, bool>) returns (line: string)
    ensures line == RowLine(SetRow(date, name, setIdx), weights, rpes, checks)
  {
    var base := DateText(date) + "|" + name + "|set" + NatText(setIdx);
    var w := if base + "|w" in weights then weights[base + "|w"] else "";
    var r := if base + "|r" in rpes then rpes[base + "|r"] else "";
    var completed := if base in checks && checks[base] then "yes" else "no";
    line := DateText(date) + "," + name + "," + NatText(setIdx) + "," + w + "," + r + "," + completed + "\n";
  }

  /** The innermost loop of `exportToCsv`: one line per set number 1..sets of one exercise. */
  method AppendSetLines(sb: string, date: Date, ex: ExerciseItem, weights: map<string, string>,
                        rpes: map<string, string>, checks: map<string, bool>) returns (out: string)
    ensures out == sb + Lines(SetRows(date, ex.name, SetCount(ex)), Render(weights, rpes, checks))
  {
    out := sb;
    var setIdx := 1;
    while setIdx <= ex.sets
      invariant 1 <= setIdx <= SetCount(ex) + 1
      invariant out == sb + Lines(SetRows(date, ex.name, setIdx - 1), Render(weights, rpes, checks))
    {
      var line := SetLine(date, ex.name, setIdx, weights, rpes, checks);
      ghost var render, row := Render(weights, rpes, checks), SetRow(date, ex.name, setIdx);
      assert line == render(row);
      assert SetRows(date, ex.name, setIdx) == SetRows(date, ex.name, setIdx - 1) + [row];
      LinesSnoc(SetRows(date, ex.name, setIdx - 1), row, render);
      AppendAssoc(sb, Lines(SetRows(date, ex.name, setIdx - 1), render), line);
      out := out + line;
      setIdx := setIdx + 1;
    }
    assert setIdx - 1 == SetCount(ex);
  }

  /** The middle loop of `exportToCsv`: the lines of every exercise of one day. */
  method AppendDayLines(sb: string, day: PlanDay, weights: map<string, string>,
                        rpes: map<string, string>, checks: map<string, bool>) returns (out: string)
    ensures out == sb + Lines(ItemRows(day.date, day.items), Render(weights, rpes, checks))
  {
    out := sb;
    var j := 0;
    while j < |day.items|
      invariant 0 <= j <= |day.items|
      invariant out == sb + Lines(ItemRows(day.date, day.items[..j]), Render(weights, rpes, checks))
    {
      var ex := day.items[j];
      AppendAssoc(sb, Lines(ItemRows(day.date, day.items[..j]), Render(weights, rpes, checks)),
                  Lines(SetRows(day.date, ex.name, SetCount(ex)), Render(weights, rpes, checks)));
      out := AppendSetLines(out, day.date, ex, weights, rpes, checks);
      ItemRowsSnoc(day.date, day.items, j);
      LinesAppend(ItemRows(day.date, day.items[..j]), SetRows(day.date, ex.name, SetCount(ex)), Render(weights, rpes, checks));
      j := j + 1;
    }
    assert day.items[..|day.items|] == day.items;
  }

  /** `exportToCsv` up to the write: the header, then the lines of every day in order. */
  method ExportCsvText(plan: WorkoutPlan, weights: map<string, string>, rpes: map<string, string>,
                       checks: map<string, bool>) returns (csv: string)
    ensures csv == CsvText(plan, weights, rpes, checks)
  {
    var days := plan.days;
    csv := "date,exercise,set,weight_kg,rpe,completed\n";
    var i := 0;
    while i < |days|
      invariant 0 <= i <= |days|
      invariant csv == Header + Lines(Rows(days[..i]), Render(weights, rpes, checks))
    {
      ghost var render, before := Render(weights, rpes, checks), csv;
      csv := AppendDayLines(csv, days[i], weights, rpes, checks);
      RowsSnoc(days, i);
      LinesAppend(Rows(days[..i]), ItemRows(days[i].date, days[i].items), render);
      AppendAssoc(Header, Lines(Rows(days[..i]), render), Lines(ItemRows(days[i].date, days[i].items), render));
      i := i + 1;
    }
    assert days[..|days|] == days;
  }

  // ---------------------------------------------------------------------
  // Size of the export.

  lemma {:induction false} SetRowsShape(date: Date, name: string, n: nat)
    ensures |SetRows(date, name, n)| == n
    ensures forall k :: 0 <= k < n ==> SetRows(date, name, n)[k] == SetRow(date, name, k + 1)
  {
    if n > 0 {
      SetRowsShape(date, name, n - 1);
    }
  }

  lemma {:induction false} ItemRowsCount(date: Date, items: seq<ExerciseItem>)
    ensures |ItemRows(date, items)| == SetsOf(items)
  {
    if |items| > 0 {
      var last := items[|items| - 1];
      ItemRowsCount(date, items[..|items| - 1]);
      SetRowsShape(date, last.name, SetCount(last));
    }
  }

  /** One row per set: the export has exactly as many rows as the plan has sets. */
  lemma {:induction false} RowCount(days: seq<PlanDay>)
    ensures |Rows(days)| == TotalSets(days)
  {
    if |days| > 0 {
      var last := days[|days| - 1];
      RowCount(days[..|days| - 1]);
      ItemRowsCount(last.date, last.items);
    }
  }

  /** A plan without a single set (all work days, say) exports the header alone. */
  lemma HeaderOnly(plan: WorkoutPlan, weights: map<string, string>, rpes: map<string, string>,
                   checks: map<string, bool>)
    requires TotalSets(plan.days) == 0
    ensures CsvText(plan, weights, rpes, checks) == Header
  {
    RowCount(plan.days);
    assert Header + "" == Header;
  }

  // ---------------------------------------------------------------------
  // Reading the export back.

  /** Text that can stand in a column unquoted: no comma and no newline. */
  predicate PlainText(s: string) {
    forall i :: 0 <= i < |s| ==> s[i] != ',' && s[i] != '\n'
  }

  predicate PlainValues(values: map<string, string>) {
    forall k :: k in values ==> PlainText(values[k])
  }

  predicate SafeRows(rows: seq<SetRow>) {
    forall k :: 0 <= k < |rows| ==> SafeName(rows[k].name)
  }

  /** The line of a row without its newline. */
  function RowBody(row: SetRow, weights: map<string, string>, rpes: map<string, string>,
                   checks: map<string, bool>): string
  {
    Join(RowFields(row, weights, rpes, checks), ',')
  }

  lemma {:induction false} JoinAvoids(pieces: seq<string>, sep: char, c: char)
    requires |pieces| >= 1 && c != sep
    requires forall i :: 0 <= i < |pieces| ==> c !in pieces[i]
    ensures c !in Join(pieces, sep)
  {
    if |pieces| > 1 {
      JoinAvoids(pieces[1..], sep, c);
    }
  }

  lemma DateCharsPlain(s: string)
    requires DateChars(s)
    ensures PlainText(s) && '|' !in s
  {
    assert !IsDateChar('|') && !IsDateChar(',') && !IsDateChar('\n');
  }

  lemma NamePlain(name: string)
    requires SafeName(name)
    ensures PlainText(name) && '|' !in name
  {
  }

  lemma DigitsPlain(s: string)
    requires AllDigits(s)
    ensures PlainText(s) && '|' !in s
  {
  }

  lemma LookupPlain(values: map<string, string>, key: string)
    requires PlainValues(values)
    ensures PlainText(Lookup(values, key))
  {
  }

  lemma FieldsPlain(row: SetRow, weights: map<string, string>, rpes: map<string, string>,
                    checks: map<string, bool>)
    requires SafeName(row.name) && PlainValues(weights) && PlainValues(rpes)
    ensures forall i :: 0 <= i < |RowFields(row, weights, rpes, checks)| ==>
              PlainText(RowFields(row, weights, rpes, checks)[i])
  {
    var key := KeyText(row);
    DateCharsPlain(DateText(row.date));
    NamePlain(row.name);
    DigitsPlain(NatText(row.setIdx));
    LookupPlain(weights, key + "|w");
    LookupPlain(rpes, key + "|r");
  }

  /**
   * Splitting a line at its commas gives back the six columns, the set
   * column reads back as the set number, and the last column says "yes"
   * exactly for a ticked set, provided the stored texts hold no comma or
   * newline.
   */
  lemma RowRoundTrip(row: SetRow, weights: map<string, string>, rpes: map<string, string>,
                     checks: map<string, bool>)
    requires SafeName(row.name) && PlainValues(weights) && PlainValues(rpes)
    ensures RowLine(row, weights, rpes, checks) == RowBody(row, weights, rpes, checks) + "\n"
    ensures '\n' !in RowBody(row, weights, rpes, checks)
    ensures SplitOn(RowBody(row, weights, rpes, checks), ',') == RowFields(row, weights, rpes, checks)
    ensures RowFields(row, weights, rpes, checks)[0] == DateText(row.date)
    ensures RowFields(row, weights, rpes, checks)[1] == row.name
    ensures ParseNat(RowFields(row, weights, rpes, checks)[2]) == row.setIdx
    ensures KeyText(row) + "|w" !in weights ==> RowFields(row, weights, rpes, checks)[3] == ""
    ensures KeyText(row) + "|r" !in rpes ==> RowFields(row, weights, rpes, checks)[4] == ""
    ensures RowFields(row, weights, rpes, checks)[5] == "yes"
            <==> KeyText(row) in checks && checks[KeyText(row)]
  {
    var f := RowFields(row, weights, rpes, checks);
    RowLineFields(row, weights, rpes, checks);
    FieldsPlain(row, weights, rpes, checks);
    JoinAvoids(f, ',', '\n');
    assert forall i :: 0 <= i < |f| ==> ',' !in f[i];
    SplitJoin(f, ',');
    ParseNatText(row.setIdx);
  }

  /** The line-body renderer for one set of stored measurements. */
  function Body(weights: map<string, string>, rpes: map<string, string>,
                checks: map<string, bool>): SetRow -> string
  {
    row => RowBody(row, weights, rpes, checks)
  }

  /** The rows' line bodies, in order. */
  function Bodies(rows: seq<SetRow>, body: SetRow -> string): seq<string> {
    seq(|rows|, k requires 0 <= k < |rows| => body(rows[k]))
  }

  /** Lines that each end in their only newline split back into their bodies. */
  lemma {:induction false} SplitBodies(rows: seq<SetRow>, render: SetRow -> string, body: SetRow -> string)
    requires forall k :: 0 <= k < |rows| ==> render(rows[k]) == body(rows[k]) + "\n"
    requires forall k :: 0 <= k < |rows| ==> '\n' !in body(rows[k])
    ensures SplitOn(Lines(rows, render), '\n') == Bodies(rows, body) + [""]
  {
    if |rows| == 0 {
      assert Lines(rows, render) == "";
    } else {
      var first, rest := rows[0], rows[1..];
      assert [first] + rest == rows;
      LinesAppend([first], rest, render);
      assert [first][..0] == [];
      assert Lines([first], render) == render(first);
      SplitBodies(rest, render, body);
      SplitAtSeparator(body(first), Lines(rest, render), '\n');
      assert [body(first)] + Bodies(rest, body) == Bodies(rows, body);
    }
  }

  lemma SplitLines(rows: seq<SetRow>, weights: map<string, string>,
                   rpes: map<string, string>, checks: map<string, bool>)
    requires SafeRows(rows) && PlainValues(weights) && PlainValues(rpes)
    ensures SplitOn(Lines(rows, Render(weights, rpes, checks)), '\n')
         == Bodies(rows, Body(weights, rpes, checks)) + [""]
  {
    var body := Body(weights, rpes, checks);
    forall k | 0 <= k < |rows|
      ensures Render(weights, rpes, checks)(rows[k]) == body(rows[k]) + "\n"
      ensures '\n' !in body(rows[k])
    {
      RowRoundTrip(rows[k], weights, rpes, checks);
    }
    SplitBodies(rows, Render(weights, rpes, checks), body);
  }

  lemma HeaderHasNoNewline()
    ensures '\n' !in HeaderLine
  {
  }

  /**
   * The export read back line by line: the header, one line per set in plan
   * order, and the empty piece after the final newline.
   */
  lemma CsvLines(plan: WorkoutPlan, weights: map<string, string>, rpes: map<string, string>,
                 checks: map<string, bool>)
    requires SafeRows(Rows(plan.days)) && PlainValues(weights) && PlainValues(rpes)
    ensures SplitOn(CsvText(plan, weights, rpes, checks), '\n')
         == [HeaderLine] + Bodies(Rows(plan.days), Body(weights, rpes, checks)) + [""]
    ensures |SplitOn(CsvText(plan, weights, rpes, checks), '\n')| == TotalSets(plan.days) + 2
  {
    var lines := Lines(Rows(plan.days), Render(weights, rpes, checks));
    SplitLines(Rows(plan.days), weights, rpes, checks);
    HeaderHasNoNewline();
    SplitAtSeparator(HeaderLine, lines, '\n');
    RowCount(plan.days);
  }

  // ---------------------------------------------------------------------
  // Logged-set keys.

  predicate NoRepeats(rows: seq<SetRow>) {
    forall i, j :: 0 <= i < j < |rows| ==> rows[i] != rows[j]
  }

  lemma NoRepeatsAppend(a: seq<SetRow>, b: seq<SetRow>)
    requires NoRepeats(a) && NoRepeats(b)
    requires forall x :: x in a ==> x !in b
    ensures NoRepeats(a + b)
  {
    forall i, j | 0 <= i < j < |a + b| ensures (a + b)[i] != (a + b)[j] {
      if j >= |a| && i < |a| {
        assert (a + b)[i] in a && (a + b)[j] in b;
      }
    }
  }

  function NamesOf(items: seq<ExerciseItem>): set<string> {
    set m | 0 <= m < |items| :: items[m].name
  }

  /** Every row of a day's exercises carries that day's date and one of its exercise names. */
  lemma {:induction false} ItemRowsOrigin(date: Date, items: seq<ExerciseItem>)
    ensures forall x :: x in ItemRows(date, items) ==> x.date == date && x.name in NamesOf(items)
  {
    if |items| > 0 {
      var init, last := items[..|items| - 1], items[|items| - 1];
      ItemRowsOrigin(date, init);
      SetRowsShape(date, last.name, SetCount(last));
      assert forall n :: n in NamesOf(init) ==> n in NamesOf(items);
      assert last.name in NamesOf(items);
    }
  }

  /** A day whose exercise names are distinct yields no repeated row. */
  lemma {:induction false} ItemRowsNoRepeats(date: Date, items: seq<ExerciseItem>)
    requires DistinctNames(items)
    ensures NoRepeats(ItemRows(date, items))
  {
    if |items| > 0 {
      var init, last := items[..|items| - 1], items[|items| - 1];
      ItemRowsNoRepeats(date, init);
      ItemRowsOrigin(date, init);
      SetRowsShape(date, last.name, SetCount(last));
      assert last.name !in NamesOf(init);
      NoRepeatsAppend(ItemRows(date, init), SetRows(date, last.name, SetCount(last)));
    }
  }

  /** Every row of a plan comes from one of its days and one of that day's exercises. */
  lemma {:induction false} RowsOrigin(days: seq<PlanDay>)
    ensures forall x :: x in Rows(days) ==>
              exists i :: 0 <= i < |days| && x.date == days[i].date && x.name in NamesOf(days[i].items)
  {
    if |days| > 0 {
      var init, last := days[..|days| - 1], days[|days| - 1];
      RowsOrigin(init);
      ItemRowsOrigin(last.date, last.items);
      forall x | x in Rows(days)
        ensures exists i :: 0 <= i < |days| && x.date == days[i].date && x.name in NamesOf(days[i].items)
      {
        if x in Rows(init) {
          var i :| 0 <= i < |init| && x.date == init[i].date && x.name in NamesOf(init[i].items);
          assert days[i] == init[i];
        } else {
          assert days[|days| - 1] == last;
        }
      }
    }
  }

  predicate DistinctDates(days: seq<PlanDay>) {
    forall i, j :: 0 <= i < j < |days| ==> days[i].date != days[j].date
  }

  /** Days on distinct dates, each with distinct exercise names, yield no repeated row. */
  lemma {:induction false} RowsNoRepeats(days: seq<PlanDay>)
    requires DistinctDates(days)
    requires forall i :: 0 <= i < |days| ==> DistinctNames(days[i].items)
    ensures NoRepeats(Rows(days))
  {
    if |days| > 0 {
      var init, last := days[..|days| - 1], days[|days| - 1];
      RowsNoRepeats(init);
      ItemRowsNoRepeats(last.date, last.items);
      RowsOrigin(init);
      ItemRowsOrigin(last.date, last.items);
      forall x | x in Rows(init) ensures x !in ItemRows(last.date, last.items) {
        var i :| 0 <= i < |init| && x.date == init[i].date && x.name in NamesOf(init[i].items);
        assert init[i].date != last.date;
      }
      NoRepeatsAppend(Rows(init), ItemRows(last.date, last.items));
    }
  }

  /** Within one month, exercise names without '|' make the key determine the set. */
  lemma KeyTextInjective(x: SetRow, y: SetRow)
    requires x.date.year == y.date.year && x.date.month == y.date.month
    requires SafeName(x.name) && SafeName(y.name)
    requires KeyText(x) == KeyText(y)
    ensures x == y
  {
    var tx, ty := "set" + NatText(x.setIdx), "set" + NatText(y.setIdx);
    DateCharsPlain(DateText(x.date));
    DateCharsPlain(DateText(y.date));
    NamePlain(x.name);
    NamePlain(y.name);
    assert KeyText(x) == DateText(x.date) + ['|'] + (x.name + ['|'] + tx);
    assert KeyText(y) == DateText(y.date) + ['|'] + (y.name + ['|'] + ty);
    SplitFirstUnique(DateText(x.date), x.name + ['|'] + tx, DateText(y.date), y.name + ['|'] + ty, '|');
    SplitFirstUnique(x.name, tx, y.name, ty, '|');
    assert NatText(x.setIdx) == tx[3..] == ty[3..] == NatText(y.setIdx);
    NatTextInjective(x.setIdx, y.setIdx);
    DateTextInjectiveInMonth(x.date.year, x.date.month, x.date.day, y.date.day);
  }

  /** A plan whose entries are the days of one month, each with its type's template list. */
  predicate TemplatePlan(month: YearMonth, days: seq<PlanDay>) {
    && CoversMonth(month, days)
    && forall i :: 0 <= i < |days| ==> days[i].items == Exercises(days[i].kind)
  }

  /** What every row of such a plan looks like: a date of the month and a safe name. */
  lemma MonthRowFacts(month: YearMonth, days: seq<PlanDay>)
    requires TemplatePlan(month, days)
    ensures forall x :: x in Rows(days) ==>
              && x.date.year == month.year && x.date.month == month.month
              && 1 <= x.date.day <= LengthOfMonth(month) && SafeName(x.name)
  {
    RowsOrigin(days);
    forall x | x in Rows(days)
      ensures x.date.year == month.year && x.date.month == month.month
      ensures 1 <= x.date.day <= LengthOfMonth(month) && SafeName(x.name)
    {
      var i :| 0 <= i < |days| && x.date == days[i].date && x.name in NamesOf(days[i].items);
      var m :| 0 <= m < |days[i].items| && days[i].items[m].name == x.name;
      assert WellFormedTemplate(Exercises(days[i].kind));
    }
  }

  /**
   * In such a plan no two sets share a logged-set key, so every stored
   * weight, RPE and tick belongs to exactly one row of the export.
   */
  lemma MonthKeysDistinct(month: YearMonth, days: seq<PlanDay>)
    requires TemplatePlan(month, days)
    ensures SafeRows(Rows(days))
    ensures forall i, j :: 0 <= i < j < |Rows(days)| ==> KeyText(Rows(days)[i]) != KeyText(Rows(days)[j])
  {
    var rows := Rows(days);
    forall i | 0 <= i < |days| ensures DistinctNames(days[i].items) {
      assert WellFormedTemplate(Exercises(days[i].kind));
    }
    CoveredDatesAscend(month, days);
    RowsNoRepeats(days);
    MonthRowFacts(month, days);
    forall k | 0 <= k < |rows| ensures SafeName(rows[k].name) {
      assert rows[k] in rows;
    }
    forall i, j | 0 <= i < j < |rows| ensures KeyText(rows[i]) != KeyText(rows[j]) {
      assert rows[i] in rows && rows[j] in rows;
      if KeyText(rows[i]) == KeyText(rows[j]) {
        KeyTextInjective(rows[i], rows[j]);
        assert false;
      }
    }
  }

  /** Every row of a `generatePlan` plan is dated in the month and names a safe template exercise. */
  lemma PlanRowFacts(month: YearMonth, workDays: set<int>)
    ensures forall x :: x in Rows(PlanDays(month, workDays)) ==>
              && x.date.year == month.year && x.date.month == month.month
              && 1 <= x.date.day <= LengthOfMonth(month) && SafeName(x.name)
  {
    PlanCoversMonth(month, workDays);
    EntriesMatchTheirType(month, workDays);
    MonthRowFacts(month, PlanDays(month, workDays));
  }

  /** No two sets of a `generatePlan` plan share a logged-set key. */
  lemma PlanKeysDistinct(month: YearMonth, workDays: set<int>)
    ensures SafeRows(Rows(PlanDays(month, workDays)))
    ensures forall i, j :: 0 <= i < j < |Rows(PlanDays(month, workDays))| ==>
              KeyText(Rows(PlanDays(month, workDays))[i]) != KeyText(Rows(PlanDays(month, workDays))[j])
  {
    PlanCoversMonth(month, workDays);
    EntriesMatchTheirType(month, workDays);
    MonthKeysDistinct(month, PlanDays(month, workDays));
  }

  /** No two sets of the August 2025 plan share a logged-set key. */
  lemma AugKeysDistinct()
    ensures SafeRows(Rows(GenerateAugRange().days))
    ensures forall i, j :: 0 <= i < j < |Rows(GenerateAugRange().days)| ==>
              KeyText(Rows(GenerateAugRange().days)[i]) != KeyText(Rows(GenerateAugRange().days)[j])
  {
    var days := GenerateAugRange().days;
    AugRangeShape();
    assert Exercises(Rest) == [];
    MonthKeysDistinct(August2025, days);
  }
}
