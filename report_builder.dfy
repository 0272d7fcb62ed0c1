/**
 * The 30-day report: the text rules of its summary and attack rows, its
 * overview numbers, the newest-first order of its rows, and the page
 * cursor that decides where a page breaks.  Drawing itself is not
 * modelled; dates and one-decimal numbers are rendered by formatter
 * parameters.
 */
module Report {
  import opened Wrappers
  import opened Time
  import opened Strings
  import opened Contexts
  import opened Attacks
  import opened AppStateModel
  import opened Sorting

  // ---------------------------------------------------------------------
  // Text rules

  /** `display`: the trimmed value, or a dash when nothing but whitespace is left. */
  function Display(value: string): (r: string)
    ensures Trim(value) == "" ==> r == "—"
    ensures Trim(value) != "" ==> r == Trim(value)
    ensures r != ""
  {
    var trimmed := Trim(value);
    if trimmed == "" then "—" else trimmed
  }

  /** Displaying a displayed value changes nothing. */
  lemma DisplayIdempotent(value: string)
    ensures Display(Display(value)) == Display(value)
  {
    if Trim(value) == "" {
      DashDisplaysItself();
    } else {
      TrimByIdempotent(value, IsWhitespace);
    }
  }

  /** The dash is displayed as itself. */
  lemma DashDisplaysItself()
    ensures Display("—") == "—"
  {
    TrimOfTrimmed("—");
  }

  /** `ageText`: a dash for an age that is blank or exactly "0" once trimmed. */
  function AgeText(age: string): (r: string)
    ensures Trim(age) == "" || Trim(age) == "0" ==> r == "—"
    ensures Trim(age) != "" && Trim(age) != "0" ==> r == Trim(age)
    ensures r != "" && r != "0"
  {
    var trimmed := Trim(age);
    if trimmed == "" || trimmed == "0" then "—" else trimmed
  }

  /** `value.isEmpty ? "—" : value`. */
  function OrDash(value: string): (r: string)
    ensures r != ""
    ensures value != "" ==> r == value
  {
    if value == "" then "—" else value
  }

  /** The "Patient Summary" row titles. */
  const SummaryTitles: seq<string> := ["Name", "Age", "Sex", "Height", "Weight", "Known conditions", "Medications"]

  /**
   * The "Patient Summary" rows, in order: the name as entered (a dash when
   * empty), the age text, and the other fields displayed.  No value is ever
   * empty, so the extra emptiness checks on sex, conditions and medications
   * never fire.
   */
  function SummaryPairs(p: UserProfile): (rows: seq<(string, string)>)
    ensures |rows| == 7
    ensures rows[0].1 == OrDash(p.username) && rows[1].1 == AgeText(p.age)
    ensures rows[2].1 == Display(p.sex) && rows[3].1 == Display(p.heightCm)
    ensures rows[4].1 == Display(p.weightKg) && rows[5].1 == Display(p.healthConditions)
    ensures rows[6].1 == Display(p.medications)
  {
    var sex, conditions, medications := OrDash(Display(p.sex)), OrDash(Display(p.healthConditions)),
                                         OrDash(Display(p.medications));
    OrDashOfDisplay(p.sex);
    OrDashOfDisplay(p.healthConditions);
    OrDashOfDisplay(p.medications);
    var t := SummaryTitles;
    [(t[0], OrDash(p.username)), (t[1], AgeText(p.age)), (t[2], sex),
     (t[3], Display(p.heightCm)), (t[4], Display(p.weightKg)),
     (t[5], conditions), (t[6], medications)]
  }

  /** A displayed value is never empty, so the dash fallback leaves it alone. */
  lemma OrDashOfDisplay(value: string)
    ensures OrDash(Display(value)) == Display(value)
  {
  }

  /** The summary rows carry their titles in order. */
  lemma SummaryTitlesInOrder(p: UserProfile)
    ensures forall i :: 0 <= i < 7 ==> SummaryPairs(p)[i].0 == SummaryTitles[i]
  {
  }

  /** Every summary row shows something. */
  lemma SummaryValuesShown(p: UserProfile)
    ensures forall i :: 0 <= i < 7 ==> SummaryPairs(p)[i].1 != ""
  {
    var rows := SummaryPairs(p);
    assert rows[0].1 != "" && rows[1].1 != "" && rows[2].1 != "" && rows[3].1 != "";
    assert rows[4].1 != "" && rows[5].1 != "" && rows[6].1 != "";
  }

  /** A metric rendered with `render`, or a dash when absent. */
  function MetricText(v: Option<real>, render: real -> string): (t: string)
    ensures v.None? ==> t == "—"
    ensures v.Some? ==> t == render(v.value)
  {
    match v
    case None => "—"
    case Some(x) => render(x)
  }

  /**
   * The row's health line: a dash without a snapshot; otherwise sleep (one
   * decimal, via `oneDecimal`), steps and heart rate (truncated), each a
   * dash when absent.
   */
  function HealthLine(snapshot: Option<DailyContext>, oneDecimal: real -> string): (line: string)
    ensures snapshot.None? <==> line == "Health: —"
    ensures snapshot.Some? ==>
              line == "Health: Sleep " + MetricText(snapshot.value.sleepHours, x => oneDecimal(x) + " h")
                      + " · Steps " + MetricText(snapshot.value.steps, x => IntToString(TruncateToInt(x)))
                      + " · HR " + MetricText(snapshot.value.avgHeartRateBpm, x => IntToString(TruncateToInt(x)) + " bpm")
  {
    match snapshot
    case None => "Health: —"
    case Some(ctx) =>
      var line := "Health: Sleep " + MetricText(ctx.sleepHours, x => oneDecimal(x) + " h")
                  + " · Steps " + MetricText(ctx.steps, x => IntToString(TruncateToInt(x)))
                  + " · HR " + MetricText(ctx.avgHeartRateBpm, x => IntToString(TruncateToInt(x)) + " bpm");
      assert line[8] == 'S' != "Health: —"[8];
      line
  }

  /** The texts of one attack row. */
  datatype RowText = RowText(start: string, end: string, severity: string, aura: string,
                             triggers: string, notes: string, health: string)

  /**
   * The row for an attack: the end reads "Ongoing / not recorded" when
   * absent, the aura Yes or No, the triggers a dash when there are none,
   * the notes a dash when absent or empty.
   */
  function Row(a: MigraineAttack, format: Instant -> string, oneDecimal: real -> string): (r: RowText)
    ensures r.start == format(a.startDate)
    ensures a.endDate.None? ==> r.end == "Ongoing / not recorded"
    ensures a.endDate.Some? ==> r.end == format(a.endDate.value)
    ensures r.severity == IntToString(a.severity) + "/10"
    ensures r.aura == "Yes" <==> a.hasAura
    ensures r.aura == "Yes" || r.aura == "No"
    ensures a.triggers == [] ==> r.triggers == "—"
    ensures a.triggers != [] ==> r.triggers == Join(a.triggers, ", ")
    ensures a.notes.None? || a.notes == Some("") ==> r.notes == "—"
    ensures a.notes.Some? && a.notes.value != "" ==> r.notes == a.notes.value
    ensures r.health == HealthLine(a.linkedContextSnapshot, oneDecimal)
  {
    RowText(format(a.startDate),
            if a.endDate.Some? then format(a.endDate.value) else "Ongoing / not recorded",
            IntToString(a.severity) + "/10",
            if a.hasAura then "Yes" else "No",
            if a.triggers == [] then "—" else Join(a.triggers, ", "),
            if a.notes.Some? && a.notes.value != "" then a.notes.value else "—",
            HealthLine(a.linkedContextSnapshot, oneDecimal))
  }

  // ---------------------------------------------------------------------
  // Overview numbers and row order

  /** `countMigraineDays`: the number of distinct days on which an attack starts. */
  function CountMigraineDays(attacks: seq<MigraineAttack>): (n: nat)
    ensures attacks == [] ==> n == 0
    ensures attacks != [] ==> 1 <= n <= |attacks|
  {
    StartDaysMembers(attacks);
    assert attacks != [] ==> StartOfDay(attacks[0].startDate) in StartDays(attacks);
    |StartDays(attacks)|
  }

  /** Reordering the attacks does not change the number of days. */
  lemma CountMigraineDaysReorder(a: seq<MigraineAttack>, b: seq<MigraineAttack>)
    requires multiset(a) == multiset(b)
    ensures CountMigraineDays(a) == CountMigraineDays(b)
  {
    StartDaysMembers(a);
    StartDaysMembers(b);
    forall x ensures x in a <==> x in b {
      assert x in a <==> x in multiset(a);
      assert x in b <==> x in multiset(b);
    }
    forall d ensures d in StartDays(a) <==> d in StartDays(b) {
      if d in StartDays(a) {
        var x :| x in a && StartOfDay(x.startDate) == d;
        assert x in b;
      }
      if d in StartDays(b) {
        var x :| x in b && StartOfDay(x.startDate) == d;
        assert x in a;
      }
    }
    assert StartDays(a) == StartDays(b);
  }

  /** `reduce(0) { $0 + $1.severity }`. */
  function SeveritySum(attacks: seq<MigraineAttack>): int {
    if attacks == [] then 0 else attacks[0].severity + SeveritySum(attacks[1..])
  }

  /** Bounds on each severity bound the sum. */
  lemma {:induction false} SeveritySumBounds(attacks: seq<MigraineAttack>, lo: int, hi: int)
    requires forall a :: a in attacks ==> lo <= a.severity <= hi
    ensures lo * |attacks| <= SeveritySum(attacks) <= hi * |attacks|
  {
    if attacks != [] {
      assert attacks[0] in attacks;
      forall a | a in attacks[1..] ensures lo <= a.severity <= hi { assert a in attacks; }
      SeveritySumBounds(attacks[1..], lo, hi);
      assert lo * |attacks| == lo * |attacks[1..]| + lo;
      assert hi * |attacks| == hi * |attacks[1..]| + hi;
    }
  }

  /** The sum with one element taken out of the middle. */
  lemma {:induction false} SeveritySumRemove(s: seq<MigraineAttack>, i: nat)
    requires i < |s|
    ensures SeveritySum(s) == s[i].severity + SeveritySum(s[..i] + s[i + 1..])
  {
    if i > 0 {
      SeveritySumRemove(s[1..], i - 1);
      assert s[1..][..i - 1] + s[1..][i..] == (s[..i] + s[i + 1..])[1..];
    } else {
      assert s[..i] + s[i + 1..] == s[1..];
    }
  }

  /** The sum does not depend on the order of the attacks. */
  lemma {:induction false} SeveritySumReorder(a: seq<MigraineAttack>, b: seq<MigraineAttack>)
    requires multiset(a) == multiset(b)
    ensures SeveritySum(a) == SeveritySum(b)
  {
    if a != [] {
      assert a[0] in multiset(b);
      var i :| 0 <= i < |b| && b[i] == a[0];
      var rest := b[..i] + b[i + 1..];
      MatchingRest(a, b, i);
      SeveritySumReorder(a[1..], rest);
      SeveritySumRemove(b, i);
    } else {
      assert |b| == |multiset(b)| == 0;
    }
  }

  /** `averageSeverity`: absent for no attacks, else the mean severity. */
  function AverageSeverity(attacks: seq<MigraineAttack>): (r: Option<real>)
    ensures r.None? <==> attacks == []
  {
    if attacks == [] then None else Some(SeveritySum(attacks) as real / |attacks| as real)
  }

  /** The mean lies between any lower and upper bound of the severities. */
  lemma AverageWithinBounds(attacks: seq<MigraineAttack>, lo: int, hi: int)
    requires attacks != []
    requires forall a :: a in attacks ==> lo <= a.severity <= hi
    ensures lo as real <= AverageSeverity(attacks).value <= hi as real
  {
    SeveritySumBounds(attacks, lo, hi);
    QuotientBetween(SeveritySum(attacks) as real, |attacks| as real, lo as real, hi as real);
  }

  /** A quotient by a positive divisor keeps the bounds the dividend has in multiples of it. */
  lemma QuotientBetween(s: real, n: real, lo: real, hi: real)
    requires n > 0.0 && lo * n <= s <= hi * n
    ensures lo <= s / n <= hi
  {
    var q := s / n;
    assert (q - lo) * n == s - lo * n;
    assert (hi - q) * n == hi * n - s;
  }

  /** The overview's numbers do not depend on the newest-first reordering. */
  lemma OverviewIgnoresOrder(attacks: seq<MigraineAttack>)
    ensures |NewestFirst(attacks)| == |attacks|
    ensures CountMigraineDays(NewestFirst(attacks)) == CountMigraineDays(attacks)
    ensures AverageSeverity(NewestFirst(attacks)) == AverageSeverity(attacks)
  {
    var r := NewestFirst(attacks);
    assert |r| == |multiset(r)| == |attacks|;
    CountMigraineDaysReorder(r, attacks);
    SeveritySumReorder(r, attacks);
  }

  // ---------------------------------------------------------------------
  // The page cursor

  /** US Letter at 72 dpi, with a 36-point margin. */
  const PageHeight: real := 792.0
  const Margin: real := 36.0

  /** The height of an attack row's box, and the gap after it. */
  const RowHeight: real := 110.0
  const RowGap: real := 10.0

  /** The space reserved before each attack row. */
  const RowReserve: real := 88.0

  /** `ensureSpace`'s test: the needed space runs past the bottom margin. */
  predicate NeedsBreak(y: real, needed: real) {
    y + needed > PageHeight - Margin
  }

  /**
   * With 88 points reserved, a row whose top leaves room for 88 but not for
   * its 110-point box gets no page break and runs past the bottom margin.
   */
  lemma RowReserveTooSmall()
    ensures !NeedsBreak(668.0, RowReserve)
    ensures 668.0 + RowHeight > PageHeight - Margin
  {
  }

  /** The cursor `buildPDF` advances while laying out the report. */
  class PdfCursor {
    var page: int
    var y: real

    ghost predicate Valid()
      reads this
    {
      page >= 1 && y >= Margin
    }

    /** The first page, at the top margin. */
    constructor ()
      ensures Valid() && page == 1 && y == Margin
    {
      page := 1;
      y := Margin;
    }

    /**
     * `ensureSpace`: a new page (the next number, back at the top margin)
     * exactly when the needed space runs past the bottom margin; after it,
     * any need that fits on an empty page fits below the cursor.
     */
    method EnsureSpace(needed: real)
      requires Valid()
      modifies this
      ensures Valid()
      ensures NeedsBreak(old(y), needed) ==> page == old(page) + 1 && y == Margin
      ensures !NeedsBreak(old(y), needed) ==> page == old(page) && y == old(y)
      ensures 0.0 <= needed <= PageHeight - 2.0 * Margin ==> y + needed <= PageHeight - Margin
    {
      if y + needed > PageHeight - Margin {
        page := page + 1;
        y := Margin;
      }
    }

    /** One attack row: space reserved, the row's top returned, the cursor moved past the row. */
    method PlaceRow(reserve: real) returns (top: real)
      requires Valid() && 0.0 <= reserve <= PageHeight - 2.0 * Margin
      modifies this
      ensures Valid() && page >= old(page)
      ensures Margin <= top && top + reserve <= PageHeight - Margin
      ensures y == top + RowHeight + RowGap
    {
      EnsureSpace(reserve);
      top := y;
      y := y + RowHeight + RowGap;
    }

    /**
     * The attack-row loop as written: each row reserves only 88 points, so
     * only that much of each row is sure to lie above the bottom margin.
     */
    method LayOutRowsAsWritten(count: nat) returns (tops: seq<real>)
      requires Valid()
      modifies this
      ensures Valid() && page >= old(page) && |tops| == count
      ensures forall i :: 0 <= i < count ==> Margin <= tops[i] && tops[i] + RowReserve <= PageHeight - Margin
    {
      tops := [];
      while |tops| < count
        invariant Valid() && page >= old(page) && |tops| <= count
        invariant forall i :: 0 <= i < |tops| ==> Margin <= tops[i] && tops[i] + RowReserve <= PageHeight - Margin
      {
        var top := PlaceRow(RowReserve);
        tops := tops + [top];
      }
    }

    /**
     * The attack-row loop reserving the row's full height: every row box
     * lies between the top and bottom margins of its page.
     */
    method LayOutRows(count: nat) returns (tops: seq<real>)
      requires Valid()
      modifies this
      ensures Valid() && page >= old(page) && |tops| == count
      ensures forall i :: 0 <= i < count ==> Margin <= tops[i] && tops[i] + RowHeight <= PageHeight - Margin
    {
      tops := [];
      while |tops| < count
        invariant Valid() && page >= old(page) && |tops| <= count
        invariant forall i :: 0 <= i < |tops| ==> Margin <= tops[i] && tops[i] + RowHeight <= PageHeight - Margin
      {
        var top := PlaceRow(RowHeight);
        tops := tops + [top];
      }
    }
  }
}
