/**
 * The quick logging screen: a start preset, an end preset, custom dates
 * picked on a detail screen, and the save that adds an attack of fixed
 * severity 5, linked to the day's health context when health access is
 * authorized.
 */
module QuickLog {
  import opened Wrappers
  import opened Time
  import opened Contexts
  import opened Attacks
  import opened AppStateModel
  import opened HealthKit

  /** `StartPreset`. */
  datatype StartPreset = JustNow | OneHourAgo | Other

  /** `EndPreset` (its `justNow` and `other` cases, renamed apart from the start's). */
  datatype EndPreset = StillGoing | EndedJustNow | EndedOther

  // ---------------------------------------------------------------------
  // Resolving the presets

  /**
   * The start `saveAttack` records: now, exactly an hour before now, or the
   * custom start, which is not checked against anything.
   */
  function ResolveStart(p: StartPreset, now: Instant, customStart: Instant): (t: Instant)
    ensures p != Other ==> now - Hour <= t <= now
    ensures p == JustNow ==> t == now
    ensures p == OneHourAgo ==> now - t == Hour
    ensures p == Other ==> t == customStart
  {
    match p
    case JustNow => now
    case OneHourAgo => now - Hour
    case Other => customStart
  }

  /** The end `saveAttack` records: none exactly while the attack is still going. */
  function ResolveEnd(p: EndPreset, now: Instant, customEnd: Instant): (t: Option<Instant>)
    ensures t.None? <==> p == StillGoing
    ensures p == EndedJustNow ==> t == Some(now)
    ensures p == EndedOther ==> t == Some(customEnd)
  {
    match p
    case StillGoing => None
    case EndedJustNow => Some(now)
    case EndedOther => Some(customEnd)
  }

  // ---------------------------------------------------------------------
  // Saving

  /**
   * The attack the quick screen saves: the resolved times, severity 5, no
   * aura, no notes, no triggers; when a context is given it is linked to the
   * start of the start's day and carries that context as its snapshot.
   */
  function QuickAttack(start: Instant, end: Option<Instant>, ctx: Option<DailyContext>, id: Uuid): (a: MigraineAttack)
    ensures a.id == id && a.startDate == start && a.endDate == end
    ensures a.severity == 5 && !a.hasAura && a.notes == None && a.triggers == []
    ensures a.linkedContextDay.Some? <==> ctx.Some?
    ensures ctx.Some? ==> a.linkedContextDay == Some(StartOfDay(start)) && a.linkedContextSnapshot == ctx
    ensures ctx.None? ==> a.linkedContextSnapshot == None
  {
    var attack := NewAttack(id, start, 5, false, endDate := end, notes := None, triggers := []);
    match ctx
    case None => attack
    case Some(_) => attack.(linkedContextDay := Some(StartOfDay(start)), linkedContextSnapshot := ctx)
  }

  /**
   * `saveAttack`: when authorized, the context of the start's day (as
   * `fetchDailyContext` produces it from the queries' outcomes `q`) is
   * stored first and the attack, linked to it, is added after; otherwise an
   * unlinked attack is added at once.
   */
  function SaveAttack(startPreset: StartPreset, endPreset: EndPreset, now: Instant,
                      customStart: Instant, customEnd: Instant,
                      authorized: bool, q: QueryOutcomes, id: Uuid): (calls: seq<StoreCall>)
    ensures |calls| == (if authorized then 2 else 1)
    ensures calls[|calls| - 1].AddAttack?
    ensures authorized ==>
              calls[0] == UpsertContext(FetchedContext(StartOfDay(ResolveStart(startPreset, now, customStart)), q))
    ensures calls[|calls| - 1].attack ==
            QuickAttack(ResolveStart(startPreset, now, customStart), ResolveEnd(endPreset, now, customEnd),
                        if authorized then Some(FetchedContext(StartOfDay(ResolveStart(startPreset, now, customStart)), q))
                        else None,
                        id)
  {
    var start := ResolveStart(startPreset, now, customStart);
    var end := ResolveEnd(endPreset, now, customEnd);
    var day := StartOfDay(start);
    if authorized then
      var ctx := FetchedContext(day, q);
      [UpsertContext(ctx), AddAttack(QuickAttack(start, end, Some(ctx), id))]
    else
      [AddAttack(QuickAttack(start, end, None, id))]
  }

  /**
   * What the saved attack satisfies whatever was picked: its severity is in
   * range, its link is consistent, it is linked exactly when authorized, and
   * it is ongoing exactly when "Still going" was chosen.
   */
  lemma SavedQuickAttack(startPreset: StartPreset, endPreset: EndPreset, now: Instant,
                         customStart: Instant, customEnd: Instant,
                         authorized: bool, q: QueryOutcomes, id: Uuid)
    ensures var calls := SaveAttack(startPreset, endPreset, now, customStart, customEnd, authorized, q, id);
            var a := calls[|calls| - 1].attack;
            && SeverityInRange(a)
            && LinkConsistent(a)
            && (a.linkedContextSnapshot.Some? <==> authorized)
            && (IsOngoing(a) <==> endPreset == StillGoing)
  {
    StartOfDayIdempotent(ResolveStart(startPreset, now, customStart));
  }

  /**
   * With both presets at "now" or before, the saved end is never before the
   * start; only the custom pickers can produce an end before the start.
   */
  lemma PresetEndNotBeforeStart(startPreset: StartPreset, now: Instant, customStart: Instant, customEnd: Instant)
    requires startPreset != Other
    ensures ResolveEnd(EndedJustNow, now, customEnd).value >= ResolveStart(startPreset, now, customStart)
  {
  }

  /** Nothing checks the custom end against the start: an end an hour before the start is saved as is. */
  lemma CustomEndMayPrecedeStart(now: Instant, id: Uuid, q: QueryOutcomes)
    ensures var calls := SaveAttack(Other, EndedOther, now, now, now - Hour, false, q, id);
            calls == [AddAttack(MigraineAttack(id, now, Some(now - Hour), 5, false, None, [], None, None))]
  {
  }

  // ---------------------------------------------------------------------
  // The detail screen's confirmation

  /**
   * `confirmSelection` in the fixed calendar: the instant on day `day` of
   * the month starting at `monthStart` (the calendar's answer for the
   * current year and month, `None` when it has none) at the hour and minute
   * of `time`, with zero seconds; without a month start the selected date
   * is kept.
   */
  function ConfirmedDate(selected: Instant, time: Instant, day: int, monthStart: Option<Instant>): (r: Instant)
    ensures monthStart.None? ==> r == selected
    ensures monthStart.Some? && monthStart.value % Day == 0 && day >= 1 ==>
              && StartOfDay(r) == monthStart.value + (day - 1) * Day
              && r % 60 == 0
              && (r % Day) / 60 == (time % Day) / 60
  {
    match monthStart
    case None => selected
    case Some(m) =>
      var tod := time % Day;
      var hour, minute := tod / Hour, (tod % Hour) / 60;
      ConfirmedParts(m, day - 1, tod);
      m + (day - 1) * Day + hour * Hour + minute * 60
  }

  /**
   * The hour and minute of `tod` placed `k` days after a day start: that
   * day, on a whole minute, at the minute of `tod`.
   */
  lemma ConfirmedParts(m: Instant, k: int, tod: int)
    requires 0 <= tod < Day
    ensures var r := m + k * Day + (tod / Hour) * Hour + ((tod % Hour) / 60) * 60;
            m % Day == 0 ==>
              && StartOfDay(r) == m + k * Day
              && r % 60 == 0
              && (r % Day) / 60 == tod / 60
  {
    WholeMinute(tod);
    if m % Day == 0 {
      DayStartPlusDays(m, k);
      DayStartPlusTime(m + k * Day, (tod / Hour) * Hour + ((tod % Hour) / 60) * 60);
    }
  }

  /** Hours and minutes of a time of day: the time of day rounded down to its minute. */
  lemma WholeMinute(tod: int)
    requires 0 <= tod < Day
    ensures var x := (tod / Hour) * Hour + ((tod % Hour) / 60) * 60;
            x == tod - tod % 60 && 0 <= x < Day && x % 60 == 0 && x / 60 == tod / 60
  {
  }

  /** Whole days after a day start are a day start. */
  lemma DayStartPlusDays(m: Instant, k: int)
    requires m % Day == 0
    ensures (m + k * Day) % Day == 0
  {
    assert m + k * Day == (m / Day + k) * Day;
  }

  /** A time of day after a day start falls on that day, at that time of day. */
  lemma DayStartPlusTime(d: Instant, x: int)
    requires d % Day == 0 && 0 <= x < Day
    ensures StartOfDay(d + x) == d && (d + x) % Day == x
    ensures x % 60 == 0 ==> (d + x) % 60 == 0
  {
    assert d == (d / Day) * Day;
    assert d + x == (d / Day) * Day + x;
    assert d == (d / Day * 1440) * 60;
  }

  // ---------------------------------------------------------------------
  // The screen's state

  /** `LogMigraineView`'s state. */
  class QuickLogScreen {
    var selectedDay: int
    var startPreset: StartPreset
    var endPreset: EndPreset
    var customStartDate: Instant
    var customEndDate: Instant

    /** The selected day is one of the strip's days 1...7. */
    ghost predicate Valid()
      reads this
    {
      1 <= selectedDay <= 7
    }

    /** Day 4 selected, "Just now" and "Still going", both custom dates at now. */
    constructor (now: Instant)
      ensures Valid()
      ensures selectedDay == 4 && startPreset == JustNow && endPreset == StillGoing
      ensures customStartDate == now && customEndDate == now
    {
      selectedDay := 4;
      startPreset := JustNow;
      endPreset := StillGoing;
      customStartDate := now;
      customEndDate := now;
    }

    /** A tap on a day of the strip. */
    method SelectDay(d: int)
      requires Valid() && 1 <= d <= 7
      modifies this`selectedDay
      ensures Valid() && selectedDay == d
    {
      selectedDay := d;
    }

    /** The start pills; opening the custom picker also selects `Other`. */
    method ChooseStart(p: StartPreset)
      requires Valid()
      modifies this`startPreset
      ensures Valid() && startPreset == p
    {
      startPreset := p;
    }

    /** The end pills. */
    method ChooseEnd(p: EndPreset)
      requires Valid()
      modifies this`endPreset
      ensures Valid() && endPreset == p
    {
      endPreset := p;
    }

    /** Confirming the start detail screen with the wheel's `time`. */
    method ConfirmStart(time: Instant, monthStart: Option<Instant>)
      requires Valid()
      modifies this`customStartDate
      ensures Valid()
      ensures customStartDate == ConfirmedDate(old(customStartDate), time, selectedDay, monthStart)
    {
      customStartDate := ConfirmedDate(customStartDate, time, selectedDay, monthStart);
    }

    /** Confirming the end detail screen with the wheel's `time`. */
    method ConfirmEnd(time: Instant, monthStart: Option<Instant>)
      requires Valid()
      modifies this`customEndDate
      ensures Valid()
      ensures customEndDate == ConfirmedDate(old(customEndDate), time, selectedDay, monthStart)
    {
      customEndDate := ConfirmedDate(customEndDate, time, selectedDay, monthStart);
    }

    /** The save button: the store calls of `SaveAttack` for the screen's choices. */
    method Save(now: Instant, authorized: bool, q: QueryOutcomes, id: Uuid) returns (calls: seq<StoreCall>)
      requires Valid()
      ensures calls == SaveAttack(startPreset, endPreset, now, customStartDate, customEndDate, authorized, q, id)
      ensures LinkConsistent(calls[|calls| - 1].attack)
    {
      calls := SaveAttack(startPreset, endPreset, now, customStartDate, customEndDate, authorized, q, id);
      SavedQuickAttack(startPreset, endPreset, now, customStartDate, customEndDate, authorized, q, id);
    }
  }
}
