/**
 * The app's shared state: the profile, the settings and the attack log,
 * with the log's derived count of migraine days in the last 30 days.
 */
module AppStateModel {
  import opened Wrappers
  import opened Time
  import opened Contexts
  import opened Attacks
  import opened Sorting

  /** `UserProfile`: free-text fields, all empty by default. */
  datatype UserProfile = UserProfile(
    username: string, age: string, sex: string, heightCm: string, weightKg: string,
    healthConditions: string, medications: string, allergies: string)

  /** `UserSettings`; the default reminder time is a calendar computation, given here as a value. */
  datatype UserSettings = UserSettings(
    dailyReminderEnabled: bool, dailyReminderTime: Instant,
    askAuraByDefault: bool, showTriggersStep: bool)

  function DefaultProfile(): UserProfile {
    UserProfile("", "", "", "", "", "", "", "")
  }

  function DefaultSettings(nineToday: Instant): UserSettings {
    UserSettings(false, nineToday, true, true)
  }

  /**
   * A call a save path makes on the app state.  Save paths are modelled by
   * the sequence of calls they make, in order; only `AddAttack` has a body
   * in this model (`AppState.AddAttack`).
   */
  datatype StoreCall = UpsertContext(ctx: DailyContext) | AddAttack(attack: MigraineAttack)

  /** The sort key of the newest-first lists. */
  function StartKey(a: MigraineAttack): int {
    a.startDate
  }

  /** `sorted(by: { $0.startDate > $1.startDate })`: the same attacks, newest first. */
  function NewestFirst(attacks: seq<MigraineAttack>): (r: seq<MigraineAttack>)
    ensures multiset(r) == multiset(attacks)
    ensures forall i, j :: 0 <= i < j < |r| ==> r[i].startDate >= r[j].startDate
  {
    var r := SortByKeyDesc(attacks, StartKey);
    assert forall i, j :: 0 <= i < j < |r| ==> StartKey(r[i]) >= StartKey(r[j]);
    r
  }

  /** `filter { $0.startDate >= cutoff }`: the attacks on or after the cutoff, in log order. */
  function Since(attacks: seq<MigraineAttack>, cutoff: Instant): (r: seq<MigraineAttack>)
    ensures |r| <= |attacks|
    ensures forall a :: a in r <==> a in attacks && a.startDate >= cutoff
  {
    if attacks == [] then []
    else
      var init, a := attacks[..|attacks| - 1], attacks[|attacks| - 1];
      assert attacks == init + [a];
      var rest := Since(init, cutoff);
      if a.startDate >= cutoff then rest + [a] else rest
  }

  /** `Set(attacks.map { startOfDay($0.startDate) })`: the distinct days with an attack. */
  function StartDays(attacks: seq<MigraineAttack>): (days: set<Instant>)
    ensures |days| <= |attacks|
  {
    if attacks == [] then {}
    else
      var init, a := attacks[..|attacks| - 1], attacks[|attacks| - 1];
      StartDays(init) + {StartOfDay(a.startDate)}
  }

  /** A day is among the days of the log exactly when some attack starts on it. */
  lemma {:induction false} StartDaysMembers(attacks: seq<MigraineAttack>)
    ensures forall d :: d in StartDays(attacks) <==> exists a :: a in attacks && StartOfDay(a.startDate) == d
  {
    if attacks != [] {
      var init, a := attacks[..|attacks| - 1], attacks[|attacks| - 1];
      assert attacks == init + [a];
      StartDaysMembers(init);
    }
  }

  /**
   * `migraineDaysLast30` given the calendar's cutoff (`None` when the
   * calendar cannot compute one): the number of distinct days among the
   * attacks starting at or after the cutoff.  There is no upper bound, so
   * attacks dated in the future count too.
   */
  function MigraineDays(attacks: seq<MigraineAttack>, cutoff: Option<Instant>): (n: nat)
    ensures cutoff.None? ==> n == 0
    ensures cutoff.Some? ==> n <= |Since(attacks, cutoff.value)| <= |attacks|
    ensures cutoff.Some? ==> (n == 0 <==> forall a :: a in attacks ==> a.startDate < cutoff.value)
  {
    match cutoff
    case None => 0
    case Some(c) =>
      var days := StartDays(Since(attacks, c));
      StartDaysMembers(Since(attacks, c));
      assert (exists a :: a in attacks && a.startDate >= c) ==> days != {} by {
        if a :| a in attacks && a.startDate >= c {
          assert StartOfDay(a.startDate) in days;
        }
      }
      |days|
  }

  /** `Calendar.date(byAdding: .day, value: -30, to: now)` in the model's calendar. */
  function ThirtyDaysBefore(now: Instant): Option<Instant> {
    Some(now - 30 * Day)
  }

  /**
   * The 30-day count for the instant `now`: no migraine days exactly when
   * every attack started more than 30 days before `now`; an attack started
   * exactly 30 days before still counts.
   */
  lemma LastThirtyDays(attacks: seq<MigraineAttack>, now: Instant)
    ensures MigraineDays(attacks, ThirtyDaysBefore(now)) == 0 <==>
              forall a :: a in attacks ==> a.startDate < now - 30 * Day
    ensures forall a :: a in attacks && a.startDate == now - 30 * Day ==>
              MigraineDays(attacks, ThirtyDaysBefore(now)) >= 1
  {
  }

  /** `Since` over a log with one more attack. */
  lemma SinceAppend(attacks: seq<MigraineAttack>, a: MigraineAttack, cutoff: Instant)
    ensures Since(attacks + [a], cutoff) ==
            if a.startDate >= cutoff then Since(attacks, cutoff) + [a] else Since(attacks, cutoff)
  {
    var s := attacks + [a];
    assert s[..|s| - 1] == attacks;
  }

  /** `StartDays` over a log with one more attack. */
  lemma StartDaysAppend(attacks: seq<MigraineAttack>, a: MigraineAttack)
    ensures StartDays(attacks + [a]) == StartDays(attacks) + {StartOfDay(a.startDate)}
  {
    var s := attacks + [a];
    assert s[..|s| - 1] == attacks;
  }

  /** When every attack is on or after the cutoff, the filter keeps the whole log. */
  lemma {:induction false} SinceKeepsAll(attacks: seq<MigraineAttack>, cutoff: Instant)
    requires forall a :: a in attacks ==> a.startDate >= cutoff
    ensures Since(attacks, cutoff) == attacks
  {
    if attacks != [] {
      var init, a := attacks[..|attacks| - 1], attacks[|attacks| - 1];
      assert attacks == init + [a];
      SinceKeepsAll(init, cutoff);
      SinceAppend(init, a, cutoff);
    }
  }

  /** Two attacks on one day and one on another day within the window make two days, not three. */
  lemma SameDayCountsOnce(a1: MigraineAttack, a2: MigraineAttack, a3: MigraineAttack, cutoff: Instant)
    requires a1.startDate >= cutoff && a2.startDate >= cutoff && a3.startDate >= cutoff
    requires StartOfDay(a1.startDate) == StartOfDay(a2.startDate) != StartOfDay(a3.startDate)
    ensures MigraineDays([a1, a2, a3], Some(cutoff)) == 2
  {
    SinceKeepsAll([a1, a2, a3], cutoff);
    var d1, d3 := StartOfDay(a1.startDate), StartOfDay(a3.startDate);
    StartDaysOfThree(a1, a2, a3);
    assert |{d1, d3}| == 2;
  }

  /** The days of a three-attack log. */
  lemma StartDaysOfThree(a1: MigraineAttack, a2: MigraineAttack, a3: MigraineAttack)
    ensures StartDays([a1, a2, a3]) ==
            {StartOfDay(a1.startDate), StartOfDay(a2.startDate), StartOfDay(a3.startDate)}
  {
    StartDaysAppend([a1], a2);
    StartDaysAppend([a1, a2], a3);
    assert [a1] + [a2] == [a1, a2] && [a1, a2] + [a3] == [a1, a2, a3];
  }

  /** Logging one more attack adds at most one migraine day, and never removes one. */
  lemma AppendAddsAtMostOneDay(attacks: seq<MigraineAttack>, a: MigraineAttack, cutoff: Option<Instant>)
    ensures MigraineDays(attacks, cutoff) <= MigraineDays(attacks + [a], cutoff) <= MigraineDays(attacks, cutoff) + 1
  {
    if cutoff.Some? {
      var c := cutoff.value;
      SinceAppend(attacks, a, c);
      if a.startDate >= c {
        var before := StartDays(Since(attacks, c));
        StartDaysAppend(Since(attacks, c), a);
        var d := StartOfDay(a.startDate);
        if d in before {
          assert before + {d} == before;
        } else {
          assert |before + {d}| == |before| + 1;
        }
      }
    }
  }

  /** An attack dated on or after the cutoff, future ones included, makes its day count. */
  lemma AttackAfterCutoffCounts(attacks: seq<MigraineAttack>, a: MigraineAttack, cutoff: Instant)
    requires a in attacks && a.startDate >= cutoff
    ensures StartOfDay(a.startDate) in StartDays(Since(attacks, cutoff))
    ensures MigraineDays(attacks, Some(cutoff)) >= 1
  {
    assert a in Since(attacks, cutoff);
    StartDaysMembers(Since(attacks, cutoff));
  }

  class AppState {
    var profile: UserProfile
    var settings: UserSettings
    var attacks: seq<MigraineAttack>

    /** The published defaults: empty profile, default settings, empty log. */
    constructor (nineToday: Instant)
      ensures profile == DefaultProfile() && settings == DefaultSettings(nineToday)
      ensures attacks == []
    {
      profile := DefaultProfile();
      settings := DefaultSettings(nineToday);
      attacks := [];
    }

    /** `addAttack`: appends; nothing else changes. */
    method AddAttack(attack: MigraineAttack)
      modifies this`attacks
      ensures attacks == old(attacks) + [attack]
      ensures |attacks| == |old(attacks)| + 1 && attacks[|attacks| - 1] == attack
      ensures profile == old(profile) && settings == old(settings)
    {
      attacks := attacks + [attack];
    }

    /** `clearAttacks`: empties the log, so no day counts any more. */
    method ClearAttacks()
      modifies this`attacks
      ensures attacks == []
      ensures forall cutoff :: MigraineDaysLast30(cutoff) == 0
      ensures profile == old(profile) && settings == old(settings)
    {
      attacks := [];
    }

    /** `migraineDaysLast30`, given the calendar's cutoff for now minus 30 days. */
    function MigraineDaysLast30(cutoff: Option<Instant>): nat
      reads this
    {
      MigraineDays(attacks, cutoff)
    }
  }
}
