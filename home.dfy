/**
 * The home screen's derived data: the greeting, the five most recent
 * attacks, the date of the last attack, the empty-history choice and the
 * health line under an attack.
 */
module Home {
  import opened Wrappers
  import opened Time
  import opened Strings
  import opened Contexts
  import opened Attacks
  import opened AppStateModel
  import opened Sorting

  /** The hero header: the username is added only when there is one. */
  function Greeting(username: string): (g: string)
    ensures g == "Welcome back" <==> username == ""
    ensures username != "" ==> g == "Welcome back, " + username
    ensures |g| >= 12 && g[..12] == "Welcome back"
  {
    if username == "" then "Welcome back" else "Welcome back, " + username
  }

  /**
   * `recentAttacks`: the first five of the log sorted newest first.  As
   * many as there are up to five, all from the log, newest first, and no
   * attack left out is newer than one shown.
   */
  function RecentAttacks(attacks: seq<MigraineAttack>): (r: seq<MigraineAttack>)
    ensures |r| == Min(5, |attacks|)
    ensures forall a :: a in r ==> a in attacks
    ensures forall i, j :: 0 <= i < j < |r| ==> r[i].startDate >= r[j].startDate
    ensures forall a :: a in attacks && a !in r ==>
              |r| == 5 && forall b :: b in r ==> a.startDate <= b.startDate
    ensures r == NewestFirst(attacks)[..|r|]
  {
    var r := TopByKey(attacks, StartKey, 5);
    forall a | a in r ensures a in attacks {
      assert a in multiset(r);
    }
    assert forall i, j :: 0 <= i < j < |r| ==> StartKey(r[i]) >= StartKey(r[j]);
    r
  }

  /** The first attack of the newest-first log: one with the latest start, when there is any. */
  function LastAttack(attacks: seq<MigraineAttack>): (last: Option<MigraineAttack>)
    ensures last.None? <==> attacks == []
    ensures last.Some? ==> last.value in attacks && forall b :: b in attacks ==> b.startDate <= last.value.startDate
  {
    var sorted := NewestFirst(attacks);
    assert |sorted| == |multiset(sorted)| == |attacks|;
    if sorted == [] then None
    else
      assert sorted[0] in multiset(attacks);
      forall b | b in attacks ensures b.startDate <= sorted[0].startDate {
        assert b in multiset(sorted);
        var i :| 0 <= i < |sorted| && sorted[i] == b;
      }
      Some(sorted[0])
  }

  /** The last attack is the first of the recent attacks. */
  lemma LastIsFirstRecent(attacks: seq<MigraineAttack>)
    requires attacks != []
    ensures RecentAttacks(attacks) != [] && LastAttack(attacks) == Some(RecentAttacks(attacks)[0])
  {
  }

  /** `lastAttackDateText`: "None yet" for an empty log, else the last attack's start, formatted. */
  function LastAttackDateText(attacks: seq<MigraineAttack>, format: Instant -> string): (text: string)
    ensures attacks == [] ==> text == "None yet"
    ensures attacks != [] ==> exists a :: a in attacks && text == format(a.startDate) &&
                                         forall b :: b in attacks ==> b.startDate <= a.startDate
  {
    match LastAttack(attacks)
    case None => "None yet"
    case Some(last) => format(last.startDate)
  }

  /** The history card: a message for an empty log, else the recent attacks' rows. */
  datatype History = NoAttacksYet | RecentRows(rows: seq<MigraineAttack>)

  function HistoryCard(attacks: seq<MigraineAttack>): (h: History)
    ensures h == NoAttacksYet <==> attacks == []
    ensures h.RecentRows? ==> h.rows == RecentAttacks(attacks) && h.rows != []
  {
    if attacks == [] then NoAttacksYet else RecentRows(RecentAttacks(attacks))
  }

  /** `?? 0`. */
  function OrZero(v: Option<real>): (x: real)
    ensures v.None? ==> x == 0.0
    ensures v.Some? ==> x == v.value
  {
    if v.Some? then v.value else 0.0
  }

  /**
   * The health line under an attack row: only with a snapshot, and absent
   * sleep, steps or heart rate read as 0 (sleep via the one-decimal
   * formatter, steps and heart rate truncated).
   */
  function ContextLine(a: MigraineAttack, oneDecimal: real -> string): (line: Option<string>)
    ensures line.None? <==> a.linkedContextSnapshot.None?
    ensures line.Some? ==>
              var ctx := a.linkedContextSnapshot.value;
              line.value == "Sleep " + oneDecimal(OrZero(ctx.sleepHours)) + "h • Steps "
                            + IntToString(TruncateToInt(OrZero(ctx.steps))) + " • HR "
                            + IntToString(TruncateToInt(OrZero(ctx.avgHeartRateBpm)))
  {
    match a.linkedContextSnapshot
    case None => None
    case Some(ctx) =>
      Some("Sleep " + oneDecimal(OrZero(ctx.sleepHours)) + "h • Steps "
           + IntToString(TruncateToInt(OrZero(ctx.steps))) + " • HR "
           + IntToString(TruncateToInt(OrZero(ctx.avgHeartRateBpm))))
  }

  /** A snapshot with no metrics still shows a line, reading zero steps and zero heart rate. */
  lemma EmptySnapshotReadsZero(a: MigraineAttack, oneDecimal: real -> string)
    requires a.linkedContextSnapshot.Some?
    requires a.linkedContextSnapshot.value.steps.None? && a.linkedContextSnapshot.value.avgHeartRateBpm.None?
    ensures ContextLine(a, oneDecimal).Some?
    ensures var line, suffix := ContextLine(a, oneDecimal).value, "h • Steps 0 • HR 0";
            |line| >= |suffix| && line[|line| - |suffix|..] == suffix
  {
    assert TruncateToInt(0.0) == 0;
    assert IntToString(0) == "0";
  }
}
