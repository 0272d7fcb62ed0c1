/** One logged migraine attack and the rules its writers are expected to keep. */
module Attacks {
  import opened Wrappers
  import opened Time
  import opened Contexts

  /** A `UUID`: only compared for equality. */
  type Uuid = nat

  /**
   * `MigraineAttack`.  `id` is immutable; every other field is replaced by
   * building an updated copy.  `endDate == None` means the attack is still
   * going; `triggers` keeps the order its writer gave.
   */
  datatype MigraineAttack = MigraineAttack(
    id: Uuid,
    startDate: Instant,
    endDate: Option<Instant>,
    severity: int,
    hasAura: bool,
    notes: Option<string>,
    triggers: seq<string>,
    linkedContextDay: Option<Instant>,
    linkedContextSnapshot: Option<DailyContext>)

  /** The initializer, with the same defaulted arguments. */
  function NewAttack(
    id: Uuid,
    startDate: Instant,
    severity: int,
    hasAura: bool,
    endDate: Option<Instant> := None,
    notes: Option<string> := None,
    triggers: seq<string> := [],
    linkedContextDay: Option<Instant> := None,
    linkedContextSnapshot: Option<DailyContext> := None): (a: MigraineAttack)
    ensures a.id == id && a.startDate == startDate && a.endDate == endDate
    ensures a.severity == severity && a.hasAura == hasAura && a.notes == notes
    ensures a.triggers == triggers
    ensures a.linkedContextDay == linkedContextDay && a.linkedContextSnapshot == linkedContextSnapshot
  {
    MigraineAttack(id, startDate, endDate, severity, hasAura, notes, triggers,
                   linkedContextDay, linkedContextSnapshot)
  }

  /** Still ongoing: no end recorded. */
  predicate IsOngoing(a: MigraineAttack) {
    a.endDate.None?
  }

  /** Severity is documented as 0 to 10; the type does not enforce it. */
  predicate SeverityInRange(a: MigraineAttack) {
    0 <= a.severity <= 10
  }

  /**
   * Linkage consistency: a linked day is the start of the attack's own day,
   * and a snapshot is only present together with that day and carries it
   * as its identity.
   */
  predicate LinkConsistent(a: MigraineAttack) {
    (a.linkedContextDay.Some? ==> a.linkedContextDay.value == StartOfDay(a.startDate))
    && (a.linkedContextSnapshot.Some? ==>
          a.linkedContextDay.Some? && a.linkedContextSnapshot.value.id == a.linkedContextDay.value)
  }

  /** The defaults: ongoing, no notes, no triggers, not linked. */
  lemma DefaultsAreAbsent(id: Uuid, startDate: Instant, severity: int, hasAura: bool)
    ensures IsOngoing(NewAttack(id, startDate, severity, hasAura))
    ensures NewAttack(id, startDate, severity, hasAura).notes == None
    ensures NewAttack(id, startDate, severity, hasAura).triggers == []
    ensures NewAttack(id, startDate, severity, hasAura).linkedContextDay == None
    ensures NewAttack(id, startDate, severity, hasAura).linkedContextSnapshot == None
    ensures LinkConsistent(NewAttack(id, startDate, severity, hasAura))
  {
  }
}
