/**
 * The seven-step logging flow: a step counter moved by the back and
 * forward buttons, a draft edited by the steps, and the save that turns the
 * draft into an attack, linked to the day's health context when health
 * access is authorized.
 */
module LogFlow {
  import opened Wrappers
  import opened Time
  import opened Strings
  import opened Contexts
  import opened Attacks
  import opened AppStateModel
  import opened HealthKit
  import opened FlowModels

  // ---------------------------------------------------------------------
  // Screens and the severity hint

  /** The screen shown for a step. */
  datatype Screen = TimeScreen | SeverityScreen | LocationScreen | SymptomsScreen
                  | TriggersScreen | ReviewScreen | InsightsScreen

  /** The `switch step`: steps 1 to 6 have their own screen, anything else shows the insights. */
  function ScreenFor(step: int): Screen {
    if step == 1 then TimeScreen
    else if step == 2 then SeverityScreen
    else if step == 3 then LocationScreen
    else if step == 4 then SymptomsScreen
    else if step == 5 then TriggersScreen
    else if step == 6 then ReviewScreen
    else InsightsScreen
  }

  /** The position of a screen in the flow. */
  function StepOf(s: Screen): (step: int)
    ensures 1 <= step <= 7
  {
    match s
    case TimeScreen => 1
    case SeverityScreen => 2
    case LocationScreen => 3
    case SymptomsScreen => 4
    case TriggersScreen => 5
    case ReviewScreen => 6
    case InsightsScreen => 7
  }

  /** Each of the seven steps has its own screen, in order, and every screen is reached. */
  lemma ScreensInOrder(step: int, s: Screen)
    ensures ScreenFor(StepOf(s)) == s
    ensures 1 <= step <= 7 ==> StepOf(ScreenFor(step)) == step
    ensures !(1 <= step <= 6) ==> ScreenFor(step) == InsightsScreen
  {
  }

  /** The three hint levels of the severity step. */
  datatype Hint = Mild | Moderate | Severe

  /** `severityHint`: 0...2 mild, 3...6 moderate, anything else (including below 0) severe. */
  function SeverityHint(severity: int): (h: Hint)
    ensures h == Mild <==> 0 <= severity <= 2
    ensures h == Moderate <==> 3 <= severity <= 6
    ensures h == Severe <==> severity < 0 || severity > 6
  {
    if 0 <= severity <= 2 then Mild
    else if 3 <= severity <= 6 then Moderate
    else Severe
  }

  function HintText(h: Hint): string {
    match h
    case Mild => "Mild — noticeable but manageable."
    case Moderate => "Moderate — affects activities."
    case Severe => "Severe — hard to function."
  }

  function HintLevel(h: Hint): nat {
    match h
    case Mild => 0
    case Moderate => 1
    case Severe => 2
  }

  /** Over the slider's range 0...10 the hint never gets milder as the severity grows. */
  lemma HintMonotone(a: int, b: int)
    requires 0 <= a <= b <= 10
    ensures HintLevel(SeverityHint(a)) <= HintLevel(SeverityHint(b))
  {
  }

  // ---------------------------------------------------------------------
  // The payload of the save

  function Max(a: int, b: int): (m: int)
    ensures m >= a && m >= b && (m == a || m == b)
  {
    if a >= b then a else b
  }

  /** `painLocation?.title ?? "Not selected"`. */
  function LocationText(l: Option<PainLocation>): (t: string)
    ensures l.None? <==> t == "Not selected"
  {
    match l
    case None => "Not selected"
    case Some(loc) => LocationTitle(loc)
  }

  /** The symptoms line: "None" when nothing is selected, else the sorted titles joined by ", ". */
  function SymptomsText(sel: set<Symptom>): (t: string)
    ensures t == "None" <==> sel == {}
  {
    if sel == {} then "None"
    else
      var titles := SortedSymptomTitles(sel);
      var s :| s in sel;
      assert SymptomTitle(s) in titles;
      TitlesNotNone(titles);
      Join(titles, ", ")
  }

  /** A joined list of one or more symptom titles is never the word "None". */
  lemma TitlesNotNone(titles: seq<string>)
    requires titles != []
    requires forall t :: t in titles ==> exists s :: SymptomTitle(s) == t
    ensures Join(titles, ", ") != "None"
  {
    assert titles[0] in titles;
    var s :| SymptomTitle(s) == titles[0];
    if |titles| > 1 {
      assert |Join(titles, ", ")| >= |titles[0]| + 2;
      assert |SymptomTitle(s)| >= 4;
    } else {
      assert SymptomTitle(s) != "None";
    }
  }

  /** The notes of a flow-logged attack: a location line, then a symptoms line. */
  function FlowNotes(l: Option<PainLocation>, sel: set<Symptom>): (notes: string)
    ensures notes == "Location: " + LocationText(l) + "\n" + "Symptoms: " + SymptomsText(sel)
    ensures |notes| > 10 && notes[..10] == "Location: "
  {
    "Location: " + LocationText(l) + "\n" + "Symptoms: " + SymptomsText(sel)
  }

  /**
   * The attack `commitAttack` builds: the draft's times, severity, notes
   * and sorted trigger titles, no aura, always linked to the start of its
   * day, with the snapshot when one arrived.
   */
  function FlowAttack(draft: MigraineDraft, snapshot: Option<DailyContext>, id: Uuid): (a: MigraineAttack)
    ensures a.id == id && a.startDate == draft.startDate && a.endDate == draft.endDate
    ensures a.severity == draft.severity && !a.hasAura
    ensures a.notes == Some(FlowNotes(draft.painLocation, draft.symptoms))
    ensures a.triggers == SortedTriggerTitles(draft.triggers)
    ensures a.linkedContextDay == Some(StartOfDay(draft.startDate))
    ensures a.linkedContextSnapshot == snapshot
  {
    NewAttack(id, draft.startDate, draft.severity, false,
              endDate := draft.endDate,
              notes := Some(FlowNotes(draft.painLocation, draft.symptoms)),
              triggers := SortedTriggerTitles(draft.triggers),
              linkedContextDay := Some(StartOfDay(draft.startDate)),
              linkedContextSnapshot := snapshot)
  }

  /** `commitAttack(with:)`: with a context it is stored first, then the attack is added. */
  function CommitAttack(draft: MigraineDraft, ctx: Option<DailyContext>, id: Uuid): (calls: seq<StoreCall>)
    ensures |calls| == (if ctx.Some? then 2 else 1)
    ensures calls[|calls| - 1] == AddAttack(FlowAttack(draft, ctx, id))
    ensures ctx.Some? ==> calls[0] == UpsertContext(ctx.value)
  {
    match ctx
    case Some(c) => [UpsertContext(c), AddAttack(FlowAttack(draft, ctx, id))]
    case None => [AddAttack(FlowAttack(draft, None, id))]
  }

  /** The draft as `saveAndDismiss` leaves it: no end date when the end preset says still going. */
  function ClearedEnd(draft: MigraineDraft): (d: MigraineDraft)
    ensures d.endPreset == StillGoing ==> d.endDate == None
    ensures d.endPreset != StillGoing ==> d == draft
    ensures d == draft.(endDate := d.endDate)
  {
    if draft.endPreset == StillGoing then draft.(endDate := None) else draft
  }

  /**
   * `saveAndDismiss`: when authorized, the health context of the start's
   * day (as `fetchDailyContext` produces it from the queries' outcomes `q`)
   * is stored and attached; otherwise the attack is committed at once
   * without one.
   */
  function SaveAndDismiss(draft: MigraineDraft, authorized: bool, q: QueryOutcomes, id: Uuid): (calls: seq<StoreCall>)
    ensures |calls| == (if authorized then 2 else 1)
    ensures calls[|calls| - 1].AddAttack?
    ensures authorized ==> calls[0] == UpsertContext(FetchedContext(StartOfDay(draft.startDate), q))
    ensures authorized <==> calls[|calls| - 1].attack.linkedContextSnapshot.Some?
    ensures calls[|calls| - 1] ==
            AddAttack(FlowAttack(ClearedEnd(draft),
                                 if authorized then Some(FetchedContext(StartOfDay(draft.startDate), q)) else None,
                                 id))
  {
    var d := ClearedEnd(draft);
    var ctx := if authorized then Some(FetchedContext(StartOfDay(d.startDate), q)) else None;
    CommitAttack(d, ctx, id)
  }

  /**
   * `saveAndDismiss` with the health fetch in between.  The end is cleared,
   * the notes and trigger titles are built, and the context is fetched for
   * the start's day, all from the draft at the tap (`draft`).  When the
   * fetch completes, `commitAttack` reads the start, end and severity from
   * the draft as it is then (`current`), and links the attack to
   * `current`'s start day.  Without health access the commit runs at the
   * tap, so `current` plays no part.
   */
  function SaveAcrossFetch(draft: MigraineDraft, current: MigraineDraft, authorized: bool, q: QueryOutcomes, id: Uuid)
    : (calls: seq<StoreCall>)
    ensures |calls| == (if authorized then 2 else 1)
    ensures calls[|calls| - 1].AddAttack?
    ensures authorized ==> calls[0] == UpsertContext(FetchedContext(StartOfDay(draft.startDate), q))
    ensures var a, read := calls[|calls| - 1].attack, if authorized then current else ClearedEnd(draft);
            && a.id == id && !a.hasAura
            && a.startDate == read.startDate && a.endDate == read.endDate && a.severity == read.severity
            && a.notes == Some(FlowNotes(draft.painLocation, draft.symptoms))
            && a.triggers == SortedTriggerTitles(draft.triggers)
            && a.linkedContextDay == Some(StartOfDay(read.startDate))
            && (a.linkedContextSnapshot.Some? <==> authorized)
            && (authorized ==> a.linkedContextSnapshot == Some(FetchedContext(StartOfDay(draft.startDate), q)))
  {
    var d := ClearedEnd(draft);
    if authorized then
      var ctx := FetchedContext(StartOfDay(d.startDate), q);
      var read := current.(painLocation := d.painLocation, symptoms := d.symptoms, triggers := d.triggers);
      CommitAttack(read, Some(ctx), id)
    else
      CommitAttack(d, None, id)
  }

  /** Left unedited during the fetch, the draft gives the single-draft save. */
  lemma SaveAcrossFetchUnedited(draft: MigraineDraft, authorized: bool, q: QueryOutcomes, id: Uuid)
    ensures SaveAcrossFetch(draft, ClearedEnd(draft), authorized, q, id) == SaveAndDismiss(draft, authorized, q, id)
  {
  }

  /**
   * The saved link is consistent exactly when the commit-time start falls
   * on the day the context was fetched for, or no context was fetched.
   */
  lemma LinkAcrossFetch(draft: MigraineDraft, current: MigraineDraft, authorized: bool, q: QueryOutcomes, id: Uuid)
    ensures var calls := SaveAcrossFetch(draft, current, authorized, q, id);
            LinkConsistent(calls[|calls| - 1].attack) <==>
              !authorized || StartOfDay(current.startDate) == StartOfDay(draft.startDate)
  {
  }

  /**
   * A start moved to the next day while the context is fetched: the
   * attack is linked to the new day but carries the old day's snapshot.
   */
  lemma StartMovedDuringFetch(draft: MigraineDraft, q: QueryOutcomes, id: Uuid)
    requires draft.startDate % Day == 0
    ensures var calls := SaveAcrossFetch(draft, draft.(startDate := draft.startDate + Day), true, q, id);
            var a := calls[1].attack;
            a.linkedContextDay == Some(draft.startDate + Day) && a.linkedContextSnapshot.value.id == draft.startDate
  {
  }

  /**
   * The save keyed on the "Still going" switch, which is what the draft's
   * end date already records: the end the review step shows is the end
   * saved.  Apart from the end, the attack and the store calls are those of
   * `SaveAndDismiss`.
   */
  function SaveKeepingEnd(draft: MigraineDraft, authorized: bool, q: QueryOutcomes, id: Uuid): (calls: seq<StoreCall>)
    ensures |calls| == |SaveAndDismiss(draft, authorized, q, id)|
    ensures calls[..|calls| - 1] == SaveAndDismiss(draft, authorized, q, id)[..|calls| - 1]
    ensures calls[|calls| - 1].AddAttack?
    ensures calls[|calls| - 1].attack.endDate == draft.endDate
    ensures calls[|calls| - 1].attack ==
            SaveAndDismiss(draft, authorized, q, id)[|calls| - 1].attack.(endDate := draft.endDate)
  {
    var ctx := if authorized then Some(FetchedContext(StartOfDay(draft.startDate), q)) else None;
    CommitAttack(draft, ctx, id)
  }

  /**
   * With the draft unedited during the fetch, the saved attack's link is
   * consistent: its day is the start of the attack's day and a snapshot
   * carries that same day (`LinkAcrossFetch` covers an edited draft).
   */
  lemma SavedAttackLinkConsistent(draft: MigraineDraft, authorized: bool, q: QueryOutcomes, id: Uuid)
    ensures LinkConsistent(SaveAndDismiss(draft, authorized, q, id)[|SaveAndDismiss(draft, authorized, q, id)| - 1].attack)
  {
    StartOfDayIdempotent(draft.startDate);
  }

  // ---------------------------------------------------------------------
  // The flow's state

  /** `LogMigraineFlowView`'s state: the step counter and the draft. */
  class FlowScreen {
    var step: int
    var draft: MigraineDraft

    /**
     * The step stays within 1...7, the slider keeps the severity within
     * 0...10, and no step ever changes the presets.
     */
    ghost predicate Valid()
      reads this
    {
      && 1 <= step <= 7
      && 0 <= draft.severity <= 10
      && draft.startPreset == FlowStartPreset.JustNow
      && draft.endPreset == StillGoing
    }

    /** The "Still going" switch reads as on exactly when there is no end date. */
    predicate StillGoingOn()
      reads this
    {
      draft.endDate.None?
    }

    constructor (now: Instant)
      ensures Valid()
      ensures step == 1 && draft == DefaultDraft(now)
      ensures !StillGoingOn()
    {
      step := 1;
      draft := DefaultDraft(now);
    }

    /** The back buttons: dismiss on the first step, otherwise go back one. */
    method Back() returns (dismiss: bool)
      requires Valid()
      modifies this`step
      ensures Valid()
      ensures dismiss <==> old(step) == 1
      ensures step == (if old(step) == 1 then 1 else old(step) - 1)
    {
      if step == 1 {
        dismiss := true;
      } else {
        dismiss := false;
        step := step - 1;
      }
    }

    /**
     * The forward button: below step 7 it advances; on step 7 it saves,
     * clearing the end date first, and returns the store calls made.
     */
    method Forward(authorized: bool, q: QueryOutcomes, id: Uuid) returns (calls: seq<StoreCall>)
      requires Valid()
      modifies this`step, this`draft
      ensures Valid()
      ensures old(step) < 7 ==> step == old(step) + 1 && calls == [] && draft == old(draft)
      ensures old(step) == 7 ==> step == 7 && calls == SaveAndDismiss(old(draft), authorized, q, id)
      ensures old(step) == 7 ==> draft == ClearedEnd(old(draft)) && StillGoingOn()
    {
      if step < 7 {
        step := step + 1;
        calls := [];
      } else {
        calls := SaveAndDismiss(draft, authorized, q, id);
        draft := ClearedEnd(draft);
      }
    }

    /**
     * The forward button with the save keyed on the switch: as `Forward`,
     * except that step 7 saves the draft's end as it stands and leaves the
     * draft alone.
     */
    method ForwardKeepingEnd(authorized: bool, q: QueryOutcomes, id: Uuid) returns (calls: seq<StoreCall>)
      requires Valid()
      modifies this`step
      ensures Valid() && draft == old(draft)
      ensures old(step) < 7 ==> step == old(step) + 1 && calls == []
      ensures old(step) == 7 ==> step == 7 && calls == SaveKeepingEnd(draft, authorized, q, id)
      ensures old(step) == 7 ==> calls[|calls| - 1].attack.endDate == draft.endDate
    {
      if step < 7 {
        step := step + 1;
        calls := [];
      } else {
        calls := SaveKeepingEnd(draft, authorized, q, id);
      }
    }

    /** The start date picker. */
    method SetStartDate(t: Instant)
      requires Valid()
      modifies this`draft
      ensures Valid()
      ensures draft == old(draft).(startDate := t)
    {
      draft := draft.(startDate := t);
    }

    /** The end date picker, only shown while there is an end date; it does not check the order. */
    method SetEndDate(t: Instant)
      requires Valid() && !StillGoingOn()
      modifies this`draft
      ensures Valid()
      ensures draft == old(draft).(endDate := Some(t))
    {
      draft := draft.(endDate := Some(t));
    }

    /**
     * The "Still going" switch: on clears the end date; off sets it to the
     * later of the start and `now`, so the end is never before the start.
     */
    method SetStillGoing(isOn: bool, now: Instant)
      requires Valid()
      modifies this`draft
      ensures Valid()
      ensures StillGoingOn() == isOn
      ensures !isOn ==> draft.endDate.value >= draft.startDate && draft.endDate.value >= now
      ensures draft == old(draft).(endDate := if isOn then None else Some(Max(old(draft).startDate, now)))
    {
      if isOn {
        draft := draft.(endDate := None);
      } else {
        draft := draft.(endDate := Some(Max(draft.startDate, now)));
      }
    }

    /** The severity slider, which moves in whole steps over 0...10. */
    method SetSeverity(v: int)
      requires Valid() && 0 <= v <= 10
      modifies this`draft
      ensures Valid()
      ensures draft == old(draft).(severity := v)
    {
      draft := draft.(severity := v);
    }

    /** A location tile: selects that location. */
    method SelectLocation(l: PainLocation)
      requires Valid()
      modifies this`draft
      ensures Valid()
      ensures draft == old(draft).(painLocation := Some(l))
    {
      draft := draft.(painLocation := Some(l));
    }

    /** A symptom toggle: inserts or removes exactly that symptom. */
    method SetSymptom(s: Symptom, isOn: bool)
      requires Valid()
      modifies this`draft
      ensures Valid()
      ensures (s in draft.symptoms) == isOn
      ensures forall o :: o != s ==> (o in draft.symptoms <==> o in old(draft).symptoms)
      ensures draft == old(draft).(symptoms := draft.symptoms)
    {
      if isOn {
        draft := draft.(symptoms := draft.symptoms + {s});
      } else {
        draft := draft.(symptoms := draft.symptoms - {s});
      }
    }

    /** A trigger toggle: inserts or removes exactly that trigger. */
    method SetTrigger(t: Trigger, isOn: bool)
      requires Valid()
      modifies this`draft
      ensures Valid()
      ensures (t in draft.triggers) == isOn
      ensures forall o :: o != t ==> (o in draft.triggers <==> o in old(draft).triggers)
      ensures draft == old(draft).(triggers := draft.triggers)
    {
      if isOn {
        draft := draft.(triggers := draft.triggers + {t});
      } else {
        draft := draft.(triggers := draft.triggers - {t});
      }
    }
  }

  /**
   * Because no step changes the end preset from "still going", every
   * flow-saved attack is ongoing, even when the switch was turned off and
   * an end date was picked.
   */
  lemma FlowSavesNoEnd(draft: MigraineDraft, authorized: bool, q: QueryOutcomes, id: Uuid)
    requires draft.endPreset == StillGoing
    ensures IsOngoing(SaveAndDismiss(draft, authorized, q, id)[|SaveAndDismiss(draft, authorized, q, id)| - 1].attack)
  {
  }

  /**
   * A session that shows the lost end: the switch is turned off, an end is
   * picked, and the forward button is pressed through to the save.  The
   * review step shows the picked end, yet the attack is saved ongoing; the
   * save keyed on the switch keeps it.
   */
  method EndPickedThenSaved(now: Instant, picked: Instant, authorized: bool, q: QueryOutcomes, id: Uuid)
    returns (reviewed: Option<Instant>, saved: seq<StoreCall>, kept: seq<StoreCall>)
    ensures reviewed == Some(picked)
    ensures |saved| >= 1 && saved[|saved| - 1].AddAttack? && saved[|saved| - 1].attack.endDate == None
    ensures |kept| >= 1 && kept[|kept| - 1].AddAttack? && kept[|kept| - 1].attack.endDate == Some(picked)
  {
    var screen := new FlowScreen(now);
    screen.SetStillGoing(false, now);
    screen.SetEndDate(picked);
    while screen.step < 7
      invariant screen.Valid() && screen.draft.endDate == Some(picked)
      decreases 7 - screen.step
    {
      var none := screen.Forward(authorized, q, id);
    }
    reviewed := screen.draft.endDate;
    kept := SaveKeepingEnd(screen.draft, authorized, q, id);
    saved := screen.Forward(authorized, q, id);
  }

  /** A flow-saved attack from a valid screen keeps the documented severity range. */
  lemma FlowSavesSeverityInRange(draft: MigraineDraft, authorized: bool, q: QueryOutcomes, id: Uuid)
    requires 0 <= draft.severity <= 10
    ensures SeverityInRange(SaveAndDismiss(draft, authorized, q, id)[|SaveAndDismiss(draft, authorized, q, id)| - 1].attack)
  {
  }
}
