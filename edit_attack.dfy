/**
 * The edit screen: a form initialised from an attack, the severity
 * stepper, the triggers text field parsed back into a list, and the save
 * that refuses an end before the start.
 */
module EditAttack {
  import opened Wrappers
  import opened Time
  import opened Strings
  import opened Attacks

  // ---------------------------------------------------------------------
  // The triggers text

  /** The text field's contents for a trigger list. */
  function TriggersText(triggers: seq<string>): string {
    Join(triggers, ", ")
  }

  /** `map { trimmingCharacters(in: .whitespacesAndNewlines) }`. */
  function TrimAll(ps: seq<string>): (r: seq<string>)
    ensures |r| == |ps| && forall i :: 0 <= i < |ps| ==> r[i] == Trim(ps[i])
  {
    seq(|ps|, i requires 0 <= i < |ps| => Trim(ps[i]))
  }

  /**
   * The save's parse of the triggers text: split on commas, each piece
   * trimmed, the empty ones dropped.  Every trigger it yields is non-empty,
   * comma-free and already trimmed.
   */
  function ParseTriggers(text: string): (r: seq<string>)
    ensures forall t :: t in r ==> t != "" && ',' !in t && Trim(t) == t
  {
    var pieces := Split(text, ',');
    var trimmed := TrimAll(pieces);
    forall t | t in trimmed ensures ',' !in t && Trim(t) == t {
      var i :| 0 <= i < |trimmed| && trimmed[i] == t;
      TrimByIdempotent(pieces[i], IsWhitespace);
      assert pieces[i] in pieces;
      TrimInfix(pieces[i]);
    }
    NonEmpty(trimmed)
  }

  /** Trimming only removes characters, so it cannot bring in a comma. */
  lemma TrimInfix(p: string)
    requires ',' !in p
    ensures ',' !in Trim(p)
  {
    var r := Trim(p);
    var l := Leading(p, IsWhitespace);
    forall k | 0 <= k < |r| ensures r[k] != ',' {
      assert r[k] == p[l + k];
    }
  }

  /** A trigger the text field round-trips: non-empty, comma-free, no surrounding whitespace. */
  predicate Canonical(t: string) {
    t != "" && ',' !in t && !IsWhitespace(t[0]) && !IsWhitespace(t[|t| - 1])
  }

  /** A canonical trigger is its own trim, also after the space the separator leaves. */
  lemma TrimCanonical(t: string)
    requires Canonical(t)
    ensures Trim(t) == t && Trim(" " + t) == t
  {
    var s := " " + t;
    assert s[1..] == t;
    assert Leading(t, IsWhitespace) == 0;
    assert Leading(s, IsWhitespace) == 1;
    var r := Trim(s);
    assert |r| == |t|;
    assert r == s[1..1 + |t|] == t;
    var r0 := Trim(t);
    assert |r0| == |t|;
  }

  /** `" " + t` for each trigger. */
  function Spaced(ts: seq<string>): (r: seq<string>)
    ensures |r| == |ts| && forall i :: 0 <= i < |ts| ==> r[i] == " " + ts[i]
  {
    seq(|ts|, i requires 0 <= i < |ts| => " " + ts[i])
  }

  /** After the first trigger, each piece of the joined text keeps the separator's space. */
  lemma {:induction false} PiecesOfSpacedJoin(ts: seq<string>)
    requires ts != [] && forall t :: t in ts ==> ',' !in t
    ensures Pieces(" " + Join(ts, ", "), ',') == Spaced(ts)
  {
    if |ts| == 1 {
      assert ',' !in " " + ts[0] by { assert ts[0] in ts; }
      PiecesOfOne(" " + ts[0], ',');
    } else {
      var a := " " + ts[0];
      assert ',' !in a by { assert ts[0] in ts; }
      assert " " + Join(ts, ", ") == a + [','] + (" " + Join(ts[1..], ", "));
      PiecesAfterSeparator(a, ',', " " + Join(ts[1..], ", "));
      forall t | t in ts[1..] ensures ',' !in t { assert t in ts; }
      PiecesOfSpacedJoin(ts[1..]);
      assert Spaced(ts) == [a] + Spaced(ts[1..]);
    }
  }

  /** The pieces of a joined list: the first trigger, then the others each after a space. */
  lemma PiecesOfJoin(ts: seq<string>)
    requires ts != [] && forall t :: t in ts ==> ',' !in t
    ensures Pieces(TriggersText(ts), ',') == [ts[0]] + Spaced(ts[1..])
  {
    assert ts[0] in ts;
    if |ts| == 1 {
      PiecesOfOne(ts[0], ',');
    } else {
      assert Join(ts, ", ") == ts[0] + [','] + (" " + Join(ts[1..], ", "));
      PiecesAfterSeparator(ts[0], ',', " " + Join(ts[1..], ", "));
      forall t | t in ts[1..] ensures ',' !in t { assert t in ts; }
      PiecesOfSpacedJoin(ts[1..]);
    }
  }

  /** Dropping empty strings from a list without any changes nothing. */
  lemma {:induction false} NonEmptyKeepsAll(s: seq<string>)
    requires forall x :: x in s ==> x != ""
    ensures NonEmpty(s) == s
  {
    if s != [] {
      assert s[0] in s;
      forall x | x in s[1..] ensures x != "" { assert x in s; }
      NonEmptyKeepsAll(s[1..]);
    }
  }

  /**
   * The text field round-trips a list of canonical triggers: saving without
   * touching the field gives the same list back.
   */
  lemma ParseTriggersText(ts: seq<string>)
    requires forall t :: t in ts ==> Canonical(t)
    ensures ParseTriggers(TriggersText(ts)) == ts
  {
    if ts != [] {
      var pieces := Split(TriggersText(ts), ',');
      SplitOfJoin(ts);
      TrimPiecesOfJoin(ts, pieces);
      NonEmptyKeepsAll(ts);
    }
  }

  /** Every piece of a joined list of canonical triggers is kept by the split. */
  lemma SplitOfJoin(ts: seq<string>)
    requires ts != [] && forall t :: t in ts ==> Canonical(t)
    ensures Split(TriggersText(ts), ',') == [ts[0]] + Spaced(ts[1..])
  {
    PiecesOfJoin(ts);
    var pieces := Pieces(TriggersText(ts), ',');
    forall x | x in pieces ensures x != "" {
      var i :| 0 <= i < |pieces| && pieces[i] == x;
      assert ts[i] in ts;
    }
    NonEmptyKeepsAll(pieces);
  }

  /** Trimming the pieces of a joined list of canonical triggers gives the list back. */
  lemma TrimPiecesOfJoin(ts: seq<string>, pieces: seq<string>)
    requires ts != [] && forall t :: t in ts ==> Canonical(t)
    requires pieces == [ts[0]] + Spaced(ts[1..])
    ensures TrimAll(pieces) == ts
  {
    var trimmed := TrimAll(pieces);
    forall i | 0 <= i < |ts| ensures trimmed[i] == ts[i] {
      assert ts[i] in ts;
      TrimCanonical(ts[i]);
      if i > 0 {
        assert pieces[i] == " " + ts[i];
      }
    }
  }

  /**
   * A trigger holding a comma between two canonical parts comes back as
   * those two parts: the text field does not round-trip it.
   */
  lemma CommaSplitsTrigger(a: string, b: string)
    requires Canonical(a) && Canonical(b)
    ensures ParseTriggers(TriggersText([a + "," + b])) == [a, b]
  {
    assert TriggersText([a + "," + b]) == a + "," + b;
    CommaPieces(a, b);
    TrimAllCanonical([a, b]);
    NonEmptyKeepsAll([a, b]);
  }

  /** Trimming canonical triggers changes none of them. */
  lemma TrimAllCanonical(ts: seq<string>)
    requires forall t :: t in ts ==> Canonical(t)
    ensures TrimAll(ts) == ts
  {
    forall i | 0 <= i < |ts| ensures TrimAll(ts)[i] == ts[i] {
      assert ts[i] in ts;
      TrimCanonical(ts[i]);
    }
  }

  /** Two non-empty comma-free pieces joined by a comma split back into those two. */
  lemma CommaPieces(a: string, b: string)
    requires a != "" && b != "" && ',' !in a && ',' !in b
    ensures Split(a + "," + b, ',') == [a, b]
  {
    PiecesAfterSeparator(a, ',', b);
    PiecesOfOne(b, ',');
    NonEmptyKeepsAll([a, b]);
  }

  // ---------------------------------------------------------------------
  // The severity stepper

  /** The stepper's `+`: one up, never above 10. */
  function StepUp(v: int): (r: int)
    ensures r <= 10 && (v < 10 ==> r == v + 1) && (v >= 10 ==> r == 10)
  {
    if v + 1 <= 10 then v + 1 else 10
  }

  /** The stepper's `-`: one down, never below 0. */
  function StepDown(v: int): (r: int)
    ensures r >= 0 && (v > 0 ==> r == v - 1) && (v <= 0 ==> r == 0)
  {
    if v - 1 >= 0 then v - 1 else 0
  }

  /** Within 0...10 the stepper stays within 0...10. */
  lemma StepperKeepsRange(v: int)
    requires 0 <= v <= 10
    ensures 0 <= StepUp(v) <= 10 && 0 <= StepDown(v) <= 10
  {
  }

  // ---------------------------------------------------------------------
  // Saving

  /** The form's values: the two pickers, the stepper, the switch and the two text fields. */
  datatype EditForm = EditForm(startDate: Instant, endDate: Instant, severity: int, hasAura: bool,
                               notes: string, triggersText: string)

  /**
   * The form as opened on an attack: the end defaults to the start for an
   * ongoing attack, absent notes to "", the triggers are joined by ", ".
   */
  function InitForm(attack: MigraineAttack): (f: EditForm)
    ensures f.startDate == attack.startDate
    ensures attack.endDate.None? ==> f.endDate == attack.startDate
    ensures attack.endDate.Some? ==> f.endDate == attack.endDate.value
    ensures f.severity == attack.severity && f.hasAura == attack.hasAura
    ensures attack.notes.None? ==> f.notes == ""
    ensures attack.notes.Some? ==> f.notes == attack.notes.value
    ensures f.triggersText == TriggersText(attack.triggers)
  {
    EditForm(attack.startDate,
             if attack.endDate.Some? then attack.endDate.value else attack.startDate,
             attack.severity, attack.hasAura,
             if attack.notes.Some? then attack.notes.value else "",
             TriggersText(attack.triggers))
  }

  /** The warning and the disabled Save button: the end is before the start. */
  predicate SaveDisabled(f: EditForm) {
    f.endDate < f.startDate
  }

  /**
   * The Save button: refused (`None`) exactly when the button is disabled;
   * otherwise the attack handed to `updateAttack`: the form's fields, the
   * same id and the same linkage, always with an end date not before the
   * start, notes absent exactly when the text is empty, and the parsed
   * triggers.
   */
  function Edited(attack: MigraineAttack, f: EditForm): (r: Option<MigraineAttack>)
    ensures r.None? <==> SaveDisabled(f)
    ensures r.Some? ==>
              && r.value.id == attack.id
              && r.value.startDate == f.startDate && r.value.endDate == Some(f.endDate)
              && r.value.endDate.value >= r.value.startDate
              && r.value.severity == f.severity && r.value.hasAura == f.hasAura
              && (r.value.notes.None? <==> f.notes == "")
              && (r.value.notes.Some? ==> r.value.notes.value == f.notes)
              && r.value.triggers == ParseTriggers(f.triggersText)
              && r.value.linkedContextDay == attack.linkedContextDay
              && r.value.linkedContextSnapshot == attack.linkedContextSnapshot
  {
    if f.endDate < f.startDate then None
    else
      Some(attack.(startDate := f.startDate, endDate := Some(f.endDate), severity := f.severity,
                   hasAura := f.hasAura, notes := if f.notes == "" then None else Some(f.notes),
                   triggers := ParseTriggers(f.triggersText)))
  }

  /**
   * The save keeps the old link: the edited attack stays consistent exactly
   * when its new start falls on the linked day (or it was never linked).
   */
  lemma EditedLink(attack: MigraineAttack, f: EditForm)
    requires LinkConsistent(attack)
    requires !SaveDisabled(f)
    ensures LinkConsistent(Edited(attack, f).value) <==>
              (attack.linkedContextDay.None? || StartOfDay(f.startDate) == StartOfDay(attack.startDate))
  {
  }

  /**
   * Saving the form as opened: an ongoing attack is saved as ending at its
   * start, empty notes become absent, canonical triggers are kept, and the
   * save is refused only when the recorded end is before the start.
   */
  lemma SaveUnchangedForm(attack: MigraineAttack)
    requires forall t :: t in attack.triggers ==> Canonical(t)
    ensures var r := Edited(attack, InitForm(attack));
            && (r.None? <==> attack.endDate.Some? && attack.endDate.value < attack.startDate)
            && (r.Some? ==> r.value == attack.(endDate := Some(InitForm(attack).endDate),
                                              notes := if attack.notes == Some("") then None else attack.notes))
  {
    ParseTriggersText(attack.triggers);
  }
}
