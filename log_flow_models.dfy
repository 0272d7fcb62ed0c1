/**
 * The option tables of the logging flow (start and end presets, pain
 * locations, symptoms, triggers) and the draft the flow fills in.
 * Every enum's `id` is its raw value, which is the case name.
 */
module FlowModels {
  import opened Wrappers
  import opened Time
  import opened Strings

  // ---------------------------------------------------------------------
  // Presets

  datatype FlowStartPreset = JustNow | OneHourAgo | Other

  function StartPresetId(p: FlowStartPreset): (id: string)
    ensures |id| > 0
  {
    match p
    case JustNow => "justNow"
    case OneHourAgo => "oneHourAgo"
    case Other => "other"
  }

  datatype FlowEndPreset = StillGoing | JustNow | Other

  function EndPresetId(p: FlowEndPreset): (id: string)
    ensures |id| > 0
  {
    match p
    case StillGoing => "stillGoing"
    case JustNow => "justNow"
    case Other => "other"
  }

  /** Distinct cases have distinct ids. */
  lemma PresetIdsDistinct()
    ensures forall a: FlowStartPreset, b: FlowStartPreset :: a != b ==> StartPresetId(a) != StartPresetId(b)
    ensures forall a: FlowEndPreset, b: FlowEndPreset :: a != b ==> EndPresetId(a) != EndPresetId(b)
  {
  }

  // ---------------------------------------------------------------------
  // Pain location

  datatype PainLocation = Front | Left | Right | Back | Eyes | Neck

  /** `allCases`, in declaration order. */
  const AllLocations: seq<PainLocation> := [Front, Left, Right, Back, Eyes, Neck]

  function LocationId(l: PainLocation): string {
    match l
    case Front => "front"
    case Left => "left"
    case Right => "right"
    case Back => "back"
    case Eyes => "eyes"
    case Neck => "neck"
  }

  function LocationTitle(l: PainLocation): string {
    match l
    case Front => "Front"
    case Left => "Left"
    case Right => "Right"
    case Back => "Back"
    case Eyes => "Eyes"
    case Neck => "Neck"
  }

  function LocationIcon(l: PainLocation): string {
    match l
    case Front => "arrow.up.circle"
    case Left => "arrow.left.circle"
    case Right => "arrow.right.circle"
    case Back => "arrow.uturn.left.circle"
    case Eyes => "eye.circle"
    case Neck => "figure.walk.circle"
  }

  /** Six locations, each listed once, with distinct ids and titles. */
  lemma LocationTable()
    ensures |AllLocations| == 6
    ensures forall l :: l in AllLocations
    ensures forall i, j :: 0 <= i < j < |AllLocations| ==> AllLocations[i] != AllLocations[j]
    ensures forall a, b :: a != b ==> LocationId(a) != LocationId(b)
    ensures forall a, b :: a != b ==> LocationTitle(a) != LocationTitle(b)
  {
    forall l ensures l in AllLocations {
      match l
      case Front => assert AllLocations[0] == l;
      case Left => assert AllLocations[1] == l;
      case Right => assert AllLocations[2] == l;
      case Back => assert AllLocations[3] == l;
      case Eyes => assert AllLocations[4] == l;
      case Neck => assert AllLocations[5] == l;
    }
  }

  // ---------------------------------------------------------------------
  // Symptoms

  datatype Symptom =
    | Pounding | Pulsating | Throbbing
    | WorseMoving | Nausea | Vomiting
    | Light | Noise | NeckPain
    | Dizziness | Congestion | Insomnia
    | Depressed | Anxiety | Smell
    | Heat | Tinnitus | Fatigue
    | Blurred | Confusion

  function SymptomId(s: Symptom): string {
    match s
    case Pounding => "pounding"
    case Pulsating => "pulsating"
    case Throbbing => "throbbing"
    case WorseMoving => "worseMoving"
    case Nausea => "nausea"
    case Vomiting => "vomiting"
    case Light => "light"
    case Noise => "noise"
    case NeckPain => "neckPain"
    case Dizziness => "dizziness"
    case Congestion => "congestion"
    case Insomnia => "insomnia"
    case Depressed => "depressed"
    case Anxiety => "anxiety"
    case Smell => "smell"
    case Heat => "heat"
    case Tinnitus => "tinnitus"
    case Fatigue => "fatigue"
    case Blurred => "blurred"
    case Confusion => "confusion"
  }

  function SymptomTitle(s: Symptom): string {
    match s
    case Pounding => "Pounding pain"
    case Pulsating => "Pulsating pain"
    case Throbbing => "Throbbing pain"
    case WorseMoving => "Worse if moving"
    case Nausea => "Nausea"
    case Vomiting => "Vomiting"
    case Light => "Sensitivity to light"
    case Noise => "Sensitivity to noise"
    case NeckPain => "Neck pain"
    case Dizziness => "Giddiness"
    case Congestion => "Nasal congestion"
    case Insomnia => "Insomnia"
    case Depressed => "Depressed mood"
    case Anxiety => "Anxiety"
    case Smell => "Sensitivity to smell"
    case Heat => "Heat"
    case Tinnitus => "Tinnitus"
    case Fatigue => "Fatigue"
    case Blurred => "Blurred vision"
    case Confusion => "Confusion"
  }

  function SymptomIcon(s: Symptom): string {
    match s
    case Pounding | Pulsating | Throbbing => "bolt.circle"
    case WorseMoving => "figure.walk.circle"
    case Nausea => "face.smiling.inverse"
    case Vomiting => "face.dashed"
    case Light => "sun.max.circle"
    case Noise => "speaker.wave.3.circle"
    case NeckPain => "figure.walk.circle"
    case Dizziness => "sparkles"
    case Congestion => "nose"
    case Insomnia => "bed.double.circle"
    case Depressed => "cloud.circle"
    case Anxiety => "brain.head.profile"
    case Smell => "wind.circle"
    case Heat => "thermometer.medium"
    case Tinnitus => "ear"
    case Fatigue => "battery.25"
    case Blurred => "eye.slash"
    case Confusion => "questionmark.circle"
  }

  /** Position in declaration order (`allCases`). */
  function SymptomIndex(s: Symptom): (k: nat)
    ensures k < 20
  {
    match s
    case Pounding => 0
    case Pulsating => 1
    case Throbbing => 2
    case WorseMoving => 3
    case Nausea => 4
    case Vomiting => 5
    case Light => 6
    case Noise => 7
    case NeckPain => 8
    case Dizziness => 9
    case Congestion => 10
    case Insomnia => 11
    case Depressed => 12
    case Anxiety => 13
    case Smell => 14
    case Heat => 15
    case Tinnitus => 16
    case Fatigue => 17
    case Blurred => 18
    case Confusion => 19
  }

  /** The case at a position in declaration order. */
  function SymptomAt(k: nat): Symptom
    requires k < 20
  {
    match k
    case 0 => Pounding
    case 1 => Pulsating
    case 2 => Throbbing
    case 3 => WorseMoving
    case 4 => Nausea
    case 5 => Vomiting
    case 6 => Light
    case 7 => Noise
    case 8 => NeckPain
    case 9 => Dizziness
    case 10 => Congestion
    case 11 => Insomnia
    case 12 => Depressed
    case 13 => Anxiety
    case 14 => Smell
    case 15 => Heat
    case 16 => Tinnitus
    case 17 => Fatigue
    case 18 => Blurred
    case _ => Confusion
  }

  /** `allCases`. */
  const AllSymptoms: seq<Symptom> := seq(20, k requires 0 <= k < 20 => SymptomAt(k))

  /** Position and case determine each other. */
  lemma SymptomIndexRoundTrip()
    ensures forall s :: SymptomAt(SymptomIndex(s)) == s
    ensures forall k: nat :: k < 20 ==> SymptomIndex(SymptomAt(k)) == k
  {
  }

  /** 20 cases, each listed once. */
  lemma SymptomTable()
    ensures |AllSymptoms| == 20
    ensures forall s :: s in AllSymptoms
    ensures forall i, j :: 0 <= i < j < |AllSymptoms| ==> AllSymptoms[i] != AllSymptoms[j]
  {
    SymptomIndexRoundTrip();
    forall s ensures s in AllSymptoms {
      assert AllSymptoms[SymptomIndex(s)] == s;
    }
    forall i, j | 0 <= i < j < |AllSymptoms| ensures AllSymptoms[i] != AllSymptoms[j] {
      assert SymptomIndex(AllSymptoms[i]) == i && SymptomIndex(AllSymptoms[j]) == j;
    }
  }

  /** Position in the order of titles. */
  function SymptomTitleRank(s: Symptom): (k: nat)
    ensures k < 20
  {
    match s
    case Pounding => 11
    case Pulsating => 12
    case Throbbing => 16
    case WorseMoving => 19
    case Nausea => 9
    case Vomiting => 18
    case Light => 13
    case Noise => 14
    case NeckPain => 10
    case Dizziness => 5
    case Congestion => 8
    case Insomnia => 7
    case Depressed => 3
    case Anxiety => 0
    case Smell => 15
    case Heat => 6
    case Tinnitus => 17
    case Fatigue => 4
    case Blurred => 1
    case Confusion => 2
  }

  /** The case at a position in the order of titles. */
  function SymptomAtTitleRank(k: nat): Symptom
    requires k < 20
  {
    match k
    case 0 => Anxiety
    case 1 => Blurred
    case 2 => Confusion
    case 3 => Depressed
    case 4 => Fatigue
    case 5 => Dizziness
    case 6 => Heat
    case 7 => Insomnia
    case 8 => Congestion
    case 9 => Nausea
    case 10 => NeckPain
    case 11 => Pounding
    case 12 => Pulsating
    case 13 => Light
    case 14 => Noise
    case 15 => Smell
    case 16 => Throbbing
    case 17 => Tinnitus
    case 18 => Vomiting
    case _ => WorseMoving
  }

  /** The cases ordered by title. */
  const SymptomsByTitle: seq<Symptom> := seq(20, k requires 0 <= k < 20 => SymptomAtTitleRank(k))

  /** Title rank and case determine each other, so every case is in the title order. */
  lemma SymptomsByTitleComplete()
    ensures forall s :: SymptomAtTitleRank(SymptomTitleRank(s)) == s
    ensures forall s :: s in SymptomsByTitle
  {
    forall s ensures s in SymptomsByTitle {
      assert SymptomsByTitle[SymptomTitleRank(s)] == s;
    }
  }

  /** Neighbours in the title order have increasing titles. */
  lemma SymptomNeighbours(i: nat)
    requires i < 19
    ensures StrLt(SymptomTitle(SymptomAtTitleRank(i)), SymptomTitle(SymptomAtTitleRank(i + 1)))
  {
    if i == 0 {
      LtAt("Anxiety", "Blurred vision", 0);
    } else if i == 1 {
      LtAt("Blurred vision", "Confusion", 0);
    } else if i == 2 {
      LtAt("Confusion", "Depressed mood", 0);
    } else if i == 3 {
      LtAt("Depressed mood", "Fatigue", 0);
    } else if i == 4 {
      LtAt("Fatigue", "Giddiness", 0);
    } else if i == 5 {
      LtAt("Giddiness", "Heat", 0);
    } else if i == 6 {
      LtAt("Heat", "Insomnia", 0);
    } else if i == 7 {
      LtAt("Insomnia", "Nasal congestion", 0);
    } else if i == 8 {
      LtAt("Nasal congestion", "Nausea", 2);
    } else if i == 9 {
      LtAt("Nausea", "Neck pain", 1);
    } else if i == 10 {
      LtAt("Neck pain", "Pounding pain", 0);
    } else if i == 11 {
      LtAt("Pounding pain", "Pulsating pain", 1);
    } else if i == 12 {
      LtAt("Pulsating pain", "Sensitivity to light", 0);
    } else if i == 13 {
      LtAt("Sensitivity to light", "Sensitivity to noise", 15);
    } else if i == 14 {
      LtAt("Sensitivity to noise", "Sensitivity to smell", 15);
    } else if i == 15 {
      LtAt("Sensitivity to smell", "Throbbing pain", 0);
    } else if i == 16 {
      LtAt("Throbbing pain", "Tinnitus", 1);
    } else if i == 17 {
      LtAt("Tinnitus", "Vomiting", 0);
    } else if i == 18 {
      LtAt("Vomiting", "Worse if moving", 0);
    }
  }

  /** The titles along `SymptomsByTitle` are increasing. */
  lemma SymptomsByTitleSorted()
    ensures StrictlySorted(TitlesAlong(SymptomsByTitle, SymptomTitle))
  {
    var ts := TitlesAlong(SymptomsByTitle, SymptomTitle);
    forall i | 0 <= i < |ts| - 1 ensures StrLt(ts[i], ts[i + 1]) {
      SymptomNeighbours(i);
    }
    AdjacentSorted(ts);
  }


  /** `init?(rawValue:)`: the case whose raw value is `id`, if any. */
  function SymptomFromId(id: string): Option<Symptom> {
    if id == "pounding" then Some(Pounding)
    else if id == "pulsating" then Some(Pulsating)
    else if id == "throbbing" then Some(Throbbing)
    else if id == "worseMoving" then Some(WorseMoving)
    else if id == "nausea" then Some(Nausea)
    else if id == "vomiting" then Some(Vomiting)
    else if id == "light" then Some(Light)
    else if id == "noise" then Some(Noise)
    else if id == "neckPain" then Some(NeckPain)
    else if id == "dizziness" then Some(Dizziness)
    else if id == "congestion" then Some(Congestion)
    else if id == "insomnia" then Some(Insomnia)
    else if id == "depressed" then Some(Depressed)
    else if id == "anxiety" then Some(Anxiety)
    else if id == "smell" then Some(Smell)
    else if id == "heat" then Some(Heat)
    else if id == "tinnitus" then Some(Tinnitus)
    else if id == "fatigue" then Some(Fatigue)
    else if id == "blurred" then Some(Blurred)
    else if id == "confusion" then Some(Confusion)
    else None
  }

  /** Decoding a case's id gives the case back. */
  lemma SymptomIdRoundTrip(s: Symptom)
    ensures SymptomFromId(SymptomId(s)) == Some(s)
  {
  }

  /** Distinct cases have distinct ids. */
  lemma SymptomIdsDistinct(a: Symptom, b: Symptom)
    requires SymptomId(a) == SymptomId(b)
    ensures a == b
  {
    SymptomIdRoundTrip(a);
    SymptomIdRoundTrip(b);
  }

  /** The icon table is not one-to-one: the three kinds of pain share one icon. */
  lemma SymptomIconsShared()
    ensures SymptomIcon(Pounding) == SymptomIcon(Pulsating) == SymptomIcon(Throbbing) == "bolt.circle"
    ensures Pounding != Pulsating && SymptomIcon(WorseMoving) == SymptomIcon(NeckPain)
  {
  }

  // ---------------------------------------------------------------------
  // Triggers

  datatype Trigger =
    | Stress | LackSleep | SkippedMeal
    | Weather | Alcohol | Caffeine
    | Dehydration | Processed | OddSmell

  /** The raw value; the last case is `smell`, like the symptom of that name. */
  function TriggerId(t: Trigger): string {
    match t
    case Stress => "stress"
    case LackSleep => "lackSleep"
    case SkippedMeal => "skippedMeal"
    case Weather => "weather"
    case Alcohol => "alcohol"
    case Caffeine => "caffeine"
    case Dehydration => "dehydration"
    case Processed => "processed"
    case OddSmell => "smell"
  }

  function TriggerTitle(t: Trigger): string {
    match t
    case Stress => "Stress"
    case LackSleep => "Lack of sleep"
    case SkippedMeal => "Skipped meal"
    case Weather => "Very variable weather"
    case Alcohol => "Alcohol"
    case Caffeine => "Caffeine"
    case Dehydration => "Dehydration"
    case Processed => "Processed food"
    case OddSmell => "Odd/Strong smell"
  }

  function TriggerIcon(t: Trigger): string {
    match t
    case Stress => "brain.head.profile"
    case LackSleep => "bed.double.circle"
    case SkippedMeal => "fork.knife.circle"
    case Weather => "cloud.bolt.rain.circle"
    case Alcohol => "wineglass"
    case Caffeine => "cup.and.saucer"
    case Dehydration => "drop.circle"
    case Processed => "takeoutbag.and.cup.and.straw"
    case OddSmell => "wind"
  }

  /** `init?(rawValue:)`: the case whose raw value is `id`, if any. */
  function TriggerFromId(id: string): Option<Trigger> {
    if id == "stress" then Some(Stress)
    else if id == "lackSleep" then Some(LackSleep)
    else if id == "skippedMeal" then Some(SkippedMeal)
    else if id == "weather" then Some(Weather)
    else if id == "alcohol" then Some(Alcohol)
    else if id == "caffeine" then Some(Caffeine)
    else if id == "dehydration" then Some(Dehydration)
    else if id == "processed" then Some(Processed)
    else if id == "smell" then Some(OddSmell)
    else None
  }

  /** Decoding a case's id gives the case back. */
  lemma TriggerIdRoundTrip(t: Trigger)
    ensures TriggerFromId(TriggerId(t)) == Some(t)
  {
  }

  /** Distinct cases have distinct ids. */
  lemma TriggerIdsDistinct(a: Trigger, b: Trigger)
    requires TriggerId(a) == TriggerId(b)
    ensures a == b
  {
    TriggerIdRoundTrip(a);
    TriggerIdRoundTrip(b);
  }

  /** Position in declaration order (`allCases`). */
  function TriggerIndex(t: Trigger): (k: nat)
    ensures k < 9
  {
    match t
    case Stress => 0
    case LackSleep => 1
    case SkippedMeal => 2
    case Weather => 3
    case Alcohol => 4
    case Caffeine => 5
    case Dehydration => 6
    case Processed => 7
    case OddSmell => 8
  }

  /** The case at a position in declaration order. */
  function TriggerAt(k: nat): Trigger
    requires k < 9
  {
    match k
    case 0 => Stress
    case 1 => LackSleep
    case 2 => SkippedMeal
    case 3 => Weather
    case 4 => Alcohol
    case 5 => Caffeine
    case 6 => Dehydration
    case 7 => Processed
    case _ => OddSmell
  }

  /** `allCases`. */
  const AllTriggers: seq<Trigger> := seq(9, k requires 0 <= k < 9 => TriggerAt(k))

  /** Position and case determine each other. */
  lemma TriggerIndexRoundTrip()
    ensures forall t :: TriggerAt(TriggerIndex(t)) == t
    ensures forall k: nat :: k < 9 ==> TriggerIndex(TriggerAt(k)) == k
  {
  }

  /** 9 cases, each listed once. */
  lemma TriggerTable()
    ensures |AllTriggers| == 9
    ensures forall t :: t in AllTriggers
    ensures forall i, j :: 0 <= i < j < |AllTriggers| ==> AllTriggers[i] != AllTriggers[j]
  {
    TriggerIndexRoundTrip();
    forall t ensures t in AllTriggers {
      assert AllTriggers[TriggerIndex(t)] == t;
    }
    forall i, j | 0 <= i < j < |AllTriggers| ensures AllTriggers[i] != AllTriggers[j] {
      assert TriggerIndex(AllTriggers[i]) == i && TriggerIndex(AllTriggers[j]) == j;
    }
  }

  /** Position in the order of titles. */
  function TriggerTitleRank(t: Trigger): (k: nat)
    ensures k < 9
  {
    match t
    case Stress => 7
    case LackSleep => 3
    case SkippedMeal => 6
    case Weather => 8
    case Alcohol => 0
    case Caffeine => 1
    case Dehydration => 2
    case Processed => 5
    case OddSmell => 4
  }

  /** The case at a position in the order of titles. */
  function TriggerAtTitleRank(k: nat): Trigger
    requires k < 9
  {
    match k
    case 0 => Alcohol
    case 1 => Caffeine
    case 2 => Dehydration
    case 3 => LackSleep
    case 4 => OddSmell
    case 5 => Processed
    case 6 => SkippedMeal
    case 7 => Stress
    case _ => Weather
  }

  /** The cases ordered by title. */
  const TriggersByTitle: seq<Trigger> := seq(9, k requires 0 <= k < 9 => TriggerAtTitleRank(k))

  /** Title rank and case determine each other, so every case is in the title order. */
  lemma TriggersByTitleComplete()
    ensures forall t :: TriggerAtTitleRank(TriggerTitleRank(t)) == t
    ensures forall t :: t in TriggersByTitle
  {
    forall t ensures t in TriggersByTitle {
      assert TriggersByTitle[TriggerTitleRank(t)] == t;
    }
  }

  /** Neighbours in the title order have increasing titles. */
  lemma TriggerNeighbours(i: nat)
    requires i < 8
    ensures StrLt(TriggerTitle(TriggerAtTitleRank(i)), TriggerTitle(TriggerAtTitleRank(i + 1)))
  {
    if i == 0 {
      LtAt("Alcohol", "Caffeine", 0);
    } else if i == 1 {
      LtAt("Caffeine", "Dehydration", 0);
    } else if i == 2 {
      LtAt("Dehydration", "Lack of sleep", 0);
    } else if i == 3 {
      LtAt("Lack of sleep", "Odd/Strong smell", 0);
    } else if i == 4 {
      LtAt("Odd/Strong smell", "Processed food", 0);
    } else if i == 5 {
      LtAt("Processed food", "Skipped meal", 0);
    } else if i == 6 {
      LtAt("Skipped meal", "Stress", 1);
    } else if i == 7 {
      LtAt("Stress", "Very variable weather", 0);
    }
  }

  /** The titles along `TriggersByTitle` are increasing. */
  lemma TriggersByTitleSorted()
    ensures StrictlySorted(TitlesAlong(TriggersByTitle, TriggerTitle))
  {
    var ts := TitlesAlong(TriggersByTitle, TriggerTitle);
    forall i | 0 <= i < |ts| - 1 ensures StrLt(ts[i], ts[i + 1]) {
      TriggerNeighbours(i);
    }
    AdjacentSorted(ts);
  }

  // ---------------------------------------------------------------------
  // Sorted titles of a selection

  /** The titles along `order`. */
  function TitlesAlong<T>(order: seq<T>, title: T -> string): (r: seq<string>)
    ensures |r| == |order|
    ensures forall i :: 0 <= i < |order| ==> r[i] == title(order[i])
  {
    if order == [] then [] else [title(order[0])] + TitlesAlong(order[1..], title)
  }

  /**
   * The titles of the selected elements, in the order of `order`: when
   * `order` lists the titles in increasing order, this is the selection's
   * titles sorted.
   */
  function SelectedTitles<T>(order: seq<T>, sel: set<T>, title: T -> string): (r: seq<string>)
    requires StrictlySorted(TitlesAlong(order, title))
    ensures StrictlySorted(r)
    ensures forall x :: x in order ==> (title(x) in r <==> x in sel)
    ensures forall t :: t in r ==> exists x :: x in order && x in sel && title(x) == t
  {
    if order == [] then []
    else
      var ts := TitlesAlong(order, title);
      assert TitlesAlong(order[1..], title) == ts[1..];
      var rest := SelectedTitles(order[1..], sel, title);
      assert order == [order[0]] + order[1..];
      forall x | x in order[1..] ensures StrLt(title(order[0]), title(x)) {
        var j :| 0 <= j < |order[1..]| && order[1..][j] == x;
        assert ts[j + 1] == title(x);
      }
      forall t | t in rest ensures StrLt(title(order[0]), t) {
      }
      if order[0] in sel then
        var r := [title(order[0])] + rest;
        assert StrictlySorted(r) by {
          forall i, j | 0 <= i < j < |r| ensures StrLt(r[i], r[j]) {
            assert r[j] == rest[j - 1];
            if i > 0 {
              assert r[i] == rest[i - 1];
            }
          }
        }
        forall x | x in order && x !in sel ensures title(x) !in r {
          if x != order[0] {
            assert x in order[1..];
            StrLtIrreflexive(title(order[0]));
          }
        }
        r
      else
        forall x | x == order[0] ensures title(x) !in rest {
          StrLtIrreflexive(title(x));
        }
        rest
  }

  /** Two strictly increasing lists of the same strings are the same list. */
  lemma {:induction false} SortedUnique(a: seq<string>, b: seq<string>)
    requires StrictlySorted(a) && StrictlySorted(b)
    requires forall t :: t in a <==> t in b
    ensures a == b
  {
    assert a != [] ==> a[0] in b;
    assert b != [] ==> b[0] in a;
    if a != [] && b != [] {
      if a[0] != b[0] {
        var i :| 0 <= i < |b| && b[i] == a[0];
        var j :| 0 <= j < |a| && a[j] == b[0];
        StrLtTransitive(a[0], a[j], b[i]);
        StrLtIrreflexive(a[0]);
        assert false;
      }
      forall t ensures t in a[1..] <==> t in b[1..] {
        if t in a[1..] {
          var i :| 1 <= i < |a| && a[i] == t;
          StrLtIrreflexive(a[0]);
          assert t in b;
        }
        if t in b[1..] {
          var i :| 1 <= i < |b| && b[i] == t;
          StrLtIrreflexive(b[0]);
          assert t in a;
        }
      }
      SortedUnique(a[1..], b[1..]);
      assert a == [a[0]] + a[1..] && b == [b[0]] + b[1..];
    }
  }

  /** `symptoms.map { $0.title }.sorted()`. */
  function SortedSymptomTitles(sel: set<Symptom>): (r: seq<string>)
    ensures StrictlySorted(r)
    ensures forall s :: SymptomTitle(s) in r <==> s in sel
    ensures forall t :: t in r ==> exists s :: s in sel && SymptomTitle(s) == t
  {
    SymptomsByTitleSorted();
    SymptomsByTitleComplete();
    SelectedTitles(SymptomsByTitle, sel, SymptomTitle)
  }

  /** `triggers.map { $0.title }.sorted()`. */
  function SortedTriggerTitles(sel: set<Trigger>): (r: seq<string>)
    ensures StrictlySorted(r)
    ensures forall t :: TriggerTitle(t) in r <==> t in sel
    ensures forall x :: x in r ==> exists t :: t in sel && TriggerTitle(t) == x
  {
    TriggersByTitleSorted();
    TriggersByTitleComplete();
    SelectedTitles(TriggersByTitle, sel, TriggerTitle)
  }

  /**
   * Any strictly increasing list of exactly the selection's titles is the
   * one `SortedSymptomTitles` gives, so the model agrees with every sort.
   */
  lemma SortedSymptomTitlesIsTheSort(sel: set<Symptom>, other: seq<string>)
    requires StrictlySorted(other)
    requires forall t :: t in other <==> exists s :: s in sel && SymptomTitle(s) == t
    ensures other == SortedSymptomTitles(sel)
  {
    var r := SortedSymptomTitles(sel);
    SortedUnique(other, r);
  }

  /** The same for the trigger titles. */
  lemma SortedTriggerTitlesIsTheSort(sel: set<Trigger>, other: seq<string>)
    requires StrictlySorted(other)
    requires forall x :: x in other <==> exists t :: t in sel && TriggerTitle(t) == x
    ensures other == SortedTriggerTitles(sel)
  {
    var r := SortedTriggerTitles(sel);
    SortedUnique(other, r);
  }

  // ---------------------------------------------------------------------
  // The draft

  /** `MigraineDraft`: what the logging flow collects before saving. */
  datatype MigraineDraft = MigraineDraft(
    startPreset: FlowStartPreset,
    endPreset: FlowEndPreset,
    startDate: Instant,
    endDate: Option<Instant>,
    severity: int,
    painLocation: Option<PainLocation>,
    symptoms: set<Symptom>,
    triggers: set<Trigger>)

  /**
   * A fresh draft at time `now`: start and end both `now` (so the
   * "Still going" switch starts off), severity 0, nothing selected, and the
   * presets `justNow` / `stillGoing`.
   */
  function DefaultDraft(now: Instant): (d: MigraineDraft)
    ensures d.startPreset == FlowStartPreset.JustNow && d.endPreset == StillGoing
    ensures d.startDate == now && d.endDate == Some(now)
    ensures d.severity == 0 && d.painLocation == None
    ensures d.symptoms == {} && d.triggers == {}
  {
    MigraineDraft(FlowStartPreset.JustNow, StillGoing, now, Some(now), 0, None, {}, {})
  }
}
