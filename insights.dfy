/**
 * The insights screen: the frequency card and the top triggers, counted
 * over every trigger entry of every attack.
 */
module Insights {
  import opened Wrappers
  import opened Time
  import opened Attacks
  import opened AppStateModel
  import opened Sorting

  // ---------------------------------------------------------------------
  // Counting trigger entries

  /** `flatMap { $0.triggers }`: every trigger entry, attack by attack, repeats included. */
  function AllTriggerEntries(attacks: seq<MigraineAttack>): (entries: seq<string>)
    ensures forall t :: t in entries <==> exists a :: a in attacks && t in a.triggers
    ensures entries == [] <==> forall a :: a in attacks ==> a.triggers == []
  {
    if attacks == [] then []
    else
      var rest := AllTriggerEntries(attacks[1..]);
      assert forall a :: a in attacks <==> a == attacks[0] || a in attacks[1..];
      attacks[0].triggers + rest
  }

  /** One more occurrence of `t`. */
  function Bump(counts: map<string, nat>, t: string): map<string, nat> {
    counts[t := (if t in counts then counts[t] else 0) + 1]
  }

  /**
   * `Dictionary(grouping:)` followed by `mapValues { $0.count }`: each
   * distinct entry mapped to the number of times it occurs.
   */
  function Tally(entries: seq<string>): (counts: map<string, nat>)
    ensures forall t :: t in counts <==> t in entries
    ensures forall t :: t in counts ==> counts[t] >= 1
  {
    if entries == [] then map[]
    else
      assert forall t :: t in entries <==> t == entries[0] || t in entries[1..];
      Bump(Tally(entries[1..]), entries[0])
  }

  /** Each count is the number of occurrences of its entry, repeats included. */
  lemma {:induction false} TallyCounts(entries: seq<string>)
    ensures forall t :: t in Tally(entries) ==> Tally(entries)[t] == multiset(entries)[t]
  {
    if entries != [] {
      TallyCounts(entries[1..]);
      assert entries == [entries[0]] + entries[1..];
    }
  }

  /** The distinct entries, each once (a dictionary's keys in one possible order). */
  function Distinct(entries: seq<string>): (keys: seq<string>)
    ensures forall t :: t in keys <==> t in entries
    ensures forall i, j :: 0 <= i < j < |keys| ==> keys[i] != keys[j]
  {
    if entries == [] then []
    else
      var d := Distinct(entries[1..]);
      assert forall t :: t in entries <==> t == entries[0] || t in entries[1..];
      if entries[0] in entries[1..] then d else [entries[0]] + d
  }

  /** The total of the counts of the given keys. */
  function SumCounts(keys: seq<string>, counts: map<string, nat>): nat
    requires forall k :: k in keys ==> k in counts
  {
    if keys == [] then 0 else counts[keys[0]] + SumCounts(keys[1..], counts)
  }

  /** One more occurrence of `t` adds one to the total exactly when `t` is among the keys. */
  lemma {:induction false} SumCountsBump(keys: seq<string>, counts: map<string, nat>, t: string)
    requires forall k :: k in keys ==> k in counts
    requires forall i, j :: 0 <= i < j < |keys| ==> keys[i] != keys[j]
    ensures SumCounts(keys, Bump(counts, t)) == SumCounts(keys, counts) + (if t in keys then 1 else 0)
  {
    if keys != [] {
      assert forall i, j :: 0 <= i < j < |keys[1..]| ==> keys[1..][i] != keys[1..][j] by {
        forall i, j | 0 <= i < j < |keys[1..]| ensures keys[1..][i] != keys[1..][j] {
          assert keys[1..][i] == keys[i + 1] && keys[1..][j] == keys[j + 1];
        }
      }
      assert forall k :: k in keys[1..] ==> k in keys;
      SumCountsBump(keys[1..], counts, t);
      assert keys[0] == t ==> t !in keys[1..];
    }
  }

  /** The counts of the distinct entries add up to the number of entries. */
  lemma {:induction false} CountsSumToEntries(entries: seq<string>)
    ensures SumCounts(Distinct(entries), Tally(entries)) == |entries|
  {
    if entries != [] {
      CountsSumToEntries(entries[1..]);
      CountStep(entries[0], entries[1..]);
    }
  }

  /** One more entry adds one to the total of the counts. */
  lemma CountStep(t: string, rest: seq<string>)
    ensures SumCounts(Distinct([t] + rest), Tally([t] + rest)) == SumCounts(Distinct(rest), Tally(rest)) + 1
  {
    var e := [t] + rest;
    assert e[1..] == rest && e[0] == t;
    assert Tally(e) == Bump(Tally(e[1..]), e[0]);
    if t in rest {
      assert Distinct(e) == Distinct(rest);
      RepeatStep(t, rest);
    } else {
      assert Distinct(e) == [t] + Distinct(rest);
      NewStep(t, rest);
    }
  }

  /** A repeated entry adds one to its own count. */
  lemma RepeatStep(t: string, rest: seq<string>)
    requires t in rest
    ensures SumCounts(Distinct(rest), Bump(Tally(rest), t)) == SumCounts(Distinct(rest), Tally(rest)) + 1
  {
    SumCountsBump(Distinct(rest), Tally(rest), t);
  }

  /** A new entry adds a key counted once. */
  lemma NewStep(t: string, rest: seq<string>)
    requires t !in rest
    ensures SumCounts([t] + Distinct(rest), Bump(Tally(rest), t)) == SumCounts(Distinct(rest), Tally(rest)) + 1
  {
    var m, d := Tally(rest), Distinct(rest);
    assert ([t] + d)[1..] == d;
    SumCountsBump(d, m, t);
  }

  // ---------------------------------------------------------------------
  // The top triggers

  /** A trigger with its count. */
  function CountOf(p: (string, nat)): int {
    p.1
  }

  /** The dictionary's (trigger, count) pairs, in one of its possible orders. */
  function CountPairs(entries: seq<string>): (pairs: seq<(string, nat)>)
    ensures |pairs| == |Distinct(entries)|
    ensures forall p :: p in pairs <==> p.0 in entries && p.1 == multiset(entries)[p.0]
    ensures forall i, j :: 0 <= i < j < |pairs| ==> pairs[i].0 != pairs[j].0
  {
    var keys, counts := Distinct(entries), Tally(entries);
    TallyCounts(entries);
    var pairs := seq(|keys|, i requires 0 <= i < |keys| => (keys[i], counts[keys[i]]));
    assert forall p :: p in pairs ==> p.0 in keys by {
      forall p | p in pairs ensures p.0 in keys {
        var i :| 0 <= i < |pairs| && pairs[i] == p;
      }
    }
    assert forall t :: t in entries ==> (t, counts[t]) in pairs by {
      forall t | t in entries ensures (t, counts[t]) in pairs {
        var i :| 0 <= i < |keys| && keys[i] == t;
        assert pairs[i] == (t, counts[t]);
      }
    }
    pairs
  }

  /**
   * `counts.sorted { $0.value > $1.value }.prefix(3)` over the entries:
   * up to three distinct entries with their counts, highest count first,
   * and no entry left out occurs more often than one shown.  Ties are
   * broken in no particular order.
   */
  function TopCounts(entries: seq<string>): (top: seq<(string, nat)>)
    ensures |top| == Min(3, |Distinct(entries)|)
    ensures forall p :: p in top ==> p.0 in entries && p.1 == multiset(entries)[p.0] && p.1 >= 1
    ensures forall i, j :: 0 <= i < j < |top| ==> top[i].1 >= top[j].1
    ensures forall i, j :: 0 <= i < j < |top| ==> top[i].0 != top[j].0
    ensures forall t :: t in entries && (forall p :: p in top ==> p.0 != t) ==>
              |top| == 3 && forall p :: p in top ==> multiset(entries)[t] <= p.1
  {
    var pairs := CountPairs(entries);
    var top := TopByKey(pairs, CountOf, 3);
    TopDrawnFromPairs(pairs, top);
    TopLeavesOutLess(entries, pairs, top);
    NoRepeatsInSubMultiset(top, pairs);
    top
  }

  /** Every pair shown is one of the dictionary's pairs, in non-increasing count order. */
  lemma TopDrawnFromPairs(pairs: seq<(string, nat)>, top: seq<(string, nat)>)
    requires top == TopByKey(pairs, CountOf, 3)
    ensures forall p :: p in top ==> p in pairs
    ensures forall i, j :: 0 <= i < j < |top| ==> top[i].1 >= top[j].1
  {
    forall p | p in top ensures p in pairs {
      assert p in multiset(top);
    }
    forall i, j | 0 <= i < j < |top| ensures top[i].1 >= top[j].1 {
      assert CountOf(top[i]) >= CountOf(top[j]);
    }
  }

  /** An entry not shown is only left out when three are shown, none counted less. */
  lemma TopLeavesOutLess(entries: seq<string>, pairs: seq<(string, nat)>, top: seq<(string, nat)>)
    requires pairs == CountPairs(entries) && top == TopByKey(pairs, CountOf, 3)
    ensures forall t :: t in entries && (forall p :: p in top ==> p.0 != t) ==>
              |top| == 3 && forall p :: p in top ==> multiset(entries)[t] <= p.1
  {
    forall t | t in entries && (forall p :: p in top ==> p.0 != t)
      ensures |top| == 3 && forall p :: p in top ==> multiset(entries)[t] <= p.1
    {
      var q := (t, multiset(entries)[t]);
      assert q in pairs && q !in top;
      forall p | p in top ensures multiset(entries)[t] <= p.1 {
        assert CountOf(q) <= CountOf(p);
      }
    }
  }

  /** The insights screen's top triggers, over every trigger entry of every attack. */
  function TopTriggers(attacks: seq<MigraineAttack>): (top: seq<(string, nat)>)
    ensures top == [] <==> forall a :: a in attacks ==> a.triggers == []
    ensures forall p :: p in top ==> exists a :: a in attacks && p.0 in a.triggers
  {
    var entries := AllTriggerEntries(attacks);
    var top := TopCounts(entries);
    assert entries != [] ==> entries[0] in Distinct(entries);
    top
  }

  // ---------------------------------------------------------------------
  // The cards

  /** The insights screen's cards. */
  datatype Card =
    | EmptyCard
    | FrequencyCard(migraineDays: nat, totalAttacks: nat)
    | TriggerCard(top: seq<(string, nat)>)

  /**
   * The empty card alone when nothing is logged; otherwise the frequency
   * card (the app state's migraine days and the number of attacks) and the
   * top-triggers card.
   */
  function Cards(attacks: seq<MigraineAttack>, cutoff: Option<Instant>): (cards: seq<Card>)
    ensures attacks == [] <==> cards == [EmptyCard]
    ensures attacks != [] ==>
              cards == [FrequencyCard(MigraineDays(attacks, cutoff), |attacks|), TriggerCard(TopTriggers(attacks))]
  {
    if attacks == [] then [EmptyCard]
    else [FrequencyCard(MigraineDays(attacks, cutoff), |attacks|), TriggerCard(TopTriggers(attacks))]
  }
}
