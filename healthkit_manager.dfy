/**
 * Reading one day's health context.  The health store's queries are
 * outside the model: each one is represented by its outcome.  The fan-out
 * and join of `fetchDailyContext` is modelled sequentially: the five
 * result callbacks arrive one at a time, in any order, each writing one
 * field and leaving the dispatch group once.
 */
module HealthKit {
  import opened Wrappers
  import opened Time
  import opened Contexts

  // ---------------------------------------------------------------------
  // Sleep: total asleep time in hours

  /** `HKCategoryValueSleepAnalysis`. */
  datatype SleepCategory = InBed | Asleep | Awake | AsleepCore | AsleepDeep | AsleepREM

  /** The four values that count as sleep. */
  predicate IsAsleep(c: SleepCategory) {
    c == Asleep || c == AsleepCore || c == AsleepDeep || c == AsleepREM
  }

  datatype SleepSample = SleepSample(category: SleepCategory, startDate: Instant, endDate: Instant)

  /** What the sleep sample query delivered. */
  datatype SleepQuery =
    | SleepTypeMissing          // `categoryType(forIdentifier: .sleepAnalysis)` returned nil
    | SleepQueryError           // the query reported an error
    | NotCategorySamples        // the samples were not category samples
    | SleepSamples(samples: seq<SleepSample>)

  /** The asleep samples, in query order. */
  function AsleepOnly(samples: seq<SleepSample>): (r: seq<SleepSample>)
    ensures forall x :: x in r <==> x in samples && IsAsleep(x.category)
  {
    if samples == [] then []
    else if IsAsleep(samples[0].category) then [samples[0]] + AsleepOnly(samples[1..])
    else AsleepOnly(samples[1..])
  }

  /** Sum of `endDate.timeIntervalSince(startDate)` in seconds. */
  function TotalSeconds(samples: seq<SleepSample>): int {
    if samples == [] then 0
    else (samples[0].endDate - samples[0].startDate) + TotalSeconds(samples[1..])
  }

  /** Filtering two batches of samples is filtering each. */
  lemma {:induction false} AsleepOnlyAppend(s: seq<SleepSample>, t: seq<SleepSample>)
    ensures AsleepOnly(s + t) == AsleepOnly(s) + AsleepOnly(t)
  {
    if s == [] {
      assert s + t == t;
    } else {
      assert (s + t)[1..] == s[1..] + t;
      AsleepOnlyAppend(s[1..], t);
      if IsAsleep(s[0].category) {
        assert AsleepOnly(s + t) == [s[0]] + (AsleepOnly(s[1..]) + AsleepOnly(t));
      }
    }
  }

  /** The asleep time of two batches of samples adds up. */
  lemma AsleepSecondsAppend(s: seq<SleepSample>, t: seq<SleepSample>)
    ensures TotalSeconds(AsleepOnly(s + t)) == TotalSeconds(AsleepOnly(s)) + TotalSeconds(AsleepOnly(t))
  {
    AsleepOnlyAppend(s, t);
    TotalSecondsAppend(AsleepOnly(s), AsleepOnly(t));
  }

  lemma {:induction false} TotalSecondsAppend(s: seq<SleepSample>, t: seq<SleepSample>)
    ensures TotalSeconds(s + t) == TotalSeconds(s) + TotalSeconds(t)
  {
    if s == [] {
      assert s + t == t;
    } else {
      assert (s + t)[1..] == s[1..] + t;
      TotalSecondsAppend(s[1..], t);
    }
  }

  /**
   * `fetchSleepHours`: hours asleep, absent when the query could not run or
   * failed, or when the asleep samples add up to no time at all.
   */
  function SleepHours(q: SleepQuery): (h: Option<real>)
    ensures !q.SleepSamples? ==> h == None
    ensures q.SleepSamples? ==>
              (h.Some? <==> TotalSeconds(AsleepOnly(q.samples)) > 0)
    ensures h.Some? ==> h.value > 0.0 && h.value * 3600.0 == TotalSeconds(AsleepOnly(q.samples)) as real
  {
    match q
    case SleepSamples(samples) =>
      var seconds := TotalSeconds(AsleepOnly(samples));
      if seconds > 0 then Some(seconds as real / 3600.0) else None
    case _ => None
  }

  /** Samples that are not asleep (in bed, awake) never change the result. */
  lemma NonSleepIgnored(samples: seq<SleepSample>, x: SleepSample)
    requires !IsAsleep(x.category)
    ensures SleepHours(SleepSamples(samples + [x])) == SleepHours(SleepSamples(samples))
  {
    AsleepSecondsAppend(samples, [x]);
    assert AsleepOnly([x]) == [];
  }

  // ---------------------------------------------------------------------
  // Statistics queries: steps, distance, active energy, heart rate

  /** What a statistics query delivered. */
  datatype StatQuery =
    | QuantityTypeMissing       // `quantityType(forIdentifier:)` returned nil
    | StatQueryError            // the query reported an error
    | Statistics(quantity: Option<real>)  // sum or average in the requested unit, absent when no samples

  /** `fetchCumulative` / `fetchAverageHeartRate`: the quantity, absent on any failure. */
  function StatValue(q: StatQuery): (v: Option<real>)
    ensures v.Some? <==> q.Statistics? && q.quantity.Some?
    ensures v.Some? ==> v == q.quantity
  {
    if q.Statistics? then q.quantity else None
  }

  /** `meters.map { $0 / 1000.0 }`. */
  function MetresToKm(metres: Option<real>): (km: Option<real>)
    ensures km.Some? <==> metres.Some?
    ensures km.Some? ==> km.value * 1000.0 == metres.value
  {
    match metres
    case None => None
    case Some(m) => Some(m / 1000.0)
  }

  // ---------------------------------------------------------------------
  // The join

  /** One result callback: the metric it answers and the value it receives. */
  datatype Delivery = Delivery(metric: Metric, value: Option<real>)

  /** The value the callback stores: distance arrives in metres and is kept in kilometres. */
  function Stored(d: Delivery): Option<real> {
    if d.metric == Distance then MetresToKm(d.value) else d.value
  }

  /** The callback's effect on the local context: its own field only. */
  function Apply(c: DailyContext, d: Delivery): DailyContext {
    Set(c, d.metric, Stored(d))
  }

  /** The effect of the callbacks in arrival order. */
  function ApplyAll(c: DailyContext, ds: seq<Delivery>): DailyContext {
    if ds == [] then c else Apply(ApplyAll(c, ds[..|ds| - 1]), ds[|ds| - 1])
  }

  function MetricsOf(ds: seq<Delivery>): set<Metric> {
    set d | d in ds :: d.metric
  }

  /** Each metric answered at most once. */
  predicate DistinctMetrics(ds: seq<Delivery>) {
    forall i, j :: 0 <= i < j < |ds| ==> ds[i].metric != ds[j].metric
  }

  /**
   * After a run of callbacks for distinct metrics, each answered field holds
   * what its callback stored and every other field is as it was.
   */
  lemma {:induction false} ApplyAllFields(c: DailyContext, ds: seq<Delivery>, m: Metric)
    requires DistinctMetrics(ds)
    ensures ApplyAll(c, ds).id == c.id
    ensures forall d :: d in ds && d.metric == m ==> Get(ApplyAll(c, ds), m) == Stored(d)
    ensures m !in MetricsOf(ds) ==> Get(ApplyAll(c, ds), m) == Get(c, m)
  {
    if ds != [] {
      var init, last := ds[..|ds| - 1], ds[|ds| - 1];
      assert ds == init + [last];
      ApplyAllFields(c, init, m);
      forall d | d in ds && d.metric == m ensures Get(ApplyAll(c, ds), m) == Stored(d) {
        if d != last {
          var i :| 0 <= i < |init| && init[i] == d;
          assert ds[i] == d;
          assert last.metric != m;
        }
      }
    }
  }

  /** The joined context does not depend on the order in which the callbacks arrive. */
  lemma ArrivalOrderIrrelevant(c: DailyContext, ds: seq<Delivery>, es: seq<Delivery>)
    requires DistinctMetrics(ds) && DistinctMetrics(es)
    requires multiset(ds) == multiset(es)
    ensures ApplyAll(c, ds) == ApplyAll(c, es)
  {
    assert forall d :: d in ds <==> d in es by {
      forall d ensures d in ds <==> d in es {
        assert d in ds <==> d in multiset(ds);
        assert d in es <==> d in multiset(es);
      }
    }
    assert MetricsOf(ds) == MetricsOf(es);
    forall m ensures Get(ApplyAll(c, ds), m) == Get(ApplyAll(c, es), m) {
      ApplyAllFields(c, ds, m);
      ApplyAllFields(c, es, m);
      if m in MetricsOf(ds) {
        var d :| d in ds && d.metric == m;
      }
    }
    ApplyAllFields(c, ds, Sleep);
    ApplyAllFields(c, es, Sleep);
    SameFieldsSameContext(ApplyAll(c, ds), ApplyAll(c, es));
  }

  /** One more callback: its metric joins the answered ones and its effect comes last. */
  lemma AppendDelivery(c: DailyContext, ds: seq<Delivery>, d: Delivery)
    requires DistinctMetrics(ds) && d.metric !in MetricsOf(ds)
    ensures DistinctMetrics(ds + [d])
    ensures MetricsOf(ds + [d]) == MetricsOf(ds) + {d.metric}
    ensures ApplyAll(c, ds + [d]) == Apply(ApplyAll(c, ds), d)
  {
    var es := ds + [d];
    assert es[..|es| - 1] == ds;
    forall i, j | 0 <= i < j < |es| ensures es[i].metric != es[j].metric {
      if j == |ds| {
        assert es[i] in ds;
      }
    }
  }

  /**
   * A run in which every metric was answered once, each with the value
   * its query produced, yields `FetchedContext`.
   */
  lemma CompleteRunIsFetched(day: Instant, q: QueryOutcomes, ds: seq<Delivery>)
    requires DistinctMetrics(ds) && MetricsOf(ds) == AllMetrics
    requires forall d :: d in ds ==> d.value == Received(q, d.metric)
    ensures ApplyAll(NewContext(StartOfDay(day)), ds) == FetchedContext(day, q)
  {
    var c := ApplyAll(NewContext(StartOfDay(day)), ds);
    forall m ensures Get(c, m) == Get(FetchedContext(day, q), m) {
      ApplyAllFields(NewContext(StartOfDay(day)), ds, m);
      AllMetricsListed();
      var d :| d in ds && d.metric == m;
    }
    ApplyAllFields(NewContext(StartOfDay(day)), ds, Sleep);
    SameFieldsSameContext(c, FetchedContext(day, q));
  }

  /**
   * The bookkeeping of one fetch: the answered metrics and the awaited ones
   * partition the five, the counter is the number awaited, the context holds
   * exactly the answers so far, and the completion has fired once exactly
   * when nothing is awaited.
   */
  ghost predicate JoinInvariant(start: Instant, arrived: seq<Delivery>, outstanding: set<Metric>,
                                pending: nat, ctx: DailyContext, completions: seq<DailyContext>)
  {
    && DistinctMetrics(arrived)
    && (forall m :: m in outstanding <==> m !in MetricsOf(arrived))
    && pending == |outstanding|
    && ctx == ApplyAll(NewContext(start), arrived)
    && completions == (if pending == 0 then [ctx] else [])
  }

  /** A callback for an awaited metric keeps the bookkeeping consistent. */
  lemma JoinStep(start: Instant, arrived: seq<Delivery>, outstanding: set<Metric>,
                 pending: nat, ctx: DailyContext, completions: seq<DailyContext>, d: Delivery)
    requires JoinInvariant(start, arrived, outstanding, pending, ctx, completions)
    requires d.metric in outstanding
    ensures pending > 0 && completions == []
    ensures JoinInvariant(start, arrived + [d], outstanding - {d.metric}, pending - 1, Apply(ctx, d),
                          if pending == 1 then [Apply(ctx, d)] else [])
  {
    AppendDelivery(NewContext(start), arrived, d);
    assert |outstanding - {d.metric}| == |outstanding| - 1;
  }

  /**
   * The local state of one `fetchDailyContext` call: the context being
   * filled in, the dispatch group's counter, the metrics still awaited, and
   * the values handed to `completion` so far.
   */
  class DailyContextFetch {
    const start: Instant
    const end: Instant
    var ctx: DailyContext
    var pending: nat
    var outstanding: set<Metric>
    var completions: seq<DailyContext>
    ghost var arrived: seq<Delivery>

    ghost predicate Valid()
      reads this
    {
      && end == start + Day && start % Day == 0
      && JoinInvariant(start, arrived, outstanding, pending, ctx, completions)
    }

    /** The window is [start of day, start of next day); all five queries are entered. */
    constructor (day: Instant)
      ensures Valid()
      ensures start == StartOfDay(day) && start <= day < end
      ensures ctx == NewContext(start)
      ensures pending == 5 && outstanding == AllMetrics && arrived == [] && completions == []
    {
      start := StartOfDay(day);
      end := StartOfDay(day) + Day;
      ctx := NewContext(StartOfDay(day));
      pending := 5;
      outstanding := AllMetrics;
      completions := [];
      arrived := [];
      AllMetricsListed();
    }

    /**
     * One callback: store its value in its own field and leave the group;
     * when the counter reaches zero the completion fires with the context.
     */
    method Deliver(m: Metric, v: Option<real>)
      requires Valid() && m in outstanding
      modifies this`ctx, this`pending, this`outstanding, this`completions, this`arrived
      ensures Valid()
      ensures arrived == old(arrived) + [Delivery(m, v)]
      ensures ctx == Apply(old(ctx), Delivery(m, v))
      ensures outstanding == old(outstanding) - {m}
      ensures pending == old(pending) - 1
      ensures old(completions) == []
    {
      var d := Delivery(m, v);
      JoinStep(start, arrived, outstanding, pending, ctx, completions, d);
      ctx := Apply(ctx, d);
      arrived := arrived + [d];
      outstanding := outstanding - {m};
      pending := pending - 1;
      if pending == 0 {
        completions := [ctx];
      }
    }
  }

  /** The five query outcomes of one day. */
  datatype QueryOutcomes = QueryOutcomes(
    sleep: SleepQuery, steps: StatQuery, distance: StatQuery, energy: StatQuery, heartRate: StatQuery)

  /** The value each result callback receives (distance still in metres). */
  function Received(q: QueryOutcomes, m: Metric): Option<real> {
    match m
    case Sleep => SleepHours(q.sleep)
    case Steps => StatValue(q.steps)
    case Distance => StatValue(q.distance)
    case ActiveEnergy => StatValue(q.energy)
    case HeartRate => StatValue(q.heartRate)
  }

  /**
   * The context `fetchDailyContext` completes with: identified by the start
   * of the day, every metric present exactly when its own query succeeded
   * with data, distance in kilometres.
   */
  function FetchedContext(day: Instant, q: QueryOutcomes): (c: DailyContext)
    ensures c.id == StartOfDay(day)
    ensures forall m :: m != Distance ==> Get(c, m) == Received(q, m)
    ensures Get(c, Distance) == MetresToKm(Received(q, Distance))
  {
    DailyContext(StartOfDay(day), SleepHours(q.sleep), StatValue(q.steps),
                 MetresToKm(StatValue(q.distance)), StatValue(q.energy), StatValue(q.heartRate))
  }

  /**
   * `fetchDailyContext` run with the callbacks arriving in `order`: the
   * completion fires once, after the last one, with `FetchedContext`
   * whatever the order.
   */
  method FetchDailyContext(day: Instant, q: QueryOutcomes, order: seq<Metric>) returns (ctx: DailyContext)
    requires |order| == 5 && forall i, j :: 0 <= i < j < 5 ==> order[i] != order[j]
    ensures ctx == FetchedContext(day, q)
  {
    var fetch := new DailyContextFetch(day);
    AllMetricsListed();
    var i := 0;
    while i < 5
      invariant 0 <= i <= 5
      invariant fetch.Valid() && fetch.start == StartOfDay(day)
      invariant forall d :: d in fetch.arrived ==> d.value == Received(q, d.metric)
      invariant forall k :: i <= k < 5 ==> order[k] in fetch.outstanding
      invariant fetch.pending == 5 - i
    {
      fetch.Deliver(order[i], Received(q, order[i]));
      i := i + 1;
    }
    assert fetch.outstanding == {};
    CompleteRunIsFetched(day, q, fetch.arrived);
    ctx := fetch.completions[0];
  }

  /** The shared manager's authorization flag. */
  class HealthKitManager {
    var isAuthorized: bool

    constructor ()
      ensures !isAuthorized
    {
      isAuthorized := false;
    }

    /**
     * `requestAuthorization`: without health data the request is refused
     * and the flag is left alone; otherwise the flag becomes the store's
     * answer, which is also what is reported.
     */
    method RequestAuthorization(healthDataAvailable: bool, granted: bool) returns (reported: bool)
      modifies this`isAuthorized
      ensures !healthDataAvailable ==> !reported && isAuthorized == old(isAuthorized)
      ensures healthDataAvailable ==> reported == granted && isAuthorized == granted
    {
      if !healthDataAvailable {
        return false;
      }
      isAuthorized := granted;
      reported := granted;
    }
  }
}
