/**
 * The per-day health snapshot.  Its identity is its day key; the five
 * metrics are independent optional values, absent when the corresponding
 * health query failed or found nothing.
 */
module Contexts {
  import opened Wrappers
  import opened Time

  /** `DailyContext`; the constructor is its memberwise `init`. */
  datatype DailyContext = DailyContext(
    id: Instant,
    sleepHours: Option<real>,
    steps: Option<real>,
    distanceKm: Option<real>,
    activeEnergyKcal: Option<real>,
    avgHeartRateBpm: Option<real>)

  /** The five metrics a context records. */
  datatype Metric = Sleep | Steps | Distance | ActiveEnergy | HeartRate

  const AllMetrics: set<Metric> := {Sleep, Steps, Distance, ActiveEnergy, HeartRate}

  lemma AllMetricsListed()
    ensures forall m :: m in AllMetrics
    ensures |AllMetrics| == 5
  {
    forall m ensures m in AllMetrics {
      match m
      case Sleep =>
      case Steps =>
      case Distance =>
      case ActiveEnergy =>
      case HeartRate =>
    }
  }

  /** The field that records metric `m`. */
  function Get(c: DailyContext, m: Metric): Option<real> {
    match m
    case Sleep => c.sleepHours
    case Steps => c.steps
    case Distance => c.distanceKm
    case ActiveEnergy => c.activeEnergyKcal
    case HeartRate => c.avgHeartRateBpm
  }

  /** Assignment to the field of metric `m`: the identity and the other four fields stay. */
  function Set(c: DailyContext, m: Metric, v: Option<real>): (r: DailyContext)
    ensures r.id == c.id
    ensures Get(r, m) == v
    ensures forall m' :: m' != m ==> Get(r, m') == Get(c, m')
  {
    match m
    case Sleep => c.(sleepHours := v)
    case Steps => c.(steps := v)
    case Distance => c.(distanceKm := v)
    case ActiveEnergy => c.(activeEnergyKcal := v)
    case HeartRate => c.(avgHeartRateBpm := v)
  }

  /** `DailyContext(day:)`: identified by `day`, every metric at its default, absent. */
  function NewContext(day: Instant): (c: DailyContext)
    ensures c.id == day
    ensures forall m :: Get(c, m) == None
  {
    DailyContext(day, None, None, None, None, None)
  }

  /** A context is nothing but its day and its five fields. */
  lemma {:induction false} SameFieldsSameContext(c: DailyContext, d: DailyContext)
    requires c.id == d.id
    requires forall m :: Get(c, m) == Get(d, m)
    ensures c == d
  {
    assert Get(c, Sleep) == Get(d, Sleep);
    assert Get(c, Steps) == Get(d, Steps);
    assert Get(c, Distance) == Get(d, Distance);
    assert Get(c, ActiveEnergy) == Get(d, ActiveEnergy);
    assert Get(c, HeartRate) == Get(d, HeartRate);
  }
}
