/** The health dashboard: the per-status tally of the catalogue (`healthStats`), the overall
    health percentage and the overall status colour. */
module Health {
  import opened Basics
  import opened Services

  /** `HealthStatus`. */
  datatype Tally = Tally(operational: nat, degraded: nat, outage: nat, total: nat)

  /** `service.status || "operational"`: a null or empty status counts as operational. */
  function StatusOf(service: AwsService): (status: string)
    ensures service.status.None? || service.status.value == "" ==> status == "operational"
    ensures service.status.Some? && service.status.value != "" ==> status == service.status.value
  {
    if service.status.None? || service.status.value == "" then "operational" else service.status.value
  }

  /** One step of the reduce: `stats[status]++` then `stats.total++`. A status other than the three
      counters adds a property the tally does not read; the status "total" bumps `total` twice. */
  function Step(stats: Tally, service: AwsService): Tally
  {
    var status := StatusOf(service);
    var bumped :=
      if status == "operational" then stats.(operational := stats.operational + 1)
      else if status == "degraded" then stats.(degraded := stats.degraded + 1)
      else if status == "outage" then stats.(outage := stats.outage + 1)
      else if status == "total" then stats.(total := stats.total + 1)
      else stats;
    bumped.(total := bumped.total + 1)
  }

  /** The reduce from a given starting tally: `services.reduce(step, stats)`. */
  function TallyFrom(stats: Tally, services: seq<AwsService>): Tally
    decreases |services|
  {
    if services == [] then stats else TallyFrom(Step(stats, services[0]), services[1..])
  }

  /** The tally of the catalogue, starting from all zeros. */
  function TallyOf(services: seq<AwsService>): Tally
  {
    TallyFrom(Tally(0, 0, 0, 0), services)
  }

  /** `healthStats`. */
  method HealthStats(services: seq<AwsService>) returns (stats: Tally)
    ensures stats == TallyOf(services)
  {
    stats := Tally(0, 0, 0, 0);
    for i := 0 to |services|
      invariant TallyFrom(stats, services[i..]) == TallyOf(services)
    {
      assert services[i..][1..] == services[i + 1..];
      var status := StatusOf(services[i]);
      if status == "operational" {
        stats := stats.(operational := stats.operational + 1);
      } else if status == "degraded" {
        stats := stats.(degraded := stats.degraded + 1);
      } else if status == "outage" {
        stats := stats.(outage := stats.outage + 1);
      } else if status == "total" {
        stats := stats.(total := stats.total + 1);
      }
      stats := stats.(total := stats.total + 1);
    }
  }

  predicate HasStatus(service: AwsService, status: string)
  {
    StatusOf(service) == status
  }

  predicate IsOperational(service: AwsService) { HasStatus(service, "operational") }
  predicate IsDegraded(service: AwsService) { HasStatus(service, "degraded") }
  predicate IsOutage(service: AwsService) { HasStatus(service, "outage") }
  /** A status spelled like the tally's own `total` counter. */
  predicate IsTotalStatus(service: AwsService) { HasStatus(service, "total") }

  /** Each counter grows by the number of services with that status (null and "" counting as
      operational), and `total` by the number of services plus one per service whose status is
      the string "total". */
  lemma {:induction false} TallyFromCounts(stats: Tally, services: seq<AwsService>)
    ensures TallyFrom(stats, services).operational ==
            stats.operational + Count(services, IsOperational)
    ensures TallyFrom(stats, services).degraded ==
            stats.degraded + Count(services, IsDegraded)
    ensures TallyFrom(stats, services).outage ==
            stats.outage + Count(services, IsOutage)
    ensures TallyFrom(stats, services).total ==
            stats.total + |services| + Count(services, IsTotalStatus)
    decreases |services|
  {
    if services != [] {
      TallyFromCounts(Step(stats, services[0]), services[1..]);
    }
  }

  /** The tally of a catalogue counts each status, and `total` counts every service once more
      for each status that is the string "total". */
  lemma TallyCounts(services: seq<AwsService>)
    ensures TallyOf(services).operational == Count(services, IsOperational)
    ensures TallyOf(services).degraded == Count(services, IsDegraded)
    ensures TallyOf(services).outage == Count(services, IsOutage)
    ensures TallyOf(services).total == |services| + Count(services, IsTotalStatus)
  {
    TallyFromCounts(Tally(0, 0, 0, 0), services);
  }

  /** The status a well-formed catalogue uses. */
  predicate KnownStatus(service: AwsService)
  {
    IsOperational(service) || IsDegraded(service) || IsOutage(service)
  }

  /** `total` counts every service once unless some status is the string "total"; when every
      status is one of the three known ones, the three counters add up to `total`. */
  lemma TallyTotals(services: seq<AwsService>)
    ensures (forall s :: s in services ==> !IsTotalStatus(s)) ==> TallyOf(services).total == |services|
    ensures (forall s :: s in services ==> KnownStatus(s)) ==>
              TallyOf(services).operational + TallyOf(services).degraded + TallyOf(services).outage ==
              TallyOf(services).total
    ensures TallyOf(services).operational + TallyOf(services).degraded + TallyOf(services).outage <=
            TallyOf(services).total
  {
    TallyCounts(services);
    CountsPartition(services);
    CountPositive(services, IsTotalStatus);
  }

  /** A service has at most one of the three known statuses. */
  lemma StatusesExclusive(service: AwsService)
    ensures (if IsOperational(service) then 1 else 0) + (if IsDegraded(service) then 1 else 0) +
            (if IsOutage(service) then 1 else 0) == (if KnownStatus(service) then 1 else 0)
    ensures KnownStatus(service) ==> !IsTotalStatus(service)
  {
    var status := StatusOf(service);
    assert |"operational"| == 11 && |"degraded"| == 8 && |"outage"| == 6 && |"total"| == 5;
  }

  /** The three counters never count a service twice, and when all statuses are known they count
      every service and no status reads "total". */
  lemma {:induction false} CountsPartition(services: seq<AwsService>)
    ensures Count(services, IsOperational) + Count(services, IsDegraded) + Count(services, IsOutage) ==
            Count(services, KnownStatus)
    ensures (forall s :: s in services ==> KnownStatus(s)) ==>
              Count(services, KnownStatus) == |services| && Count(services, IsTotalStatus) == 0
  {
    if services != [] {
      CountsPartition(services[1..]);
      StatusesExclusive(services[0]);
      assert forall s :: s in services[1..] ==> s in services;
    }
  }

  /** `overallHealthPercentage`: 100 for an empty catalogue, otherwise the operational share of the
      total in percent, rounded half up, computed exactly. */
  function HealthPercentage(stats: Tally): (percent: nat)
    ensures stats.total == 0 ==> percent == 100
    ensures stats.total > 0 ==>
              2 * stats.total * percent <= 200 * stats.operational + stats.total < 2 * stats.total * (percent + 1)
  {
    if stats.total > 0 then (200 * stats.operational + stats.total) / (2 * stats.total) else 100
  }

  /** For any tally (where `operational <= total`, as `TallyTotals` shows for every catalogue)
      the percentage is at most 100; it is 100 when all are operational and 0 when none is. */
  lemma PercentageBounds(stats: Tally)
    requires stats.operational <= stats.total
    ensures HealthPercentage(stats) <= 100
    ensures stats.total > 0 && stats.operational == stats.total ==> HealthPercentage(stats) == 100
    ensures stats.total > 0 && stats.operational == 0 ==> HealthPercentage(stats) == 0
  {
    var t, o := stats.total, stats.operational;
    if t > 0 {
      DivBelow(200 * o + t, 2 * t, 101);
      if o == t {
        assert 200 * o + t == 2 * t * 100 + t;
        DivBetween(200 * o + t, 2 * t, 100);
      }
      if o == 0 {
        DivBelow(200 * o + t, 2 * t, 1);
      }
    }
  }

  lemma DivBelow(x: nat, d: nat, k: nat)
    requires d > 0 && x < d * k
    ensures x / d < k
  {
    if x / d >= k {
      MulAtLeast(d, x / d, k);
    }
  }

  lemma DivBetween(x: nat, d: nat, k: nat)
    requires d > 0 && d * k <= x < d * (k + 1)
    ensures x / d == k
  {
    DivBelow(x, d, k + 1);
    if x / d < k {
      MulAtLeast(d, k, x / d + 1);
    }
  }

  lemma MulAtLeast(d: nat, a: nat, b: nat)
    requires a >= b
    ensures d * a >= d * b
  {
  }

  datatype StatusColor = RedStatus | YellowStatus | GreenStatus

  /** `getOverallStatusColor`. */
  function OverallStatusColor(stats: Tally): StatusColor
  {
    if stats.outage > 0 then RedStatus
    else if stats.degraded > 0 then YellowStatus
    else GreenStatus
  }

  /** Red when some service has an outage, otherwise yellow when some service is degraded,
      otherwise green. */
  lemma StatusColorOfCatalogue(services: seq<AwsService>)
    ensures OverallStatusColor(TallyOf(services)) == RedStatus <==>
              exists s :: s in services && IsOutage(s)
    ensures OverallStatusColor(TallyOf(services)) == YellowStatus <==>
              (forall s :: s in services ==> !IsOutage(s)) &&
              (exists s :: s in services && IsDegraded(s))
  {
    TallyCounts(services);
    CountPositive(services, IsOutage);
    CountPositive(services, IsDegraded);
  }
}
