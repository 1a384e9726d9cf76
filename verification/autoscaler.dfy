/** The database autoscaler (internal/controller/dbautoscaler.go): what one tick
    decides, and what any number of ticks do. Times are in seconds. */
module Autoscaler {
  import opened Basics

  const ScaleUpPct := 70
  const ScaleDownPct := 30
  const Cooldown := 60

  /** CPU requests in millicores (internal/instance/instance.go); an unknown size
      counts as small. */
  function CpuRequest(size: string): (r: nat)
    ensures 50 <= r
  {
    if size == "medium" then 250
    else if size == "large" then 500
    else if size == "xlarge" then 1000
    else if size == "2xlarge" then 2000
    else 50
  }

  function Sum(xs: seq<nat>): nat {
    if xs == [] then 0 else Sum(xs[..|xs| - 1]) + xs[|xs| - 1]
  }

  /** Average CPU in percent of the request, with the two roundings of the code. */
  function Utilization(total: nat, pods: nat, request: nat): nat
    requires pods > 0 && request > 0
  {
    total / pods * 100 / request
  }

  datatype Limits = Limits(min: int, max: int, request: nat)

  predicate ValidLimits(l: Limits) {
    1 <= l.min <= l.max && 50 <= l.request
  }

  function Decide(util: int, instances: int, min: int, max: int): int {
    if util > ScaleUpPct && instances < max then instances + 1
    else if util < ScaleDownPct && instances > min then instances - 1
    else instances
  }

  /** One database: the persisted count, the count last provisioned, and when a
      change was last marked. */
  datatype Scaler = Scaler(instances: int, running: int, last: Option<int>)

  /** What one tick meets: metrics or none, and how its two calls end. The clock is
      read at the check, when the row is written, and when the change is marked. */
  datatype Tick = Tick(metrics: Option<seq<nat>>, checked: int, provision: Reply, persist: Reply,
                       written: int, marked: int)

  predicate Elapsed(last: Option<int>, now: int) {
    last == None || now - last.value >= Cooldown
  }

  /** The count the tick tries to reach; the current one when it does nothing. */
  function Target(l: Limits, s: Scaler, t: Tick): int {
    if t.metrics == None || t.metrics.value == [] || l.request == 0 || !Elapsed(s.last, t.checked) then s.instances
    else Decide(Utilization(Sum(t.metrics.value), |t.metrics.value|, l.request), s.instances, l.min, l.max)
  }

  function Step(l: Limits, s: Scaler, t: Tick): Scaler {
    var desired := Target(l, s, t);
    if desired == s.instances || t.provision.Error? then s
    else if t.provision.LostReply? || t.persist.Error? then s.(running := desired)
    else if t.persist.LostReply? then s.(instances := desired, running := desired)
    else Scaler(desired, desired, Some(t.marked))
  }

  function Run(l: Limits, s: Scaler, ticks: seq<Tick>): Scaler {
    if ticks == [] then s else Step(l, Run(l, s, ticks[..|ticks| - 1]), ticks[|ticks| - 1])
  }

  // ------------------------------------------------------ one tick in numbers

  /** The size table's CPU requests in millicores; every other name counts as small. */
  lemma RequestTable(size: string)
    ensures CpuRequest("small") == 50 && CpuRequest("medium") == 250 && CpuRequest("large") == 500
    ensures CpuRequest("xlarge") == 1000 && CpuRequest("2xlarge") == 2000
    ensures size != "medium" && size != "large" && size != "xlarge" && size != "2xlarge" ==> CpuRequest(size) == 50
  {
  }

  /** The total is that of all instances, in any grouping. */
  lemma {:induction false} SumOfParts(xs: seq<nat>, ys: seq<nat>)
    ensures Sum(xs + ys) == Sum(xs) + Sum(ys) && Sum([]) == 0 && forall x :: Sum([x]) == x
  {
    forall x: nat ensures Sum([x]) == x { assert [x][..0] == []; }
    if ys == [] {
      assert xs + ys == xs;
    } else {
      SumOfParts(xs, ys[..|ys| - 1]);
      assert (xs + ys)[..|xs + ys| - 1] == xs + ys[..|ys| - 1];
    }
  }

  /** A tick with metrics whose calls succeed adds an instance above 70% of the request,
      below the maximum, and takes one below 30%, above the minimum, unless the last change
      it knows of is less than 60 seconds old; otherwise it changes nothing at all. */
  lemma TickInNumbers(l: Limits, s: Scaler, t: Tick)
    requires l.request > 0 && t.metrics.Some? && t.metrics.value != [] && t.provision.Ok? && t.persist.Ok?
    ensures
      var percent := Sum(t.metrics.value) / |t.metrics.value| * 100 / l.request;
      var ready := s.last == None || t.checked - s.last.value >= 60;
      Step(l, s, t) ==
        if ready && percent > 70 && s.instances < l.max then Scaler(s.instances + 1, s.instances + 1, Some(t.marked))
        else if ready && percent < 30 && s.instances > l.min then Scaler(s.instances - 1, s.instances - 1, Some(t.marked))
        else s
  {
  }

  /** Without metrics nothing changes; after a provision that reported an error neither the
      count nor the mark does; after a persist that did, the mark does not. */
  lemma TickThatFails(l: Limits, s: Scaler, t: Tick)
    ensures t.metrics == None || t.metrics.value == [] ==> Step(l, s, t) == s
    ensures t.provision.Error? ==> Step(l, s, t) == s
    ensures !t.provision.Ok? ==> Step(l, s, t).instances == s.instances && Step(l, s, t).last == s.last
    ensures !t.persist.Ok? ==> Step(l, s, t).last == s.last
    ensures t.persist.Error? ==> Step(l, s, t).instances == s.instances
  {
  }

  // ------------------------------------------------------------- no flapping

  /** A constant load: every provisioned instance reports, and together they always
      use the same CPU; or no metrics are available. */
  predicate Steady(s: Scaler, t: Tick, total: nat) {
    t.metrics.Some? && t.metrics.value != [] ==> |t.metrics.value| == s.running && Sum(t.metrics.value) == total
  }

  predicate SteadyRun(l: Limits, s: Scaler, ticks: seq<Tick>, total: nat) {
    forall i :: 0 <= i < |ticks| ==> Steady(Run(l, s, ticks[..i]), ticks[i], total)
  }

  /** The direction the i-th tick of a run tries to move in. */
  function Move(l: Limits, s: Scaler, ticks: seq<Tick>, i: nat): int
    requires i < |ticks|
  {
    Target(l, Run(l, s, ticks[..i]), ticks[i]) - Run(l, s, ticks[..i]).instances
  }

  lemma MulMono(k: nat, x: int, y: int)
    ensures x >= y ==> k * x >= k * y
  {
    assert k * x - k * y == k * (x - y);
  }

  lemma HalvesBound(total: int, n: int, a: int, b: int)
    requires n >= 1 && b >= 0 && n * a <= total < (n + 1) * (b + 1)
    ensures a < 2 * b + 2
  {
    MulMono(n, a, 2 * b + 2);
    MulMono(b + 1, 2 * n, n + 1);
    assert n * (2 * b + 2) == (b + 1) * (2 * n);
    assert (b + 1) * (n + 1) == (n + 1) * (b + 1);
  }

  lemma AverageHalves(total: nat, n: nat)
    requires n >= 1
    ensures total / n <= 2 * (total / (n + 1)) + 1
  {
    HalvesBound(total, n, total / n, total / (n + 1));
  }

  lemma PercentOf(avg: nat, request: nat, pct: nat)
    requires request > 0
    ensures avg * 100 / request >= pct <==> avg * 100 >= pct * request
  {
    var q := avg * 100 / request;
    assert avg * 100 == q * request + avg * 100 % request;
    if q >= pct {
      assert q * request >= pct * request;
    } else {
      assert (q + 1) * request <= pct * request;
    }
  }

  /** One more instance never takes a load from above 70% to below 30%, and one
      fewer never from below 30% to above 70%, roundings included. */
  lemma OneStepKeepsBetween(total: nat, n: nat, request: nat)
    requires n >= 1 && request >= 50
    ensures Utilization(total, n, request) > ScaleUpPct ==> Utilization(total, n + 1, request) >= ScaleDownPct
    ensures Utilization(total, n + 1, request) < ScaleDownPct ==> Utilization(total, n, request) <= ScaleUpPct
  {
    AverageHalves(total, n);
    PercentOf(total / n, request, ScaleUpPct + 1);
    PercentOf(total / (n + 1), request, ScaleDownPct);
  }

  /** Once a tick tried to scale up, the load leaves no later tick a reason to scale
      down, and the other way round. */
  predicate Rising(l: Limits, s: Scaler, total: nat)
    requires l.request > 0
  {
    && s.running >= 1 && (s.running == s.instances || s.running == s.instances + 1)
    && Utilization(total, s.running, l.request) >= ScaleDownPct
  }

  predicate Falling(l: Limits, s: Scaler, total: nat)
    requires l.request > 0
  {
    && s.running >= 1 && (s.running == s.instances || s.running == s.instances - 1)
    && Utilization(total, s.running, l.request) <= ScaleUpPct
  }

  lemma TickRises(l: Limits, s: Scaler, t: Tick, total: nat)
    requires ValidLimits(l) && Steady(s, t, total) && Rising(l, s, total)
    ensures Target(l, s, t) >= s.instances && Rising(l, Step(l, s, t), total)
  {
    if Target(l, s, t) > s.instances && s.running == s.instances {
      OneStepKeepsBetween(total, s.running, l.request);
    }
  }

  lemma TickFalls(l: Limits, s: Scaler, t: Tick, total: nat)
    requires ValidLimits(l) && Steady(s, t, total) && Falling(l, s, total)
    ensures Target(l, s, t) <= s.instances && Falling(l, Step(l, s, t), total)
  {
    if Target(l, s, t) < s.instances && s.running == s.instances {
      OneStepKeepsBetween(total, s.running - 1, l.request);
    }
  }

  /** The first tick that tries to move decides the direction for good. */
  predicate InStep(s: Scaler) {
    s.instances >= 1 && s.running == s.instances
  }

  lemma FirstMove(l: Limits, s: Scaler, t: Tick, total: nat)
    requires ValidLimits(l) && InStep(s) && Steady(s, t, total)
    ensures Target(l, s, t) == s.instances ==> Step(l, s, t) == s
    ensures Target(l, s, t) > s.instances ==> Rising(l, Step(l, s, t), total)
    ensures Target(l, s, t) < s.instances ==> Falling(l, Step(l, s, t), total)
  {
    if Target(l, s, t) > s.instances {
      OneStepKeepsBetween(total, s.running, l.request);
    } else if Target(l, s, t) < s.instances {
      OneStepKeepsBetween(total, s.running - 1, l.request);
    }
  }

  predicate NoMoveBefore(l: Limits, s: Scaler, ticks: seq<Tick>, n: nat)
    requires n <= |ticks|
  {
    forall i :: 0 <= i < n ==> Move(l, s, ticks, i) == 0
  }

  predicate NeverDown(l: Limits, s: Scaler, ticks: seq<Tick>, n: nat)
    requires n <= |ticks|
  {
    forall i :: 0 <= i < n ==> Move(l, s, ticks, i) >= 0
  }

  predicate NeverUp(l: Limits, s: Scaler, ticks: seq<Tick>, n: nat)
    requires n <= |ticks|
  {
    forall i :: 0 <= i < n ==> Move(l, s, ticks, i) <= 0
  }

  lemma OneMoreMove(l: Limits, s: Scaler, ticks: seq<Tick>, n: nat)
    requires 0 < n <= |ticks|
    ensures var before, m := n - 1, Move(l, s, ticks, n - 1);
      && (NoMoveBefore(l, s, ticks, before) && m == 0 ==> NoMoveBefore(l, s, ticks, n))
      && ((NoMoveBefore(l, s, ticks, before) || NeverDown(l, s, ticks, before)) && m >= 0 ==> NeverDown(l, s, ticks, n))
      && ((NoMoveBefore(l, s, ticks, before) || NeverUp(l, s, ticks, before)) && m <= 0 ==> NeverUp(l, s, ticks, n))
  {
    hide Move;
  }

  /** Where a steady run from a database in step can be after n ticks. */
  lemma {:induction false} SteadyRunPhases(l: Limits, s: Scaler, ticks: seq<Tick>, total: nat, n: nat)
    requires ValidLimits(l) && InStep(s) && SteadyRun(l, s, ticks, total) && n <= |ticks|
    ensures
      || (NoMoveBefore(l, s, ticks, n) && Run(l, s, ticks[..n]) == s)
      || (Rising(l, Run(l, s, ticks[..n]), total) && NeverDown(l, s, ticks, n))
      || (Falling(l, Run(l, s, ticks[..n]), total) && NeverUp(l, s, ticks, n))
  {
    if n > 0 {
      SteadyRunPhases(l, s, ticks, total, n - 1);
      OneMoreMove(l, s, ticks, n);
      assert ticks[..n][..n - 1] == ticks[..n - 1];
      var before, t := Run(l, s, ticks[..n - 1]), ticks[n - 1];
      assert Steady(before, t, total);
      hide Rising, Falling, Steady, SteadyRun, Target, Step, InStep, NoMoveBefore, NeverDown, NeverUp;
      if NoMoveBefore(l, s, ticks, n - 1) && before == s {
        FirstMove(l, s, t, total);
      } else if Rising(l, before, total) && NeverDown(l, s, ticks, n - 1) {
        TickRises(l, before, t, total);
      } else {
        TickFalls(l, before, t, total);
      }
    }
  }

  /** No flapping: under a constant load no run, however long and whatever calls
      fail on the way, tries to scale down after it tried to scale up, or up after
      down. It holds for every request in the size table. */
  lemma NoFlapping(l: Limits, s: Scaler, ticks: seq<Tick>, total: nat, i: nat, j: nat)
    requires ValidLimits(l) && InStep(s) && SteadyRun(l, s, ticks, total)
    requires i < |ticks| && j < |ticks|
    ensures Move(l, s, ticks, i) > 0 ==> Move(l, s, ticks, j) >= 0
  {
    assert ticks[..|ticks|] == ticks;
    SteadyRunPhases(l, s, ticks, total, |ticks|);
  }

  // ----------------------------------------------- settling under a steady load

  /** How many ticks of a run changed the persisted count. */
  function Changes(l: Limits, s: Scaler, ticks: seq<Tick>): nat {
    if ticks == [] then 0
    else
      var front := ticks[..|ticks| - 1];
      Changes(l, s, front) + if Run(l, s, ticks).instances != Run(l, s, front).instances then 1 else 0
  }

  function Abs(x: int): nat { if x < 0 then -x else x }

  /** Where a steady run that started at s0 can be. */
  predicate Underway(l: Limits, s0: Scaler, s: Scaler, total: nat)
    requires l.request > 0
  {
    || s == s0
    || (Rising(l, s, total) && s0.instances <= s.instances)
    || (Falling(l, s, total) && s.instances <= s0.instances)
  }

  lemma UnderwayStep(l: Limits, s0: Scaler, s: Scaler, t: Tick, total: nat)
    requires ValidLimits(l) && InStep(s0) && Underway(l, s0, s, total) && Steady(s, t, total)
    ensures Underway(l, s0, Step(l, s, t), total)
    ensures Abs(Step(l, s, t).instances - s0.instances) ==
      Abs(s.instances - s0.instances) + if Step(l, s, t).instances != s.instances then 1 else 0
    ensures l.min <= s.instances <= l.max ==> l.min <= Step(l, s, t).instances <= l.max
  {
    if s == s0 {
      FirstMove(l, s, t, total);
    } else if Rising(l, s, total) && s0.instances <= s.instances {
      TickRises(l, s, t, total);
    } else {
      TickFalls(l, s, t, total);
    }
  }

  lemma FrontIsSteady(l: Limits, s: Scaler, ticks: seq<Tick>, total: nat)
    requires ticks != [] && SteadyRun(l, s, ticks, total)
    ensures var front := ticks[..|ticks| - 1];
      SteadyRun(l, s, front, total) && Steady(Run(l, s, front), ticks[|ticks| - 1], total)
  {
    hide Run, Steady;
    var front := ticks[..|ticks| - 1];
    assert forall i :: 0 <= i < |front| ==> front[..i] == ticks[..i];
  }

  /** Under a constant load the persisted count moves in one direction, one at a
      time, so every change is part of the distance travelled. */
  lemma {:induction false} ChangesAreDistance(l: Limits, s: Scaler, ticks: seq<Tick>, total: nat)
    requires ValidLimits(l) && InStep(s) && SteadyRun(l, s, ticks, total)
    ensures Underway(l, s, Run(l, s, ticks), total)
    ensures Changes(l, s, ticks) == Abs(Run(l, s, ticks).instances - s.instances)
    ensures l.min <= s.instances <= l.max ==> l.min <= Run(l, s, ticks).instances <= l.max
  {
    if ticks != [] {
      var front, t := ticks[..|ticks| - 1], ticks[|ticks| - 1];
      FrontIsSteady(l, s, ticks, total);
      hide Rising, Falling, Steady, SteadyRun, Step, InStep;
      ChangesAreDistance(l, s, front, total);
      hide Underway;
      UnderwayStep(l, s, Run(l, s, front), t, total);
    }
  }

  /** From inside its bounds a database under a constant load changes at most
      max - min times, however long it runs. */
  lemma BoundedChanges(l: Limits, s: Scaler, ticks: seq<Tick>, total: nat)
    requires ValidLimits(l) && InStep(s) && SteadyRun(l, s, ticks, total) && l.min <= s.instances <= l.max
    ensures Changes(l, s, ticks) <= l.max - l.min
  {
    ChangesAreDistance(l, s, ticks, total);
  }

  /** A tick with metrics whose cooldown has passed and whose calls succeed. */
  predicate Effective(s: Scaler, t: Tick) {
    t.metrics.Some? && t.metrics.value != [] && Elapsed(s.last, t.checked) && t.provision.Ok? && t.persist.Ok?
  }

  function EffectiveTicks(l: Limits, s: Scaler, ticks: seq<Tick>): nat {
    if ticks == [] then 0
    else
      var front := ticks[..|ticks| - 1];
      EffectiveTicks(l, s, front) + if Effective(Run(l, s, front), ticks[|ticks| - 1]) then 1 else 0
  }

  /** The load gives no tick a reason to move the database. */
  predicate Settled(l: Limits, s: Scaler, total: nat)
    requires l.request > 0
  {
    s.running >= 1 && Decide(Utilization(total, s.running, l.request), s.instances, l.min, l.max) == s.instances
  }

  lemma SettledTick(l: Limits, s: Scaler, t: Tick, total: nat)
    requires ValidLimits(l) && s.running >= 1 && Steady(s, t, total)
    ensures Settled(l, s, total) ==> Step(l, s, t) == s
    ensures !Settled(l, s, total) && Effective(s, t) ==> Step(l, s, t).instances != s.instances
  {
  }

  lemma UnderwayRuns(l: Limits, s0: Scaler, s: Scaler, total: nat)
    requires ValidLimits(l) && InStep(s0) && Underway(l, s0, s, total)
    ensures s.running >= 1
    ensures (l.min <= s.instances <= l.max && l.min <= s0.instances <= l.max
             && Abs(s.instances - s0.instances) >= l.max - l.min) ==> Settled(l, s, total)
  {
  }

  /** Every effective tick changes the persisted count until the database is settled,
      whatever the ticks between them do. */
  lemma {:induction false} SettledOrChanged(l: Limits, s: Scaler, ticks: seq<Tick>, total: nat)
    requires ValidLimits(l) && InStep(s) && SteadyRun(l, s, ticks, total)
    ensures Settled(l, Run(l, s, ticks), total) || Changes(l, s, ticks) >= EffectiveTicks(l, s, ticks)
  {
    if ticks != [] {
      var front, t := ticks[..|ticks| - 1], ticks[|ticks| - 1];
      FrontIsSteady(l, s, ticks, total);
      hide Steady, SteadyRun, Step, Settled, Effective, Underway;
      SettledOrChanged(l, s, front, total);
      ChangesAreDistance(l, s, front, total);
      UnderwayRuns(l, s, Run(l, s, front), total);
      SettledTick(l, Run(l, s, front), t, total);
    }
  }

  /** The fixed point is reached: a steady run from inside the bounds is settled once it
      had max - min effective ticks, however many ticks without metrics, inside the
      cooldown, or with failing calls lie between them. */
  lemma SettlesWithin(l: Limits, s: Scaler, ticks: seq<Tick>, total: nat)
    requires ValidLimits(l) && InStep(s) && SteadyRun(l, s, ticks, total) && l.min <= s.instances <= l.max
    requires EffectiveTicks(l, s, ticks) >= l.max - l.min
    ensures Settled(l, Run(l, s, ticks), total)
  {
    hide SteadyRun, Run, Changes, EffectiveTicks, Settled, Underway;
    SettledOrChanged(l, s, ticks, total);
    ChangesAreDistance(l, s, ticks, total);
    UnderwayRuns(l, s, Run(l, s, ticks), total);
  }

  /** A settled database stays as it is for as long as the load does. */
  lemma {:induction false} RestIsForGood(l: Limits, s: Scaler, ticks: seq<Tick>, total: nat)
    requires ValidLimits(l) && Settled(l, s, total) && SteadyRun(l, s, ticks, total)
    ensures Run(l, s, ticks) == s
  {
    if ticks != [] {
      FrontIsSteady(l, s, ticks, total);
      hide Steady, SteadyRun, Step;
      RestIsForGood(l, s, ticks[..|ticks| - 1], total);
      SettledTick(l, s, ticks[|ticks| - 1], total);
    }
  }

  // ---------------------------------------------------------- bounds and rate

  function Distance(l: Limits, n: int): nat
    requires l.min <= l.max
  {
    if n < l.min then l.min - n else if n > l.max then n - l.max else 0
  }

  /** Whatever the load, the calls and the starting count: a run keeps a database in
      its bounds once it is there, and never takes it further away from them. */
  lemma {:induction false} RunsApproachBounds(l: Limits, s: Scaler, ticks: seq<Tick>)
    requires l.min <= l.max
    ensures Distance(l, Run(l, s, ticks).instances) <= Distance(l, s.instances)
    ensures l.min <= s.instances <= l.max ==> l.min <= Run(l, s, ticks).instances <= l.max
  {
    if ticks != [] {
      RunsApproachBounds(l, s, ticks[..|ticks| - 1]);
    }
  }

  /** The clock does not run backwards within a tick. */
  predicate Chronological(ticks: seq<Tick>) {
    forall i :: 0 <= i < |ticks| ==> ticks[i].checked <= ticks[i].written <= ticks[i].marked
  }

  /** The tick changed the row and both calls reported success. */
  predicate Persists(l: Limits, s: Scaler, t: Tick) {
    Target(l, s, t) != s.instances && t.provision.Ok? && t.persist.Ok?
  }

  /** The row was changed although the call reported an error. */
  predicate Unacknowledged(l: Limits, s: Scaler, t: Tick) {
    Target(l, s, t) != s.instances && t.provision.Ok? && t.persist.LostReply?
  }

  /** A change of the persisted count: when it was written, and whether its reply was lost. */
  datatype Change = Change(time: int, lost: bool)

  /** The changes of a run, in order. */
  function Record(l: Limits, s: Scaler, ticks: seq<Tick>): seq<Change> {
    if ticks == [] then []
    else
      var front, t := ticks[..|ticks| - 1], ticks[|ticks| - 1];
      Record(l, s, front)
      + if Persists(l, Run(l, s, front), t) then [Change(t.written, false)]
        else if Unacknowledged(l, Run(l, s, front), t) then [Change(t.written, true)]
        else []
  }

  function Times(record: seq<Change>): (times: seq<int>)
    ensures |times| == |record| && forall i :: 0 <= i < |record| ==> times[i] == record[i].time
  {
    seq(|record|, i requires 0 <= i < |record| => record[i].time)
  }

  /** The times of the changes whose reply was lost, or of those whose was not. */
  function Only(record: seq<Change>, lost: bool): seq<int> {
    if record == [] then []
    else
      var c := record[|record| - 1];
      Only(record[..|record| - 1], lost) + if c.lost == lost then [c.time] else []
  }

  /** The times of all changes of the persisted count, of the acknowledged ones, and of
      those that were reported as errors. */
  function All(l: Limits, s: Scaler, ticks: seq<Tick>): seq<int> { Times(Record(l, s, ticks)) }

  function Writes(l: Limits, s: Scaler, ticks: seq<Tick>): seq<int> { Only(Record(l, s, ticks), false) }

  function LostTimes(l: Limits, s: Scaler, ticks: seq<Tick>): seq<int> { Only(Record(l, s, ticks), true) }

  lemma TickChanges(l: Limits, s: Scaler, t: Tick)
    ensures Step(l, s, t).instances != s.instances <==> Persists(l, s, t) || Unacknowledged(l, s, t)
    ensures Persists(l, s, t) || Unacknowledged(l, s, t) ==> Elapsed(s.last, t.checked)
    ensures !(Persists(l, s, t) && Unacknowledged(l, s, t))
    ensures Step(l, s, t).last == if Persists(l, s, t) then Some(t.marked) else s.last
  {
  }

  lemma OnlySnoc(record: seq<Change>, c: Change)
    ensures Only(record + [c], c.lost) == Only(record, c.lost) + [c.time]
    ensures Only(record + [c], !c.lost) == Only(record, !c.lost)
  {
    assert (record + [c])[..|record|] == record;
  }

  lemma {:induction false} OnlyCounts(record: seq<Change>)
    ensures |record| == |Only(record, false)| + |Only(record, true)|
  {
    if record != [] { OnlyCounts(record[..|record| - 1]); }
  }

  /** The persisted count changes once for each recorded change and for nothing else. */
  lemma {:induction false} ChangesAreWritesAndLost(l: Limits, s: Scaler, ticks: seq<Tick>)
    ensures Changes(l, s, ticks) == |All(l, s, ticks)| == |Writes(l, s, ticks)| + |LostTimes(l, s, ticks)|
  {
    OnlyCounts(Record(l, s, ticks));
    if ticks != [] {
      var front, t := ticks[..|ticks| - 1], ticks[|ticks| - 1];
      ChangesAreWritesAndLost(l, s, front);
      TickChanges(l, Run(l, s, front), t);
      hide Step, Target, Persists, Unacknowledged;
    }
  }

  // ------------------------------------------------------------- the cooldown

  predicate Spaced(times: seq<int>) {
    forall i :: 0 < i < |times| ==> times[i] - times[i - 1] >= Cooldown
  }

  /** A change that follows a change of the given kind comes at least a cooldown after it. */
  predicate WaitedOut(record: seq<Change>, lost: bool) {
    forall i :: 0 < i < |record| && record[i - 1].lost == lost ==> record[i].time - record[i - 1].time >= Cooldown
  }

  /** The cooldown is checked before the calls and counted from after them, so what
      follows an acknowledged change waits for it. */
  lemma {:induction false} AcknowledgedAreWaitedOut(l: Limits, s: Scaler, ticks: seq<Tick>)
    requires Chronological(ticks)
    ensures var r := Record(l, s, ticks);
      && WaitedOut(r, false)
      && (r != [] && !r[|r| - 1].lost ==>
            Run(l, s, ticks).last.Some? && r[|r| - 1].time <= Run(l, s, ticks).last.value)
  {
    if ticks != [] {
      var front, t := ticks[..|ticks| - 1], ticks[|ticks| - 1];
      AcknowledgedAreWaitedOut(l, s, front);
      assert t.checked <= t.written <= t.marked;
      TickChanges(l, Run(l, s, front), t);
      hide Step, Target, Persists, Unacknowledged;
    }
  }

  /** Two acknowledged changes of a database are written at least a cooldown apart,
      whatever unacknowledged ones lie between them. */
  lemma {:induction false} WritesAreSpaced(l: Limits, s: Scaler, ticks: seq<Tick>)
    requires Chronological(ticks)
    ensures var w := Writes(l, s, ticks);
      && Spaced(w)
      && (w != [] ==> Run(l, s, ticks).last.Some? && w[|w| - 1] <= Run(l, s, ticks).last.value)
  {
    if ticks != [] {
      var front, t := ticks[..|ticks| - 1], ticks[|ticks| - 1];
      WritesAreSpaced(l, s, front);
      assert t.checked <= t.written <= t.marked;
      TickChanges(l, Run(l, s, front), t);
      RecordSnoc(l, s, ticks);
      hide Step, Target, Persists, Unacknowledged, Record, Only;
    }
  }

  lemma RecordSnoc(l: Limits, s: Scaler, ticks: seq<Tick>)
    requires ticks != []
    ensures var front, t := ticks[..|ticks| - 1], ticks[|ticks| - 1];
      Writes(l, s, ticks) == Writes(l, s, front) + if Persists(l, Run(l, s, front), t) then [t.written] else []
  {
    var before := Record(l, s, ticks[..|ticks| - 1]);
    hide Persists, Unacknowledged, Run;
    OnlySnoc(before, Change(ticks[|ticks| - 1].written, false));
    OnlySnoc(before, Change(ticks[|ticks| - 1].written, true));
    assert before + [] == before;
  }

  // ------------------------------------------------ effective ticks come round

  /** The clock does not run backwards from one tick to the next either: the ticks of a
      database follow one another in one goroutine. */
  predicate OneClock(ticks: seq<Tick>) {
    Chronological(ticks) && forall i :: 0 < i < |ticks| ==> ticks[i - 1].marked <= ticks[i].checked
  }

  /** Ticks of a ticker of a third of the cooldown whose metrics and calls never fail: the
      fourth tick after a change finds its cooldown over, however long the calls take
      within their own interval. */
  predicate Punctual(ticks: seq<Tick>) {
    && (forall i :: 0 <= i < |ticks| ==>
          ticks[i].metrics.Some? && ticks[i].metrics.value != [] && ticks[i].provision.Ok? && ticks[i].persist.Ok?)
    && (forall i, j :: 0 <= i && i + 4 <= j < |ticks| ==> ticks[j].checked - ticks[i].marked >= Cooldown)
  }

  /** At least every fourth tick is effective; j is the last tick that made a change. */
  lemma {:induction false} EveryFourthIsEffective(l: Limits, s: Scaler, ticks: seq<Tick>) returns (j: nat)
    requires s.last == None && Punctual(ticks)
    ensures var n, last := |ticks|, Run(l, s, ticks).last;
      && (last == None ==> EffectiveTicks(l, s, ticks) == n)
      && (last.Some? ==>
            j < n && last == Some(ticks[j].marked) && 4 * EffectiveTicks(l, s, ticks) >= n + 3 - Min(3, n - 1 - j))
  {
    j := 0;
    if ticks != [] {
      var front, t := ticks[..|ticks| - 1], ticks[|ticks| - 1];
      assert forall i :: 0 <= i < |front| ==> front[i] == ticks[i];
      j := EveryFourthIsEffective(l, s, front);
      var before := Run(l, s, front);
      TickChanges(l, before, t);
      PunctualTick(l, before, t);
      hide Step, Target, Persists;
      if Persists(l, before, t) { j := |front|; }
    }
  }

  lemma PunctualTick(l: Limits, s: Scaler, t: Tick)
    requires t.metrics.Some? && t.metrics.value != [] && t.provision.Ok? && t.persist.Ok?
    ensures Effective(s, t) <==> Elapsed(s.last, t.checked)
    ensures Persists(l, s, t) ==> Effective(s, t)
  {
  }

  /** With a 20 second ticker whose metrics and calls never fail, a database under a
      constant load rests after 4 * (max - min) ticks. */
  lemma SettlesInTime(l: Limits, s: Scaler, ticks: seq<Tick>, total: nat)
    requires ValidLimits(l) && InStep(s) && SteadyRun(l, s, ticks, total) && l.min <= s.instances <= l.max
    requires s.last == None && Punctual(ticks) && |ticks| >= 4 * (l.max - l.min)
    ensures Settled(l, Run(l, s, ticks), total)
  {
    var j := EveryFourthIsEffective(l, s, ticks);
    hide SteadyRun, Punctual, Run, EffectiveTicks, Settled;
    SettlesWithin(l, s, ticks, total);
  }

  // ------------------------------------------------------- changes in a window

  /** The times of a window [from, from + length]. */
  function InWindow(times: seq<int>, from: int, length: nat): seq<int> {
    if times == [] then []
    else
      var t := times[|times| - 1];
      InWindow(times[..|times| - 1], from, length) + if from <= t <= from + length then [t] else []
  }

  lemma {:induction false} WindowOfSpaced(times: seq<int>, from: int, length: nat)
    requires Spaced(times)
    ensures var w := InWindow(times, from, length);
      && |w| <= |times|
      && (w != [] ==> from + Cooldown * (|w| - 1) <= w[|w| - 1] <= times[|times| - 1] && w[|w| - 1] <= from + length)
      && (times != [] && times[|times| - 1] <= from + length && w != [] ==> w[|w| - 1] == times[|times| - 1])
  {
    if times != [] {
      var front := times[..|times| - 1];
      WindowOfSpaced(front, from, length);
    }
  }

  /** Acknowledged changes: in any window of `length` seconds one controller makes at
      most length / 60 + 1 of them. */
  lemma ChangesPerWindow(l: Limits, s: Scaler, ticks: seq<Tick>, from: int, length: nat)
    requires Chronological(ticks)
    ensures |InWindow(Writes(l, s, ticks), from, length)| <= length / Cooldown + 1
  {
    WritesAreSpaced(l, s, ticks);
    hide Writes;
    WindowOfSpaced(Writes(l, s, ticks), from, length);
  }

  lemma {:induction false} WindowSplits(record: seq<Change>, from: int, length: nat)
    ensures |InWindow(Times(record), from, length)|
      == |InWindow(Only(record, false), from, length)| + |InWindow(Only(record, true), from, length)|
  {
    if record != [] {
      var front, c := record[..|record| - 1], record[|record| - 1];
      WindowSplits(front, from, length);
      assert Times(record)[..|record| - 1] == Times(front);
      OnlySnoc(front, c);
      assert front + [c] == record;
      WindowSnoc(Only(front, c.lost), c.time, from, length);
    }
  }

  lemma WindowSnoc(times: seq<int>, t: int, from: int, length: nat)
    ensures InWindow(times + [t], from, length)
      == InWindow(times, from, length) + if from <= t <= from + length then [t] else []
  {
    assert (times + [t])[..|times|] == times;
  }

  /** All changes of the persisted count in a window: the acknowledged ones, which keep to
      the rate, and those reported as errors. A window without a lost reply meets the rate. */
  lemma PersistedPerWindow(l: Limits, s: Scaler, ticks: seq<Tick>, from: int, length: nat)
    requires Chronological(ticks)
    ensures var all, lost := InWindow(All(l, s, ticks), from, length), InWindow(LostTimes(l, s, ticks), from, length);
      && |all| == |InWindow(Writes(l, s, ticks), from, length)| + |lost|
      && |all| <= length / Cooldown + 1 + |lost|
      && (lost == [] ==> |all| <= length / Cooldown + 1)
  {
    WindowSplits(Record(l, s, ticks), from, length);
    ChangesPerWindow(l, s, ticks, from, length);
  }

  // ------------------------------------------------ when every window is in rate

  /** Every window is within the rate. */
  ghost predicate InRate(times: seq<int>) {
    forall from: int, length: nat :: |InWindow(times, from, length)| <= length / Cooldown + 1
  }

  predicate Ordered(times: seq<int>) {
    forall i :: 0 < i < |times| ==> times[i - 1] <= times[i]
  }

  lemma AllSnoc(l: Limits, s: Scaler, ticks: seq<Tick>)
    requires ticks != []
    ensures var before, t := All(l, s, ticks[..|ticks| - 1]), ticks[|ticks| - 1];
      All(l, s, ticks) == before || All(l, s, ticks) == before + [t.written]
  {
    hide Persists, Unacknowledged, Run;
  }

  lemma OrderedSnoc(times: seq<int>, t: int)
    requires Ordered(times) && (times != [] ==> times[|times| - 1] <= t)
    ensures Ordered(times + [t])
  {
  }

  lemma OneClockFront(ticks: seq<Tick>)
    requires OneClock(ticks) && ticks != []
    ensures var front, t := ticks[..|ticks| - 1], ticks[|ticks| - 1];
      OneClock(front) && t.checked <= t.written <= t.marked && (front != [] ==> front[|front| - 1].marked <= t.checked)
  {
  }

  lemma {:induction false} RecordIsOrdered(l: Limits, s: Scaler, ticks: seq<Tick>)
    requires OneClock(ticks)
    ensures var all := All(l, s, ticks);
      Ordered(all) && (all != [] ==> ticks != [] && all[|all| - 1] <= ticks[|ticks| - 1].marked)
  {
    if ticks != [] {
      var front, t := ticks[..|ticks| - 1], ticks[|ticks| - 1];
      hide OneClock, All, Ordered;
      OneClockFront(ticks);
      RecordIsOrdered(l, s, front);
      AllSnoc(l, s, ticks);
      OrderedSnoc(All(l, s, front), t.written);
    }
  }

  lemma {:induction false} WindowHolds(times: seq<int>, i: nat, from: int, length: nat)
    requires i < |times| && from <= times[i] <= from + length
    ensures |InWindow(times, from, length)| >= 1
    ensures i > 0 && from <= times[i - 1] <= from + length ==> |InWindow(times, from, length)| >= 2
  {
    var front := times[..|times| - 1];
    if i < |front| {
      WindowHolds(front, i, from, length);
    } else if i > 0 && from <= times[i - 1] <= from + length {
      WindowHolds(front, i - 1, from, length);
    }
  }

  lemma InRateIffSpaced(times: seq<int>)
    requires Ordered(times)
    ensures InRate(times) <==> Spaced(times)
  {
    if Spaced(times) {
      forall from: int, length: nat ensures |InWindow(times, from, length)| <= length / Cooldown + 1 {
        WindowOfSpaced(times, from, length);
      }
    } else {
      var i :| 0 < i < |times| && times[i] - times[i - 1] < Cooldown;
      var length: nat := times[i] - times[i - 1];
      WindowHolds(times, i, times[i - 1], length);
      assert |InWindow(times, times[i - 1], length)| > length / Cooldown + 1;
    }
  }

  /** Every window of a run is within the rate exactly when whatever follows a change with
      a lost reply comes at least a cooldown after it: such a change starts no cooldown,
      and it is the only one that does not. */
  lemma RateHoldsIff(l: Limits, s: Scaler, ticks: seq<Tick>)
    requires OneClock(ticks)
    ensures InRate(All(l, s, ticks)) <==> WaitedOut(Record(l, s, ticks), true)
  {
    RecordIsOrdered(l, s, ticks);
    AcknowledgedAreWaitedOut(l, s, ticks);
    var r := Record(l, s, ticks);
    hide Record, InRate;
    InRateIffSpaced(Times(r));
    assert Spaced(Times(r)) <==> WaitedOut(r, false) && WaitedOut(r, true);
  }

  /** Two ticks 20 seconds apart, as the ticker makes them, both of which change the
      persisted count because the first reply is lost: a minute with two changes too close. */
  lemma LostRepliesEvadeCooldown() returns (l: Limits, s: Scaler, ticks: seq<Tick>)
    ensures ValidLimits(l) && InStep(s) && s.last == None && OneClock(ticks)
    ensures |ticks| == 2 && ticks[1].checked - ticks[0].checked == 20
    ensures !WaitedOut(Record(l, s, ticks), true) && !InRate(All(l, s, ticks))
    ensures |InWindow(All(l, s, ticks), 0, 20)| == 2
  {
    l, s := Limits(1, 3, 50), Scaler(1, 1, None);
    var t, u := Tick(Some([50]), 0, Ok, LostReply, 0, 0), Tick(Some([50, 50]), 20, Ok, Ok, 20, 20);
    ticks := [t, u];
    assert Sum([50]) == 50 by { assert [50][..0] == []; }
    assert Sum([50, 50]) == 100 by { assert [50, 50][..1] == [50]; }
    assert [t, u][..1] == [t] && [t][..0] == [];
    assert Run(l, s, []) == s;
    assert Run(l, s, [t]) == Scaler(2, 2, None);
    assert Record(l, s, [t]) == [Change(0, true)];
    assert Record(l, s, ticks) == [Change(0, true), Change(20, false)];
    hide Record, Run, InRate;
    RateHoldsIff(l, s, ticks);
    var times := All(l, s, ticks);
    assert times == [] + [0] + [20];
    WindowSnoc([], 0, 0, 20);
    WindowSnoc([] + [0], 20, 0, 20);
  }
}
