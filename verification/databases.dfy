/** Database rows, their creation, and the autoscaler loop as it runs over them
    (internal/store/databases.go, internal/api/database_handlers.go,
    internal/controller/dbautoscaler.go). */
module Databases {
  import opened Basics
  import opened Autoscaler

  datatype Engine = Postgres | Redis

  datatype Tier = Standard | Autoscale

  datatype Database = Database(engine: Engine, tier: Tier, instances: int, minInstances: int, maxInstances: int,
                               size: string, ready: bool)

  datatype CreateRequest = CreateRequest(engine: Engine, tier: Tier, instances: int, minInstances: int,
                                         maxInstances: int, size: string)

  function LimitsOf(db: Database): Limits {
    Limits(db.minInstances, db.maxInstances, CpuRequest(db.size))
  }

  predicate InBounds(db: Database) { db.minInstances <= db.instances <= db.maxInstances }

  /** handleCreateDatabase on a valid engine, tier and size: the counts are
      normalised step by step, or the request is refused. A created database starts
      inside valid bounds, at the floor; only an autoscale floor above its ceiling
      and a Redis of several instances are refused. */
  method NormalizeCreate(req: CreateRequest) returns (r: Option<Database>)
    ensures r == None <==>
      || (req.tier == Autoscale && req.engine != Postgres)
      || (req.tier == Autoscale && req.maxInstances < req.minInstances)
      || (req.tier == Autoscale && req.maxInstances < 1)
      || (req.tier == Standard && req.engine == Redis && req.instances > 1)
    ensures r.Some? ==>
      && ValidLimits(LimitsOf(r.value)) && InBounds(r.value) && r.value.instances == r.value.minInstances
      && r.value.engine == req.engine && r.value.tier == req.tier && r.value.size == req.size && !r.value.ready
      && (req.tier == Autoscale ==> r.value.maxInstances == req.maxInstances && r.value.minInstances >= req.minInstances)
      && (req.tier == Standard ==> r.value.minInstances == r.value.maxInstances >= req.instances)
      && (req.tier == Autoscale && req.minInstances >= 1 ==> r.value.minInstances == req.minInstances)
      && (req.tier == Standard && req.instances >= 1 ==> r.value.instances == req.instances)
      && (r.value.minInstances > 1 ==> r.value.minInstances == req.minInstances || r.value.minInstances == req.instances)
  {
    if req.tier == Autoscale && req.engine != Postgres { return None; }
    var instances, minI, maxI: int;
    if req.tier == Autoscale {
      minI, maxI := req.minInstances, req.maxInstances;
      if minI < 1 { minI := 1; }
      if maxI < minI { return None; }
      instances := minI;
    } else {
      instances := req.instances;
      if instances < 1 { instances := 1; }
      if req.engine == Redis && instances != 1 { return None; }
      minI, maxI := instances, instances;
    }
    return Some(Database(req.engine, req.tier, instances, minI, maxI, req.size, false));
  }

  /** clusterCPUUtilization. */
  method ClusterCPUUtilization(metrics: Option<seq<nat>>, size: string) returns (util: int, ok: bool)
    ensures ok <==> metrics.Some? && metrics.value != []
    ensures ok ==> util == Utilization(Sum(metrics.value), |metrics.value|, CpuRequest(size))
  {
    if metrics == None || |metrics.value| == 0 { return 0, false; }
    var request := CpuRequest(size);
    var total := 0;
    for i := 0 to |metrics.value|
      invariant total == Sum(metrics.value[..i])
    {
      assert metrics.value[..i + 1][..i] == metrics.value[..i];
      total := total + metrics.value[i];
    }
    assert metrics.value[..|metrics.value|] == metrics.value;
    var avg := total / |metrics.value|;
    return avg * 100 / request, true;
  }

  class Store {
    var rows: map<nat, Database>
    var next: nat

    constructor ()
      ensures rows == map[] && next == 0
    {
      rows, next := map[], 0;
    }

    method CreateDatabase(db: Database) returns (id: nat)
      modifies this
      ensures id == old(next) && next == id + 1 && rows == old(rows)[id := db]
    {
      id := next;
      rows, next := rows[id := db], next + 1;
    }

    method SetDatabaseInstances(id: nat, instances: int)
      modifies this`rows
      ensures rows == if id in old(rows) then old(rows)[id := old(rows)[id].(instances := instances)] else old(rows)
    {
      if id in rows { rows := rows[id := rows[id].(instances := instances)]; }
    }
  }

  /** What the step of the specification means for a row: with metrics and successful calls
      the count goes up by one above 70% of the size's request and below the row's maximum,
      down by one below 30% and above its minimum, unless the last known change is less than
      60 seconds old. */
  lemma RowInNumbers(db: Database, s: Scaler, t: Tick)
    requires s.instances == db.instances
    requires t.metrics.Some? && t.metrics.value != [] && t.provision.Ok? && t.persist.Ok?
    ensures
      var percent := Sum(t.metrics.value) / |t.metrics.value| * 100 / CpuRequest(db.size);
      var ready := s.last == None || t.checked - s.last.value >= 60;
      Step(LimitsOf(db), s, t).instances ==
        if ready && percent > 70 && db.instances < db.maxInstances then db.instances + 1
        else if ready && percent < 30 && db.instances > db.minInstances then db.instances - 1
        else db.instances
  {
    TickInNumbers(LimitsOf(db), s, t);
    hide Step;
  }

  lemma StepStaysInBounds(db: Database, s: Scaler, t: Tick)
    requires s.instances == db.instances && InBounds(db)
    ensures InBounds(db.(instances := Step(LimitsOf(db), s, t).instances))
  {
  }

  class Processor {
    var lastScale: map<nat, int>
    /** The instance count last provisioned for each cluster. */
    var running: map<nat, int>

    constructor ()
      ensures lastScale == map[] && running == map[]
    {
      lastScale, running := map[], map[];
    }

    /** The autoscaler's view of one database. */
    function View(store: Store, id: nat): Scaler
      reads this, store
      requires id in store.rows
    {
      Scaler(store.rows[id].instances,
             if id in running then running[id] else store.rows[id].instances,
             if id in lastScale then Some(lastScale[id]) else None)
    }

    method CooldownElapsed(id: nat, now: int) returns (b: bool)
      ensures b <==> Elapsed(if id in lastScale then Some(lastScale[id]) else None, now)
    {
      if id !in lastScale { return true; }
      return now - lastScale[id] >= Cooldown;
    }

    method MarkScaled(id: nat, now: int)
      modifies this`lastScale
      ensures lastScale == old(lastScale)[id := now]
    {
      lastScale := lastScale[id := now];
    }

    /** The provision call, the row update and the mark, each only after the one
        before it reported success. */
    method Rescale(store: Store, id: nat, desired: int, t: Tick)
      requires id in store.rows && desired != store.rows[id].instances
      modifies this, store`rows
      ensures running == if t.provision.Error? then old(running) else old(running)[id := desired]
      ensures store.rows == if t.provision.Ok? && !t.persist.Error?
                            then old(store.rows)[id := old(store.rows)[id].(instances := desired)]
                            else old(store.rows)
      ensures lastScale == if t.provision.Ok? && t.persist.Ok? then old(lastScale)[id := t.marked] else old(lastScale)
    {
      if !t.provision.Error? { running := running[id := desired]; }
      if !t.provision.Ok? { return; }
      if !t.persist.Error? { store.SetDatabaseInstances(id, desired); }
      if !t.persist.Ok? { return; }
      MarkScaled(id, t.marked);
    }

    /** autoscaleOne takes the step of the specification for its database and leaves
        the row's other columns and all other databases alone. */
    method AutoscaleOne(store: Store, id: nat, t: Tick)
      requires id in store.rows
      modifies this, store`rows
      ensures store.rows.Keys == old(store.rows.Keys)
      ensures View(store, id) == Step(LimitsOf(old(store.rows[id])), old(View(store, id)), t)
      ensures store.rows[id] == old(store.rows[id]).(instances := View(store, id).instances)
      ensures forall j :: j in store.rows && j != id ==>
        store.rows[j] == old(store.rows)[j] && View(store, j) == old(View(store, j))
    {
      var db := store.rows[id];
      ghost var limits, before := LimitsOf(db), View(store, id);
      if id !in running { running := running[id := db.instances]; }
      var util, ok := ClusterCPUUtilization(t.metrics, db.size);
      if !ok { return; }
      var desired := db.instances;
      if util > ScaleUpPct && db.instances < db.maxInstances {
        desired := db.instances + 1;
      } else if util < ScaleDownPct && db.instances > db.minInstances {
        desired := db.instances - 1;
      }
      assert desired == Decide(util, db.instances, db.minInstances, db.maxInstances);
      if desired == db.instances { return; }
      var elapsed := CooldownElapsed(id, t.checked);
      if !elapsed { return; }
      assert Target(limits, before, t) == desired;
      hide Target;
      Rescale(store, id, desired, t);
    }

    /** One pass of autoscaleDatabases over the listed databases. No database leaves its
        bounds. */
    method AutoscaleDatabases(store: Store, ids: seq<nat>, ticks: map<nat, Tick>)
      requires forall i :: 0 <= i < |ids| ==> ids[i] in store.rows && ids[i] in ticks
      requires forall i, j :: 0 <= i < j < |ids| ==> ids[i] != ids[j]
      modifies this, store`rows
      ensures store.rows.Keys == old(store.rows.Keys)
      ensures forall i :: 0 <= i < |ids| ==>
        View(store, ids[i]) == Step(LimitsOf(old(store.rows)[ids[i]]), old(View(store, ids[i])), ticks[ids[i]])
      ensures forall j :: j in store.rows && InBounds(old(store.rows)[j]) ==> InBounds(store.rows[j])
      ensures forall j :: j in store.rows && j !in ids ==>
        store.rows[j] == old(store.rows)[j] && View(store, j) == old(View(store, j))
    {
      hide Step, LimitsOf, InBounds;
      for n := 0 to |ids|
        invariant store.rows.Keys == old(store.rows.Keys)
        invariant forall i :: 0 <= i < n ==>
          View(store, ids[i]) == Step(LimitsOf(old(store.rows)[ids[i]]), old(View(store, ids[i])), ticks[ids[i]])
        invariant forall j :: j in store.rows && InBounds(old(store.rows)[j]) ==> InBounds(store.rows[j])
        invariant forall j :: j in store.rows && j !in ids[..n] ==>
          store.rows[j] == old(store.rows)[j] && View(store, j) == old(View(store, j))
      {
        assert ids[n] !in ids[..n];
        label before:
        ghost var row, scaler := store.rows[ids[n]], View(store, ids[n]);
        assert scaler.instances == row.instances;
        hide View;
        AutoscaleOne(store, ids[n], ticks[ids[n]]);
        if InBounds(row) { StepStaysInBounds(row, scaler, ticks[ids[n]]); }
        assert forall i :: 0 <= i < n ==> View(store, ids[i]) == old@before(View(store, ids[i]));
      }
      assert ids[..|ids|] == ids;
    }
  }
}
