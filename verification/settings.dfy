/** A service's scaling, disk and suspension settings (internal/api/settings_handlers.go,
    internal/store/settings.go), and what a cluster that was reconciled with them runs. */
module Settings {
  import opened Basics
  import opened Cluster
  import opened Convergence

  /** The settings columns of a service row; a new row has the defaults. */
  datatype Settings = Settings(replicas: int, size: string, min: int, max: int,
                               diskSize: string, diskPath: string, suspended: bool)

  const Defaults := Settings(1, "small", 0, 0, "", "", false)

  /** A key of the size table (internal/instance/instance.go). */
  predicate IsSize(size: string) {
    size == "small" || size == "medium" || size == "large" || size == "xlarge" || size == "2xlarge"
  }

  /** The sizes a service may have are those with a row of their own in the size table. */
  lemma SizesOfTable(size: string)
    ensures IsSize(size) <==> size in {"small", "medium", "large", "xlarge", "2xlarge"}
  {
  }

  /** What holds of every row: the counts are in order and a disk has both its size and
      its path or neither. */
  predicate InOrder(s: Settings) {
    && s.replicas >= 1 && IsSize(s.size)
    && (s.max > 0 ==> 1 <= s.min <= s.max)
    && (s.diskSize == "" <==> s.diskPath == "")
  }

  datatype ScaleRequest = ScaleRequest(replicas: int, size: string, min: int, max: int)

  class Services {
    var rows: map<nat, Settings>

    constructor ()
      ensures rows == map[]
    {
      rows := map[];
    }

    predicate Valid()
      reads this
    {
      forall id :: id in rows ==> InOrder(rows[id])
    }

    method CreateService(id: nat)
      requires Valid() && id !in rows
      modifies this
      ensures Valid() && rows == old(rows)[id := Defaults]
    {
      rows := rows[id := Defaults];
    }

    /** SetServiceScaling, SetServiceDisk and SetServiceSuspended, each with its row. */
    method Update(id: nat, s: Settings, reply: Reply) returns (ok: bool)
      requires Valid() && id in rows && InOrder(s)
      modifies this
      ensures Valid() && ok == reply.Ok?
      ensures rows == if reply.Error? then old(rows) else old(rows)[id := s]
    {
      if !reply.Error? { rows := rows[id := s]; }
      return reply.Ok?;
    }

    /** handleScale; redeploy says whether applyServiceChange follows. A request is
        refused exactly for an unknown size or a ceiling below its floor; what it leaves
        out is filled in, and the disk and suspension stay. */
    method HandleScale(id: nat, req: ScaleRequest, reply: Reply) returns (accepted: bool, redeploy: bool)
      requires Valid() && id in rows
      modifies this
      ensures Valid() && rows.Keys == old(rows.Keys)
      ensures accepted <==> (req.size == "" || IsSize(req.size)) && !(0 < req.max < req.min)
      ensures redeploy <==> accepted && reply.Ok?
      ensures forall j :: j in rows && j != id ==> rows[j] == old(rows)[j]
      ensures rows[id].diskSize == old(rows[id].diskSize) && rows[id].diskPath == old(rows[id].diskPath)
        && rows[id].suspended == old(rows[id].suspended)
      ensures !accepted || reply.Error? ==> rows == old(rows)
      ensures redeploy ==>
        && rows[id].size == (if req.size == "" then old(rows[id].size) else req.size)
        && rows[id].replicas == (if req.replicas < 1 then 1 else req.replicas)
        && rows[id].max == req.max && rows[id].min == (if req.max > 0 && req.min < 1 then 1 else req.min)
    {
      var size, replicas, min := req.size, req.replicas, req.min;
      if size == "" { size := rows[id].size; }
      if !IsSize(size) { return false, false; }
      if replicas < 1 { replicas := 1; }
      if req.max > 0 {
        if min < 1 { min := 1; }
        if req.max < min { return false, false; }
      }
      var ok := Update(id, rows[id].(replicas := replicas, size := size, min := min, max := req.max), reply);
      return true, ok;
    }

    /** handleAttachDisk, and handleDetachDisk with both fields empty. */
    method HandleDisk(id: nat, size: string, path: string, attach: bool, reply: Reply)
      returns (accepted: bool, redeploy: bool)
      requires Valid() && id in rows
      modifies this
      ensures Valid() && redeploy == (accepted && reply.Ok?)
      ensures accepted <==> !attach || (size != "" && path != "")
      ensures rows == if accepted && !reply.Error?
        then old(rows)[id := old(rows)[id].(diskSize := if attach then size else "", diskPath := if attach then path else "")]
        else old(rows)
    {
      if attach && (size == "" || path == "") { return false, false; }
      var ok := Update(id, rows[id].(diskSize := if attach then size else "", diskPath := if attach then path else ""), reply);
      return true, ok;
    }

    method SetSuspended(id: nat, suspended: bool, reply: Reply) returns (redeploy: bool)
      requires Valid() && id in rows
      modifies this
      ensures Valid() && redeploy == reply.Ok?
      ensures rows == if reply.Error? then old(rows) else old(rows)[id := old(rows)[id].(suspended := suspended)]
    {
      redeploy := Update(id, rows[id].(suspended := suspended), reply);
    }
  }

  /** The reconciler's specification of a service with these settings. */
  function Configured(spec: ServiceSpec, s: Settings): ServiceSpec {
    spec.(replicas := s.replicas, size := s.size, minReplicas := s.min, maxReplicas := s.max,
          diskSize := s.diskSize, diskPath := s.diskPath, suspended := s.suspended)
  }

  /** Whatever requests were accepted, a reconciled long-running service runs as many
      copies as its settings say: none when suspended, one with a disk, between valid
      bounds when autoscaled, and otherwise the fixed count, which is at least one. */
  lemma ReconciledSettings(domain: string, c: Objects, spec: ServiceSpec, s: Settings)
    requires InOrder(s) && spec.typ != Cron
    ensures
      var spec' := Configured(spec, s);
      var c' := AfterEvent(domain, c, Complete(domain, spec'));
      var dep, pvc, hpa := Key(Deployment, spec.ns, spec.name), Key(VolumeClaim, spec.ns, ClaimName(spec.name)),
                           Key(Autoscaler, spec.ns, spec.name);
      && dep in c' && c'[dep].DeploymentSpec? && c'[dep].size == s.size
      && (pvc in c' <==> s.diskSize != "")
      && (hpa in c' <==> s.max > 0 && s.diskSize == "" && !s.suspended)
      && (hpa in c' ==> c'[dep].replicas == None && c'[hpa] == AutoscalerSpec(spec.name, s.min, s.max) && 1 <= s.min <= s.max)
      && (hpa !in c' ==>
            c'[dep].replicas == Some(if s.suspended then 0 else if s.diskSize != "" then 1 else s.replicas))
      && (hpa !in c' && !s.suspended ==> c'[dep].replicas.value >= 1)
  {
    var spec' := Configured(spec, s);
    FinalShape(domain, c, spec');
    ApplyMeetsDesired(domain, spec', c, Key(Deployment, spec.ns, spec.name));
    ApplyMeetsDesired(domain, spec', c, Key(Autoscaler, spec.ns, spec.name));
    hide AfterEvent, Governed, SharedKeys, ApplyOps;
    assert spec'.Autoscaled() <==> s.max > 0 && s.diskSize == "" && !s.suspended;
  }
}
