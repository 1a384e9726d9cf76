/** What deploy rows have from the requests that created them, over whole runs
    (internal/api/deploy_handlers.go, env_handlers.go, settings_handlers.go,
    internal/store/settings.go). */
module Requests {
  import opened Basics
  import opened Lifecycle
  import opened Rows
  import opened Pipeline
  import opened Ownership
  import opened Steps
  import opened Invariant
  import opened Runs

  // ------------------------------------------------------- rows and requests

  /** The columns a request gives its row. */
  predicate AsAsked(pc: ApiPc, d: Deploy) {
    match pc
    case EnqueueDeploy(service, commit) =>
      d.service == service && d.commit == commit && d.kind == Production && d.pr == None
    case EnqueuePreview(service, commit, pr) =>
      d.service == service && d.commit == commit && d.kind == Preview && d.pr == Some(pr)
    case ImageDeploy(service, image) =>
      d.service == service && d.commit == "" && d.kind == Production && d.pr == None && d.image == image != ""
    case Reuse(service, image, commit, _) =>
      d.service == service && d.commit == commit && d.kind == Production && d.pr == None && d.image == image != ""
    case _ => false
  }

  /** The step created deploy id for a request that asked for this row. */
  predicate Creates(s: State, a: Action, id: nat, d: Deploy) {
    && a.RunTask? && a.t in s.tasks && !a.c.reply.Error? && s.world.db.nextDeploy == id
    && s.tasks[a.t].Api? && AsAsked(s.tasks[a.t].apc, d)
  }

  ghost predicate Created(acts: seq<Action>, id: nat, d: Deploy) {
    exists i :: 0 <= i < |acts| && Creates(Exec(1, acts[..i]), acts[i], id, d)
  }

  lemma OnlyRequestsCreate(w: World, task: Task, c: Choice, id: nat)
    requires id !in w.db.deploys && id in TaskStep(w, task, c).world.db.deploys
    ensures task.Api? && !c.reply.Error? && w.db.nextDeploy == id
  {
  }

  lemma TaskCreates(w: World, task: Task, c: Choice, id: nat)
    requires TaskOk(w, task)
    requires id !in w.db.deploys && id in TaskStep(w, task, c).world.db.deploys
    ensures task.Api? && !c.reply.Error? && w.db.nextDeploy == id
    ensures AsAsked(task.apc, TaskStep(w, task, c).world.db.deploys[id])
  {
    OnlyRequestsCreate(w, task, c, id);
    hide BuilderStep, ReconcileStep, StreamStep, Links, ReadyToDeploy;
  }

  lemma OnlyTasksCreate(s: State, a: Action, id: nat)
    requires id !in s.world.db.deploys && id in Step(1, s, a).world.db.deploys
    ensures a.RunTask? && a.t in s.tasks && Step(1, s, a).world == TaskStep(s.world, s.tasks[a.t], a.c).world
  {
    hide TaskStep, IsSweep;
  }

  lemma StepCreates(s: State, a: Action, id: nat)
    requires Inv(s)
    requires id !in s.world.db.deploys && id in Step(1, s, a).world.db.deploys
    ensures Creates(s, a, id, Step(1, s, a).world.db.deploys[id])
  {
    OnlyTasksCreate(s, a, id);
    assert TaskOk(s.world, s.tasks[a.t]) by { assert TasksOk(s.world, s.tasks); }
    hide Inv, Step, TaskOk, TaskStep, AsAsked;
    TaskCreates(s.world, s.tasks[a.t], a.c, id);
  }

  lemma SameRequest(pc: ApiPc, d: Deploy, d': Deploy)
    requires AsAsked(pc, d) && DeployEvolves(d, d')
    ensures AsAsked(pc, d')
  {
  }

  lemma CreatedStays(acts: seq<Action>, id: nat, d: Deploy, d': Deploy)
    requires acts != [] && Created(Front(acts), id, d) && DeployEvolves(d, d')
    ensures Created(acts, id, d')
  {
    hide Exec, AsAsked, DeployEvolves;
    var i :| 0 <= i < |Front(acts)| && Creates(Exec(1, Front(acts)[..i]), Front(acts)[i], id, d);
    SameRequest(Exec(1, Front(acts)[..i]).tasks[Front(acts)[i].t].apc, d, d');
    assert acts[..i] == Front(acts)[..i];
    assert Creates(Exec(1, acts[..i]), acts[i], id, d');
  }

  /** Every deploy row has, at all times, the service, commit, kind and pull request that
      the request which created it asked for, and the image if that asked for one. */
  lemma {:induction false} EveryRowWasAskedFor(acts: seq<Action>, id: nat)
    requires id in Table(acts).deploys
    ensures Created(acts, id, Table(acts).deploys[id])
  {
    var s, a := Exec(1, Front(acts)), Last(acts);
    assert Exec(1, acts) == Step(1, s, a) && acts[..|acts| - 1] == Front(acts);
    RowStep(acts, id);
    ExecInv(Front(acts));
    hide Exec, Step, DeployEvolves, Creates, Inv;
    if id in Table(Front(acts)).deploys {
      IdsAreOld(s, id);
      EveryRowWasAskedFor(Front(acts), id);
      CreatedStays(acts, id, Table(Front(acts)).deploys[id], Table(acts).deploys[id]);
    } else {
      StepCreates(s, a, id);
      assert Creates(Exec(1, acts[..|acts| - 1]), acts[|acts| - 1], id, Table(acts).deploys[id]);
    }
  }

  lemma IdsAreOld(s: State, id: nat)
    requires Inv(s) && id in s.world.db.deploys
    ensures id < s.world.db.nextDeploy
  {
    DeployFacts(s.world, id);
  }

  // -------------------------------------------------- which image is reused

  /** from is the newest deploy of the service that has an image. */
  predicate Newest(db: DB, service: nat, from: nat) {
    && from in db.deploys && db.deploys[from].service == service && db.deploys[from].image != ""
    && forall j :: j > from && j in db.deploys && db.deploys[j].service == service ==> db.deploys[j].image == ""
  }

  /** A settings change reuses image and commit of the service's newest deploy with an
      image, and finds one exactly when there is one. */
  lemma RedeployTakesNewest(w: World, service: nat, c: Choice)
    ensures var n := TaskStep(w, Api(Redeploy(service)), c);
      && n.world == w && n.note == Silent
      && (n.task.Some? <==> c.reply.Ok? && Newest(w.db, service, c.row))
      && (n.task.Some? ==>
            n.task.value == Api(Reuse(service, w.db.deploys[c.row].image, w.db.deploys[c.row].commit, c.row)))
  {
  }

  /** There is at most one newest, so the query has no choice. */
  lemma NewestIsUnique(db: DB, service: nat, from: nat, from': nat)
    requires Newest(db, service, from) && Newest(db, service, from')
    ensures from == from'
  {
  }

  /** A rollback reuses image and commit of its target, for the target's service, and is
      refused exactly when the target cannot be read or has no image. */
  lemma RollbackTakesTarget(w: World, target: nat, c: Choice)
    ensures var n := TaskStep(w, Api(Rollback(target)), c);
      && n.world == w && n.note == Silent
      && (n.task.Some? <==> c.reply.Ok? && target in w.db.deploys && w.db.deploys[target].image != "")
      && (n.task.Some? ==>
            n.task.value == Api(Reuse(w.db.deploys[target].service, w.db.deploys[target].image,
                                      w.db.deploys[target].commit, target)))
  {
  }

  /** The step decided to reuse deploy from: a rollback to it, or a settings change of a
      service whose newest image it had then. */
  predicate Chooses(s: State, a: Action, service: nat, image: string, commit: string, from: nat) {
    && a.RunTask? && a.t in s.tasks && from in s.world.db.deploys
    && s.world.db.deploys[from].service == service && s.world.db.deploys[from].image == image
    && s.world.db.deploys[from].commit == commit
    && (s.tasks[a.t] == Api(Rollback(from))
        || (s.tasks[a.t] == Api(Redeploy(service)) && Newest(s.world.db, service, from)))
  }

  ghost predicate Chosen(acts: seq<Action>, service: nat, image: string, commit: string, from: nat) {
    exists i :: 0 <= i < |acts| && Chooses(Exec(1, acts[..i]), acts[i], service, image, commit, from)
  }

  lemma StepChooses(s: State, a: Action, t: nat)
    requires t in Step(1, s, a).tasks && Step(1, s, a).tasks[t].Api? && Step(1, s, a).tasks[t].apc.Reuse?
    ensures var pc := Step(1, s, a).tasks[t].apc;
      (t in s.tasks && s.tasks[t] == Api(pc)) || Chooses(s, a, pc.service, pc.image, pc.commit, pc.from)
  {
    if a.RunTask? && a.t in s.tasks && a.t == t {
      TaskChooses(s.world, s.tasks[t], a.c);
    }
    hide TaskStep, IsSweep, Newest;
  }

  lemma TaskChooses(w: World, task: Task, c: Choice)
    requires var n := TaskStep(w, task, c); n.task.Some? && n.task.value.Api? && n.task.value.apc.Reuse?
    ensures var pc := TaskStep(w, task, c).task.value.apc;
      && pc.from in w.db.deploys && w.db.deploys[pc.from].service == pc.service
      && w.db.deploys[pc.from].image == pc.image && w.db.deploys[pc.from].commit == pc.commit
      && (task == Api(Rollback(pc.from)) || (task == Api(Redeploy(pc.service)) && Newest(w.db, pc.service, pc.from)))
  {
  }

  /** In every run an image about to be reused was chosen by a rollback to that deploy, or
      by a settings change that found it the newest of the service. */
  lemma {:induction false} ReuseWasChosen(acts: seq<Action>, t: nat)
    requires t in Exec(1, acts).tasks && Exec(1, acts).tasks[t].Api? && Exec(1, acts).tasks[t].apc.Reuse?
    ensures var pc := Exec(1, acts).tasks[t].apc; Chosen(acts, pc.service, pc.image, pc.commit, pc.from)
  {
    var s, a, pc := Exec(1, Front(acts)), Last(acts), Exec(1, acts).tasks[t].apc;
    assert Exec(1, acts) == Step(1, s, a) && acts[..|acts| - 1] == Front(acts);
    StepChooses(s, a, t);
    hide Step, Chooses;
    if t in s.tasks && s.tasks[t] == Api(pc) {
      ReuseWasChosen(Front(acts), t);
      hide Exec;
      var i :| 0 <= i < |Front(acts)|
        && Chooses(Exec(1, Front(acts)[..i]), Front(acts)[i], pc.service, pc.image, pc.commit, pc.from);
      assert acts[..i] == Front(acts)[..i];
    } else {
      assert Chooses(Exec(1, acts[..|acts| - 1]), acts[|acts| - 1], pc.service, pc.image, pc.commit, pc.from);
    }
  }
}
