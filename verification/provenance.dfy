/** Where the image of a deploy comes from, over whole runs. */
module Provenance {
  import opened Basics
  import opened Lifecycle
  import opened Rows
  import opened Pipeline
  import opened Ownership
  import opened Steps
  import opened Invariant
  import opened Runs

  /** The build backend returned this image for this deploy. */
  predicate IsImageReturned(s: State, a: Action, id: nat, image: string) {
    && a.RunTask? && a.t in s.tasks && a.c.output == Return(image)
    && s.tasks[a.t].Builder? && s.tasks[a.t].id == id && s.tasks[a.t].bpc.Running?
  }

  /** A request to deploy this image to this service created this deploy. */
  predicate IsImageRequested(s: State, a: Action, id: nat, service: nat, image: string) {
    && a.RunTask? && a.t in s.tasks && !a.c.reply.Error?
    && s.tasks[a.t] == Api(ImageDeploy(service, image)) && s.world.db.nextDeploy == id
  }

  /** A rollback or redeploy created deploy id from the image of deploy `from`. */
  predicate IsImageReused(s: State, a: Action, id: nat, from: nat) {
    && a.RunTask? && a.t in s.tasks && !a.c.reply.Error? && s.world.db.nextDeploy == id
    && s.tasks[a.t].Api? && s.tasks[a.t].apc.Reuse? && s.tasks[a.t].apc.from == from
  }

  ghost predicate Returned(acts: seq<Action>, id: nat, image: string) {
    exists i :: 0 <= i < |acts| && IsImageReturned(Exec(1, acts[..i]), acts[i], id, image)
  }

  ghost predicate Requested(acts: seq<Action>, id: nat, service: nat, image: string) {
    exists i :: 0 <= i < |acts| && IsImageRequested(Exec(1, acts[..i]), acts[i], id, service, image)
  }

  ghost predicate Reused(acts: seq<Action>, id: nat, from: nat) {
    exists i :: 0 <= i < |acts| && IsImageReused(Exec(1, acts[..i]), acts[i], id, from)
  }

  lemma TaskMakes(w: World, task: Task, c: Choice, id: nat, image: string)
    requires (id, image) in TaskStep(w, task, c).world.made && (id, image) !in w.made
    ensures task.Builder? && task.id == id && task.bpc.Running? && c.output == Return(image)
  {
  }

  lemma StepMakes(s: State, a: Action, id: nat, image: string)
    requires (id, image) in Step(1, s, a).world.made && (id, image) !in s.world.made
    ensures IsImageReturned(s, a, id, image)
  {
    hide TaskStep;
    TaskMakes(s.world, s.tasks[a.t], a.c, id, image);
  }

  lemma {:induction false} MadeWereReturned(acts: seq<Action>, id: nat, image: string)
    requires (id, image) in Exec(1, acts).world.made
    ensures Returned(acts, id, image)
  {
    hide Step;
    var s := Exec(1, Front(acts));
    if (id, image) in s.world.made {
      MadeWereReturned(Front(acts), id, image);
      var i :| 0 <= i < |Front(acts)| && IsImageReturned(Exec(1, Front(acts)[..i]), Front(acts)[i], id, image);
      assert acts[..i] == Front(acts)[..i];
    } else {
      StepMakes(s, Last(acts), id, image);
    }
  }

  lemma TaskAsks(w: World, task: Task, c: Choice, id: nat, image: string)
    requires (id, image) in TaskStep(w, task, c).world.asked && (id, image) !in w.asked
    ensures task.Api? && task.apc.ImageDeploy? && task.apc.image == image && w.db.nextDeploy == id && !c.reply.Error?
    ensures id in TaskStep(w, task, c).world.db.deploys
    ensures TaskStep(w, task, c).world.db.deploys[id].service == task.apc.service
  {
  }

  lemma StepAsks(s: State, a: Action, id: nat, image: string)
    requires (id, image) in Step(1, s, a).world.asked && (id, image) !in s.world.asked
    ensures id in Step(1, s, a).world.db.deploys
    ensures IsImageRequested(s, a, id, Step(1, s, a).world.db.deploys[id].service, image)
  {
    hide TaskStep;
    TaskAsks(s.world, s.tasks[a.t], a.c, id, image);
  }

  lemma {:induction false} AskedWereRequested(acts: seq<Action>, id: nat, image: string)
    requires (id, image) in Exec(1, acts).world.asked
    ensures id < Table(acts).nextDeploy
    ensures id in Table(acts).deploys ==> Requested(acts, id, Table(acts).deploys[id].service, image)
  {
    hide Step;
    var s := Exec(1, Front(acts));
    RowStep(acts, id);
    if (id, image) in s.world.asked {
      AskedWereRequested(Front(acts), id, image);
      if id in Table(acts).deploys {
        var service := Table(acts).deploys[id].service;
        var i :| 0 <= i < |Front(acts)|
          && IsImageRequested(Exec(1, Front(acts)[..i]), Front(acts)[i], id, service, image);
        assert acts[..i] == Front(acts)[..i];
      }
    } else {
      StepAsks(s, Last(acts), id, image);
    }
  }

  lemma TaskReuses(w: World, task: Task, c: Choice, id: nat)
    requires id in TaskStep(w, task, c).world.reused
    requires id !in w.reused || w.reused[id] != TaskStep(w, task, c).world.reused[id]
    ensures task.Api? && task.apc.Reuse? && w.db.nextDeploy == id && !c.reply.Error?
    ensures task.apc.from == TaskStep(w, task, c).world.reused[id]
  {
  }

  lemma StepReuses(s: State, a: Action, id: nat)
    requires id in Step(1, s, a).world.reused
    requires id !in s.world.reused || s.world.reused[id] != Step(1, s, a).world.reused[id]
    ensures IsImageReused(s, a, id, Step(1, s, a).world.reused[id])
  {
    hide TaskStep;
    TaskReuses(s.world, s.tasks[a.t], a.c, id);
  }

  lemma {:induction false} ReusedWereRequested(acts: seq<Action>, id: nat)
    requires id in Exec(1, acts).world.reused
    ensures Reused(acts, id, Exec(1, acts).world.reused[id])
  {
    hide Step;
    var s := Exec(1, Front(acts));
    var from := Exec(1, acts).world.reused[id];
    if id in s.world.reused && s.world.reused[id] == from {
      ReusedWereRequested(Front(acts), id);
      var i :| 0 <= i < |Front(acts)| && IsImageReused(Exec(1, Front(acts)[..i]), Front(acts)[i], id, from);
      assert acts[..i] == Front(acts)[..i];
    } else {
      StepReuses(s, Last(acts), id);
    }
  }

  /** The image of deploy id was built for it, or requested for it, or was reused
      from an older deploy of the same service, where it traces in turn. */
  ghost predicate Traces(acts: seq<Action>, id: nat)
    decreases id
  {
    && id in Table(acts).deploys
    && var d := Table(acts).deploys[id];
    || Returned(acts, id, d.image)
    || Requested(acts, id, d.service, d.image)
    || exists from: nat :: from < id && Traces(acts, from) && Reused(acts, id, from)
         && Table(acts).deploys[from].service == d.service && Table(acts).deploys[from].image == d.image
  }

  /** No image ever appears on a deploy row from nowhere, nor crosses from one
      service to another, through any number of rollbacks and redeploys. */
  lemma {:induction false} EveryImageTraces(acts: seq<Action>, id: nat)
    requires id in Table(acts).deploys && Table(acts).deploys[id].image != ""
    ensures Traces(acts, id)
    decreases id
  {
    ExecInv(acts);
    var w := Exec(1, acts).world;
    var d := w.db.deploys[id];
    assert HasSource(w, id);
    hide Exec;
    if (id, d.image) in w.made {
      MadeWereReturned(acts, id, d.image);
    } else if (id, d.image) in w.asked {
      AskedWereRequested(acts, id, d.image);
    } else {
      ReusedWereRequested(acts, id);
      EveryImageTraces(acts, w.reused[id]);
    }
  }
}
