/** Whether a deploy that is ready to be applied still gets to the controller
    (internal/builder/processor.go, internal/api, internal/store/events.go,
    internal/controller/processor.go). */
module Handoff {
  import opened Basics
  import opened Lifecycle
  import opened Rows
  import opened Pipeline
  import opened Ownership
  import opened Steps
  import opened Invariant
  import opened Runs
  import Outcomes

  predicate IsDeploying(db: DB, id: nat) {
    id in db.deploys && db.deploys[id].status == Deploying
  }

  /** The task is about to publish id to the controllers. */
  predicate Publisher(task: Task, id: nat) {
    task == Api(NotifyControllers(id)) || (task.Builder? && task.id == id && task.bpc.HandOff?)
  }

  predicate Carries(task: Task, id: nat) {
    Publisher(task, id) || (task.Reconcile? && task.id == id)
  }

  predicate Waits(s: State, k: nat, id: nat) {
    k in s.controllers && id in s.controllers[k]
  }

  /** The deploy is in a controller's inbox, or in the hands of a task that publishes or
      reconciles it. */
  ghost predicate OnItsWay(s: State, id: nat) {
    (exists k :: Waits(s, k, id)) || exists t :: t in s.tasks && Carries(s.tasks[t], id)
  }

  // --------------------------------------------- how a deploy can be lost

  /** The publishing call failed, or nobody was listening. */
  predicate PublishUnheard(s: State, a: Action, id: nat) {
    && a.RunTask? && a.t in s.tasks && Publisher(s.tasks[a.t], id)
    && (a.c.reply.Error? || s.controllers == map[])
  }

  predicate Stops(s: State, a: Action, t: nat) {
    && t in s.tasks
    && (a == StopTask(t)
        || (a.StopBuilder? && s.tasks[t].Builder? && s.tasks[t].proc == a.p)
        || (a.StopController? && s.tasks[t].Reconcile? && s.tasks[t].ctl == a.k))
  }

  /** A task that published or reconciled the deploy was stopped. */
  ghost predicate CarrierStopped(s: State, a: Action, id: nat) {
    exists t :: Stops(s, a, t) && Carries(s.tasks[t], id)
  }

  /** The controller stopped with the deploy in its inbox. */
  predicate InboxDropped(s: State, a: Action, id: nat) {
    a.StopController? && Waits(s, a.k, id)
  }

  /** The row was created, or became deploying, in a call that reported an error. */
  predicate ReplyLost(s: State, a: Action, id: nat) {
    && a.RunTask? && a.t in s.tasks && a.c.reply.LostReply?
    && match s.tasks[a.t]
       case Builder(_, bid, pc) => bid == id && pc.Write? && pc.to == Deploying
       case Api(pc) => (pc.ImageDeploy? || pc.Reuse?) && s.world.db.nextDeploy == id
       case _ => false
  }

  /** The reconcile ended without writing a status: its load of the deploy, or one of the
      two calls of its status update, failed. */
  predicate ReconcileGaveUp(s: State, a: Action, id: nat) {
    && a.RunTask? && a.t in s.tasks && s.tasks[a.t].Reconcile? && s.tasks[a.t].id == id
    && (if s.tasks[a.t].cpc.WriteOutcome? then a.c.reply.Error?
        else (s.tasks[a.t].cpc.Load? || s.tasks[a.t].cpc.CheckOutcome?) && !a.c.reply.Ok?)
  }

  ghost predicate Strays(s: State, a: Action, id: nat) {
    PublishUnheard(s, a, id) || CarrierStopped(s, a, id) || InboxDropped(s, a, id) || ReplyLost(s, a, id)
    || ReconcileGaveUp(s, a, id)
  }

  ghost predicate Strayed(acts: seq<Action>, id: nat) {
    exists i :: 0 <= i < |acts| && Strays(Exec(1, acts[..i]), acts[i], id)
  }

  // --------------------------------------------------------- single steps

  lemma PublishStep(w: World, task: Task, c: Choice, id: nat)
    ensures Publisher(task, id) ==>
      TaskStep(w, task, c) == Next(w, None, if c.reply.Error? then Silent else ToControllers(id))
    ensures TaskStep(w, task, c).note == ToControllers(id) ==> Publisher(task, id) && !c.reply.Error?
  {
  }

  /** A publication that does not fail puts the deploy into every running controller's
      inbox. */
  lemma PublishedIsWaiting(s: State, t: nat, c: Choice, id: nat, k: nat)
    requires t in s.tasks && Publisher(s.tasks[t], id) && !c.reply.Error? && k in s.controllers
    ensures var s' := Step(1, s, RunTask(t, c)); Waits(s', k, id) && t !in s'.tasks && s'.world == s.world
  {
    PublishStep(s.world, s.tasks[t], c, id);
    hide TaskStep;
  }

  lemma ReconcileGoesOn(w: World, task: Task, c: Choice, id: nat)
    requires task.Reconcile? && task.id == id && TaskOk(w, task)
    requires IsDeploying(w.db, id) && IsDeploying(TaskStep(w, task, c).world.db, id)
    ensures TaskStep(w, task, c).task.Some? ==> Carries(TaskStep(w, task, c).task.value, id)
    ensures TaskStep(w, task, c).task.None? <==>
      if task.cpc.WriteOutcome? then c.reply.Error? else (task.cpc.Load? || task.cpc.CheckOutcome?) && !c.reply.Ok?
  {
  }

  lemma BecomesDeploying(w: World, task: Task, c: Choice, id: nat)
    requires TaskOk(w, task) && (id in w.db.deploys ==> id < w.db.nextDeploy)
    requires !IsDeploying(w.db, id) && IsDeploying(TaskStep(w, task, c).world.db, id)
    ensures !c.reply.Error?
    ensures c.reply.Ok? ==> TaskStep(w, task, c).task.Some? && Carries(TaskStep(w, task, c).task.value, id)
    ensures match task
      case Builder(_, bid, pc) => bid == id && pc.Write? && pc.to == Deploying
      case Api(pc) => (pc.ImageDeploy? || pc.Reuse?) && w.db.nextDeploy == id
      case _ => false
  {
    if id in w.db.deploys {
      Outcomes.StatusWriters(w, task, c, id);
    }
  }

  lemma NewCarrier(w: World, task: Task, c: Choice, id: nat)
    requires TaskOk(w, task) && IsDeploying(w.db, id) && id < w.db.nextDeploy
    requires TaskStep(w, task, c).task.Some? && Carries(TaskStep(w, task, c).task.value, id)
    ensures Carries(task, id)
  {
  }

  lemma CarriersHold(s: State, id: nat)
    ensures forall t :: t in s.tasks && Carries(s.tasks[t], id) ==> Holds(s.tasks[t]) == Some(id)
  {
  }

  lemma TasksAfter(s: State, a: Action, t: nat)
    requires !a.RunTask?
    ensures t in Step(1, s, a).tasks && t in s.tasks ==> Step(1, s, a).tasks[t] == s.tasks[t]
    ensures t in s.tasks ==> (t in Step(1, s, a).tasks <==> !Stops(s, a, t))
  {
    hide TaskStep, IsSweep, AddService, DropServices;
  }

  lemma InboxAfter(s: State, a: Action, k: nat, id: nat)
    requires !a.RunTask? && Waits(s, k, id)
    ensures (a.StopController? && a.k == k) || Waits(Step(1, s, a), k, id)
      || (a.ReceiveDeployment? && a.t in Step(1, s, a).tasks && Step(1, s, a).tasks[a.t] == Reconcile(k, id, Load))
  {
    hide TaskStep, IsSweep, AddService, DropServices;
  }

  /** Outside the tasks nothing takes a deploy up. */
  lemma OutsideCarriesNothing(s: State, a: Action, id: nat)
    requires !a.RunTask? && OnItsWay(Step(1, s, a), id)
    ensures OnItsWay(s, id)
  {
    hide TaskStep, IsSweep, AddService, DropServices;
    var s' := Step(1, s, a);
    if k :| Waits(s', k, id) {
      assert Waits(s, k, id);
    } else {
      var t :| t in s'.tasks && Carries(s'.tasks[t], id);
      if t in s.tasks && s.tasks[t] == s'.tasks[t] {
      } else {
        assert a.ReceiveDeployment? && Waits(s, a.k, id);
      }
    }
  }

  lemma OutsideRowsStay(s: State, a: Action, id: nat)
    requires !a.RunTask? || a.t !in s.tasks
    ensures IsDeploying(Step(1, s, a).world.db, id) ==> IsDeploying(s.world.db, id)
  {
    Outcomes.OthersMoveNothing(s, a, id);
    hide Step;
  }

  // ------------------------------------------------------- steps of the system

  lemma RunKeepsOthers(s: State, t: nat, c: Choice, id: nat)
    requires t in s.tasks
    ensures forall k :: Waits(s, k, id) ==> Waits(StepTask(s, t, c), k, id)
    ensures forall u :: u in s.tasks && u != t ==>
      u in StepTask(s, t, c).tasks && StepTask(s, t, c).tasks[u] == s.tasks[u]
    ensures var n := TaskStep(s.world, s.tasks[t], c);
      && StepTask(s, t, c).world == n.world
      && (n.task.Some? ==> t in StepTask(s, t, c).tasks && StepTask(s, t, c).tasks[t] == n.task.value)
      && (n.task.None? ==> t !in StepTask(s, t, c).tasks)
      && (forall k :: Waits(StepTask(s, t, c), k, id) ==> Waits(s, k, id) || n.note == ToControllers(id))
  {
    hide TaskStep;
  }

  lemma CarrierRuns(s: State, t: nat, c: Choice, id: nat)
    requires t in s.tasks && TaskOk(s.world, s.tasks[t]) && Carries(s.tasks[t], id)
    requires IsDeploying(s.world.db, id) && IsDeploying(StepTask(s, t, c).world.db, id)
    requires !PublishUnheard(s, RunTask(t, c), id) && !ReconcileGaveUp(s, RunTask(t, c), id)
    ensures OnItsWay(StepTask(s, t, c), id)
  {
    RunKeepsOthers(s, t, c, id);
    if Publisher(s.tasks[t], id) {
      hide TaskStep, TaskOk;
      var k :| k in s.controllers;
      PublishedIsWaiting(s, t, c, id, k);
      assert Waits(StepTask(s, t, c), k, id);
    } else {
      hide StepTask;
      ReconcileGoesOn(s.world, s.tasks[t], c, id);
      hide TaskStep, TaskOk;
      assert t in StepTask(s, t, c).tasks;
    }
  }

  lemma RunKeepsWay(s: State, t: nat, c: Choice, id: nat)
    requires Inv(s) && t in s.tasks && IsDeploying(StepTask(s, t, c).world.db, id)
    requires IsDeploying(s.world.db, id) ==> OnItsWay(s, id)
    requires !Strays(s, RunTask(t, c), id)
    ensures OnItsWay(StepTask(s, t, c), id)
  {
    var s' := StepTask(s, t, c);
    assert TaskOk(s.world, s.tasks[t]) && (id in s.world.db.deploys ==> id < s.world.db.nextDeploy) by {
      assert TasksOk(s.world, s.tasks) && WorldOk(s.world);
      if id in s.world.db.deploys { DeployFacts(s.world, id); }
    }
    RunKeepsOthers(s, t, c, id);
    hide Inv, StepTask, TaskOk, TaskStep, Publisher;
    if !IsDeploying(s.world.db, id) {
      BecomesDeploying(s.world, s.tasks[t], c, id);
      assert t in s'.tasks && Carries(s'.tasks[t], id);
    } else if k :| Waits(s, k, id) {
      assert Waits(s', k, id);
    } else {
      var u :| u in s.tasks && Carries(s.tasks[u], id);
      if u == t {
        CarrierRuns(s, t, c, id);
      } else {
        assert u in s'.tasks && Carries(s'.tasks[u], id);
      }
    }
  }

  lemma OutsideKeepsWay(s: State, a: Action, id: nat)
    requires !a.RunTask? && OnItsWay(s, id) && !Strays(s, a, id)
    ensures OnItsWay(Step(1, s, a), id)
  {
    var s' := Step(1, s, a);
    if k :| Waits(s, k, id) {
      InboxAfter(s, a, k, id);
      hide Step;
      if !Waits(s', k, id) { assert a.t in s'.tasks && Carries(s'.tasks[a.t], id); }
    } else {
      var t :| t in s.tasks && Carries(s.tasks[t], id);
      TasksAfter(s, a, t);
      hide Step;
      assert t in s'.tasks && Carries(s'.tasks[t], id);
    }
  }

  lemma StrayedStays(acts: seq<Action>, id: nat)
    requires acts != [] && Strayed(Front(acts), id)
    ensures Strayed(acts, id)
  {
    hide Exec, Strays;
    var i :| 0 <= i < |Front(acts)| && Strays(Exec(1, Front(acts)[..i]), Front(acts)[i], id);
    assert acts[..i] == Front(acts)[..i];
  }

  /** Every deploying deploy is in the controller's inbox or in the hands of a task that
      publishes or reconciles it, unless one of the listed events happened to it. */
  lemma {:induction false} DeployingIsOnItsWay(acts: seq<Action>, id: nat)
    requires IsDeploying(Table(acts), id)
    ensures OnItsWay(Exec(1, acts), id) || Strayed(acts, id)
  {
    var s, a := Exec(1, Front(acts)), Last(acts);
    assert acts[..|acts| - 1] == Front(acts);
    if Strayed(Front(acts), id) {
      StrayedStays(acts, id);
    } else if !Strays(s, a, id) {
      ExecInv(Front(acts));
      hide Inv, Strays, Strayed, OnItsWay, StepTask, IsDeploying;
      if IsDeploying(s.world.db, id) { DeployingIsOnItsWay(Front(acts), id); }
      if a.RunTask? && a.t in s.tasks {
        RunKeepsWay(s, a.t, a.c, id);
      } else {
        OutsideRowsStay(s, a, id);
        if !a.RunTask? { OutsideKeepsWay(s, a, id); }
      }
    }
  }

  // ------------------------------------------------------ lost once, lost for good

  /** Only one carrier or inbox entry exists. */
  lemma OneWay(s: State, id: nat)
    requires Inv(s)
    ensures forall t, u :: t in s.tasks && u in s.tasks && Carries(s.tasks[t], id) && Carries(s.tasks[u], id) ==> t == u
    ensures forall t, k :: t in s.tasks && Carries(s.tasks[t], id) ==> !Waits(s, k, id)
    ensures forall k, j :: Waits(s, k, id) && Waits(s, j, id) ==> k == j
  {
    CarriersHold(s, id);
    hide WorldOk, TasksOk, BuildersOk;
  }

  /** A task takes a deploying deploy up only if it carried it already. */
  lemma RunCarriesNothing(s: State, t: nat, c: Choice, id: nat)
    requires Inv(s) && t in s.tasks && IsDeploying(s.world.db, id) && OnItsWay(StepTask(s, t, c), id)
    ensures OnItsWay(s, id)
  {
    var s', task := StepTask(s, t, c), s.tasks[t];
    assert TaskOk(s.world, task) && id < s.world.db.nextDeploy by {
      assert TasksOk(s.world, s.tasks) && WorldOk(s.world);
      DeployFacts(s.world, id);
    }
    RunKeepsOthers(s, t, c, id);
    PublishStep(s.world, task, c, id);
    hide Inv, StepTask, TaskOk, TaskStep, Publisher, Carries;
    if k :| Waits(s', k, id) {
      if !Waits(s, k, id) { assert Carries(task, id) by { PublisherCarries(task, id); } }
    } else {
      var u :| u in s'.tasks && Carries(s'.tasks[u], id);
      if u == t { NewCarrier(s.world, task, c, id); }
      assert u in s.tasks && Carries(s.tasks[u], id) by { OldTask(s, t, c, u); }
    }
  }

  lemma PublisherCarries(task: Task, id: nat)
    requires Publisher(task, id)
    ensures Carries(task, id)
  {}

  lemma OldTask(s: State, t: nat, c: Choice, u: nat)
    requires t in s.tasks && u in StepTask(s, t, c).tasks
    ensures u in s.tasks && (u != t ==> StepTask(s, t, c).tasks[u] == s.tasks[u])
  {
    hide TaskStep;
  }

  /** The one carrier ends without a publication that somebody hears. */
  lemma CarrierEnds(s: State, t: nat, c: Choice, id: nat)
    requires Inv(s) && t in s.tasks && Carries(s.tasks[t], id) && TaskStep(s.world, s.tasks[t], c).task.None?
    requires TaskStep(s.world, s.tasks[t], c).note != ToControllers(id) || s.controllers == map[]
    ensures !OnItsWay(StepTask(s, t, c), id)
  {
    OneWay(s, id);
    RunKeepsOthers(s, t, c, id);
    var s' := StepTask(s, t, c);
    assert s.controllers == map[] ==> s'.controllers == map[] by { hide TaskStep; }
    hide Inv, StepTask, TaskStep, Carries;
    forall u | u in s'.tasks ensures !Carries(s'.tasks[u], id) { OldTask(s, t, c, u); }
  }

  lemma GivenUp(w: World, task: Task, c: Choice)
    requires task.Reconcile?
    requires if task.cpc.WriteOutcome? then c.reply.Error?
             else (task.cpc.Load? || task.cpc.CheckOutcome?) && !c.reply.Ok?
    ensures TaskStep(w, task, c) == Next(w, None, Silent)
  {
  }

  /** A stop leaves no more than there was. */
  lemma StopLeaves(s: State, a: Action)
    requires a.StopTask? || a.StopBuilder? || a.StopController?
    ensures forall t :: t in Step(1, s, a).tasks ==>
      t in s.tasks && Step(1, s, a).tasks[t] == s.tasks[t] && !Stops(s, a, t)
    ensures forall k, id :: Waits(Step(1, s, a), k, id) ==> Waits(s, k, id) && !(a.StopController? && a.k == k)
  {
  }

  lemma StopLoses(s: State, a: Action, id: nat)
    requires Inv(s) && (CarrierStopped(s, a, id) || InboxDropped(s, a, id))
    ensures !OnItsWay(Step(1, s, a), id)
  {
    OneWay(s, id);
    StopLeaves(s, a);
    hide Inv, Step, Carries;
  }

  /** For a deploy that is on its way exactly the listed events take it off: none of them
      is harmless, and nothing else does it. */
  lemma WayLostIffStrays(s: State, a: Action, id: nat)
    requires Inv(s) && IsDeploying(s.world.db, id) && IsDeploying(Step(1, s, a).world.db, id) && OnItsWay(s, id)
    ensures !OnItsWay(Step(1, s, a), id) <==> Strays(s, a, id)
  {
    NoReplyLost(s, a, id);
    hide Inv, OnItsWay, IsDeploying, TaskStep, Waits, Carries;
    if !Strays(s, a, id) {
      if a.RunTask? && a.t in s.tasks {
        RunKeepsWay(s, a.t, a.c, id);
      } else if !a.RunTask? {
        OutsideKeepsWay(s, a, id);
      }
    } else if CarrierStopped(s, a, id) || InboxDropped(s, a, id) {
      StopLoses(s, a, id);
    } else if PublishUnheard(s, a, id) {
      PublishStep(s.world, s.tasks[a.t], a.c, id);
      PublisherCarries(s.tasks[a.t], id);
      CarrierEnds(s, a.t, a.c, id);
    } else {
      GivenUp(s.world, s.tasks[a.t], a.c);
      ReconcileCarries(s.tasks[a.t]);
      CarrierEnds(s, a.t, a.c, id);
    }
  }

  lemma ReconcileCarries(task: Task)
    requires task.Reconcile?
    ensures Carries(task, task.id)
  {}

  lemma NoReplyLost(s: State, a: Action, id: nat)
    requires Inv(s) && IsDeploying(s.world.db, id)
    ensures !ReplyLost(s, a, id)
  {
    assert TasksOk(s.world, s.tasks) && WorldOk(s.world);
    DeployFacts(s.world, id);
    if a.RunTask? && a.t in s.tasks { assert TaskOk(s.world, s.tasks[a.t]); }
    hide WorldOk, Links;
  }

  lemma StuckRun(s: State, t: nat, c: Choice, id: nat)
    requires Inv(s) && t in s.tasks && IsDeploying(s.world.db, id) && !OnItsWay(s, id)
    requires id in StepTask(s, t, c).world.db.deploys
    ensures IsDeploying(StepTask(s, t, c).world.db, id)
  {
    var task := s.tasks[t];
    assert TaskOk(s.world, task) && id < s.world.db.nextDeploy by {
      assert TasksOk(s.world, s.tasks) && WorldOk(s.world);
      DeployFacts(s.world, id);
    }
    RunKeepsOthers(s, t, c, id);
    hide Inv, StepTask, TaskStep, Links, Waits;
    Outcomes.StatusWriters(s.world, task, c, id);
    if task.Builder? && task.id == id && task.bpc.Claim? { NotClaimed(s.world, task, c, id); }
  }

  lemma StuckStep(s: State, a: Action, id: nat)
    requires Inv(s) && IsDeploying(s.world.db, id) && !OnItsWay(s, id) && id in Step(1, s, a).world.db.deploys
    ensures IsDeploying(Step(1, s, a).world.db, id) && !OnItsWay(Step(1, s, a), id)
  {
    hide Inv, OnItsWay, StepTask;
    if a.RunTask? && a.t in s.tasks {
      StuckRun(s, a.t, a.c, id);
      if OnItsWay(Step(1, s, a), id) { RunCarriesNothing(s, a.t, a.c, id); }
    } else {
      Outcomes.OthersMoveNothing(s, a, id);
      if !a.RunTask? && OnItsWay(Step(1, s, a), id) { OutsideCarriesNothing(s, a, id); }
    }
  }

  lemma NotClaimed(w: World, task: Task, c: Choice, id: nat)
    requires IsDeploying(w.db, id) && task.Builder? && task.id == id && task.bpc.Claim?
    ensures TaskStep(w, task, c).world == w
  {
  }

  /** The controllers' channel has no sweep: a deploying deploy that is not on its way any
      more stays deploying for as long as it exists, and is never taken up again. */
  lemma {:induction false} StuckForGood(acts: seq<Action>, more: seq<Action>, id: nat)
    requires IsDeploying(Table(acts), id) && !OnItsWay(Exec(1, acts), id)
    ensures id < Table(acts + more).nextDeploy
    ensures id in Table(acts + more).deploys ==>
      IsDeploying(Table(acts + more), id) && !OnItsWay(Exec(1, acts + more), id)
    decreases |more|
  {
    if more == [] {
      assert acts + more == acts;
      ExecInv(acts);
      DeployFacts(Exec(1, acts).world, id);
    } else {
      var all := acts + more;
      assert Front(all) == acts + Front(more);
      StuckForGood(acts, Front(more), id);
      RowStep(all, id);
      ExecInv(Front(all));
      assert Exec(1, all) == Step(1, Exec(1, Front(all)), Last(all));
      hide Exec, Step, Inv, OnItsWay, IsDeploying;
      if id in Table(all).deploys { StuckStep(Exec(1, Front(all)), Last(all), id); }
    }
  }
}
