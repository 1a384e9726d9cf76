/** Why a deploy ends as it does, over whole runs: live because its Apply succeeded, failed
    because its build or its reconcile did (internal/builder/processor.go,
    internal/controller/processor.go). */
module Outcomes {
  import opened Basics
  import opened Lifecycle
  import opened Rows
  import opened Pipeline
  import opened Ownership
  import opened Steps
  import opened Invariant
  import opened Runs

  /** Something that happened to a deploy in one step of a task. */
  datatype Mark =
    | Applied(id: nat)
    | ReconcileBroke(id: nat)
    | ImageStored(id: nat)
    | BuildBroke(id: nat)

  /** The step is: an Apply that returned no error; a reconcile's load of the service, its
      variables or its domains, or its Apply, that did; an image stored on the row; a build
      that returned an error, or whose image could not be stored. */
  predicate Makes(w: World, task: Task, c: Choice, m: Mark) {
    match m
    case Applied(id) => task.Reconcile? && task.id == id && task.cpc.ApplySpec? && c.reply.Ok?
    case ReconcileBroke(id) =>
      && task.Reconcile? && task.id == id
      && (task.cpc.FetchService? || task.cpc.FetchEnv? || task.cpc.FetchDomains? || task.cpc.ApplySpec?)
      && (!c.reply.Ok? || (task.cpc.FetchService? && task.cpc.row.service !in w.db.services))
    case ImageStored(id) => task.Builder? && task.id == id && task.bpc.SetImage? && c.reply.Ok?
    case BuildBroke(id) =>
      && task.Builder? && task.id == id
      && ((task.bpc.Running? && c.output.Broke?) || (task.bpc.SetImage? && !c.reply.Ok?))
  }

  predicate Marks(s: State, a: Action, m: Mark) {
    a.RunTask? && a.t in s.tasks && Makes(s.world, s.tasks[a.t], a.c, m)
  }

  ghost predicate Ever(acts: seq<Action>, m: Mark) {
    exists i :: 0 <= i < |acts| && Marks(Exec(1, acts[..i]), acts[i], m)
  }

  /** What must have happened for a task to be where it is. */
  function Grounds(task: Task): Option<Mark> {
    match task
    case Reconcile(_, id, pc) =>
      if !pc.CheckOutcome? && !pc.WriteOutcome? then None
      else if pc.to == Live then Some(Applied(id))
      else Some(ReconcileBroke(id))
    case Builder(_, id, pc) =>
      if pc.ReportFailure? || pc.FinishFailed? then Some(BuildBroke(id))
      else if pc.FinishOk? || pc.HandOff? then Some(ImageStored(id))
      else if !pc.Check? && !pc.Write? then None
      else if pc.to == Failed then Some(BuildBroke(id))
      else Some(ImageStored(id))
    case _ => None
  }

  lemma TaskGrounds(w: World, task: Task, c: Choice)
    requires TaskOk(w, task) && TaskStep(w, task, c).task.Some?
    ensures var after := Grounds(TaskStep(w, task, c).task.value);
      after.Some? ==> after == Grounds(task) || Makes(w, task, c, after.value)
  {
    hide InBuilding, Links;
  }

  lemma StepGrounds(s: State, a: Action, t: nat)
    requires Inv(s) && t in Step(1, s, a).tasks && Grounds(Step(1, s, a).tasks[t]).Some?
    ensures var m := Grounds(Step(1, s, a).tasks[t]);
      (t in s.tasks && Grounds(s.tasks[t]) == m) || Marks(s, a, m.value)
  {
    assert t in s.tasks ==> TaskOk(s.world, s.tasks[t]) by { assert TasksOk(s.world, s.tasks); }
    OtherTasks(s, a, t);
    hide TaskStep, TaskOk, Inv, Makes, Grounds;
    if a.RunTask? && a.t in s.tasks && a.t == t {
      TaskGrounds(s.world, s.tasks[t], a.c);
    }
  }

  lemma OtherTasks(s: State, a: Action, t: nat)
    requires t in Step(1, s, a).tasks
    ensures a.RunTask? && a.t == t && t in s.tasks ==>
      TaskStep(s.world, s.tasks[t], a.c).task == Some(Step(1, s, a).tasks[t])
    ensures !(a.RunTask? && a.t == t && t in s.tasks) ==>
      (t in s.tasks && s.tasks[t] == Step(1, s, a).tasks[t]) || Grounds(Step(1, s, a).tasks[t]) == None
  {
    hide TaskStep, IsSweep, AddService, DropServices;
  }

  lemma EverStays(acts: seq<Action>, m: Mark)
    requires acts != [] && (Ever(Front(acts), m) || Marks(Exec(1, Front(acts)), Last(acts), m))
    ensures Ever(acts, m)
  {
    hide Exec, Marks;
    if Ever(Front(acts), m) {
      var i :| 0 <= i < |Front(acts)| && Marks(Exec(1, Front(acts)[..i]), Front(acts)[i], m);
      assert acts[..i] == Front(acts)[..i];
    } else {
      assert acts[..|acts| - 1] == Front(acts);
    }
  }

  lemma {:induction false} TasksHaveGrounds(acts: seq<Action>, t: nat)
    requires t in Exec(1, acts).tasks && Grounds(Exec(1, acts).tasks[t]).Some?
    ensures Ever(acts, Grounds(Exec(1, acts).tasks[t]).value)
  {
    var s, a := Exec(1, Front(acts)), Last(acts);
    ExecInv(Front(acts));
    hide Step, Inv, Grounds, Ever, Marks;
    StepGrounds(s, a, t);
    if t in s.tasks && Grounds(s.tasks[t]) == Grounds(Exec(1, acts).tasks[t]) {
      TasksHaveGrounds(Front(acts), t);
    }
    EverStays(acts, Grounds(Exec(1, acts).tasks[t]).value);
  }

  /** Which grounds a move of a deploy's status needs; a claim needs none. */
  function Needed(id: nat, from: Status, to: Status): Option<Mark> {
    if to == Live then Some(Applied(id))
    else if to == Deploying then Some(ImageStored(id))
    else if to == Failed then Some(if from == Deploying then ReconcileBroke(id) else BuildBroke(id))
    else None
  }

  /** Only three calls write the status of a row that exists. */
  lemma StatusWriters(w: World, task: Task, c: Choice, id: nat)
    requires id in w.db.deploys && id < w.db.nextDeploy && id in TaskStep(w, task, c).world.db.deploys
    ensures var from, to := w.db.deploys[id].status, TaskStep(w, task, c).world.db.deploys[id].status;
      || from == to
      || (task.Builder? && task.id == id && task.bpc.Claim? && to == Building)
      || (task.Builder? && task.id == id && task.bpc.Write? && to == task.bpc.to)
      || (task.Reconcile? && task.id == id && task.cpc.WriteOutcome? && to == task.cpc.to)
  {
  }

  lemma TaskMoves(w: World, task: Task, c: Choice, id: nat)
    requires TaskOk(w, task)
    requires id in w.db.deploys && id < w.db.nextDeploy && id in TaskStep(w, task, c).world.db.deploys
    ensures var from, to := w.db.deploys[id].status, TaskStep(w, task, c).world.db.deploys[id].status;
      from != to && to != Building ==> Needed(id, from, to) == Grounds(task) && Grounds(task).Some?
  {
    StatusWriters(w, task, c, id);
    hide TaskStep, Links;
  }

  /** A move of a deploy's status has its grounds in the run before it: it becomes live
      because an Apply of it succeeded, goes from deploying to failed because its reconcile
      broke, from building to deploying because its image was stored, and from building to
      failed because its build broke. */
  lemma EveryMoveHasGrounds(acts: seq<Action>, id: nat)
    requires acts != [] && id in Table(Front(acts)).deploys && id in Table(acts).deploys
    ensures var from, to := Table(Front(acts)).deploys[id].status, Table(acts).deploys[id].status;
      from != to && to != Building ==> Needed(id, from, to).Some? && Ever(Front(acts), Needed(id, from, to).value)
  {
    var s, a := Exec(1, Front(acts)), Last(acts);
    ExecInv(Front(acts));
    assert WorldOk(s.world) && TasksOk(s.world, s.tasks);
    DeployFacts(s.world, id);
    hide Inv, WorldOk, Ever, Grounds, Needed, TaskOk;
    if a.RunTask? && a.t in s.tasks {
      TaskMoves(s.world, s.tasks[a.t], a.c, id);
      hide TaskStep, Exec;
      if Grounds(s.tasks[a.t]).Some? { TasksHaveGrounds(Front(acts), a.t); }
    } else {
      OthersMoveNothing(s, a, id);
    }
  }

  lemma OthersMoveNothing(s: State, a: Action, id: nat)
    requires !a.RunTask? || a.t !in s.tasks
    ensures id in Step(1, s, a).world.db.deploys ==>
      id in s.world.db.deploys && Step(1, s, a).world.db.deploys[id] == s.world.db.deploys[id]
  {
    hide TaskStep, IsSweep, TasksOutside;
  }

  /** Whatever happened in between: a live deploy was applied successfully, and a failed one
      had a build or a reconcile that broke. */
  lemma {:induction false} EndHasCause(acts: seq<Action>, id: nat)
    requires id in Table(acts).deploys
    ensures Table(acts).deploys[id].status == Live ==> Ever(acts, Applied(id))
    ensures Table(acts).deploys[id].status == Failed ==> Ever(acts, ReconcileBroke(id)) || Ever(acts, BuildBroke(id))
  {
    RowStep(acts, id);
    hide Ever, Marks;
    if id in Table(Front(acts)).deploys {
      EndHasCause(Front(acts), id);
      EveryMoveHasGrounds(acts, id);
      KeptMarks(acts, id);
    } else {
      ExecInv(Front(acts));
      hide Exec;
    }
  }

  lemma KeptMarks(acts: seq<Action>, id: nat)
    requires acts != []
    ensures Ever(Front(acts), Applied(id)) ==> Ever(acts, Applied(id))
    ensures Ever(Front(acts), ReconcileBroke(id)) ==> Ever(acts, ReconcileBroke(id))
    ensures Ever(Front(acts), BuildBroke(id)) ==> Ever(acts, BuildBroke(id))
  {
    hide Ever;
    if Ever(Front(acts), Applied(id)) { EverStays(acts, Applied(id)); }
    if Ever(Front(acts), ReconcileBroke(id)) { EverStays(acts, ReconcileBroke(id)); }
    if Ever(Front(acts), BuildBroke(id)) { EverStays(acts, BuildBroke(id)); }
  }
}
