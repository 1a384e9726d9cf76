/** The whole system keeps the ownership invariant: every step of every task and
    every start, stop, sweep and delivery, for any number of builders and one
    controller. */
module Invariant {
  import opened Basics
  import opened Lifecycle
  import opened Rows
  import opened Pipeline
  import opened Ownership
  import opened Calls
  import opened Steps

  ghost predicate TasksOk(w: World, tasks: map<nat, Task>) {
    forall t :: t in tasks ==> TaskOk(w, tasks[t])
  }

  /** No two tasks hold the same row. */
  predicate Exclusive(tasks: map<nat, Task>) {
    forall t, u :: t in tasks && u in tasks && t != u && Holds(tasks[t]).Some? ==> Holds(tasks[t]) != Holds(tasks[u])
  }

  /** An undelivered notification holds its row too. */
  ghost predicate InboxOk(w: World, tasks: map<nat, Task>, inbox: seq<nat>) {
    && (forall i :: 0 <= i < |inbox| ==> ReadyToDeploy(w, inbox[i]))
    && (forall i, j :: 0 <= i < j < |inbox| ==> inbox[i] != inbox[j])
    && (forall i, t :: 0 <= i < |inbox| && t in tasks ==> Holds(tasks[t]) != Some(inbox[i]))
  }

  ghost predicate ControllersOk(s: State) {
    && (forall k, k' :: k in s.controllers && k' in s.controllers ==> k == k')
    && (forall k :: k in s.controllers ==> InboxOk(s.world, s.tasks, s.controllers[k]))
  }

  function Queue(b: BuilderProc): seq<nat> {
    match b
    case Boot => []
    case Sweeping(ids) => ids
    case Listening(inbox) => inbox
  }

  ghost predicate BuildersOk(s: State) {
    && (forall p :: p in s.builders ==> p < s.nextBuilder)
    && (forall p, i :: p in s.builders && 0 <= i < |Queue(s.builders[p])| ==>
          Queue(s.builders[p])[i] < s.world.db.nextDeploy)
  }

  ghost predicate Inv(s: State) {
    WorldOk(s.world) && TasksOk(s.world, s.tasks) && Exclusive(s.tasks) && ControllersOk(s) && BuildersOk(s)
  }

  // --------------------------------------------------------------- task steps

  lemma UnheldIsFree(w: World, task: Task, id: nat)
    requires WorldOk(w) && TaskOk(w, task) && Unheld(w, id)
    ensures Holds(task) != Some(id)
  {
    hide WorldOk;
  }

  lemma OthersOk(s: State, t: nat, n: Next)
    requires WorldOk(s.world) && TasksOk(s.world, s.tasks) && Exclusive(s.tasks) && t in s.tasks
    requires StepOk(s.world, s.tasks[t], n)
    ensures TasksOk(n.world, s.tasks - {t})
    ensures n.task.Some? ==> TasksOk(n.world, s.tasks[t := n.task.value]) && Exclusive(s.tasks[t := n.task.value])
    ensures Exclusive(s.tasks - {t})
  {
    hide WorldOk, Frame, TaskOk;
    var id := Subject(s.world, s.tasks[t]);
    forall u | u in s.tasks && u != t ensures TaskOk(n.world, s.tasks[u]) {
      if Unheld(s.world, id) { UnheldIsFree(s.world, s.tasks[u], id); }
      if n.world != s.world { FrameTask(s.world, n.world, id, s.tasks[u]); }
    }
    forall u | u in s.tasks && u != t && n.task.Some? && Holds(n.task.value).Some?
      ensures Holds(s.tasks[u]) != Holds(n.task.value)
    {
      if Unheld(s.world, id) { UnheldIsFree(s.world, s.tasks[u], id); }
    }
  }

  lemma InboxKept(s: State, t: nat, n: Next, inbox: seq<nat>)
    requires WorldOk(s.world) && t in s.tasks && StepOk(s.world, s.tasks[t], n)
    requires InboxOk(s.world, s.tasks, inbox)
    ensures InboxOk(n.world, s.tasks - {t}, inbox)
    ensures n.task.Some? ==> InboxOk(n.world, s.tasks[t := n.task.value], inbox)
    ensures forall i :: 0 <= i < |inbox| && Holds(s.tasks[t]).Some? ==> Holds(s.tasks[t]).value != inbox[i]
  {
    hide WorldOk, Frame, TaskOk;
    var id := Subject(s.world, s.tasks[t]);
    forall i | 0 <= i < |inbox| ensures ReadyToDeploy(n.world, inbox[i]) {
      if n.world != s.world { FrameReady(s.world, n.world, id, inbox[i]); }
    }
  }

  lemma DeliveredOk(w: World, tasks: map<nat, Task>, t: nat, inbox: seq<nat>, id: nat)
    requires t in tasks && Holds(tasks[t]) == Some(id) && Exclusive(tasks)
    requires InboxOk(w, tasks - {t}, inbox) && ReadyToDeploy(w, id)
    requires forall i :: 0 <= i < |inbox| ==> inbox[i] != id
    ensures InboxOk(w, tasks - {t}, inbox + [id])
  {
  }

  lemma StepTaskInv(s: State, t: nat, c: Choice)
    requires Inv(s) && t in s.tasks
    ensures Inv(StepTask(s, t, c))
    ensures Evolves(s.world.db, StepTask(s, t, c).world.db)
  {
    var n := TaskStep(s.world, s.tasks[t], c);
    TaskStepOk(s.world, s.tasks[t], c);
    hide WorldOk, TaskOk, TaskStep, Evolves, OnlyRow, InboxOk, Exclusive, TasksOk;
    OthersOk(s, t, n);
    var s' := StepTask(s, t, c);
    forall k | k in s'.controllers ensures InboxOk(s'.world, s'.tasks, s'.controllers[k]) {
      InboxKept(s, t, n, s.controllers[k]);
      if n.note.ToControllers? {
        DeliveredOk(n.world, s.tasks, t, s.controllers[k], n.note.id);
      }
    }
    assert n.world.db.nextDeploy >= s.world.db.nextDeploy by { NextGrows(s.world.db, n.world.db); }
  }

  lemma NextGrows(db: DB, db': DB)
    requires Evolves(db, db')
    ensures db.nextDeploy <= db'.nextDeploy
  {
  }

  // ------------------------------------------- tasks and processes come and go

  lemma FewerTasks(s: State, tasks: map<nat, Task>)
    requires Inv(s)
    requires forall t :: t in tasks ==> t in s.tasks && tasks[t] == s.tasks[t]
    ensures Inv(s.(tasks := tasks))
  {
    hide WorldOk, TaskOk;
  }

  /** A new task that holds nothing. */
  lemma MoreTasks(s: State, t: nat, task: Task)
    requires Inv(s) && t !in s.tasks && TaskOk(s.world, task) && Holds(task) == None
    ensures Inv(s.(tasks := s.tasks[t := task]))
  {
    hide WorldOk, TaskOk;
  }

  lemma FewerControllers(s: State, controllers: map<nat, seq<nat>>)
    requires Inv(s)
    requires forall k :: k in controllers ==> k in s.controllers && controllers[k] == s.controllers[k]
    ensures Inv(s.(controllers := controllers))
  {
    hide WorldOk, TaskOk;
  }

  lemma OtherBuilders(s: State, builders: map<nat, BuilderProc>, next: nat)
    requires Inv(s) && BuildersOk(s.(builders := builders, nextBuilder := next))
    ensures Inv(s.(builders := builders, nextBuilder := next))
  {
    hide WorldOk, TaskOk;
  }

  lemma ReceiveInv(s: State, k: nat, t: nat)
    requires Inv(s) && k in s.controllers && s.controllers[k] != [] && t !in s.tasks
    ensures Inv(s.(controllers := s.controllers[k := s.controllers[k][1..]],
                   tasks := s.tasks[t := Reconcile(k, s.controllers[k][0], Load)]))
  {
    hide WorldOk, BuildersOk;
    var inbox := s.controllers[k];
    assert ReadyToDeploy(s.world, inbox[0]);
    assert forall u :: u in s.tasks ==> Holds(s.tasks[u]) != Some(inbox[0]);
    assert InboxOk(s.world, s.tasks[t := Reconcile(k, inbox[0], Load)], inbox[1..]);
    assert BuildersOk(s.(controllers := s.controllers[k := inbox[1..]],
                         tasks := s.tasks[t := Reconcile(k, inbox[0], Load)])) by { SameBuilders(s, k, t); }
  }

  lemma SameBuilders(s: State, k: nat, t: nat)
    requires BuildersOk(s) && k in s.controllers && s.controllers[k] != []
    ensures BuildersOk(s.(controllers := s.controllers[k := s.controllers[k][1..]],
                          tasks := s.tasks[t := Reconcile(k, s.controllers[k][0], Load)]))
  {
  }

  /** A change of the rows that no task makes. */
  lemma OutsideInv(s: State, db: DB)
    requires Inv(s) && CallOk(s.world, db, s.world.db.nextDeploy)
    ensures Inv(s.(world := s.world.(db := db)))
  {
    var id := s.world.db.nextDeploy;
    var w' := s.world.(db := db);
    NextGrows(s.world.db, db);
    hide WorldOk, TaskOk, Evolves, OnlyRow;
    forall t | t in s.tasks ensures TaskOk(w', s.tasks[t]) {
      UnheldIsFree(s.world, s.tasks[t], id);
      FrameTask(s.world, w', id, s.tasks[t]);
    }
    forall k, i | k in s.controllers && 0 <= i < |s.controllers[k]|
      ensures ReadyToDeploy(w', s.controllers[k][i])
    {
      FrameReady(s.world, w', id, s.controllers[k][i]);
    }
  }

  lemma SweptIdsExist(w: World, ids: seq<nat>)
    requires WorldOk(w) && IsSweep(w.db, ids)
    ensures forall i :: 0 <= i < |ids| ==> ids[i] < w.db.nextDeploy
  {
  }

  lemma SpawnInv(s: State, p: nat, t: nat, rest: BuilderProc)
    requires Inv(s) && p in s.builders && t !in s.tasks
    requires Queue(s.builders[p]) != [] && Queue(rest) == Queue(s.builders[p])[1..]
    ensures Inv(s.(builders := s.builders[p := rest],
                   tasks := s.tasks[t := Builder(p, Queue(s.builders[p])[0], LoadDeploy)]))
  {
    hide WorldOk, TasksOk, Exclusive, ControllersOk;
    OtherBuilders(s, s.builders[p := rest], s.nextBuilder);
    var s1 := s.(builders := s.builders[p := rest], nextBuilder := s.nextBuilder);
    MoreTasks(s1, t, Builder(p, Queue(s.builders[p])[0], LoadDeploy));
    assert s1.(tasks := s1.tasks[t := Builder(p, Queue(s.builders[p])[0], LoadDeploy)])
        == s.(builders := s.builders[p := rest],
              tasks := s.tasks[t := Builder(p, Queue(s.builders[p])[0], LoadDeploy)]);
  }

  lemma BuilderProcInv(s: State, a: Action)
    requires Inv(s)
    requires a.StartBuilder? || a.Sweep? || a.SpawnSwept? || a.Listen? || a.ReceiveBuild? || a.StopBuilder?
    ensures Inv(Step(1, s, a))
  {
    hide WorldOk, TasksOk, Exclusive, ControllersOk;
    var s' := Step(1, s, a);
    match a
    case StartBuilder => OtherBuilders(s, s'.builders, s'.nextBuilder);
    case Sweep(p, reply, ids) =>
      if IsSweep(s.world.db, ids) { SweptIdsExist(s.world, ids); }
      OtherBuilders(s, s'.builders, s'.nextBuilder);
      assert s' == s.(builders := s'.builders, nextBuilder := s'.nextBuilder);
    case SpawnSwept(p, t) => if s' != s { SpawnInv(s, p, t, s'.builders[p]); }
    case Listen(p) =>
      OtherBuilders(s, s'.builders, s'.nextBuilder);
      assert s' == s.(builders := s'.builders, nextBuilder := s'.nextBuilder);
    case ReceiveBuild(p, t) => if s' != s { SpawnInv(s, p, t, s'.builders[p]); }
    case StopBuilder(p) =>
      FewerTasks(s, s'.tasks);
      OtherBuilders(s.(tasks := s'.tasks), s'.builders, s'.nextBuilder);
      assert s' == s.(tasks := s'.tasks).(builders := s'.builders, nextBuilder := s'.nextBuilder);
  }

  lemma ControllerProcInv(s: State, a: Action)
    requires Inv(s) && (a.StartController? || a.ReceiveDeployment? || a.StopController?)
    ensures Inv(Step(1, s, a))
  {
    hide WorldOk, TaskOk, BuildersOk;
    match a
    case StartController(k) =>
      if k !in s.controllers && |s.controllers| < 1 {
        assert s.controllers == map[];
      }
      assert BuildersOk(Step(1, s, a)) by { KeepsBuilders(s, Step(1, s, a)); }
    case ReceiveDeployment(k, t) =>
      if Step(1, s, a) != s { ReceiveInv(s, k, t); }
    case StopController(k) =>
      FewerTasks(s, Step(1, s, a).tasks);
      FewerControllers(s.(tasks := Step(1, s, a).tasks), Step(1, s, a).controllers);
  }

  lemma KeepsBuilders(s: State, s': State)
    requires BuildersOk(s) && s'.builders == s.builders && s'.nextBuilder == s.nextBuilder && s'.world == s.world
    ensures BuildersOk(s')
  {
  }

  lemma ServicesInv(s: State, a: Action)
    requires Inv(s) && (a.CreateService? || a.DeleteServices?)
    ensures Inv(Step(1, s, a))
    ensures Evolves(s.world.db, Step(1, s, a).world.db)
  {
    hide WorldOk, Evolves, OnlyRow, TaskOk, TasksOk, Exclusive, ControllersOk, BuildersOk;
    match a
    case CreateService =>
      CreateServiceOk(s.world, s.world.db.nextDeploy);
      OutsideInv(s, AddService(s.world.db));
    case DeleteServices(gone) =>
      DropOk(s.world, gone, s.world.db.nextDeploy);
      OutsideInv(s, DropServices(s.world.db, gone));
  }

  lemma NewTaskInv(s: State, a: Action)
    requires Inv(s) && (a.StopTask? || a.Request? || a.OpenStream?)
    ensures Inv(Step(1, s, a))
  {
    hide Inv, WorldOk, Evolves, OnlyRow, TaskOk;
    match a
    case StopTask(t) => FewerTasks(s, s.tasks - {t});
    case Request(t, pc) =>
      if t !in s.tasks && IsRequest(pc) { RequestOk(s.world, pc); MoreTasks(s, t, Api(pc)); }
    case OpenStream(t, id) =>
      if t !in s.tasks { OpenOk(s.world, id); MoreTasks(s, t, Stream(id, Opened)); }
  }

  /** The induction step of everything below. */
  lemma StepInv(s: State, a: Action)
    requires Inv(s)
    ensures Inv(Step(1, s, a))
    ensures Evolves(s.world.db, Step(1, s, a).world.db)
  {
    NoCall(s.world, 0);
    hide Inv, WorldOk, Evolves, OnlyRow, TaskOk;
    if a.RunTask? {
      if a.t in s.tasks { StepTaskInv(s, a.t, a.c); }
    } else if a.CreateService? || a.DeleteServices? {
      ServicesInv(s, a);
    } else if a.StopTask? || a.Request? || a.OpenStream? {
      NewTaskInv(s, a);
    } else if a.StartController? || a.ReceiveDeployment? || a.StopController? {
      ControllerProcInv(s, a);
    } else {
      BuilderProcInv(s, a);
    }
  }

  lemma RequestOk(w: World, pc: ApiPc)
    requires IsRequest(pc)
    ensures TaskOk(w, Api(pc)) && Holds(Api(pc)) == None
  {
  }

  lemma OpenOk(w: World, id: nat)
    ensures TaskOk(w, Stream(id, Opened))
  {
  }

  lemma {:induction false} ExecInv(acts: seq<Action>)
    ensures Inv(Exec(1, acts))
  {
    if acts == [] {
    } else {
      ExecInv(acts[..|acts| - 1]);
      StepInv(Exec(1, acts[..|acts| - 1]), acts[|acts| - 1]);
    }
  }
}
