/** Why the pipeline's safety rests on a single controller process: with two of them,
    each notification starts two reconciles, and UpdateDeployStatus, which checks in one
    call and writes in another, lets a deploy leave `live`. */
module TwoControllers {
  import opened Basics
  import opened Lifecycle
  import opened Rows
  import opened Pipeline

  const Go := Choice(Ok, 0, Print(""))
  const Stumble := Choice(Error, 0, Print(""))

  const Row := Deploy(0, Deploying, "", "app:1", Production, None)

  /** Two reconciles of deploy 0 at these program points. */
  predicate Racing(s: State, x: ControllerPc, y: ControllerPc) {
    && 0 in s.world.db.services
    && 0 in s.world.db.deploys && s.world.db.deploys[0] == Row
    && 1 in s.tasks && s.tasks[1] == Reconcile(0, 0, x)
    && 2 in s.tasks && s.tasks[2] == Reconcile(1, 0, y)
  }

  lemma ExecSnoc(limit: nat, acts: seq<Action>, a: Action)
    ensures Exec(limit, acts + [a]) == Step(limit, Exec(limit, acts), a)
  {
    assert (acts + [a])[..|acts|] == acts;
  }

  predicate Waiting(s: State, inbox: seq<nat>) {
    0 in s.controllers && 1 in s.controllers && s.controllers[0] == inbox && s.controllers[1] == inbox
  }

  lemma SetUp(s0: State, s1: State, s2: State, s3: State)
    requires s0 == Exec(2, []) && s1 == Step(2, s0, CreateService)
    requires s2 == Step(2, s1, StartController(0)) && s3 == Step(2, s2, StartController(1))
    ensures s3.world.db == AddService(EmptyDB) && s3.tasks == map[] && Waiting(s3, [])
  {
    hide StepTask, TasksOutside, Deliver, IsSweep;
    assert s0 == Init;
    assert s1.controllers == map[] && s1.world.db == AddService(EmptyDB) && s1.tasks == map[];
    assert s2.controllers == map[0 := []] && s2.world == s1.world && s2.tasks == map[];
  }

  lemma Requested(s: State)
    requires s.tasks == map[]
    ensures Step(2, s, Request(0, ImageDeploy(0, "app:1"))) == s.(tasks := map[0 := Api(ImageDeploy(0, "app:1"))])
  {
    hide StepTask, TasksOutside;
  }

  lemma Inserted(s: State)
    requires s.world.db == AddService(EmptyDB) && s.tasks == map[0 := Api(ImageDeploy(0, "app:1"))]
    ensures var s' := Step(2, s, RunTask(0, Go));
      && s'.tasks == map[0 := Api(NotifyControllers(0))] && s'.controllers == s.controllers
      && 0 in s'.world.db.services && 0 in s'.world.db.deploys && s'.world.db.deploys[0] == Row
  {
  }

  lemma Notified(s: State)
    requires s.tasks == map[0 := Api(NotifyControllers(0))] && Waiting(s, [])
    ensures var s' := Step(2, s, RunTask(0, Go));
      s'.tasks == map[] && s'.world == s.world && Waiting(s', [0])
  {
  }

  lemma Received(s: State, s1: State, s2: State)
    requires s.tasks == map[] && Waiting(s, [0])
    requires 0 in s.world.db.services && 0 in s.world.db.deploys && s.world.db.deploys[0] == Row
    requires s1 == Step(2, s, ReceiveDeployment(0, 1)) && s2 == Step(2, s1, ReceiveDeployment(1, 2))
    ensures Racing(s2, Load, Load)
  {
    assert s1.tasks == map[1 := Reconcile(0, 0, Load)];
  }

  /** A prebuilt image is deployed while two controllers listen. */
  lemma Started() returns (acts: seq<Action>)
    ensures Racing(Exec(2, acts), Load, Load)
  {
    hide Exec, Step;
    var a1 := [CreateService];
    assert [] + a1 == a1;
    ExecSnoc(2, [], CreateService);
    var a2 := a1 + [StartController(0)];
    ExecSnoc(2, a1, StartController(0));
    var a3 := a2 + [StartController(1)];
    ExecSnoc(2, a2, StartController(1));
    var a4 := a3 + [Request(0, ImageDeploy(0, "app:1"))];
    ExecSnoc(2, a3, Request(0, ImageDeploy(0, "app:1")));
    SetUp(Exec(2, []), Exec(2, a1), Exec(2, a2), Exec(2, a3));
    Requested(Exec(2, a3));
    var a5 := a4 + [RunTask(0, Go)];
    ExecSnoc(2, a4, RunTask(0, Go));
    Inserted(Exec(2, a4));
    var a6 := a5 + [RunTask(0, Go)];
    ExecSnoc(2, a5, RunTask(0, Go));
    Notified(Exec(2, a5));
    var a7 := a6 + [ReceiveDeployment(0, 1)];
    ExecSnoc(2, a6, ReceiveDeployment(0, 1));
    acts := a7 + [ReceiveDeployment(1, 2)];
    ExecSnoc(2, a7, ReceiveDeployment(1, 2));
    Received(Exec(2, a6), Exec(2, a7), Exec(2, acts));
  }

  lemma Move(s: State, x: ControllerPc, y: ControllerPc, c: Choice, x': ControllerPc, y': ControllerPc, t: nat)
    requires Racing(s, x, y)
    requires t == 1 ==> ReconcileStep(s.world, 0, 0, x, c) == Goto(s.world, Reconcile(0, 0, x')) && y' == y
    requires t == 2 ==> ReconcileStep(s.world, 1, 0, y, c) == Goto(s.world, Reconcile(1, 0, y')) && x' == x
    requires t == 1 || t == 2
    ensures Racing(Step(2, s, RunTask(t, c)), x', y')
  {
    hide ReconcileStep;
  }

  /** Both reconciles have checked the status, one about to write live, one failed. */
  lemma Checked() returns (acts: seq<Action>)
    ensures Racing(Exec(2, acts), WriteOutcome(Live, Deploying), WriteOutcome(Failed, Deploying))
  {
    acts := Started();
    hide Exec, Step;
    var path := [Load, FetchService(Row), FetchEnv(Row), FetchDomains(Row), ApplySpec(Row), CheckOutcome(Live), WriteOutcome(Live, Deploying)];
    for i := 0 to 6
      invariant Racing(Exec(2, acts), path[i], Load)
    {
      Move(Exec(2, acts), path[i], Load, Go, path[i + 1], Load, 1);
      ExecSnoc(2, acts, RunTask(1, Go));
      acts := acts + [RunTask(1, Go)];
    }
    Move(Exec(2, acts), path[6], Load, Go, path[6], FetchService(Row), 2);
    ExecSnoc(2, acts, RunTask(2, Go));
    acts := acts + [RunTask(2, Go)];
    Move(Exec(2, acts), path[6], FetchService(Row), Stumble, path[6], CheckOutcome(Failed), 2);
    ExecSnoc(2, acts, RunTask(2, Stumble));
    acts := acts + [RunTask(2, Stumble)];
    Move(Exec(2, acts), path[6], CheckOutcome(Failed), Go, path[6], WriteOutcome(Failed, Deploying), 2);
    ExecSnoc(2, acts, RunTask(2, Go));
    acts := acts + [RunTask(2, Go)];
  }

  lemma BothWrite(s: State)
    requires Racing(s, WriteOutcome(Live, Deploying), WriteOutcome(Failed, Deploying))
    ensures var s' := Step(2, s, RunTask(1, Go));
      var s'' := Step(2, s', RunTask(2, Go));
      && 0 in s'.world.db.deploys && s'.world.db.deploys[0].status == Live
      && 0 in s''.world.db.deploys && s''.world.db.deploys[0].status == Failed
  {
  }

  /** A run with two controllers in which a live deploy becomes failed: the theorem that
      terminal statuses are final does not extend beyond one controller. */
  lemma LiveBecomesFailed() returns (acts: seq<Action>, a: Action)
    ensures 0 in Exec(2, acts).world.db.deploys && Exec(2, acts).world.db.deploys[0].status == Live
    ensures 0 in Exec(2, acts + [a]).world.db.deploys && Exec(2, acts + [a]).world.db.deploys[0].status == Failed
    ensures !CanTransition(Live, Failed)
  {
    acts := Checked();
    hide Exec, Step;
    BothWrite(Exec(2, acts));
    ExecSnoc(2, acts, RunTask(1, Go));
    acts, a := acts + [RunTask(1, Go)], RunTask(2, Go);
    ExecSnoc(2, acts, a);
  }
}
