/** The deploy pipeline as a state machine: API requests, builders, controllers
    and log streams interleave one store call at a time. Any call may fail, with
    or without its effect having happened, and any task or process may stop at
    any point. */
module Pipeline {
  import opened Basics
  import opened Lifecycle
  import opened Rows
  import Decimal

  /** What the build backend does next: it prints, breaks, or returns an image. */
  datatype Output = Print(chunk: string) | Broke(err: string) | Return(image: string)

  /** The environment's choices for one step; row is the row a query picks. */
  datatype Choice = Choice(reply: Reply, row: nat, output: Output)

  /** Program points of builder.process (internal/builder/processor.go). */
  datatype BuilderPc =
    | LoadDeploy
    | LoadService(service: nat)
    | LoadBuild
    | Claim(b: nat)
    | Start(b: nat)
    | Running(b: nat)
    | ReportFailure(b: nat, err: string)
    | FinishFailed(b: nat)
    | SetImage(b: nat, image: string)
    | FinishOk(b: nat)
    | Check(b: nat, to: Status)
    | Write(b: nat, to: Status, seen: Status)
    | HandOff(b: nat)

  /** Program points of controller.reconcile (internal/controller/processor.go). */
  datatype ControllerPc =
    | Load
    | FetchService(row: Deploy)
    | FetchEnv(row: Deploy)
    | FetchDomains(row: Deploy)
    | ApplySpec(row: Deploy)
    | CheckOutcome(to: Status)
    | WriteOutcome(to: Status, seen: Status)

  /** Program points of the API requests that create deploys. */
  datatype ApiPc =
    | EnqueueDeploy(service: nat, commit: string)
    | EnqueuePreview(service: nat, commit: string, pr: int)
    | NotifyBuilders(id: nat)
    | ImageDeploy(service: nat, image: string)
    | Rollback(target: nat)
    | Redeploy(service: nat)
    | Reuse(service: nat, image: string, commit: string, from: nat)
    | NotifyControllers(id: nat)

  /** A log stream: the chunks sent, the length of log they cover, and the status
      with which the stream was ended. */
  datatype Session = Session(chunks: seq<string>, sent: nat, ended: Option<BuildStatus>)

  const Opened := Session([], 0, None)

  datatype Task =
    | Builder(proc: nat, id: nat, bpc: BuilderPc)
    | Reconcile(ctl: nat, id: nat, cpc: ControllerPc)
    | Api(apc: ApiPc)
    | Stream(id: nat, session: Session)

  /** The rows, and what has happened outside them: the deploys handed to the
      build backend in order, the images the backend made, the images asked for,
      and the deploy each reused image was taken from. */
  datatype World = World(db: DB, calls: seq<nat>, made: set<(nat, string)>,
                         asked: set<(nat, string)>, reused: map<nat, nat>)

  datatype Note = Silent | ToBuilders(id: nat) | ToControllers(id: nat)

  datatype Next = Next(world: World, task: Option<Task>, note: Note)

  function Stop(w: World): Next { Next(w, None, Silent) }

  function Goto(w: World, task: Task): Next { Next(w, Some(task), Silent) }

  /** The rows after a call: changed unless the call failed without effect. */
  function After(w: World, reply: Reply, db: DB): World {
    if reply.Error? then w else w.(db := db)
  }

  // ------------------------------------------------------------ task steps

  function BuilderStep(w: World, p: nat, id: nat, pc: BuilderPc, c: Choice): Next {
    match pc
    case LoadDeploy =>
      if c.reply.Ok? && id in w.db.deploys
      then Goto(w, Builder(p, id, LoadService(w.db.deploys[id].service)))
      else Stop(w)
    case LoadService(service) =>
      if c.reply.Ok? && service in w.db.services then Goto(w, Builder(p, id, LoadBuild)) else Stop(w)
    case LoadBuild =>
      if c.reply.Ok? && IsBuildOf(w.db, c.row, id) then Goto(w, Builder(p, id, Claim(c.row))) else Stop(w)
    case Claim(b) =>
      var w' := After(w, c.reply, ClaimRow(w.db, id));
      if c.reply.Ok? && Claimable(w.db, id) then Goto(w', Builder(p, id, Start(b))) else Stop(w')
    case Start(b) =>
      var w' := After(w, c.reply, WriteBuildStatus(w.db, b, BuildRunning));
      if c.reply.Ok? then Goto(w'.(calls := w.calls + [id]), Builder(p, id, Running(b))) else Stop(w')
    case Running(b) =>
      (match c.output
       case Print(chunk) => Goto(After(w, c.reply, AppendLog(w.db, b, chunk)), Builder(p, id, pc))
       case Broke(err) => Goto(w, Builder(p, id, ReportFailure(b, err)))
       case Return(image) =>
         if image == "" then Goto(w, Builder(p, id, pc))
         else Goto(w.(made := w.made + {(id, image)}), Builder(p, id, SetImage(b, image))))
    case ReportFailure(b, err) =>
      Goto(After(w, c.reply, AppendLog(w.db, b, "\nBUILD FAILED: " + err + "\n")), Builder(p, id, FinishFailed(b)))
    case FinishFailed(b) =>
      Goto(After(w, c.reply, WriteBuildStatus(w.db, b, BuildFailed)), Builder(p, id, Check(b, Failed)))
    case SetImage(b, image) =>
      Goto(After(w, c.reply, WriteImage(w.db, id, image)),
           Builder(p, id, if c.reply.Ok? then FinishOk(b) else FinishFailed(b)))
    case FinishOk(b) =>
      Goto(After(w, c.reply, WriteBuildStatus(w.db, b, BuildSucceeded)), Builder(p, id, Check(b, Deploying)))
    case Check(b, to) =>
      if c.reply.Ok? && id in w.db.deploys && CanTransition(w.db.deploys[id].status, to)
      then Goto(w, Builder(p, id, Write(b, to, w.db.deploys[id].status)))
      else Stop(w)
    case Write(b, to, _) =>
      var w' := After(w, c.reply, WriteStatus(w.db, id, to));
      if c.reply.Ok? && id in w.db.deploys && to == Deploying then Goto(w', Builder(p, id, HandOff(b))) else Stop(w')
    case HandOff(_) =>
      Next(w, None, if c.reply.Error? then Silent else ToControllers(id))
  }

  function ReconcileStep(w: World, k: nat, id: nat, pc: ControllerPc, c: Choice): Next {
    match pc
    case Load =>
      if c.reply.Ok? && id in w.db.deploys then
        var row := w.db.deploys[id];
        Goto(w, Reconcile(k, id, if row.image == "" then CheckOutcome(Failed) else FetchService(row)))
      else Stop(w)
    case FetchService(row) =>
      Goto(w, Reconcile(k, id, if c.reply.Ok? && row.service in w.db.services then FetchEnv(row) else CheckOutcome(Failed)))
    case FetchEnv(row) =>
      Goto(w, Reconcile(k, id,
        if !c.reply.Ok? then CheckOutcome(Failed)
        else if row.kind == Production then FetchDomains(row)
        else ApplySpec(row)))
    case FetchDomains(row) =>
      Goto(w, Reconcile(k, id, if c.reply.Ok? then ApplySpec(row) else CheckOutcome(Failed)))
    case ApplySpec(row) =>
      Goto(w, Reconcile(k, id, CheckOutcome(if c.reply.Ok? then Live else Failed)))
    case CheckOutcome(to) =>
      if c.reply.Ok? && id in w.db.deploys && CanTransition(w.db.deploys[id].status, to)
      then Goto(w, Reconcile(k, id, WriteOutcome(to, w.db.deploys[id].status)))
      else Stop(w)
    case WriteOutcome(to, _) =>
      Stop(After(w, c.reply, WriteStatus(w.db, id, to)))
  }

  /** createImagedDeploy, then the notification of the controller; noted is the
      world with the origin of the new row recorded. */
  function Imaged(w: World, noted: World, service: nat, image: string, commit: string, log: string, c: Choice): Next {
    var done := noted.(db := InsertImaged(w.db, service, image, commit, log));
    if service !in w.db.services || c.reply.Error? then Stop(w)
    else if c.reply.Ok? then Goto(done, Api(NotifyControllers(w.db.nextDeploy)))
    else Stop(done)
  }

  function Enqueued(w: World, service: nat, commit: string, kind: Kind, pr: Option<int>, c: Choice): Next {
    var w' := After(w, c.reply, InsertBuildable(w.db, service, commit, kind, pr));
    if service !in w.db.services then Stop(w)
    else if c.reply.Ok? then Goto(w', Api(NotifyBuilders(w.db.nextDeploy)))
    else Stop(w')
  }

  function ApiStep(w: World, pc: ApiPc, c: Choice): Next {
    match pc
    case EnqueueDeploy(service, commit) => Enqueued(w, service, commit, Production, None, c)
    case EnqueuePreview(service, commit, pr) => Enqueued(w, service, commit, Preview, Some(pr), c)
    case NotifyBuilders(id) =>
      Next(w, None, if c.reply.Error? then Silent else ToBuilders(id))
    case ImageDeploy(service, image) =>
      if image == "" then Stop(w)
      else Imaged(w, w.(asked := w.asked + {(w.db.nextDeploy, image)}), service, image, "",
                  "deployed prebuilt image " + image + "\n", c)
    case Rollback(target) =>
      if c.reply.Ok? && target in w.db.deploys && w.db.deploys[target].image != "" then
        var d := w.db.deploys[target];
        Goto(w, Api(Reuse(d.service, d.image, d.commit, target)))
      else Stop(w)
    case Redeploy(service) =>
      if c.reply.Ok? && IsLatestImaged(w.db, service, c.row) then
        var d := w.db.deploys[c.row];
        Goto(w, Api(Reuse(service, d.image, d.commit, c.row)))
      else Stop(w)
    case Reuse(service, image, commit, from) =>
      Imaged(w, w.(reused := w.reused[w.db.nextDeploy := from]), service, image, commit,
             "rolled back: reused image " + image + " from deploy " + Decimal.FormatInt(from) + "\n", c)
    case NotifyControllers(id) =>
      Next(w, None, if c.reply.Error? then Silent else ToControllers(id))
  }

  /** What one poll of handleDeployLogs does with the row it read: the unsent part of
      the log is streamed, and a terminal status ends the stream. */
  function Poll(s: Session, row: Build): Session {
    var end := if IsTerminalBuild(row.status) then Some(row.status) else None;
    if |row.logs| > s.sent
    then Session(s.chunks + [row.logs[s.sent..]], |row.logs|, end)
    else s.(ended := end)
  }

  /** Logs and status are read in one query; a failed query abandons the stream. */
  function StreamStep(w: World, id: nat, s: Session, c: Choice): Next {
    if s.ended.Some? then Goto(w, Stream(id, s))
    else if !c.reply.Ok? || !IsBuildOf(w.db, c.row, id) then Stop(w)
    else Goto(w, Stream(id, Poll(s, w.db.builds[c.row])))
  }

  function TaskStep(w: World, task: Task, c: Choice): Next {
    match task
    case Builder(p, id, pc) => BuilderStep(w, p, id, pc, c)
    case Reconcile(k, id, pc) => ReconcileStep(w, k, id, pc, c)
    case Api(pc) => ApiStep(w, pc, c)
    case Stream(id, session) => StreamStep(w, id, session, c)
  }

  // ------------------------------------------------------- processes and steps

  /** A builder process: booting, starting tasks for the ids its sweep returned,
      or listening. NOTIFY reaches only a listening session. */
  datatype BuilderProc = Boot | Sweeping(ids: seq<nat>) | Listening(inbox: seq<nat>)

  datatype State = State(world: World, tasks: map<nat, Task>, builders: map<nat, BuilderProc>,
                         controllers: map<nat, seq<nat>>, nextBuilder: nat)

  const Init := State(World(EmptyDB, [], {}, {}, map[]), map[], map[], map[], 0)

  datatype Action =
    | RunTask(t: nat, c: Choice)
    | StopTask(t: nat)
    | Request(t: nat, pc: ApiPc)
    | OpenStream(t: nat, id: nat)
    | StartBuilder
    | Sweep(p: nat, reply: Reply, ids: seq<nat>)
    | SpawnSwept(p: nat, t: nat)
    | Listen(p: nat)
    | ReceiveBuild(p: nat, t: nat)
    | StopBuilder(p: nat)
    | StartController(k: nat)
    | ReceiveDeployment(k: nat, t: nat)
    | StopController(k: nat)
    | CreateService
    | DeleteServices(gone: set<nat>)

  function Deliver(s: State, note: Note): State {
    match note
    case Silent => s
    case ToBuilders(id) =>
      s.(builders := map p | p in s.builders ::
           (if s.builders[p].Listening? then Listening(s.builders[p].inbox + [id]) else s.builders[p]))
    case ToControllers(id) =>
      s.(controllers := map k | k in s.controllers :: s.controllers[k] + [id])
  }

  function StepTask(s: State, t: nat, c: Choice): State
    requires t in s.tasks
  {
    var n := TaskStep(s.world, s.tasks[t], c);
    Deliver(s.(world := n.world,
               tasks := if n.task.Some? then s.tasks[t := n.task.value] else s.tasks - {t}), n.note)
  }

  predicate IsRequest(pc: ApiPc) {
    pc.EnqueueDeploy? || pc.EnqueuePreview? || pc.ImageDeploy? || pc.Rollback? || pc.Redeploy?
  }

  /** What QueuedDeployIDs returns: exactly the queued ids, oldest first. */
  predicate IsSweep(db: DB, ids: seq<nat>) {
    && (forall i :: 0 <= i < |ids| ==> Claimable(db, ids[i]))
    && (forall id :: id in db.deploys && Claimable(db, id) ==> id in ids)
    && (forall i, j :: 0 <= i < j < |ids| ==> ids[i] < ids[j])
  }

  function TasksOutside(s: State, p: Task -> bool): map<nat, Task> {
    map t | t in s.tasks && !p(s.tasks[t]) :: s.tasks[t]
  }

  /** One step of the system when at most `limit` controllers may run at once.
      An action that is not enabled changes nothing. */
  function Step(limit: nat, s: State, a: Action): State {
    match a
    case RunTask(t, c) => if t in s.tasks then StepTask(s, t, c) else s
    case StopTask(t) => s.(tasks := s.tasks - {t})
    case Request(t, pc) =>
      if t !in s.tasks && IsRequest(pc) then s.(tasks := s.tasks[t := Api(pc)]) else s
    case OpenStream(t, id) =>
      if t !in s.tasks then s.(tasks := s.tasks[t := Stream(id, Opened)]) else s
    case StartBuilder =>
      s.(builders := s.builders[s.nextBuilder := Boot], nextBuilder := s.nextBuilder + 1)
    case Sweep(p, reply, ids) =>
      if p in s.builders && s.builders[p].Boot? then
        if !reply.Ok? then s.(builders := s.builders[p := Sweeping([])])
        else if IsSweep(s.world.db, ids) then s.(builders := s.builders[p := Sweeping(ids)])
        else s
      else s
    case SpawnSwept(p, t) =>
      if p in s.builders && s.builders[p].Sweeping? && s.builders[p].ids != [] && t !in s.tasks then
        s.(builders := s.builders[p := Sweeping(s.builders[p].ids[1..])],
           tasks := s.tasks[t := Builder(p, s.builders[p].ids[0], LoadDeploy)])
      else s
    case Listen(p) =>
      if p in s.builders && s.builders[p] == Sweeping([]) then s.(builders := s.builders[p := Listening([])]) else s
    case ReceiveBuild(p, t) =>
      if p in s.builders && s.builders[p].Listening? && s.builders[p].inbox != [] && t !in s.tasks then
        s.(builders := s.builders[p := Listening(s.builders[p].inbox[1..])],
           tasks := s.tasks[t := Builder(p, s.builders[p].inbox[0], LoadDeploy)])
      else s
    case StopBuilder(p) =>
      s.(builders := s.builders - {p}, tasks := TasksOutside(s, (task: Task) => task.Builder? && task.proc == p))
    case StartController(k) =>
      if k !in s.controllers && |s.controllers| < limit then s.(controllers := s.controllers[k := []]) else s
    case ReceiveDeployment(k, t) =>
      if k in s.controllers && s.controllers[k] != [] && t !in s.tasks then
        s.(controllers := s.controllers[k := s.controllers[k][1..]],
           tasks := s.tasks[t := Reconcile(k, s.controllers[k][0], Load)])
      else s
    case StopController(k) =>
      s.(controllers := s.controllers - {k}, tasks := TasksOutside(s, (task: Task) => task.Reconcile? && task.ctl == k))
    case CreateService =>
      s.(world := s.world.(db := AddService(s.world.db)))
    case DeleteServices(gone) =>
      s.(world := s.world.(db := DropServices(s.world.db, gone)))
  }

  /** The state a run of actions leads to. */
  function Exec(limit: nat, acts: seq<Action>): State {
    if acts == [] then Init else Step(limit, Exec(limit, acts[..|acts| - 1]), acts[|acts| - 1])
  }
}
