/** The inductive invariant of the pipeline: the right to write a deploy's row is
    held by at most one task or undelivered notification at a time, and is passed
    from the claim winner to the one reconcile it notifies. */
module Ownership {
  import opened Basics
  import opened Lifecycle
  import opened Rows
  import opened Pipeline

  // --------------------------------------------------------- how rows evolve

  predicate CanTransitionBuild(from: BuildStatus, to: BuildStatus) {
    (from == BuildQueued && to == BuildRunning) || (from == BuildRunning && IsTerminalBuild(to))
  }

  predicate DeployEvolves(d: Deploy, d': Deploy) {
    || d' == d
    || (d'.service == d.service && d'.commit == d.commit && d'.kind == d.kind && d'.pr == d.pr
        && (d'.status == d.status || CanTransition(d.status, d'.status))
        && (d'.image == d.image || d.image == ""))
  }

  predicate BuildEvolves(b: Build, b': Build) {
    || b' == b
    || (b'.deploy == b.deploy && !IsTerminalBuild(b.status)
        && (b'.status == b.status || CanTransitionBuild(b.status, b'.status))
        && b.logs <= b'.logs)
  }

  /** One step of the rows: lifecycle moves, images written once, append-only
      logs that freeze with the build, fresh identities, cascading deletes. */
  ghost predicate Evolves(db: DB, db': DB) {
    && db.nextDeploy <= db'.nextDeploy && db.nextBuild <= db'.nextBuild && db.nextService <= db'.nextService
    && (forall j :: j in db'.deploys && j < db.nextDeploy ==>
          j in db.deploys && DeployEvolves(db.deploys[j], db'.deploys[j]))
    && (forall j :: j in db'.deploys && db.nextDeploy <= j ==>
          db'.deploys[j].status == Queued || db'.deploys[j].status == Deploying)
    && (forall b :: b in db'.builds && b < db.nextBuild ==>
          b in db.builds && BuildEvolves(db.builds[b], db'.builds[b]))
    && (forall b :: b in db.builds && db.builds[b].deploy in db'.deploys ==> b in db'.builds)
    && (forall b :: b in db'.builds && db.nextBuild <= b ==> db.nextDeploy <= db'.builds[b].deploy)
    && (forall v :: v in db'.services && v < db.nextService ==> v in db.services)
    && (forall j :: j in db.deploys && j !in db'.deploys ==> db.deploys[j].service !in db'.services)
  }

  /** Nothing but the deploy row id and its build changes, appears or is written. */
  ghost predicate OnlyRow(db: DB, db': DB, id: nat) {
    && (forall j :: j in db.deploys && j in db'.deploys && j != id ==> db'.deploys[j] == db.deploys[j])
    && (forall b :: b in db.builds && b in db'.builds && db.builds[b].deploy != id ==>
          db'.builds[b] == db.builds[b])
  }

  ghost predicate HistoryGrows(w: World, w': World, id: nat) {
    && (w'.calls == w.calls || w'.calls == w.calls + [id])
    && w.made <= w'.made && w.asked <= w'.asked
    && (forall j :: j in w.reused && j < w.db.nextDeploy ==> j in w'.reused && w'.reused[j] == w.reused[j])
  }

  ghost predicate Frame(w: World, w': World, id: nat) {
    Evolves(w.db, w'.db) && OnlyRow(w.db, w'.db, id) && HistoryGrows(w, w', id)
  }

  // ------------------------------------------------------------- good worlds

  predicate RowOk(d: Deploy) {
    && (d.kind == Preview <==> d.pr.Some?)
    && (d.status == Queued ==> d.image == "")
    && (d.status == Deploying || d.status == Live ==> d.image != "")
  }

  predicate BuildOk(b: Build, d: Deploy) {
    && (d.status == Queued ==> b.status == BuildQueued)
    && (b.status == BuildFailed ==> d.status == Building || d.status == Failed)
    && (b.status == BuildSucceeded ==> d.image != "")
  }

  ghost predicate RowsOk(db: DB) {
    && (forall v :: v in db.services ==> v < db.nextService)
    && (forall id :: id in db.deploys ==>
          id < db.nextDeploy && db.deploys[id].service in db.services && RowOk(db.deploys[id]))
  }

  ghost predicate BuildsOk(db: DB) {
    forall b :: b in db.builds ==>
      && b < db.nextBuild && db.builds[b].deploy in db.deploys
      && BuildOk(db.builds[b], db.deploys[db.builds[b].deploy])
  }

  /** Every deploy has exactly one build. */
  ghost predicate OneBuildEach(db: DB) {
    && (forall id :: id in db.deploys ==> exists b :: IsBuildOf(db, b, id))
    && (forall b, b' :: b in db.builds && b' in db.builds && db.builds[b].deploy == db.builds[b'].deploy ==> b == b')
  }

  ghost predicate TablesOk(db: DB) {
    RowsOk(db) && BuildsOk(db) && OneBuildEach(db)
  }

  ghost predicate CallsOk(w: World) {
    && (forall i, j :: 0 <= i < j < |w.calls| ==> w.calls[i] != w.calls[j])
    && (forall id :: id in w.calls ==>
          id < w.db.nextDeploy && (id in w.db.deploys ==> w.db.deploys[id].status != Queued))
  }

  /** Where the image on a deploy row came from: its own build, an image request,
      or an older deploy of the same service. */
  predicate HasSource(w: World, id: nat)
    requires id in w.db.deploys
  {
    var d := w.db.deploys[id];
    || (id, d.image) in w.made
    || (id, d.image) in w.asked
    || (id in w.reused
        && w.reused[id] < id
        && w.reused[id] in w.db.deploys
        && w.db.deploys[w.reused[id]].service == d.service
        && w.db.deploys[w.reused[id]].image == d.image)
  }

  ghost predicate SourcesOk(w: World) {
    forall id :: id in w.db.deploys && w.db.deploys[id].image != "" ==> HasSource(w, id)
  }

  ghost predicate WorldOk(w: World) {
    TablesOk(w.db) && CallsOk(w) && SourcesOk(w)
  }

  // -------------------------------------------------------------- good tasks

  /** The deploy whose row a task alone may write. */
  function Holds(task: Task): Option<nat> {
    match task
    case Builder(_, id, pc) =>
      if pc.LoadDeploy? || pc.LoadService? || pc.LoadBuild? || pc.Claim? then None else Some(id)
    case Reconcile(_, id, _) => Some(id)
    case Api(pc) => if pc.NotifyControllers? then Some(pc.id) else None
    case Stream(_, _) => None
  }

  predicate Links(db: DB, b: nat, id: nat) {
    && b < db.nextBuild
    && (b in db.builds ==> db.builds[b].deploy == id)
    && (id in db.deploys ==> b in db.builds)
  }

  /** The row id, if it still exists, is `building`, its build has one of the
      given statuses, and its image is empty or not as said. */
  predicate InBuilding(w: World, id: nat, b: nat, statuses: set<BuildStatus>) {
    && Links(w.db, b, id)
    && (id in w.db.deploys ==> w.db.deploys[id].status == Building)
    && (b in w.db.builds ==> w.db.builds[b].status in statuses)
  }

  predicate ReadyToDeploy(w: World, id: nat) {
    && id < w.db.nextDeploy
    && (id in w.db.deploys ==> w.db.deploys[id].status == Deploying && w.db.deploys[id].image != "")
  }

  predicate NoImage(w: World, id: nat) {
    id in w.db.deploys ==> w.db.deploys[id].image == ""
  }

  predicate HasImage(w: World, id: nat) {
    id in w.db.deploys ==> w.db.deploys[id].image != ""
  }

  predicate BuilderOk(w: World, id: nat, pc: BuilderPc) {
    match pc
    case LoadDeploy => true
    case LoadService(_) => true
    case LoadBuild => true
    case Claim(b) => Links(w.db, b, id)
    case Start(b) => InBuilding(w, id, b, {BuildQueued}) && NoImage(w, id) && id !in w.calls
    case Running(b) => InBuilding(w, id, b, {BuildRunning}) && NoImage(w, id)
    case ReportFailure(b, _) => InBuilding(w, id, b, {BuildRunning})
    case FinishFailed(b) => InBuilding(w, id, b, {BuildRunning})
    case SetImage(b, image) =>
      InBuilding(w, id, b, {BuildRunning}) && NoImage(w, id) && image != "" && (id, image) in w.made
    case FinishOk(b) => InBuilding(w, id, b, {BuildRunning}) && HasImage(w, id)
    case Check(b, to) => Outcome(w, id, b, to)
    case Write(b, to, seen) => Outcome(w, id, b, to) && seen == Building
    case HandOff(b) => ReadyToDeploy(w, id)
  }

  predicate Outcome(w: World, id: nat, b: nat, to: Status) {
    if to == Deploying then InBuilding(w, id, b, {BuildRunning, BuildSucceeded}) && HasImage(w, id)
    else to == Failed && InBuilding(w, id, b, {BuildRunning, BuildFailed})
  }

  predicate ControllerOk(w: World, id: nat, pc: ControllerPc) {
    && ReadyToDeploy(w, id)
    && (pc.CheckOutcome? ==> pc.to == Live || pc.to == Failed)
    && (pc.WriteOutcome? ==> (pc.to == Live || pc.to == Failed) && pc.seen == Deploying)
  }

  predicate ApiOk(w: World, pc: ApiPc) {
    match pc
    case Reuse(service, image, _, from) =>
      && image != "" && from < w.db.nextDeploy && service < w.db.nextService
      && (service in w.db.services ==> from in w.db.deploys)
      && (from in w.db.deploys ==> w.db.deploys[from].service == service && w.db.deploys[from].image == image)
    case NotifyControllers(id) => ReadyToDeploy(w, id)
    case NotifyBuilders(id) => id < w.db.nextDeploy
    case _ => true
  }

  ghost predicate StreamOk(w: World, id: nat, s: Session) {
    && |Concat(s.chunks)| == s.sent
    && ((s.sent > 0 || s.ended.Some?) ==> id < w.db.nextDeploy)
    && forall b :: IsBuildOf(w.db, b, id) ==>
         && Concat(s.chunks) <= w.db.builds[b].logs
         && (s.ended.Some? ==>
               && s.ended.value == w.db.builds[b].status && IsTerminalBuild(s.ended.value)
               && Concat(s.chunks) == w.db.builds[b].logs)
  }

  ghost predicate TaskOk(w: World, task: Task) {
    match task
    case Builder(_, id, pc) => id < w.db.nextDeploy && BuilderOk(w, id, pc)
    case Reconcile(_, id, pc) => ControllerOk(w, id, pc)
    case Api(pc) => ApiOk(w, pc)
    case Stream(id, session) => StreamOk(w, id, session)
  }

  /** A task that does not hold id survives any change of row id. */
  lemma FrameTask(w: World, w': World, id: nat, task: Task)
    requires Frame(w, w', id) && TaskOk(w, task) && Holds(task) != Some(id)
    ensures TaskOk(w', task)
  {
    match task
    case Builder(_, tid, pc) => FrameBuilder(w, w', id, tid, pc);
    case Reconcile(_, tid, _) => FrameReady(w, w', id, tid);
    case Api(pc) =>
      if pc.NotifyControllers? { FrameReady(w, w', id, pc.id); }
    case Stream(_, _) =>
  }

  lemma FrameReady(w: World, w': World, id: nat, tid: nat)
    requires Frame(w, w', id) && ReadyToDeploy(w, tid) && tid != id
    ensures ReadyToDeploy(w', tid)
  {
  }

  lemma FrameLinks(db: DB, db': DB, b: nat, id: nat)
    requires Evolves(db, db') && Links(db, b, id) && id < db.nextDeploy
    ensures Links(db', b, id)
  {
  }

  lemma FrameInBuilding(w: World, w': World, id: nat, tid: nat, b: nat, statuses: set<BuildStatus>)
    requires Frame(w, w', id) && InBuilding(w, tid, b, statuses) && tid != id && tid < w.db.nextDeploy
    ensures InBuilding(w', tid, b, statuses)
    ensures NoImage(w, tid) ==> NoImage(w', tid)
    ensures HasImage(w, tid) ==> HasImage(w', tid)
  {
  }

  lemma FrameBuilder(w: World, w': World, id: nat, tid: nat, pc: BuilderPc)
    requires Frame(w, w', id) && tid < w.db.nextDeploy && BuilderOk(w, tid, pc)
    requires pc.LoadDeploy? || pc.LoadService? || pc.LoadBuild? || pc.Claim? || tid != id
    ensures BuilderOk(w', tid, pc)
  {
    hide Evolves, OnlyRow, Links;
    match pc
    case LoadDeploy =>
    case LoadService(_) =>
    case LoadBuild =>
    case Claim(b) => FrameLinks(w.db, w'.db, b, tid);
    case Start(b) => FrameInBuilding(w, w', id, tid, b, {BuildQueued});
    case Running(b) => FrameInBuilding(w, w', id, tid, b, {BuildRunning});
    case ReportFailure(b, _) => FrameInBuilding(w, w', id, tid, b, {BuildRunning});
    case FinishFailed(b) => FrameInBuilding(w, w', id, tid, b, {BuildRunning});
    case SetImage(b, _) => FrameInBuilding(w, w', id, tid, b, {BuildRunning});
    case FinishOk(b) => FrameInBuilding(w, w', id, tid, b, {BuildRunning});
    case Check(b, to) =>
      FrameInBuilding(w, w', id, tid, b, if to == Deploying then {BuildRunning, BuildSucceeded} else {BuildRunning, BuildFailed});
    case Write(b, to, _) =>
      FrameInBuilding(w, w', id, tid, b, if to == Deploying then {BuildRunning, BuildSucceeded} else {BuildRunning, BuildFailed});
    case HandOff(_) => FrameReady(w, w', id, tid);
  }
}
