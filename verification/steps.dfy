/** Every step of a task, taken alone, keeps the world good, moves rows only along
    the lifecycle, and writes a row only while holding it. */
module Steps {
  import opened Basics
  import opened Lifecycle
  import opened Rows
  import opened Pipeline
  import opened Ownership
  import opened Calls

  /** A row nobody can hold yet: not created, or still queued. */
  predicate Unheld(w: World, id: nat) {
    w.db.nextDeploy <= id || Claimable(w.db, id)
  }

  /** The row a step of a task may write. */
  function Subject(w: World, task: Task): nat {
    match task
    case Builder(_, id, _) => id
    case Reconcile(_, id, _) => id
    case Api(_) => w.db.nextDeploy
    case Stream(id, _) => id
  }

  ghost predicate StepOk(w: World, task: Task, n: Next) {
    var id := Subject(w, task);
    && WorldOk(n.world)
    && Frame(w, n.world, id)
    && (n.world == w || Holds(task) == Some(id) || Unheld(w, id))
    && (n.task.Some? ==>
          && TaskOk(n.world, n.task.value)
          && (Holds(n.task.value) == None || Holds(n.task.value) == Holds(task)
              || (Holds(n.task.value) == Some(id) && Unheld(w, id))))
    && (n.note.ToControllers? ==>
          n.task == None && Holds(task) == Some(n.note.id) && ReadyToDeploy(n.world, n.note.id))
    && (n.note.ToBuilders? ==> n.task == None && n.note.id < w.db.nextDeploy)
  }

  // ------------------------------------------------ what a good world says

  lemma DeployFacts(w: World, id: nat)
    requires WorldOk(w) && id in w.db.deploys
    ensures id < w.db.nextDeploy && w.db.deploys[id].service in w.db.services && RowOk(w.db.deploys[id])
    ensures w.db.deploys[id].service < w.db.nextService
    ensures w.db.deploys[id].status == Queued ==> id !in w.calls
  {
  }

  lemma BuildFacts(w: World, b: nat)
    requires WorldOk(w) && b in w.db.builds
    ensures b < w.db.nextBuild && w.db.builds[b].deploy in w.db.deploys
    ensures BuildOk(w.db.builds[b], w.db.deploys[w.db.builds[b].deploy])
  {
  }

  lemma OneBuild(w: World, b: nat, b': nat, id: nat)
    requires WorldOk(w) && IsBuildOf(w.db, b, id) && IsBuildOf(w.db, b', id)
    ensures b == b'
  {
  }

  /** A new row for id fits its build if it fits the build its builder knows. */
  lemma FitsBuild(w: World, id: nat, b: nat, row: Deploy)
    requires WorldOk(w) && id in w.db.deploys && Links(w.db, b, id) && BuildOk(w.db.builds[b], row)
    ensures forall b' :: IsBuildOf(w.db, b', id) ==> BuildOk(w.db.builds[b'], row)
  {
    forall b' | IsBuildOf(w.db, b', id) ensures BuildOk(w.db.builds[b'], row) {
      OneBuild(w, b, b', id);
    }
  }

  // ---------------------------------------------------------------- builders

  lemma BeforeClaimOk(w: World, p: nat, id: nat, pc: BuilderPc, c: Choice)
    requires WorldOk(w) && TaskOk(w, Builder(p, id, pc))
    requires pc.LoadDeploy? || pc.LoadService? || pc.LoadBuild?
    ensures StepOk(w, Builder(p, id, pc), BuilderStep(w, p, id, pc, c))
  {
    hide RowsOk, BuildsOk, OneBuildEach, CallsOk, SourcesOk, Evolves, OnlyRow;
    NoCall(w, id);
    if IsBuildOf(w.db, c.row, id) { BuildFacts(w, c.row); }
  }

  lemma ClaimOk(w: World, p: nat, id: nat, b: nat, c: Choice)
    requires WorldOk(w) && TaskOk(w, Builder(p, id, Claim(b)))
    ensures StepOk(w, Builder(p, id, Claim(b)), BuilderStep(w, p, id, Claim(b), c))
  {
    hide RowsOk, BuildsOk, OneBuildEach, CallsOk, SourcesOk, Evolves, OnlyRow;
    NoCall(w, id);
    if Claimable(w.db, id) {
      DeployFacts(w, id);
      BuildFacts(w, b);
      FitsBuild(w, id, b, w.db.deploys[id].(status := Building));
      PutDeployOk(w, id, w.db.deploys[id].(status := Building));
      assert ClaimRow(w.db, id) == PutDeploy(w.db, id, w.db.deploys[id].(status := Building));
    }
  }

  lemma BuildStatusOk(w: World, id: nat, b: nat, statuses: set<BuildStatus>, to: BuildStatus)
    requires WorldOk(w) && InBuilding(w, id, b, statuses)
    requires forall from :: from in statuses ==> CanTransitionBuild(from, to)
    requires to == BuildSucceeded ==> HasImage(w, id)
    ensures CallOk(w, WriteBuildStatus(w.db, b, to), id)
    ensures InBuilding(w.(db := WriteBuildStatus(w.db, b, to)), id, b, {to})
  {
    hide RowsOk, BuildsOk, OneBuildEach, CallsOk, SourcesOk, Evolves, OnlyRow;
    NoCall(w, id);
    if b in w.db.builds {
      BuildFacts(w, b);
      PutBuildOk(w, b, w.db.builds[b].(status := to));
    }
  }

  lemma LogOk(w: World, id: nat, b: nat, chunk: string)
    requires WorldOk(w) && InBuilding(w, id, b, {BuildRunning})
    ensures CallOk(w, AppendLog(w.db, b, chunk), id)
    ensures InBuilding(w.(db := AppendLog(w.db, b, chunk)), id, b, {BuildRunning})
  {
    hide RowsOk, BuildsOk, OneBuildEach, CallsOk, SourcesOk, Evolves, OnlyRow;
    NoCall(w, id);
    if b in w.db.builds {
      var row := w.db.builds[b].(logs := w.db.builds[b].logs + chunk);
      BuildFacts(w, b);
      PutBuildOk(w, b, row);
    }
  }

  lemma CalledOk(w: World, id: nat)
    requires WorldOk(w) && id !in w.calls && id < w.db.nextDeploy
    requires id in w.db.deploys ==> w.db.deploys[id].status != Queued
    ensures WorldOk(w.(calls := w.calls + [id]))
  {
    hide TablesOk;
  }

  lemma MadeOk(w: World, id: nat, image: string)
    requires WorldOk(w)
    ensures WorldOk(w.(made := w.made + {(id, image)}))
  {
    hide TablesOk;
    var w' := w.(made := w.made + {(id, image)});
    forall j | j in w'.db.deploys && w'.db.deploys[j].image != "" ensures HasSource(w', j) {
      assert HasSource(w, j);
    }
  }

  lemma StartOk(w: World, p: nat, id: nat, b: nat, c: Choice)
    requires WorldOk(w) && TaskOk(w, Builder(p, id, Start(b)))
    ensures StepOk(w, Builder(p, id, Start(b)), BuilderStep(w, p, id, Start(b), c))
  {
    hide RowsOk, BuildsOk, OneBuildEach, CallsOk, SourcesOk, Evolves, OnlyRow;
    NoCall(w, id);
    BuildStatusOk(w, id, b, {BuildQueued}, BuildRunning);
    CalledOk(w.(db := WriteBuildStatus(w.db, b, BuildRunning)), id);
  }

  lemma RunningOk(w: World, p: nat, id: nat, b: nat, c: Choice)
    requires WorldOk(w) && TaskOk(w, Builder(p, id, Running(b)))
    ensures StepOk(w, Builder(p, id, Running(b)), BuilderStep(w, p, id, Running(b), c))
  {
    hide RowsOk, BuildsOk, OneBuildEach, CallsOk, SourcesOk, Evolves, OnlyRow;
    NoCall(w, id);
    if c.output.Return? { MadeOk(w, id, c.output.image); }
    if c.output.Print? { LogOk(w, id, b, c.output.chunk); }
  }

  lemma FinishingOk(w: World, p: nat, id: nat, pc: BuilderPc, c: Choice)
    requires WorldOk(w) && TaskOk(w, Builder(p, id, pc))
    requires pc.ReportFailure? || pc.FinishFailed? || pc.FinishOk?
    ensures StepOk(w, Builder(p, id, pc), BuilderStep(w, p, id, pc, c))
  {
    hide RowsOk, BuildsOk, OneBuildEach, CallsOk, SourcesOk, Evolves, OnlyRow;
    NoCall(w, id);
    match pc {
      case ReportFailure(b, err) => LogOk(w, id, b, "\nBUILD FAILED: " + err + "\n");
      case FinishFailed(b) => BuildStatusOk(w, id, b, {BuildRunning}, BuildFailed);
      case FinishOk(b) => BuildStatusOk(w, id, b, {BuildRunning}, BuildSucceeded);
      case _ =>
    }
  }

  lemma SetImageOk(w: World, p: nat, id: nat, b: nat, image: string, c: Choice)
    requires WorldOk(w) && TaskOk(w, Builder(p, id, SetImage(b, image)))
    ensures StepOk(w, Builder(p, id, SetImage(b, image)), BuilderStep(w, p, id, SetImage(b, image), c))
  {
    hide RowsOk, BuildsOk, OneBuildEach, CallsOk, SourcesOk, Evolves, OnlyRow;
    NoCall(w, id);
    if id in w.db.deploys {
      DeployFacts(w, id);
      FitsBuild(w, id, b, w.db.deploys[id].(image := image));
      PutDeployOk(w, id, w.db.deploys[id].(image := image));
    }
  }

  lemma UpdateOk(w: World, p: nat, id: nat, pc: BuilderPc, c: Choice)
    requires WorldOk(w) && TaskOk(w, Builder(p, id, pc)) && (pc.Check? || pc.Write? || pc.HandOff?)
    ensures StepOk(w, Builder(p, id, pc), BuilderStep(w, p, id, pc, c))
  {
    hide RowsOk, BuildsOk, OneBuildEach, CallsOk, SourcesOk, Evolves, OnlyRow;
    NoCall(w, id);
    if pc.Write? && id in w.db.deploys {
      DeployFacts(w, id);
      FitsBuild(w, id, pc.b, w.db.deploys[id].(status := pc.to));
      PutDeployOk(w, id, w.db.deploys[id].(status := pc.to));
    }
  }

  lemma BuilderStepOk(w: World, p: nat, id: nat, pc: BuilderPc, c: Choice)
    requires WorldOk(w) && TaskOk(w, Builder(p, id, pc))
    ensures StepOk(w, Builder(p, id, pc), BuilderStep(w, p, id, pc, c))
  {
    hide WorldOk, TaskOk, StepOk, BuilderStep;
    match pc
    case Claim(b) => ClaimOk(w, p, id, b, c);
    case Start(b) => StartOk(w, p, id, b, c);
    case Running(b) => RunningOk(w, p, id, b, c);
    case ReportFailure(_, _) => FinishingOk(w, p, id, pc, c);
    case FinishFailed(_) => FinishingOk(w, p, id, pc, c);
    case FinishOk(_) => FinishingOk(w, p, id, pc, c);
    case SetImage(b, image) => SetImageOk(w, p, id, b, image, c);
    case Check(_, _) => UpdateOk(w, p, id, pc, c);
    case Write(_, _, _) => UpdateOk(w, p, id, pc, c);
    case HandOff(_) => UpdateOk(w, p, id, pc, c);
    case _ => BeforeClaimOk(w, p, id, pc, c);
  }

  // ------------------------------------------------- controllers, API, streams

  lemma ReconcileStepOk(w: World, k: nat, id: nat, pc: ControllerPc, c: Choice)
    requires WorldOk(w) && TaskOk(w, Reconcile(k, id, pc))
    ensures StepOk(w, Reconcile(k, id, pc), ReconcileStep(w, k, id, pc, c))
  {
    hide RowsOk, BuildsOk, OneBuildEach, CallsOk, SourcesOk, Evolves, OnlyRow;
    NoCall(w, id);
    if pc.WriteOutcome? && id in w.db.deploys {
      DeployFacts(w, id);
      forall b | IsBuildOf(w.db, b, id) ensures BuildOk(w.db.builds[b], w.db.deploys[id].(status := pc.to)) {
        BuildFacts(w, b);
      }
      PutDeployOk(w, id, w.db.deploys[id].(status := pc.to));
    }
  }

  lemma ApiInsertOk(w: World, pc: ApiPc, c: Choice)
    requires WorldOk(w) && TaskOk(w, Api(pc))
    requires pc.EnqueueDeploy? || pc.EnqueuePreview?
    ensures StepOk(w, Api(pc), ApiStep(w, pc, c))
  {
    hide RowsOk, BuildsOk, OneBuildEach, CallsOk, SourcesOk, Evolves, OnlyRow;
    var id := w.db.nextDeploy;
    NoCall(w, id);
    if pc.service in w.db.services {
      var row := if pc.EnqueueDeploy? then Deploy(pc.service, Queued, pc.commit, "", Production, None)
                 else Deploy(pc.service, Queued, pc.commit, "", Preview, Some(pc.pr));
      InsertOk(w, w, row, Build(id, BuildQueued, ""));
    }
  }

  lemma ApiImagedOk(w: World, pc: ApiPc, c: Choice)
    requires WorldOk(w) && TaskOk(w, Api(pc)) && (pc.ImageDeploy? || pc.Reuse?)
    ensures StepOk(w, Api(pc), ApiStep(w, pc, c))
  {
    hide RowsOk, BuildsOk, OneBuildEach, CallsOk, SourcesOk, Evolves, OnlyRow;
    var id := w.db.nextDeploy;
    NoCall(w, id);
    if pc.service in w.db.services && pc.image != "" {
      var noted := if pc.ImageDeploy? then w.(asked := w.asked + {(id, pc.image)})
                   else w.(reused := w.reused[id := pc.from]);
      var row := Deploy(pc.service, Deploying, if pc.ImageDeploy? then "" else pc.commit, pc.image, Production, None);
      var log := if pc.ImageDeploy? then "deployed prebuilt image " + pc.image + "\n"
                 else "rolled back: reused image " + pc.image + " from deploy " + Decimal.FormatInt(pc.from) + "\n";
      InsertOk(w, noted, row, Build(id, BuildSucceeded, log));
    }
  }

  lemma ApiReadOk(w: World, pc: ApiPc, c: Choice)
    requires WorldOk(w) && TaskOk(w, Api(pc))
    requires pc.NotifyBuilders? || pc.Rollback? || pc.Redeploy? || pc.NotifyControllers?
    ensures StepOk(w, Api(pc), ApiStep(w, pc, c))
  {
    hide RowsOk, BuildsOk, OneBuildEach, CallsOk, SourcesOk, Evolves, OnlyRow;
    NoCall(w, w.db.nextDeploy);
    if pc.Rollback? && pc.target in w.db.deploys { DeployFacts(w, pc.target); }
    if c.row in w.db.deploys { DeployFacts(w, c.row); }
  }

  lemma ApiStepOk(w: World, pc: ApiPc, c: Choice)
    requires WorldOk(w) && TaskOk(w, Api(pc))
    ensures StepOk(w, Api(pc), ApiStep(w, pc, c))
  {
    hide WorldOk, TaskOk, StepOk, ApiStep;
    match pc
    case EnqueueDeploy(_, _) => ApiInsertOk(w, pc, c);
    case EnqueuePreview(_, _, _) => ApiInsertOk(w, pc, c);
    case ImageDeploy(_, _) => ApiImagedOk(w, pc, c);
    case Reuse(_, _, _, _) => ApiImagedOk(w, pc, c);
    case _ => ApiReadOk(w, pc, c);
  }

  lemma StreamStepOk(w: World, id: nat, s: Session, c: Choice)
    requires WorldOk(w) && TaskOk(w, Stream(id, s))
    ensures StepOk(w, Stream(id, s), StreamStep(w, id, s, c))
  {
    hide RowsOk, BuildsOk, OneBuildEach, CallsOk, SourcesOk, Evolves, OnlyRow;
    NoCall(w, id);
    if IsBuildOf(w.db, c.row, id) {
      BuildFacts(w, c.row);
      DeployFacts(w, id);
      forall b | IsBuildOf(w.db, b, id) ensures b == c.row { OneBuild(w, b, c.row, id); }
      var logs := w.db.builds[c.row].logs;
      assert |Concat(s.chunks)| <= |logs|;
      assert logs == Concat(s.chunks) + logs[s.sent..];
      ConcatOfConcat(s.chunks, [logs[s.sent..]]);
      ConcatOne(logs[s.sent..]);
    }
  }

  lemma TaskStepOk(w: World, task: Task, c: Choice)
    requires WorldOk(w) && TaskOk(w, task)
    ensures StepOk(w, task, TaskStep(w, task, c))
  {
    hide WorldOk, TaskOk, StepOk, BuilderStep, ReconcileStep, ApiStep, StreamStep;
    match task
    case Builder(p, id, pc) => BuilderStepOk(w, p, id, pc, c);
    case Reconcile(k, id, pc) => ReconcileStepOk(w, k, id, pc, c);
    case Api(pc) => ApiStepOk(w, pc, c);
    case Stream(id, session) => StreamStepOk(w, id, session, c);
  }
}
