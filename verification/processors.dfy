/** The builder's and the controller's goroutines and the API's deploy requests as the
    source writes them (internal/builder/processor.go, internal/controller/processor.go,
    internal/api/deploy_handlers.go, env_handlers.go, settings_handlers.go). Each leaves,
    call by call, exactly what its program points in the pipeline's state machine leave,
    whatever other tasks do between the calls and whenever it stops. */
module Processors {
  import opened Basics
  import opened Lifecycle
  import opened Rows
  import opened Pipeline
  import opened StoreCalls
  import Decimal
  import Slug

  /** The calls of a task that finds these rows. */
  function Trace(task: Option<Task>, turns: seq<Turn>): seq<Effect>
    decreases |turns|
  {
    if task.None? || turns == [] then []
    else
      var n := TaskStep(turns[0].world, task.value, turns[0].choice);
      [Effect(n.world.db, n.note)] + Trace(n.task, turns[1..])
  }

  /** What a task has done and what it will still do. */
  function Whole(effects: seq<Effect>, task: Option<Task>, turns: seq<Turn>): seq<Effect> {
    effects + Trace(task, turns)
  }

  lemma Advance(effects: seq<Effect>, task: Task, turns: seq<Turn>)
    ensures turns == [] ==> Whole(effects, Some(task), turns) == effects
    ensures turns != [] ==>
      var n := TaskStep(turns[0].world, task, turns[0].choice);
      && Whole(effects, Some(task), turns) == Whole(effects + [Effect(n.world.db, n.note)], n.task, turns[1..])
      && (n.task.None? ==> Whole(effects, Some(task), turns) == effects + [Effect(n.world.db, n.note)])
  {
    hide TaskStep;
    if turns != [] {
      var n := TaskStep(turns[0].world, task, turns[0].choice);
      assert effects + ([Effect(n.world.db, n.note)] + Trace(n.task, turns[1..]))
        == (effects + [Effect(n.world.db, n.note)]) + Trace(n.task, turns[1..]);
    }
  }

  // ------------------------------------------------------------ the builder

  lemma BuilderUpdates(effects: seq<Effect>, p: nat, id: nat, b: nat, to: Status, turns: seq<Turn>)
    ensures var u := UpdateStatus(turns, id, to);
      && |u.effects| <= |turns|
      && Whole(effects, Some(Builder(p, id, Check(b, to))), turns)
           == Whole(effects + u.effects,
                    if u.result.Value? && to == Deploying then Some(Builder(p, id, HandOff(b))) else None,
                    turns[|u.effects|..])
  {
    Advance(effects, Builder(p, id, Check(b, to)), turns);
    var u := UpdateStatus(turns, id, to);
    if turns == [] {
      assert effects + u.effects == effects && effects + [] == effects;
    } else if u.effects == [Effect(turns[0].world.db, Silent)] {
      assert Trace(None, turns[1..]) == [] && (|turns| == 1 ==> turns[1..] == []);
    } else {
      var t, v := turns[0], turns[1];
      var read := Effect(t.world.db, Silent);
      Advance(effects + [read], Builder(p, id, Write(b, to, t.world.db.deploys[id].status)), turns[1..]);
      assert turns[1..][0] == v && turns[1..][1..] == turns[2..];
      assert effects + u.effects == (effects + [read]) + [Wrote(v, WriteStatus(v.world.db, id, to))];
    }
  }

  /** fail: a failed build and deploy, each as far as its call succeeds. */
  method FailBuild(s: Store, ghost p: nat, id: nat, b: nat)
    modifies s
    ensures s.effects == Whole(old(s.effects), Some(Builder(p, id, FinishFailed(b))), old(s.turns))
  {
    hide UpdateStatus, Trace, WriteStatus;
    Advance(s.effects, Builder(p, id, FinishFailed(b)), s.turns);
    var finished := s.SetBuildStatus(b, BuildFailed);
    if finished.Gone? { return; }
    BuilderUpdates(s.effects, p, id, b, Lifecycle.Failed, s.turns);
    var updated := s.UpdateDeployStatus(id, Lifecycle.Failed);
    Whole0(s.effects, s.turns);
  }

  lemma Whole0(effects: seq<Effect>, turns: seq<Turn>)
    ensures Whole(effects, None, turns) == effects
  {
    assert effects + [] == effects;
  }

  datatype Built = Image(image: string) | BuildError(err: string)

  /** backend.Build with the log writer: it appends what it prints, and failures to
      append do not stop it. */
  method Build(s: Store, ghost p: nat, ghost id: nat, b: nat) returns (r: Call<Built>)
    modifies s
    ensures var before := Whole(old(s.effects), Some(Builder(p, id, Running(b))), old(s.turns));
      match r
      case Gone => s.effects == before
      case Err => false
      case Value(Image(image)) => image != "" && Whole(s.effects, Some(Builder(p, id, SetImage(b, image))), s.turns) == before
      case Value(BuildError(err)) => Whole(s.effects, Some(Builder(p, id, ReportFailure(b, err))), s.turns) == before
  {
    hide Whole;
    ghost var goal := Whole(s.effects, Some(Builder(p, id, Running(b))), s.turns);
    while true
      invariant Whole(s.effects, Some(Builder(p, id, Running(b))), s.turns) == goal
      decreases |s.turns|
    {
      Advance(s.effects, Builder(p, id, Running(b)), s.turns);
      if s.turns == [] { return Gone; }
      match s.turns[0].choice.output {
        case Print(chunk) =>
          var appended := s.AppendBuildLog(b, chunk);
        case Broke(err) =>
          var silent := s.Elsewhere();
          return Value(BuildError(err));
        case Return(image) =>
          var silent := s.Elsewhere();
          if image != "" { return Value(Image(image)); }
      }
    }
  }

  /** The end of process, once the backend returned. */
  method Conclude(s: Store, ghost p: nat, id: nat, b: nat, image: string)
    requires image != ""
    modifies s
    ensures s.effects == Whole(old(s.effects), Some(Builder(p, id, SetImage(b, image))), old(s.turns))
  {
    hide Whole, UpdateStatus, WriteImage, WriteBuildStatus, WriteStatus;
    Advance(s.effects, Builder(p, id, SetImage(b, image)), s.turns);
    var stored := s.SetDeployImage(id, image);
    if stored.Gone? { return; }
    if stored.Err? {
      FailBuild(s, p, id, b);
      return;
    }
    Advance(s.effects, Builder(p, id, FinishOk(b)), s.turns);
    var finished := s.SetBuildStatus(b, BuildSucceeded);
    if finished.Gone? { return; }
    BuilderUpdates(s.effects, p, id, b, Deploying, s.turns);
    var updated := s.UpdateDeployStatus(id, Deploying);
    if !updated.Value? {
      Whole0(s.effects, s.turns);
      return;
    }
    Advance(s.effects, Builder(p, id, HandOff(b)), s.turns);
    var noted := s.Notify(ToControllers(id));
  }

  /** process from the claim on. */
  method BuildClaimed(s: Store, ghost p: nat, id: nat, b: nat)
    modifies s
    ensures s.effects == Whole(old(s.effects), Some(Builder(p, id, Start(b))), old(s.turns))
  {
    hide Whole, WriteBuildStatus, AppendLog;
    Advance(s.effects, Builder(p, id, Start(b)), s.turns);
    var started := s.SetBuildStatus(b, BuildRunning);
    if !started.Value? { return; }
    var built := Build(s, p, id, b);
    if built.Gone? { return; }
    if built.value.BuildError? {
      Advance(s.effects, Builder(p, id, ReportFailure(b, built.value.err)), s.turns);
      var reported := s.AppendBuildLog(b, "\nBUILD FAILED: " + built.value.err + "\n");
      if reported.Gone? { return; }
      FailBuild(s, p, id, b);
    } else {
      Conclude(s, p, id, b, built.value.image);
    }
  }

  /** process: one goroutine of a builder. */
  method Process(s: Store, ghost p: nat, id: nat)
    modifies s
    ensures s.effects == Whole(old(s.effects), Some(Builder(p, id, LoadDeploy)), old(s.turns))
  {
    hide Whole, ClaimRow, WriteBuildStatus, AppendLog;
    Advance(s.effects, Builder(p, id, LoadDeploy), s.turns);
    var d := s.DeployByID(id);
    if !d.Value? { return; }
    Advance(s.effects, Builder(p, id, LoadService(d.value.service)), s.turns);
    var svc := s.ServiceByID(d.value.service);
    if !svc.Value? { return; }
    Advance(s.effects, Builder(p, id, LoadBuild), s.turns);
    var b := s.BuildByDeployID(id);
    if !b.Value? { return; }
    Advance(s.effects, Builder(p, id, Claim(b.value)), s.turns);
    var claimed := s.ClaimQueuedDeploy(id);
    if !claimed.Value? { return; }
    if !claimed.value { return; }
    BuildClaimed(s, p, id, b.value);
  }

  // --------------------------------------------------------- the controller

  lemma ControllerUpdates(effects: seq<Effect>, k: nat, id: nat, to: Status, turns: seq<Turn>)
    ensures var u := UpdateStatus(turns, id, to);
      |u.effects| <= |turns| && Whole(effects, Some(Reconcile(k, id, CheckOutcome(to))), turns) == effects + u.effects
  {
    Advance(effects, Reconcile(k, id, CheckOutcome(to)), turns);
    var u := UpdateStatus(turns, id, to);
    if turns == [] {
      assert effects + u.effects == effects;
    } else if u.effects == [Effect(turns[0].world.db, Silent)] {
      assert |turns| == 1 ==> turns[1..] == [];
      Whole0(effects + u.effects, turns[1..]);
    } else {
      var t, v := turns[0], turns[1];
      var read := Effect(t.world.db, Silent);
      Advance(effects + [read], Reconcile(k, id, WriteOutcome(to, t.world.db.deploys[id].status)), turns[1..]);
      assert turns[1..][0] == v;
      assert effects + u.effects == (effects + [read]) + [Wrote(v, WriteStatus(v.world.db, id, to))];
    }
  }

  method RecordOutcome(s: Store, ghost k: nat, id: nat, to: Status)
    modifies s
    ensures s.effects == Whole(old(s.effects), Some(Reconcile(k, id, CheckOutcome(to))), old(s.turns))
  {
    ControllerUpdates(s.effects, k, id, to, s.turns);
    hide Whole, UpdateStatus;
    var updated := s.UpdateDeployStatus(id, to);
  }

  /** reconcile: one goroutine of the controller. */
  method ReconcileDeploy(s: Store, ghost k: nat, id: nat)
    modifies s
    ensures s.effects == Whole(old(s.effects), Some(Reconcile(k, id, Load)), old(s.turns))
  {
    hide Whole;
    Advance(s.effects, Reconcile(k, id, Load), s.turns);
    var d := s.DeployByID(id);
    if !d.Value? { return; }
    if d.value.image == "" {
      RecordOutcome(s, k, id, Lifecycle.Failed);
      return;
    }
    Advance(s.effects, Reconcile(k, id, FetchService(d.value)), s.turns);
    var svc := s.ServiceByID(d.value.service);
    if svc.Gone? { return; }
    if svc.Err? {
      RecordOutcome(s, k, id, Lifecycle.Failed);
      return;
    }
    Advance(s.effects, Reconcile(k, id, FetchEnv(d.value)), s.turns);
    var env := s.Elsewhere();
    if env.Gone? { return; }
    if env.Err? {
      RecordOutcome(s, k, id, Lifecycle.Failed);
      return;
    }
    if d.value.kind == Production {
      Advance(s.effects, Reconcile(k, id, FetchDomains(d.value)), s.turns);
      var domains := s.Elsewhere();
      if domains.Gone? { return; }
      if domains.Err? {
        RecordOutcome(s, k, id, Lifecycle.Failed);
        return;
      }
    }
    Advance(s.effects, Reconcile(k, id, ApplySpec(d.value)), s.turns);
    var applied := s.Elsewhere();
    if applied.Gone? { return; }
    RecordOutcome(s, k, id, if applied.Err? then Lifecycle.Failed else Live);
  }

  // ----------------------------------------------------------- API requests

  /** enqueueDeploy. */
  method EnqueueService(s: Store, service: nat, commit: string) returns (r: Call<nat>)
    modifies s
    ensures s.effects == Whole(old(s.effects), Some(Api(EnqueueDeploy(service, commit))), old(s.turns))
  {
    hide Whole, InsertBuildable;
    Advance(s.effects, Api(EnqueueDeploy(service, commit)), s.turns);
    r := s.CreateBuildable(service, commit, Production, None);
    if !r.Value? { return; }
    Advance(s.effects, Api(NotifyBuilders(r.value)), s.turns);
    var noted := s.Notify(ToBuilders(r.value));
  }

  /** enqueuePreview. */
  method EnqueuePullRequest(s: Store, service: nat, commit: string, pr: int) returns (r: Call<nat>)
    modifies s
    ensures s.effects == Whole(old(s.effects), Some(Api(EnqueuePreview(service, commit, pr))), old(s.turns))
  {
    hide Whole, InsertBuildable;
    Advance(s.effects, Api(EnqueuePreview(service, commit, pr)), s.turns);
    r := s.CreateBuildable(service, commit, Preview, Some(pr));
    if !r.Value? { return; }
    Advance(s.effects, Api(NotifyBuilders(r.value)), s.turns);
    var noted := s.Notify(ToBuilders(r.value));
  }

  /** handleImageDeploy: a blank image is refused before any call. */
  method HandleImageDeploy(s: Store, service: nat, raw: string) returns (accepted: bool)
    modifies s
    ensures accepted <==> Slug.Trim(raw, Slug.IsSpace) != ""
    ensures accepted ==>
      s.effects == Whole(old(s.effects), Some(Api(ImageDeploy(service, Slug.Trim(raw, Slug.IsSpace)))), old(s.turns))
    ensures !accepted ==> s.effects == old(s.effects) && s.turns == old(s.turns)
  {
    hide Whole, InsertImaged, Slug.Trim;
    var image := Slug.Trim(raw, Slug.IsSpace);
    if image == "" { return false; }
    accepted := true;
    Advance(s.effects, Api(ImageDeploy(service, image)), s.turns);
    var r := s.CreateImaged(service, image, "", "deployed prebuilt image " + image + "\n");
    if !r.Value? { return; }
    Advance(s.effects, Api(NotifyControllers(r.value)), s.turns);
    var noted := s.Notify(ToControllers(r.value));
  }

  /** CreateRollbackDeploy, then the notification of the controller. */
  method ReuseImage(s: Store, service: nat, image: string, commit: string, from: nat)
    modifies s
    ensures s.effects == Whole(old(s.effects), Some(Api(Reuse(service, image, commit, from))), old(s.turns))
  {
    hide Whole, InsertImaged, Decimal.FormatInt;
    Advance(s.effects, Api(Reuse(service, image, commit, from)), s.turns);
    var log := "rolled back: reused image " + image + " from deploy " + Decimal.FormatInt(from) + "\n";
    var r := s.CreateImaged(service, image, commit, log);
    if !r.Value? { return; }
    Advance(s.effects, Api(NotifyControllers(r.value)), s.turns);
    var noted := s.Notify(ToControllers(r.value));
  }

  /** handleRollback. */
  method HandleRollback(s: Store, target: nat)
    modifies s
    ensures s.effects == Whole(old(s.effects), Some(Api(Rollback(target))), old(s.turns))
  {
    hide Whole;
    Advance(s.effects, Api(Rollback(target)), s.turns);
    var d := s.DeployByID(target);
    if !d.Value? { return; }
    if d.value.image == "" { return; }
    ReuseImage(s, d.value.service, d.value.image, d.value.commit, target);
  }

  /** applyServiceChange. */
  method ApplyServiceChange(s: Store, service: nat)
    modifies s
    ensures s.effects == Whole(old(s.effects), Some(Api(Redeploy(service))), old(s.turns))
  {
    hide Whole, IsLatestImaged;
    Advance(s.effects, Api(Redeploy(service)), s.turns);
    var last := s.LatestImagedDeploy(service);
    if !last.Value? { return; }
    ReuseImage(s, service, last.value.1.image, last.value.1.commit, last.value.0);
  }
}
