/** Whether a queued deploy can still be picked up by a given builder. */
module Dispatch {
  import opened Basics
  import opened Lifecycle
  import opened Rows
  import opened Pipeline
  import opened Ownership
  import opened Steps
  import opened Invariant
  import opened Runs

  predicate BeforeClaim(pc: BuilderPc) {
    pc.LoadDeploy? || pc.LoadService? || pc.LoadBuild? || pc.Claim?
  }

  /** The task leads to a claim of deploy id by builder p: it is a process task of
      p that has not claimed yet, or the request about to publish id. */
  predicate Heads(task: Task, p: nat, id: nat) {
    || (task.Builder? && task.proc == p && task.id == id && BeforeClaim(task.bpc))
    || task == Api(NotifyBuilders(id))
  }

  /** Builder p past its sweep query. */
  predicate Swept(s: State, p: nat) {
    p in s.builders && !s.builders[p].Boot?
  }

  ghost predicate Reaches(s: State, p: nat, id: nat)
    requires p in s.builders
  {
    id in Queue(s.builders[p]) || exists t :: t in s.tasks && Heads(s.tasks[t], p, id)
  }

  // -------------------------------------- the ways builder p can miss a deploy

  /** The notification was never sent: the call failed, the request stopped before
      it, or the request never learnt that its row was committed. */
  predicate NotifyLost(s: State, a: Action, id: nat) {
    || ((a.StopTask? || (a.RunTask? && a.c.reply.Error?)) && a.t in s.tasks && s.tasks[a.t] == Api(NotifyBuilders(id)))
    || (a.RunTask? && a.c.reply.LostReply? && a.t in s.tasks && s.world.db.nextDeploy == id
        && s.tasks[a.t].Api? && (s.tasks[a.t].apc.EnqueueDeploy? || s.tasks[a.t].apc.EnqueuePreview?))
  }

  /** The notification was sent between p's sweep query and its LISTEN. */
  predicate NotifyInGap(s: State, a: Action, p: nat, id: nat) {
    && a.RunTask? && a.t in s.tasks && s.tasks[a.t] == Api(NotifyBuilders(id))
    && p in s.builders && s.builders[p].Sweeping?
  }

  /** p's task for the deploy ended before claiming it. */
  predicate StoppedBeforeClaim(s: State, a: Action, p: nat, id: nat) {
    && (a.StopTask? || a.RunTask?) && a.t in s.tasks && a.t !in Step(1, s, a).tasks
    && s.tasks[a.t].Builder? && s.tasks[a.t].proc == p && s.tasks[a.t].id == id && BeforeClaim(s.tasks[a.t].bpc)
  }

  /** p's sweep query failed while the deploy existed. */
  predicate SweepFailed(s: State, a: Action, p: nat, id: nat) {
    && a.Sweep? && a.p == p && p in s.builders && s.builders[p].Boot?
    && !a.reply.Ok? && id < s.world.db.nextDeploy
  }

  predicate Misses(s: State, a: Action, p: nat, id: nat) {
    NotifyLost(s, a, id) || NotifyInGap(s, a, p, id) || StoppedBeforeClaim(s, a, p, id) || SweepFailed(s, a, p, id)
  }

  /** The miss counts for builder p: it happened after p's sweep query, or is that query's
      failure. What was missed before p swept, its sweep makes good. */
  predicate Counts(s: State, a: Action, p: nat, id: nat) {
    Misses(s, a, p, id) && (Swept(s, p) || SweepFailed(s, a, p, id))
  }

  ghost predicate Missed(acts: seq<Action>, p: nat, id: nat) {
    exists i :: 0 <= i < |acts| && Counts(Exec(1, acts[..i]), acts[i], p, id)
  }

  // ------------------------------------------------------------ the induction

  lemma TaskStaysHeaded(w: World, task: Task, c: Choice, p: nat, id: nat)
    requires Heads(task, p, id) && task.Builder? && Claimable(TaskStep(w, task, c).world.db, id)
    ensures TaskStep(w, task, c).task.Some? ==> Heads(TaskStep(w, task, c).task.value, p, id)
  {
  }

  lemma NotifySent(s: State, t: nat, c: Choice, p: nat, id: nat)
    requires t in s.tasks && s.tasks[t] == Api(NotifyBuilders(id)) && !c.reply.Error?
    requires p in s.builders && s.builders[p].Listening?
    ensures p in StepTask(s, t, c).builders && id in Queue(StepTask(s, t, c).builders[p])
  {
  }

  lemma CreatedHeads(w: World, task: Task, c: Choice, p: nat, id: nat)
    requires id !in w.db.deploys && Claimable(TaskStep(w, task, c).world.db, id)
    ensures task.Api? && (task.apc.EnqueueDeploy? || task.apc.EnqueuePreview?) && w.db.nextDeploy == id
    ensures c.reply.Ok? ==> TaskStep(w, task, c).task == Some(Api(NotifyBuilders(id)))
    ensures !c.reply.Error?
  {
  }

  lemma QueueKept(s: State, t: nat, c: Choice, p: nat)
    requires t in s.tasks
    ensures StepTask(s, t, c).builders.Keys == s.builders.Keys
    ensures p in s.builders ==> Queue(s.builders[p]) <= Queue(StepTask(s, t, c).builders[p])
    ensures p in s.builders ==> (StepTask(s, t, c).builders[p].Boot? <==> s.builders[p].Boot?)
  {
    hide TaskStep;
  }

  lemma RunKeepsReach(s: State, t: nat, c: Choice, p: nat, id: nat)
    requires t in s.tasks && Swept(s, p) && Claimable(StepTask(s, t, c).world.db, id)
    requires id in s.world.db.deploys ==> Reaches(s, p, id)
    requires !Misses(s, RunTask(t, c), p, id)
    ensures p in StepTask(s, t, c).builders && Reaches(StepTask(s, t, c), p, id)
  {
    var s' := StepTask(s, t, c);
    QueueKept(s, t, c, p);
    if id !in s.world.db.deploys {
      CreatedHeads(s.world, s.tasks[t], c, p, id);
      hide TaskStep;
      assert t in s'.tasks && Heads(s'.tasks[t], p, id);
    } else if id in Queue(s.builders[p]) {
    } else {
      var u :| u in s.tasks && Heads(s.tasks[u], p, id);
      if u != t {
        hide TaskStep;
        assert u in s'.tasks && Heads(s'.tasks[u], p, id);
      } else if s.tasks[t].Builder? {
        TaskStaysHeaded(s.world, s.tasks[t], c, p, id);
        hide TaskStep;
        assert t in s'.tasks;
      } else {
        NotifySent(s, t, c, p, id);
      }
    }
  }

  lemma EvolvedFromQueued(db: DB, db': DB, id: nat)
    requires Evolves(db, db') && Claimable(db', id) && id < db.nextDeploy
    ensures Claimable(db, id)
  {
  }

  lemma WasQueued(s: State, a: Action, id: nat)
    requires Inv(s) && Claimable(Step(1, s, a).world.db, id) && id < s.world.db.nextDeploy
    ensures Claimable(s.world.db, id)
  {
    hide Inv, Step, Evolves;
    StepInv(s, a);
    EvolvedFromQueued(s.world.db, Step(1, s, a).world.db, id);
  }

  lemma SweepReaches(s: State, a: Action, p: nat, id: nat)
    requires !a.RunTask? && !Swept(s, p) && Swept(Step(1, s, a), p)
    requires Claimable(s.world.db, id) && id < s.world.db.nextDeploy && !SweepFailed(s, a, p, id)
    ensures Reaches(Step(1, s, a), p, id)
  {
    assert a.Sweep? && a.p == p;
  }

  lemma QueueReaches(s: State, a: Action, p: nat, id: nat)
    requires !a.RunTask? && Swept(s, p) && p in Step(1, s, a).builders && id in Queue(s.builders[p])
    requires BuildersOk(s)
    ensures Reaches(Step(1, s, a), p, id)
  {
    var s' := Step(1, s, a);
    if id !in Queue(s'.builders[p]) {
      assert a.SpawnSwept? || a.ReceiveBuild?;
      assert a.t in s'.tasks && Heads(s'.tasks[a.t], p, id);
    }
  }

  lemma HeadReaches(s: State, a: Action, p: nat, id: nat, u: nat)
    requires !a.RunTask? && Swept(s, p) && p in Step(1, s, a).builders && u in s.tasks && Heads(s.tasks[u], p, id)
    requires !NotifyLost(s, a, id) && !StoppedBeforeClaim(s, a, p, id)
    ensures u in Step(1, s, a).tasks && Heads(Step(1, s, a).tasks[u], p, id)
  {
  }

  lemma NoNewRows(s: State, a: Action, id: nat)
    requires !a.RunTask? && id in Step(1, s, a).world.db.deploys
    ensures id in s.world.db.deploys
  {
  }

  lemma StepKeepsReach(s: State, a: Action, p: nat, id: nat)
    requires Inv(s) && Swept(Step(1, s, a), p) && Claimable(Step(1, s, a).world.db, id)
    requires Swept(s, p) && Claimable(s.world.db, id) ==> Reaches(s, p, id)
    requires !Misses(s, a, p, id)
    ensures Reaches(Step(1, s, a), p, id)
  {
    if id in s.world.db.deploys {
      DeployFacts(s.world, id);
      WasQueued(s, a, id);
    }
    assert BuildersOk(s);
    hide Inv, StepTask, BuildersOk;
    if a.RunTask? && a.t in s.tasks {
      QueueKept(s, a.t, a.c, p);
      RunKeepsReach(s, a.t, a.c, p, id);
    } else if !a.RunTask? {
      hide Step;
      NoNewRows(s, a, id);
      if !Swept(s, p) {
        SweepReaches(s, a, p, id);
      } else if id in Queue(s.builders[p]) {
        QueueReaches(s, a, p, id);
      } else {
        var u :| u in s.tasks && Heads(s.tasks[u], p, id);
        HeadReaches(s, a, p, id, u);
      }
    }
  }

  lemma MissedStays(acts: seq<Action>, p: nat, id: nat)
    requires acts != [] && Missed(Front(acts), p, id)
    ensures Missed(acts, p, id)
  {
    hide Exec, Counts;
    var i :| 0 <= i < |Front(acts)| && Counts(Exec(1, Front(acts)[..i]), Front(acts)[i], p, id);
    assert acts[..i] == Front(acts)[..i];
  }

  /** Only p's sweep query takes it past that query, and the query itself is no other miss. */
  lemma SweepIsNoMiss(s: State, a: Action, p: nat, id: nat)
    requires !Swept(s, p) && Swept(Step(1, s, a), p)
    ensures Misses(s, a, p, id) ==> SweepFailed(s, a, p, id)
  {
    hide TaskStep;
    assert a.Sweep?;
  }

  /** Every queued deploy is on its way to every builder that is past its sweep query,
      unless one of the four listed events happened to it since that query, or the query
      failed. Whatever happened before the query does not matter: in particular a builder
      that starts late and sweeps successfully reaches every deploy that is still queued. */
  lemma {:induction false} QueuedIsReachedOrMissed(acts: seq<Action>, p: nat, id: nat)
    requires Swept(Exec(1, acts), p) && Claimable(Table(acts), id)
    ensures Reaches(Exec(1, acts), p, id) || Missed(acts, p, id)
  {
    var s := Exec(1, Front(acts));
    if Missed(Front(acts), p, id) {
      MissedStays(acts, p, id);
    } else if !Counts(Exec(1, acts[..|acts| - 1]), acts[|acts| - 1], p, id) {
      ExecInv(Front(acts));
      if !Swept(s, p) { SweepIsNoMiss(s, Last(acts), p, id); }
      if Swept(s, p) && Claimable(s.world.db, id) { QueuedIsReachedOrMissed(Front(acts), p, id); }
      StepKeepsReach(s, Last(acts), p, id);
    }
  }

  /** A sweep lists every queued deploy once, the oldest first. */
  lemma SweepIsOldestFirst(db: DB, ids: seq<nat>, id: nat, older: nat)
    requires IsSweep(db, ids) && Claimable(db, id) && Claimable(db, older) && older < id
    ensures exists i, j :: 0 <= i < j < |ids| && ids[i] == older && ids[j] == id
    ensures forall i, j :: 0 <= i < |ids| && 0 <= j < |ids| && ids[i] == ids[j] ==> i == j
  {
    assert older in ids && id in ids;
  }

  predicate Booting(s: State, p: nat) {
    p in s.builders && s.builders[p].Boot?
  }

  lemma BootsOnce(s: State, a: Action, p: nat)
    requires p < s.nextBuilder && !Booting(s, p)
    ensures p < Step(1, s, a).nextBuilder && !Booting(Step(1, s, a), p)
  {
    hide TaskStep;
  }

  lemma {:induction false} SweptNeverBoots(acts: seq<Action>, i: nat, p: nat)
    requires i <= |acts| && p < Exec(1, acts[..i]).nextBuilder && !Booting(Exec(1, acts[..i]), p)
    ensures p < Exec(1, acts).nextBuilder && !Booting(Exec(1, acts), p)
    decreases |acts|
  {
    if i == |acts| {
      assert acts[..i] == acts;
    } else {
      assert Front(acts)[..i] == acts[..i];
      SweptNeverBoots(Front(acts), i, p);
      BootsOnce(Exec(1, Front(acts)), Last(acts), p);
    }
  }

  lemma CountedNeverBoots(s: State, a: Action, p: nat, id: nat)
    requires Inv(s) && Counts(s, a, p, id)
    ensures p < Step(1, s, a).nextBuilder && !Booting(Step(1, s, a), p)
  {
    assert BuildersOk(s);
    hide Inv;
    if Swept(s, p) {
      BootsOnce(s, a, p);
    }
  }

  lemma NothingCountsBeforeBoot(acts: seq<Action>, i: nat, p: nat, id: nat)
    requires i < |acts| && Booting(Exec(1, acts), p)
    ensures !Counts(Exec(1, acts[..i]), acts[i], p, id)
  {
    if Counts(Exec(1, acts[..i]), acts[i], p, id) {
      ExecInv(acts[..i]);
      CountedNeverBoots(Exec(1, acts[..i]), acts[i], p, id);
      assert acts[..i + 1][..i] == acts[..i];
      assert Exec(1, acts[..i + 1]) == Step(1, Exec(1, acts[..i]), acts[i]);
      hide Exec, Counts, Step, Booting;
      SweptNeverBoots(acts, i + 1, p);
    }
  }

  /** A builder that starts at any point of a run and sweeps successfully reaches every
      deploy that is queued at any later point, unless one of the events happened since
      its sweep: nothing that other builders missed before is lost. */
  lemma LateSweepReaches(acts: seq<Action>, ids: seq<nat>, more: seq<Action>, p: nat, id: nat)
    requires Booting(Exec(1, acts), p) && IsSweep(Table(acts), ids)
    requires var all := acts + [Sweep(p, Ok, ids)] + more; Swept(Exec(1, all), p) && Claimable(Table(all), id)
    ensures var all := acts + [Sweep(p, Ok, ids)] + more;
      Reaches(Exec(1, all), p, id)
      || exists i :: |acts| < i < |all| && Counts(Exec(1, all[..i]), all[i], p, id)
  {
    var all := acts + [Sweep(p, Ok, ids)] + more;
    QueuedIsReachedOrMissed(all, p, id);
    if !Reaches(Exec(1, all), p, id) {
      var i :| 0 <= i < |all| && Counts(Exec(1, all[..i]), all[i], p, id);
      hide Exec, Reaches, Counts;
      if i < |acts| {
        assert all[..i] == acts[..i] && all[i] == acts[i];
        NothingCountsBeforeBoot(acts, i, p, id);
      } else if i == |acts| {
        assert all[..i] == acts && all[i] == Sweep(p, Ok, ids);
        SweepCountsNothing(Exec(1, acts), p, ids, id);
      }
    }
  }

  lemma SweepCountsNothing(s: State, p: nat, ids: seq<nat>, id: nat)
    requires Booting(s, p)
    ensures !Counts(s, Sweep(p, Ok, ids), p, id)
  {
  }

  // ------------------------------------------------- a missed deploy stays so

  lemma HeadsAreNotNew(w: World, task: Task, c: Choice, p: nat, id: nat)
    requires id < w.db.nextDeploy && TaskStep(w, task, c).task.Some?
    requires Heads(TaskStep(w, task, c).task.value, p, id)
    ensures Heads(task, p, id)
  {
  }

  lemma NotesAreSent(s: State, t: nat, c: Choice, p: nat, id: nat)
    requires t in s.tasks && p in s.builders && id !in Queue(s.builders[p])
    requires p in StepTask(s, t, c).builders && id in Queue(StepTask(s, t, c).builders[p])
    ensures s.tasks[t] == Api(NotifyBuilders(id))
  {
    assert TaskStep(s.world, s.tasks[t], c).note.ToBuilders? ==>
      s.tasks[t] == Api(NotifyBuilders(TaskStep(s.world, s.tasks[t], c).note.id));
    hide TaskStep;
  }

  lemma RunKeepsStranded(s: State, t: nat, c: Choice, p: nat, id: nat)
    requires t in s.tasks && p in s.builders && id < s.world.db.nextDeploy
    requires p in StepTask(s, t, c).builders && Reaches(StepTask(s, t, c), p, id)
    ensures Reaches(s, p, id)
  {
    var s' := StepTask(s, t, c);
    if id in Queue(s'.builders[p]) {
      if id !in Queue(s.builders[p]) {
        NotesAreSent(s, t, c, p, id);
        assert Heads(s.tasks[t], p, id);
      }
    } else {
      var u :| u in s'.tasks && Heads(s'.tasks[u], p, id);
      hide TaskStep;
      if u == t { HeadsAreNotNew(s.world, s.tasks[u], c, p, id); }
      assert u in s.tasks && Heads(s.tasks[u], p, id);
    }
  }

  lemma OtherQueue(s: State, a: Action, p: nat, id: nat)
    requires !a.RunTask? && Swept(s, p) && p in Step(1, s, a).builders && BuildersOk(s)
    ensures id in Queue(Step(1, s, a).builders[p]) ==> id in Queue(s.builders[p])
  {
    hide StepTask, TasksOutside, Deliver, AddService, DropServices, IsSweep;
  }

  lemma OtherHeads(s: State, a: Action, p: nat, id: nat, u: nat)
    requires !a.RunTask? && Swept(s, p) && p in Step(1, s, a).builders
    requires u in Step(1, s, a).tasks && Heads(Step(1, s, a).tasks[u], p, id)
    ensures id in Queue(s.builders[p]) || (u in s.tasks && Heads(s.tasks[u], p, id))
  {
    hide StepTask, Deliver, AddService, DropServices, IsSweep;
  }

  lemma OtherKeepsStranded(s: State, a: Action, p: nat, id: nat)
    requires !a.RunTask? && Swept(s, p) && p in Step(1, s, a).builders && Reaches(Step(1, s, a), p, id)
    requires BuildersOk(s)
    ensures Reaches(s, p, id)
  {
    hide Step, Queue, Heads, BuildersOk;
    var s' := Step(1, s, a);
    OtherQueue(s, a, p, id);
    if id !in Queue(s'.builders[p]) {
      var u :| u in s'.tasks && Heads(s'.tasks[u], p, id);
      OtherHeads(s, a, p, id, u);
    }
  }

  lemma StaysSwept(s: State, a: Action, p: nat)
    requires Swept(s, p) && BuildersOk(s) && p in Step(1, s, a).builders
    ensures Swept(Step(1, s, a), p)
  {
    hide TaskStep;
  }

  /** NOTIFY is sent once per deploy and a builder sweeps once, so a deploy no
      longer on its way to a builder never gets on its way to that builder again,
      for as long as the builder runs and the deploy is queued. */
  lemma {:induction false} StrandedForever(acts: seq<Action>, more: seq<Action>, p: nat, id: nat)
    requires Swept(Exec(1, acts), p) && Claimable(Table(acts), id) && !Reaches(Exec(1, acts), p, id)
    requires forall n :: 0 <= n <= |more| ==> p in Exec(1, acts + more[..n]).builders
    ensures Swept(Exec(1, acts + more), p) && !Reaches(Exec(1, acts + more), p, id)
    ensures id < Table(acts + more).nextDeploy
    decreases |more|
  {
    if more == [] {
      assert acts + more == acts && more[..0] == [];
      ExecInv(acts);
      DeployFacts(Exec(1, acts).world, id);
    } else {
      var all, before := acts + more, acts + Front(more);
      assert Front(all) == before;
      forall n | 0 <= n <= |Front(more)| ensures p in Exec(1, acts + Front(more)[..n]).builders {
        assert Front(more)[..n] == more[..n];
      }
      StrandedForever(acts, Front(more), p, id);
      ExecInv(before);
      RowStep(all, id);
      var s, a := Exec(1, before), Last(all);
      assert more[..|more|] == more;
      assert Exec(1, all) == Step(1, s, a);
      assert BuildersOk(s);
      hide Exec, Step, Inv, BuildersOk;
      StaysSwept(s, a, p);
      StrandedStays(s, a, p, id);
    }
  }

  lemma StrandedStays(s: State, a: Action, p: nat, id: nat)
    requires BuildersOk(s) && Swept(s, p) && p in Step(1, s, a).builders && id < s.world.db.nextDeploy
    ensures Reaches(Step(1, s, a), p, id) ==> Reaches(s, p, id)
  {
    if Reaches(Step(1, s, a), p, id) {
      if !a.RunTask? {
        OtherKeepsStranded(s, a, p, id);
      } else if a.t in s.tasks {
        hide StepTask, BuildersOk;
        RunKeepsStranded(s, a.t, a.c, p, id);
      }
    }
  }

  /** Task t is the last way on which deploy id can still get to builder p. */
  predicate OnlyRoute(s: State, p: nat, id: nat, t: nat)
    requires p in s.builders
  {
    && id !in Queue(s.builders[p])
    && t in s.tasks && Heads(s.tasks[t], p, id)
    && forall u :: u in s.tasks && Heads(s.tasks[u], p, id) ==> u == t
  }

  lemma HeadIsOld(s: State, p: nat, id: nat, t: nat)
    requires Inv(s) && t in s.tasks && Heads(s.tasks[t], p, id)
    ensures id < s.world.db.nextDeploy
  {
    assert TaskOk(s.world, s.tasks[t]);
  }

  lemma RunEndsRoute(s: State, t: nat, c: Choice, p: nat, id: nat)
    requires p in s.builders && OnlyRoute(s, p, id, t) && id < s.world.db.nextDeploy
    requires Misses(s, RunTask(t, c), p, id)
    ensures p in StepTask(s, t, c).builders && !Reaches(StepTask(s, t, c), p, id)
  {
    var s' := StepTask(s, t, c);
    QueueKept(s, t, c, p);
    if id in Queue(s'.builders[p]) { NotesAreSent(s, t, c, p, id); }
    assert t !in s'.tasks;
    hide TaskStep;
    forall u | u in s'.tasks ensures !Heads(s'.tasks[u], p, id) { assert u in s.tasks && s'.tasks[u] == s.tasks[u]; }
  }

  lemma StopEndsRoute(s: State, t: nat, p: nat, id: nat)
    requires p in s.builders && OnlyRoute(s, p, id, t)
    ensures !Reaches(Step(1, s, StopTask(t)), p, id)
  {
    var s' := Step(1, s, StopTask(t));
    forall u | u in s'.tasks ensures !Heads(s'.tasks[u], p, id) { assert u in s.tasks; }
  }

  /** When one way is left, a step of the system takes the deploy out of the builder's
      reach exactly when it is one of the listed events: none of them is harmless, and
      nothing else does it. */
  lemma RouteLostIffMissed(s: State, a: Action, p: nat, id: nat, t: nat)
    requires Inv(s) && Swept(s, p) && OnlyRoute(s, p, id, t)
    requires p in Step(1, s, a).builders && Claimable(Step(1, s, a).world.db, id)
    ensures !Reaches(Step(1, s, a), p, id) <==> Misses(s, a, p, id)
  {
    HeadIsOld(s, p, id, t);
    assert BuildersOk(s);
    StaysSwept(s, a, p);
    if !Misses(s, a, p, id) {
      StepKeepsReach(s, a, p, id);
    } else if a.RunTask? {
      MissedRuns(s, a, p, id, t);
      RunEndsRoute(s, a.t, a.c, p, id);
    } else {
      MissedOtherwise(s, a, p, id, t);
      StopEndsRoute(s, t, p, id);
    }
  }

  lemma MissedRuns(s: State, a: Action, p: nat, id: nat, t: nat)
    requires p in s.builders && OnlyRoute(s, p, id, t) && id < s.world.db.nextDeploy && a.RunTask? && Misses(s, a, p, id)
    ensures a.t == t
  {
    hide Step;
  }

  lemma MissedOtherwise(s: State, a: Action, p: nat, id: nat, t: nat)
    requires Swept(s, p) && OnlyRoute(s, p, id, t) && !a.RunTask? && Misses(s, a, p, id)
    requires p in Step(1, s, a).builders
    ensures a == StopTask(t)
  {
    hide Step;
  }
}
