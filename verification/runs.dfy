/** What holds over whole runs of the pipeline with one controller and any number
    of builders, requests, streams, failures and crashes. A run is any sequence
    of actions. */
module Runs {
  import opened Basics
  import opened Lifecycle
  import opened Rows
  import opened Pipeline
  import opened Ownership
  import opened Steps
  import opened Invariant

  function Last(acts: seq<Action>): (a: Action)
    requires acts != []
  {
    acts[|acts| - 1]
  }

  function Front(acts: seq<Action>): seq<Action>
    requires acts != []
  {
    acts[..|acts| - 1]
  }

  function Table(acts: seq<Action>): DB { Exec(1, acts).world.db }

  lemma RowsEvolve(acts: seq<Action>)
    requires acts != []
    ensures Evolves(Table(Front(acts)), Table(acts))
  {
    ExecInv(Front(acts));
    StepInv(Exec(1, Front(acts)), Last(acts));
  }

  /** What one action may do to one deploy row. */
  lemma RowStep(acts: seq<Action>, id: nat)
    requires acts != []
    ensures Table(Front(acts)).nextDeploy <= Table(acts).nextDeploy
    ensures id in Table(acts).deploys ==> id < Table(acts).nextDeploy
    ensures id in Table(acts).deploys && id < Table(Front(acts)).nextDeploy ==>
      id in Table(Front(acts)).deploys && DeployEvolves(Table(Front(acts)).deploys[id], Table(acts).deploys[id])
    ensures id in Table(acts).deploys && Table(Front(acts)).nextDeploy <= id ==>
      Table(acts).deploys[id].status == Queued || Table(acts).deploys[id].status == Deploying
  {
    RowsEvolve(acts);
    ExecInv(acts);
    hide Exec;
    if id in Table(acts).deploys { DeployFacts(Exec(1, acts).world, id); }
  }

  // -------------------------------------------------------- status histories

  /** The statuses deploy id had after each action of the run, while it existed. */
  function History(acts: seq<Action>, id: nat): seq<Status> {
    if acts == [] then []
    else History(Front(acts), id) + if id in Table(acts).deploys then [Table(acts).deploys[id].status] else []
  }

  /** Every deploy's status history is a path of the transition table, although
      UpdateDeployStatus checks in one call and writes in another. */
  lemma {:induction false} HistoryIsPath(acts: seq<Action>, id: nat)
    ensures IsPath(History(acts, id))
    ensures History(acts, id) != [] ==> History(acts, id)[0] == Queued || History(acts, id)[0] == Deploying
    ensures History(acts, id) != [] ==> id < Table(acts).nextDeploy
    ensures id in Table(acts).deploys ==>
      History(acts, id) != [] && Table(acts).deploys[id].status == History(acts, id)[|History(acts, id)| - 1]
  {
    if acts != [] {
      HistoryIsPath(Front(acts), id);
      RowStep(acts, id);
      hide Exec;
      var before, after := History(Front(acts), id), History(acts, id);
      forall i | 0 < i < |after| ensures after[i - 1] == after[i] || CanTransition(after[i - 1], after[i]) {
        if i < |before| { assert after[i] == before[i] && after[i - 1] == before[i - 1]; }
      }
    }
  }

  /** live and failed are final: a deploy seen in one of them later has the same
      status or no longer exists, and a deleted deploy never comes back. */
  lemma {:induction false} TerminalIsFinal(acts: seq<Action>, more: seq<Action>, id: nat)
    requires id in Table(acts).deploys && IsTerminal(Table(acts).deploys[id].status)
    ensures id in Table(acts + more).deploys ==>
      Table(acts + more).deploys[id].status == Table(acts).deploys[id].status
    ensures id < Table(acts + more).nextDeploy
    decreases |more|
  {
    if more == [] {
      assert acts + more == acts;
      ExecInv(acts);
      DeployFacts(Exec(1, acts).world, id);
    } else {
      assert Front(acts + more) == acts + Front(more);
      TerminalIsFinal(acts, Front(more), id);
      RowStep(acts + more, id);
    }
  }

  // --------------------------------------------------- built at most once

  /** The action with which a task hands deploy id to the build backend. */
  predicate IsBuildCall(s: State, a: Action, id: nat) {
    && a.RunTask? && a.t in s.tasks && a.c.reply.Ok?
    && s.tasks[a.t].Builder? && s.tasks[a.t].bpc.Start? && s.tasks[a.t].id == id
  }

  function BuildCalls(acts: seq<Action>, id: nat): nat {
    if acts == [] then 0
    else BuildCalls(Front(acts), id) + if IsBuildCall(Exec(1, Front(acts)), Last(acts), id) then 1 else 0
  }

  lemma TaskCalls(w: World, task: Task, c: Choice)
    ensures TaskStep(w, task, c).world.calls ==
      if task.Builder? && task.bpc.Start? && c.reply.Ok? then w.calls + [task.id] else w.calls
  {
  }

  lemma CallsStep(s: State, a: Action, id: nat)
    ensures IsBuildCall(s, a, id) ==> Step(1, s, a).world.calls == s.world.calls + [id]
    ensures !IsBuildCall(s, a, id) ==>
      Step(1, s, a).world.calls == s.world.calls
      || (exists j :: j != id && Step(1, s, a).world.calls == s.world.calls + [j])
  {
    hide TaskStep;
    if a.RunTask? && a.t in s.tasks { TaskCalls(s.world, s.tasks[a.t], a.c); }
  }

  lemma {:induction false} CallsAreBuildCalls(acts: seq<Action>, id: nat)
    ensures BuildCalls(acts, id) == multiset(Exec(1, acts).world.calls)[id]
  {
    if acts != [] {
      CallsAreBuildCalls(Front(acts), id);
      CallsStep(Exec(1, Front(acts)), Last(acts), id);
    }
  }

  lemma DistinctCounts(s: seq<nat>, id: nat)
    requires forall i, j :: 0 <= i < j < |s| ==> s[i] != s[j]
    ensures multiset(s)[id] <= 1
  {
    if s != [] {
      var front := s[..|s| - 1];
      assert s == front + [s[|s| - 1]];
      DistinctCounts(front, id);
      assert id in multiset(front) <==> id in front;
    }
  }

  /** However many builders, sweeps and notifications race for it, the build
      backend is called at most once for a deploy. */
  lemma BuiltAtMostOnce(acts: seq<Action>, id: nat)
    ensures BuildCalls(acts, id) <= 1
  {
    CallsAreBuildCalls(acts, id);
    ExecInv(acts);
    hide Exec;
    DistinctCounts(Exec(1, acts).world.calls, id);
  }

  // ------------------------------------------------------ row agreement

  /** In every reachable state a deploy has exactly one build, its kind says
      whether it has a pull request, deploying and live rows have an image, and a
      failed build means a deploy that is building or failed. */
  lemma DeployBuildAgreement(acts: seq<Action>, id: nat)
    requires id in Table(acts).deploys
    ensures
      var d := Table(acts).deploys[id];
      && (exists b :: IsBuildOf(Table(acts), b, id) && forall b' :: IsBuildOf(Table(acts), b', id) ==> b' == b)
      && (d.kind == Preview <==> d.pr.Some?)
      && (d.status == Deploying || d.status == Live ==> d.image != "")
      && (d.status == Queued ==> d.image == "")
      && (forall b :: IsBuildOf(Table(acts), b, id) ==>
            && (Table(acts).builds[b].status == BuildFailed ==> d.status == Building || d.status == Failed)
            && (Table(acts).builds[b].status == BuildSucceeded ==> d.image != "")
            && (d.status == Queued ==> Table(acts).builds[b].status == BuildQueued))
  {
    ExecInv(acts);
    hide Exec;
    var w := Exec(1, acts).world;
    DeployFacts(w, id);
    var b :| IsBuildOf(w.db, b, id);
    forall b' | IsBuildOf(w.db, b', id) ensures b' == b { OneBuild(w, b, b', id); }
    BuildFacts(w, b);
  }

  /** A reconcile never finds its deploy without an image, so its no-image branch
      is dead, and it never finds it in a status it may not move. */
  lemma ReconcileFindsImage(acts: seq<Action>, t: nat)
    requires t in Exec(1, acts).tasks && Exec(1, acts).tasks[t].Reconcile?
    ensures var id := Exec(1, acts).tasks[t].id;
      id in Table(acts).deploys ==>
        && Table(acts).deploys[id].image != ""
        && Table(acts).deploys[id].status == Deploying
  {
    ExecInv(acts);
    assert TaskOk(Exec(1, acts).world, Exec(1, acts).tasks[t]);
  }

  /** UpdateDeployStatus is as good as atomic: when its write comes, the row still has
      the status its check saw, so the move is one the transition table allows. */
  lemma WriteFindsWhatCheckSaw(acts: seq<Action>, t: nat)
    requires t in Exec(1, acts).tasks
    ensures var task := Exec(1, acts).tasks[t];
      && (task.Builder? && task.bpc.Write? && task.id in Table(acts).deploys ==>
            Table(acts).deploys[task.id].status == task.bpc.seen && CanTransition(task.bpc.seen, task.bpc.to))
      && (task.Reconcile? && task.cpc.WriteOutcome? && task.id in Table(acts).deploys ==>
            Table(acts).deploys[task.id].status == task.cpc.seen && CanTransition(task.cpc.seen, task.cpc.to))
  {
    ExecInv(acts);
    hide Exec;
    assert TaskOk(Exec(1, acts).world, Exec(1, acts).tasks[t]);
  }

  /** At any time at most one task may write a deploy's row, and while it may, no
      notification for that deploy is waiting. */
  lemma OneWriter(acts: seq<Action>, t: nat, u: nat, id: nat)
    requires t in Exec(1, acts).tasks && u in Exec(1, acts).tasks
    requires Holds(Exec(1, acts).tasks[t]) == Some(id) && Holds(Exec(1, acts).tasks[u]) == Some(id)
    ensures t == u
    ensures forall k :: k in Exec(1, acts).controllers ==> id !in Exec(1, acts).controllers[k]
  {
    ExecInv(acts);
  }
}
