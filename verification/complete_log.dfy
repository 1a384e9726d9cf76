/** The log a stream has sent, over whole runs. */
module CompleteLog {
  import opened Basics
  import opened Lifecycle
  import opened Rows
  import opened Pipeline
  import opened Ownership
  import opened Steps
  import opened Invariant
  import opened Runs

  /** What one action may do to one build row. */
  lemma BuildStep(acts: seq<Action>, b: nat)
    requires acts != []
    ensures Table(Front(acts)).nextBuild <= Table(acts).nextBuild
    ensures Table(Front(acts)).nextDeploy <= Table(acts).nextDeploy
    ensures b in Table(acts).builds && b < Table(Front(acts)).nextBuild ==>
      b in Table(Front(acts)).builds && BuildEvolves(Table(Front(acts)).builds[b], Table(acts).builds[b])
    ensures b in Table(acts).builds && Table(Front(acts)).nextBuild <= b ==>
      Table(Front(acts)).nextDeploy <= Table(acts).builds[b].deploy
  {
    RowsEvolve(acts);
  }

  /** Build rows over a whole run: a log only grows, it is frozen once the build is
      terminal, and a build created later belongs to a deploy created later. */
  lemma {:induction false} LogsOnlyGrow(acts: seq<Action>, more: seq<Action>, b: nat)
    ensures Table(acts).nextBuild <= Table(acts + more).nextBuild
    ensures Table(acts).nextDeploy <= Table(acts + more).nextDeploy
    ensures b in Table(acts + more).builds && b < Table(acts).nextBuild ==>
      && b in Table(acts).builds
      && Table(acts + more).builds[b].deploy == Table(acts).builds[b].deploy
      && Table(acts).builds[b].logs <= Table(acts + more).builds[b].logs
      && (IsTerminalBuild(Table(acts).builds[b].status) ==> Table(acts + more).builds[b] == Table(acts).builds[b])
    ensures b in Table(acts + more).builds && Table(acts).nextBuild <= b ==>
      Table(acts).nextDeploy <= Table(acts + more).builds[b].deploy
    decreases |more|
  {
    if more == [] {
      assert acts + more == acts;
      ExecInv(acts);
      hide Exec;
      if b in Table(acts).builds { BuildFacts(Exec(1, acts).world, b); }
    } else {
      assert Front(acts + more) == acts + Front(more);
      BuildStep(acts + more, b);
      hide Exec;
      LogsOnlyGrow(acts, Front(more), b);
    }
  }

  /** When a log stream has emitted its `end` event, what it sent is the build's
      whole log, now and at every later time: nothing is appended after a build
      became terminal, and the logs are read together with the status. */
  lemma CompleteLogAtEnd(acts: seq<Action>, more: seq<Action>, t: nat, b: nat)
    requires t in Exec(1, acts).tasks && Exec(1, acts).tasks[t].Stream? && Exec(1, acts).tasks[t].session.ended.Some?
    requires IsBuildOf(Table(acts + more), b, Exec(1, acts).tasks[t].id)
    ensures Concat(Exec(1, acts).tasks[t].session.chunks) == Table(acts + more).builds[b].logs
    ensures Exec(1, acts).tasks[t].session.ended == Some(Table(acts + more).builds[b].status)
    ensures IsTerminalBuild(Table(acts + more).builds[b].status)
  {
    ExecInv(acts);
    assert TaskOk(Exec(1, acts).world, Exec(1, acts).tasks[t]);
    hide Exec;
    LogsOnlyGrow(acts, more, b);
  }
}
