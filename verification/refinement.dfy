/** Runs of the state machine are runs of the code: what a task does in any run, among
    whatever other tasks, failures and restarts, is the trace that the methods of
    Processors are proved to leave when they find the same rows. */
module Refinement {
  import opened Basics
  import opened Rows
  import opened Pipeline
  import opened StoreCalls
  import opened Processors

  function StateAfter(limit: nat, acts: seq<Action>, more: seq<Action>): Pipeline.State { Exec(limit, acts + more) }

  function Front(acts: seq<Action>): seq<Action>
    requires acts != []
  {
    acts[..|acts| - 1]
  }

  /** The last of the further actions runs task t. */
  predicate RunsTask(limit: nat, acts: seq<Action>, more: seq<Action>, t: nat)
    requires more != []
  {
    var a := more[|more| - 1];
    a.RunTask? && a.t == t && t in StateAfter(limit, acts, Front(more)).tasks
  }

  /** The rows that task t found at each of its steps, and the choices made for it. */
  function TurnsOf(limit: nat, acts: seq<Action>, more: seq<Action>, t: nat): seq<Turn> {
    if more == [] then []
    else
      TurnsOf(limit, acts, Front(more), t)
      + if RunsTask(limit, acts, more, t)
        then [Turn(StateAfter(limit, acts, Front(more)).world, more[|more| - 1].c)] else []
  }

  /** What it left at each of its steps. */
  function EffectsOf(limit: nat, acts: seq<Action>, more: seq<Action>, t: nat): seq<Effect> {
    if more == [] then []
    else
      EffectsOf(limit, acts, Front(more), t)
      + if RunsTask(limit, acts, more, t)
        then
          var s := StateAfter(limit, acts, Front(more));
          [Effect(StateAfter(limit, acts, more).world.db, TaskStep(s.world, s.tasks[t], more[|more| - 1].c).note)]
        else []
  }

  /** Once task t has ended no other task gets its identity. */
  predicate NotReused(limit: nat, acts: seq<Action>, more: seq<Action>, t: nat) {
    more != [] ==>
      && NotReused(limit, acts, Front(more), t)
      && (t !in StateAfter(limit, acts, Front(more)).tasks ==> t !in StateAfter(limit, acts, more).tasks)
  }

  function Rest(task: Option<Task>, turns: seq<Turn>): Option<Task>
    decreases |turns|
  {
    if task.None? || turns == [] then task
    else Rest(TaskStep(turns[0].world, task.value, turns[0].choice).task, turns[1..])
  }

  lemma {:induction false} TraceSnoc(task: Option<Task>, turns: seq<Turn>, u: Turn)
    ensures var rest := Rest(task, turns);
      rest.Some? ==>
        var n := TaskStep(u.world, rest.value, u.choice);
        && Trace(task, turns + [u]) == Trace(task, turns) + [Effect(n.world.db, n.note)]
        && Rest(task, turns + [u]) == n.task
    decreases |turns|
  {
    hide TaskStep;
    if task.Some? {
      if turns == [] {
        assert (turns + [u])[1..] == [] && turns + [u] == [u];
      } else {
        var n := TaskStep(turns[0].world, task.value, turns[0].choice);
        TraceSnoc(n.task, turns[1..], u);
        assert (turns + [u])[1..] == turns[1..] + [u];
      }
    }
  }

  /** One action leaves a task alone, runs it, or removes it. */
  lemma OneAction(limit: nat, s: Pipeline.State, a: Action, t: nat)
    requires t in s.tasks
    ensures a.RunTask? && a.t == t ==>
      var n := TaskStep(s.world, s.tasks[t], a.c);
      && Step(limit, s, a).world == n.world
      && (if n.task.Some? then t in Step(limit, s, a).tasks && Step(limit, s, a).tasks[t] == n.task.value
          else t !in Step(limit, s, a).tasks)
    ensures !(a.RunTask? && a.t == t) && t in Step(limit, s, a).tasks ==> Step(limit, s, a).tasks[t] == s.tasks[t]
  {
    hide TaskStep;
  }

  lemma LastTurn(limit: nat, acts: seq<Action>, more: seq<Action>, t: nat)
    requires more != []
    ensures var a, s := more[|more| - 1], StateAfter(limit, acts, Front(more));
      && StateAfter(limit, acts, more) == Step(limit, s, a)
      && (if a.RunTask? && a.t == t && t in s.tasks then
            && TurnsOf(limit, acts, more, t) == TurnsOf(limit, acts, Front(more), t) + [Turn(s.world, a.c)]
            && EffectsOf(limit, acts, more, t)
                 == EffectsOf(limit, acts, Front(more), t)
                    + [Effect(Step(limit, s, a).world.db, TaskStep(s.world, s.tasks[t], a.c).note)]
          else
            && TurnsOf(limit, acts, more, t) == TurnsOf(limit, acts, Front(more), t)
            && EffectsOf(limit, acts, more, t) == EffectsOf(limit, acts, Front(more), t))
  {
    hide TaskStep, Step;
    var all, a := acts + more, more[|more| - 1];
    assert all[..|all| - 1] == acts + Front(more) && all[|all| - 1] == a;
  }

  lemma {:induction false} RunsFollowTheCode(limit: nat, acts: seq<Action>, more: seq<Action>, t: nat)
    requires t in Exec(limit, acts).tasks && NotReused(limit, acts, more, t)
    ensures var start, turns := Some(Exec(limit, acts).tasks[t]), TurnsOf(limit, acts, more, t);
      && EffectsOf(limit, acts, more, t) == Trace(start, turns)
      && (t in StateAfter(limit, acts, more).tasks ==> Rest(start, turns) == Some(StateAfter(limit, acts, more).tasks[t]))
    decreases |more|
  {
    hide TaskStep, Step, Exec;
    if more == [] {
      assert acts + more == acts;
    } else {
      RunsFollowTheCode(limit, acts, Front(more), t);
      LastTurn(limit, acts, more, t);
      var s, a := StateAfter(limit, acts, Front(more)), more[|more| - 1];
      if t in s.tasks {
        OneAction(limit, s, a, t);
        if a.RunTask? {
          TraceSnoc(Some(Exec(limit, acts).tasks[t]), TurnsOf(limit, acts, Front(more), t), Turn(s.world, a.c));
        }
      }
    }
  }
}
