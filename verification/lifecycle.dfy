/** The deploy lifecycle: statuses, kinds and the transition table
    (internal/deploy/state.go). */
module Lifecycle {

  datatype Status = Queued | Building | Deploying | Live | Failed

  datatype BuildStatus = BuildQueued | BuildRunning | BuildSucceeded | BuildFailed

  datatype Kind = Production | Preview

  /** The allowed next states of each deploy status. */
  function Transitions(from: Status): seq<Status> {
    match from
    case Queued => [Building, Failed]
    case Building => [Deploying, Failed]
    case Deploying => [Live, Failed]
    case Live => []
    case Failed => []
  }

  predicate CanTransition(from: Status, to: Status) {
    to in Transitions(from)
  }

  predicate IsTerminal(status: Status) {
    |Transitions(status)| == 0
  }

  /** The build statuses on which the log stream ends. */
  predicate IsTerminalBuild(status: BuildStatus) {
    status == BuildSucceeded || status == BuildFailed
  }

  /** A history is a path of the transition table when every two neighbours are
      either equal or an allowed move. */
  predicate IsPath(history: seq<Status>) {
    forall i :: 0 < i < |history| ==>
      history[i - 1] == history[i] || CanTransition(history[i - 1], history[i])
  }

  /** How far along the table a status is; it only grows along a path. */
  function Progress(status: Status): nat {
    match status
    case Queued => 0
    case Building => 1
    case Deploying => 2
    case Live => 3
    case Failed => 3
  }

  /** Along a path a terminal status is final, and no status is ever revisited
      after it was left. */
  lemma {:induction false} PathsOnlyMoveForward(history: seq<Status>, i: nat, j: nat)
    requires IsPath(history) && i <= j < |history|
    ensures IsTerminal(history[i]) ==> history[j] == history[i]
    ensures history[i] == history[j] || Progress(history[i]) < Progress(history[j])
    decreases j - i
  {
    if i < j {
      PathsOnlyMoveForward(history, i + 1, j);
      assert history[i + 1 - 1] == history[i + 1] || CanTransition(history[i + 1 - 1], history[i + 1]);
    }
  }

  /** The table, move by move. */
  lemma TheTable(from: Status, to: Status)
    ensures CanTransition(from, to) <==>
      || (from == Queued && to == Building) || (from == Queued && to == Failed)
      || (from == Building && to == Deploying) || (from == Building && to == Failed)
      || (from == Deploying && to == Live) || (from == Deploying && to == Failed)
    ensures IsTerminal(from) <==> from == Live || from == Failed
  {
  }
}
