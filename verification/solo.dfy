/** What one goroutine or request does when nothing interferes with it: the rows and
    notifications it leaves when every call succeeds, and when one fails
    (internal/builder/processor.go, internal/controller/processor.go, internal/api). */
module Solo {
  import opened Basics
  import opened Lifecycle
  import opened Rows
  import opened Pipeline
  import opened StoreCalls
  import Processors
  import Requests
  import Decimal

  /** The world a task leaves, where it is, and what it published. */
  datatype Left = Left(world: World, task: Option<Task>, notes: seq<Note>)

  function Published(note: Note, later: Left): Left {
    if note.Silent? then later else later.(notes := [note] + later.notes)
  }

  /** A task run to the end of these choices with nobody else running. */
  function Alone(w: World, task: Option<Task>, choices: seq<Choice>): Left
    decreases |choices|
  {
    if task.None? || choices == [] then Left(w, task, [])
    else
      var n := TaskStep(w, task.value, choices[0]);
      Published(n.note, Alone(n.world, n.task, choices[1..]))
  }

  lemma One(w: World, task: Task, c: Choice, rest: seq<Choice>)
    ensures var n := TaskStep(w, task, c);
      Alone(w, Some(task), [c] + rest) == Published(n.note, Alone(n.world, n.task, rest))
  {
    hide TaskStep;
    assert ([c] + rest)[1..] == rest;
  }

  lemma Ended(w: World, rest: seq<Choice>)
    ensures Alone(w, None, rest) == Left(w, None, [])
  {
  }

  /** A call that succeeds and finds this row; one that fails without effect. */
  function Yes(row: nat): Choice { Choice(Ok, row, Print("")) }

  const No := Choice(Error, 0, Print(""))

  function Times(n: nat, c: Choice): seq<Choice> { if n == 0 then [] else [c] + Times(n - 1, c) }

  // ------------------------------------------------------------- a build

  function Prints(chunks: seq<string>, rest: seq<Choice>): seq<Choice> {
    if chunks == [] then rest else [Choice(Ok, 0, Print(chunks[0]))] + Prints(chunks[1..], rest)
  }

  /** The build's log after more output. */
  function Logged(db: DB, b: nat, text: string): DB
    requires b in db.builds
  {
    db.(builds := db.builds[b := db.builds[b].(logs := db.builds[b].logs + text)])
  }

  /** The output of the backend ends up in the log, in order. */
  lemma {:induction false} AlonePrints(w: World, p: nat, id: nat, b: nat, chunks: seq<string>, rest: seq<Choice>)
    requires b in w.db.builds
    ensures Alone(w, Some(Builder(p, id, Running(b))), Prints(chunks, rest))
      == Alone(w.(db := Logged(w.db, b, Concat(chunks))), Some(Builder(p, id, Running(b))), rest)
    decreases |chunks|
  {
    hide Alone;
    if chunks == [] {
      assert w.db.builds[b].logs + "" == w.db.builds[b].logs;
      assert w.(db := Logged(w.db, b, "")) == w;
    } else {
      One(w, Builder(p, id, Running(b)), Choice(Ok, 0, Print(chunks[0])), Prints(chunks[1..], rest));
      var w' := w.(db := Logged(w.db, b, chunks[0]));
      AlonePrints(w', p, id, b, chunks[1..], rest);
      var before := w.db.builds[b].logs;
      assert (before + chunks[0]) + Concat(chunks[1..]) == before + Concat(chunks);
      assert w'.(db := Logged(w'.db, b, Concat(chunks[1..]))) == w.(db := Logged(w.db, b, Concat(chunks)));
    }
  }

  /** A queued deploy with its service and build. */
  predicate ReadyToBuild(w: World, id: nat, b: nat) {
    Claimable(w.db, id) && w.db.deploys[id].service in w.db.services && IsBuildOf(w.db, b, id)
  }

  /** The rows after a build has been started. */
  function Started(w: World, id: nat, b: nat): World
    requires ReadyToBuild(w, id, b)
  {
    w.(db := w.db.(deploys := w.db.deploys[id := w.db.deploys[id].(status := Building)],
                   builds := w.db.builds[b := w.db.builds[b].(status := BuildRunning)]),
       calls := w.calls + [id])
  }

  lemma AloneStarts(w: World, p: nat, id: nat, b: nat, rest: seq<Choice>)
    requires ReadyToBuild(w, id, b)
    ensures Alone(w, Some(Builder(p, id, LoadDeploy)),
                  [Yes(b)] + ([Yes(b)] + ([Yes(b)] + ([Yes(b)] + ([Yes(b)] + rest)))))
      == Alone(Started(w, id, b), Some(Builder(p, id, Running(b))), rest)
  {
    hide Alone;
    var c, service := Yes(b), w.db.deploys[id].service;
    var claimed := w.(db := w.db.(deploys := w.db.deploys[id := w.db.deploys[id].(status := Building)]));
    One(w, Builder(p, id, LoadDeploy), c, [c] + ([c] + ([c] + ([c] + rest))));
    One(w, Builder(p, id, LoadService(service)), c, [c] + ([c] + ([c] + rest)));
    One(w, Builder(p, id, LoadBuild), c, [c] + ([c] + rest));
    One(w, Builder(p, id, Claim(b)), c, [c] + rest);
    One(claimed, Builder(p, id, Start(b)), c, rest);
  }

  /** An undisturbed build that succeeds: the deploy is deploying with the image, its build
      succeeded with all output logged, and the controllers are told. */
  lemma BuildSucceeds(w: World, p: nat, id: nat, b: nat, chunks: seq<string>, image: string)
    requires ReadyToBuild(w, id, b) && image != ""
    ensures
      var y := Yes(b);
      var tail := [Choice(Ok, b, Return(image))] + ([y] + ([y] + ([y] + ([y] + ([y] + [])))));
      var left := Alone(w, Some(Builder(p, id, LoadDeploy)), [y] + ([y] + ([y] + ([y] + ([y] + Prints(chunks, tail))))));
      && left.task == None && left.notes == [ToControllers(id)]
      && left.world.db == w.db.(
           deploys := w.db.deploys[id := w.db.deploys[id].(status := Deploying, image := image)],
           builds := w.db.builds[b := w.db.builds[b].(status := BuildSucceeded, logs := w.db.builds[b].logs + Concat(chunks))])
      && left.world.calls == w.calls + [id]
  {
    hide Alone;
    var y := Yes(b);
    var tail := [Choice(Ok, b, Return(image))] + ([y] + ([y] + ([y] + ([y] + ([y] + [])))));
    AloneStarts(w, p, id, b, Prints(chunks, tail));
    var w1 := Started(w, id, b);
    AlonePrints(w1, p, id, b, chunks, tail);
    var w2 := w1.(db := Logged(w1.db, b, Concat(chunks)));
    AloneFinishes(w2, p, id, b, image);
  }

  /** Both calls of a status update succeed. */
  lemma AloneUpdates(w: World, p: nat, id: nat, b: nat, to: Status, rest: seq<Choice>)
    requires id in w.db.deploys && CanTransition(w.db.deploys[id].status, to)
    ensures Alone(w, Some(Builder(p, id, Check(b, to))), [Yes(b)] + ([Yes(b)] + rest))
      == Alone(w.(db := w.db.(deploys := w.db.deploys[id := w.db.deploys[id].(status := to)])),
               if to == Deploying then Some(Builder(p, id, HandOff(b))) else None, rest)
  {
    hide Alone;
    One(w, Builder(p, id, Check(b, to)), Yes(b), [Yes(b)] + rest);
    One(w, Builder(p, id, Write(b, to, w.db.deploys[id].status)), Yes(b), rest);
  }

  lemma AloneStores(w: World, p: nat, id: nat, b: nat, image: string, rest: seq<Choice>)
    requires id in w.db.deploys && b in w.db.builds && image != ""
    ensures Alone(w, Some(Builder(p, id, Running(b))), [Choice(Ok, b, Return(image))] + ([Yes(b)] + ([Yes(b)] + rest)))
      == Alone(w.(db := w.db.(deploys := w.db.deploys[id := w.db.deploys[id].(image := image)],
                              builds := w.db.builds[b := w.db.builds[b].(status := BuildSucceeded)]),
                  made := w.made + {(id, image)}),
               Some(Builder(p, id, Check(b, Deploying))), rest)
  {
    StoreSteps(w, p, id, b, image);
    hide Alone, TaskStep;
    One(w, Builder(p, id, Running(b)), Choice(Ok, b, Return(image)), [Yes(b)] + ([Yes(b)] + rest));
    var w1 := w.(made := w.made + {(id, image)});
    One(w1, Builder(p, id, SetImage(b, image)), Yes(b), [Yes(b)] + rest);
    var w2 := w1.(db := w1.db.(deploys := w1.db.deploys[id := w1.db.deploys[id].(image := image)]));
    One(w2, Builder(p, id, FinishOk(b)), Yes(b), rest);
  }

  lemma StoreSteps(w: World, p: nat, id: nat, b: nat, image: string)
    requires id in w.db.deploys && b in w.db.builds && image != ""
    ensures
      var w1 := w.(made := w.made + {(id, image)});
      var w2 := w1.(db := w1.db.(deploys := w1.db.deploys[id := w1.db.deploys[id].(image := image)]));
      var w3 := w2.(db := w2.db.(builds := w2.db.builds[b := w2.db.builds[b].(status := BuildSucceeded)]));
      && TaskStep(w, Builder(p, id, Running(b)), Choice(Ok, b, Return(image)))
           == Next(w1, Some(Builder(p, id, SetImage(b, image))), Silent)
      && TaskStep(w1, Builder(p, id, SetImage(b, image)), Yes(b)) == Next(w2, Some(Builder(p, id, FinishOk(b))), Silent)
      && TaskStep(w2, Builder(p, id, FinishOk(b)), Yes(b)) == Next(w3, Some(Builder(p, id, Check(b, Deploying))), Silent)
  {
  }

  lemma AloneFinishes(w: World, p: nat, id: nat, b: nat, image: string)
    requires id in w.db.deploys && w.db.deploys[id].status == Building && b in w.db.builds && image != ""
    ensures
      var y := Yes(b);
      Alone(w, Some(Builder(p, id, Running(b))), [Choice(Ok, b, Return(image))] + ([y] + ([y] + ([y] + ([y] + ([y] + []))))))
      == Left(w.(db := w.db.(deploys := w.db.deploys[id := w.db.deploys[id].(status := Deploying, image := image)],
                             builds := w.db.builds[b := w.db.builds[b].(status := BuildSucceeded)]),
                 made := w.made + {(id, image)}),
              None, [ToControllers(id)])
  {
    hide Alone;
    var y, d := Yes(b), w.db.deploys[id];
    AloneStores(w, p, id, b, image, [y] + ([y] + ([y] + [])));
    var w1 := w.(db := w.db.(deploys := w.db.deploys[id := d.(image := image)],
                             builds := w.db.builds[b := w.db.builds[b].(status := BuildSucceeded)]),
                 made := w.made + {(id, image)});
    AloneUpdates(w1, p, id, b, Deploying, [y] + []);
    var w2 := w1.(db := w1.db.(deploys := w1.db.deploys[id := d.(status := Deploying, image := image)]));
    One(w2, Builder(p, id, HandOff(b)), y, []);
    Ended(w2, []);
    assert w1.db.deploys[id := d.(status := Deploying, image := image)]
        == w.db.deploys[id := d.(status := Deploying, image := image)];
    hide TaskStep;
  }

  /** An undisturbed build that breaks: the deploy and its build have failed, the log ends
      with the error, and nobody is told. */
  lemma BuildBreaks(w: World, p: nat, id: nat, b: nat, chunks: seq<string>, err: string)
    requires ReadyToBuild(w, id, b)
    ensures
      var y := Yes(b);
      var tail := [Choice(Ok, b, Broke(err))] + ([y] + ([y] + ([y] + ([y] + []))));
      var left := Alone(w, Some(Builder(p, id, LoadDeploy)), [y] + ([y] + ([y] + ([y] + ([y] + Prints(chunks, tail))))));
      && left.task == None && left.notes == []
      && left.world.db == w.db.(
           deploys := w.db.deploys[id := w.db.deploys[id].(status := Failed)],
           builds := w.db.builds[b := w.db.builds[b].(
             status := BuildFailed,
             logs := w.db.builds[b].logs + Concat(chunks) + ("\nBUILD FAILED: " + err + "\n"))])
  {
    hide Alone;
    var y := Yes(b);
    var tail := [Choice(Ok, b, Broke(err))] + ([y] + ([y] + ([y] + ([y] + []))));
    AloneStarts(w, p, id, b, Prints(chunks, tail));
    var w1 := Started(w, id, b);
    AlonePrints(w1, p, id, b, chunks, tail);
    var w2 := w1.(db := Logged(w1.db, b, Concat(chunks)));
    AloneBreaks(w2, p, id, b, err);
  }

  lemma AloneBreaks(w: World, p: nat, id: nat, b: nat, err: string)
    requires id in w.db.deploys && w.db.deploys[id].status == Building && b in w.db.builds
    ensures
      var y := Yes(b);
      Alone(w, Some(Builder(p, id, Running(b))), [Choice(Ok, b, Broke(err))] + ([y] + ([y] + ([y] + ([y] + [])))))
      == Left(w.(db := w.db.(deploys := w.db.deploys[id := w.db.deploys[id].(status := Failed)],
                             builds := w.db.builds[b := w.db.builds[b].(
                               status := BuildFailed,
                               logs := w.db.builds[b].logs + ("\nBUILD FAILED: " + err + "\n"))])),
              None, [])
  {
    hide Alone;
    var y := Yes(b);
    One(w, Builder(p, id, Running(b)), Choice(Ok, b, Broke(err)), [y] + ([y] + ([y] + ([y] + []))));
    One(w, Builder(p, id, ReportFailure(b, err)), y, [y] + ([y] + ([y] + [])));
    var w1 := w.(db := Logged(w.db, b, "\nBUILD FAILED: " + err + "\n"));
    One(w1, Builder(p, id, FinishFailed(b)), y, [y] + ([y] + []));
    var w2 := w1.(db := w1.db.(builds := w1.db.builds[b := w1.db.builds[b].(status := BuildFailed)]));
    AloneUpdates(w2, p, id, b, Failed, []);
    Ended(w2.(db := w2.db.(deploys := w2.db.deploys[id := w2.db.deploys[id].(status := Failed)])), []);
  }

  /** A builder that finds the deploy no longer queued leaves everything as it was. */
  lemma LateBuilderStops(w: World, p: nat, id: nat, b: nat, rest: seq<Choice>)
    requires id in w.db.deploys && w.db.deploys[id].service in w.db.services && IsBuildOf(w.db, b, id)
    requires !Claimable(w.db, id)
    ensures Alone(w, Some(Builder(p, id, LoadDeploy)), [Yes(b)] + ([Yes(b)] + ([Yes(b)] + ([Yes(b)] + rest))))
      == Left(w, None, [])
  {
    hide Alone;
    var y := Yes(b);
    One(w, Builder(p, id, LoadDeploy), y, [y] + ([y] + ([y] + rest)));
    One(w, Builder(p, id, LoadService(w.db.deploys[id].service)), y, [y] + ([y] + rest));
    One(w, Builder(p, id, LoadBuild), y, [y] + rest);
    One(w, Builder(p, id, Claim(b)), y, rest);
    Ended(w, rest);
  }

  // ----------------------------------------------------------- a reconcile

  /** A reconcile's calls up to its status update, as far as they succeed: the service, the
      variables, a production deploy's domains, the Apply. */
  function Calls(row: Deploy): seq<ControllerPc> {
    [FetchService(row), FetchEnv(row)] + (if row.kind == Production then [FetchDomains(row)] else []) + [ApplySpec(row)]
  }

  lemma CallSucceeds(w: World, k: nat, id: nat, row: Deploy, i: nat, rest: seq<Choice>)
    requires i < |Calls(row)| && row.service in w.db.services
    ensures Alone(w, Some(Reconcile(k, id, Calls(row)[i])), [Yes(0)] + rest)
      == Alone(w, Some(Reconcile(k, id, if i + 1 < |Calls(row)| then Calls(row)[i + 1] else CheckOutcome(Live))), rest)
  {
    hide Alone;
    One(w, Reconcile(k, id, Calls(row)[i]), Yes(0), rest);
  }

  lemma CallFails(w: World, k: nat, id: nat, row: Deploy, i: nat, rest: seq<Choice>)
    requires i < |Calls(row)|
    ensures Alone(w, Some(Reconcile(k, id, Calls(row)[i])), [No] + rest)
      == Alone(w, Some(Reconcile(k, id, CheckOutcome(Failed))), rest)
  {
    hide Alone;
    One(w, Reconcile(k, id, Calls(row)[i]), No, rest);
  }

  lemma {:induction false} CallsSucceed(w: World, k: nat, id: nat, row: Deploy, i: nat, n: nat, rest: seq<Choice>)
    requires i + n < |Calls(row)| && row.service in w.db.services
    ensures Alone(w, Some(Reconcile(k, id, Calls(row)[i])), Times(n, Yes(0)) + rest)
      == Alone(w, Some(Reconcile(k, id, Calls(row)[i + n])), rest)
    decreases n
  {
    hide Alone, Calls;
    if n == 0 {
      assert Times(n, Yes(0)) + rest == rest;
    } else {
      assert Times(n, Yes(0)) + rest == [Yes(0)] + (Times(n - 1, Yes(0)) + rest);
      CallSucceeds(w, k, id, row, i, Times(n - 1, Yes(0)) + rest);
      CallsSucceed(w, k, id, row, i + 1, n - 1, rest);
    }
  }

  lemma AloneRecords(w: World, k: nat, id: nat, to: Status)
    requires id in w.db.deploys && CanTransition(w.db.deploys[id].status, to)
    ensures Alone(w, Some(Reconcile(k, id, CheckOutcome(to))), [Yes(0)] + ([Yes(0)] + []))
      == Left(w.(db := w.db.(deploys := w.db.deploys[id := w.db.deploys[id].(status := to)])), None, [])
  {
    hide Alone;
    One(w, Reconcile(k, id, CheckOutcome(to)), Yes(0), [Yes(0)] + []);
    One(w, Reconcile(k, id, WriteOutcome(to, w.db.deploys[id].status)), Yes(0), []);
    Ended(w.(db := w.db.(deploys := w.db.deploys[id := w.db.deploys[id].(status := to)])), []);
  }

  /** A deploying deploy with its image and its service. */
  predicate ReadyToApply(w: World, id: nat) {
    && id in w.db.deploys && w.db.deploys[id].status == Deploying && w.db.deploys[id].image != ""
    && w.db.deploys[id].service in w.db.services
  }

  /** An undisturbed reconcile whose calls all succeed: the deploy is live, and nothing else
      has changed. */
  lemma ReconcileSucceeds(w: World, k: nat, id: nat)
    requires ReadyToApply(w, id)
    ensures
      var row, y := w.db.deploys[id], Yes(0);
      var choices := [y] + (Times(|Calls(row)| - 1, y) + ([y] + ([y] + ([y] + []))));
      Alone(w, Some(Reconcile(k, id, Load)), choices)
      == Left(w.(db := w.db.(deploys := w.db.deploys[id := row.(status := Live)])), None, [])
  {
    var row, y := w.db.deploys[id], Yes(0);
    var n := |Calls(row)| - 1;
    var last := [y] + ([y] + ([y] + []));
    hide Alone;
    One(w, Reconcile(k, id, Load), y, Times(n, y) + last);
    CallsSucceed(w, k, id, row, 0, n, last);
    CallSucceeds(w, k, id, row, n, [y] + ([y] + []));
    AloneRecords(w, k, id, Live);
  }

  /** An undisturbed reconcile whose n-th call fails: the deploy has failed, and nothing
      else has changed. */
  lemma ReconcileFails(w: World, k: nat, id: nat, n: nat)
    requires ReadyToApply(w, id) && n < |Calls(w.db.deploys[id])|
    ensures
      var row, y := w.db.deploys[id], Yes(0);
      var choices := [y] + (Times(n, y) + ([No] + ([y] + ([y] + []))));
      Alone(w, Some(Reconcile(k, id, Load)), choices)
      == Left(w.(db := w.db.(deploys := w.db.deploys[id := row.(status := Failed)])), None, [])
  {
    var row, y := w.db.deploys[id], Yes(0);
    var last := [No] + ([y] + ([y] + []));
    hide Alone;
    One(w, Reconcile(k, id, Load), y, Times(n, y) + last);
    CallsSucceed(w, k, id, row, 0, n, last);
    CallFails(w, k, id, row, n, [y] + ([y] + []));
    AloneRecords(w, k, id, Failed);
  }

  // ------------------------------------------------------------- requests

  /** A request that creates a deploy for the builders, with its first call and its second
      succeeding: a queued row with a queued build, and one notification to the builders. */
  lemma EnqueueSucceeds(w: World, service: nat, commit: string, pr: Option<int>)
    requires service in w.db.services
    ensures
      var pc := if pr.Some? then EnqueuePreview(service, commit, pr.value) else EnqueueDeploy(service, commit);
      var id := w.db.nextDeploy;
      var left := Alone(w, Some(Api(pc)), [Yes(0)] + ([Yes(0)] + []));
      && left.task == None && left.notes == [ToBuilders(id)]
      && left.world.db.deploys
           == w.db.deploys[id := Deploy(service, Queued, commit, "", if pr.Some? then Preview else Production, pr)]
      && left.world.db.builds == w.db.builds[w.db.nextBuild := Build(id, BuildQueued, "")]
      && left.world.db.nextDeploy == id + 1 && left.world.db.nextBuild == w.db.nextBuild + 1
  {
    hide Alone;
    var pc := if pr.Some? then EnqueuePreview(service, commit, pr.value) else EnqueueDeploy(service, commit);
    One(w, Api(pc), Yes(0), [Yes(0)] + []);
    var n := TaskStep(w, Api(pc), Yes(0));
    One(n.world, Api(NotifyBuilders(w.db.nextDeploy)), Yes(0), []);
    Ended(n.world, []);
  }

  /** The rows after an imaged deploy was created. */
  predicate ImagedRow(db: DB, db': DB, service: nat, image: string, commit: string, log: string) {
    && db'.deploys == db.deploys[db.nextDeploy := Deploy(service, Deploying, commit, image, Production, None)]
    && db'.builds == db.builds[db.nextBuild := Build(db.nextDeploy, BuildSucceeded, log)]
    && db'.nextDeploy == db.nextDeploy + 1 && db'.nextBuild == db.nextBuild + 1
  }

  /** A prebuilt image: a deploying row with that image and one notification to the
      controllers, not to the builders. */
  lemma ImageDeploySucceeds(w: World, service: nat, image: string)
    requires service in w.db.services && image != ""
    ensures
      var left := Alone(w, Some(Api(ImageDeploy(service, image))), [Yes(0)] + ([Yes(0)] + []));
      && left.task == None && left.notes == [ToControllers(w.db.nextDeploy)]
      && ImagedRow(w.db, left.world.db, service, image, "", "deployed prebuilt image " + image + "\n")
  {
    hide Alone;
    One(w, Api(ImageDeploy(service, image)), Yes(0), [Yes(0)] + []);
    var n := TaskStep(w, Api(ImageDeploy(service, image)), Yes(0));
    One(n.world, Api(NotifyControllers(w.db.nextDeploy)), Yes(0), []);
    Ended(n.world, []);
  }

  lemma ReuseSucceeds(w: World, service: nat, image: string, commit: string, from: nat, row: nat)
    requires service in w.db.services
    ensures
      var left := Alone(w, Some(Api(Reuse(service, image, commit, from))), [Yes(row)] + ([Yes(row)] + []));
      && left.task == None && left.notes == [ToControllers(w.db.nextDeploy)]
      && ImagedRow(w.db, left.world.db, service, image, commit,
                   "rolled back: reused image " + image + " from deploy " + Decimal.FormatInt(from) + "\n")
  {
    hide Alone;
    One(w, Api(Reuse(service, image, commit, from)), Yes(row), [Yes(row)] + []);
    var n := TaskStep(w, Api(Reuse(service, image, commit, from)), Yes(row));
    One(n.world, Api(NotifyControllers(w.db.nextDeploy)), Yes(row), []);
    Ended(n.world, []);
  }

  /** A rollback: a deploying row with the target's image and commit, for its service. */
  lemma RollbackSucceeds(w: World, target: nat)
    requires target in w.db.deploys && w.db.deploys[target].image != ""
    requires w.db.deploys[target].service in w.db.services
    ensures
      var d := w.db.deploys[target];
      var left := Alone(w, Some(Api(Rollback(target))), [Yes(0)] + ([Yes(0)] + ([Yes(0)] + [])));
      && left.task == None && left.notes == [ToControllers(w.db.nextDeploy)]
      && ImagedRow(w.db, left.world.db, d.service, d.image, d.commit,
                   "rolled back: reused image " + d.image + " from deploy " + Decimal.FormatInt(target) + "\n")
  {
    hide Alone;
    var d := w.db.deploys[target];
    One(w, Api(Rollback(target)), Yes(0), [Yes(0)] + ([Yes(0)] + []));
    Requests.RollbackTakesTarget(w, target, Yes(0));
    ReuseSucceeds(w, d.service, d.image, d.commit, target, 0);
  }

  /** A settings change: a deploying row with image and commit of the service's newest
      deploy that has an image. */
  lemma RedeploySucceeds(w: World, service: nat, from: nat)
    requires service in w.db.services && Requests.Newest(w.db, service, from)
    ensures
      var d := w.db.deploys[from];
      var left := Alone(w, Some(Api(Redeploy(service))), [Yes(from)] + ([Yes(from)] + ([Yes(from)] + [])));
      && left.task == None && left.notes == [ToControllers(w.db.nextDeploy)]
      && ImagedRow(w.db, left.world.db, service, d.image, d.commit,
                   "rolled back: reused image " + d.image + " from deploy " + Decimal.FormatInt(from) + "\n")
  {
    hide Alone;
    var d := w.db.deploys[from];
    One(w, Api(Redeploy(service)), Yes(from), [Yes(from)] + ([Yes(from)] + []));
    Requests.RedeployTakesNewest(w, service, Yes(from));
    ReuseSucceeds(w, service, d.image, d.commit, from, from);
  }

  // -------------------------------------------------------------- on errors

  /** A builder's error ends it, silently, everywhere but where it only reports or records:
      there it goes on, and an image that could not be stored fails the build. */
  lemma BuilderErrors(w: World, p: nat, id: nat, pc: BuilderPc, c: Choice)
    requires !c.reply.Ok? && !pc.Running?
    ensures var n := TaskStep(w, Builder(p, id, pc), c);
      match pc
      case ReportFailure(b, _) => n.task == Some(Builder(p, id, FinishFailed(b)))
      case FinishFailed(b) => n.task == Some(Builder(p, id, Check(b, Failed)))
      case SetImage(b, _) => n.task == Some(Builder(p, id, FinishFailed(b)))
      case FinishOk(b) => n.task == Some(Builder(p, id, Check(b, Deploying)))
      case _ => n.task == None
    ensures !pc.HandOff? ==> TaskStep(w, Builder(p, id, pc), c).note == Silent
  {
  }

  /** A reconcile's error records a failure, unless it happens where the deploy is loaded or
      its status updated; there it ends the reconcile. */
  lemma ReconcileErrors(w: World, k: nat, id: nat, pc: ControllerPc, c: Choice)
    requires !c.reply.Ok?
    ensures var n := TaskStep(w, Reconcile(k, id, pc), c);
      n.note == Silent
      && n.task == (if pc.Load? || pc.CheckOutcome? || pc.WriteOutcome? then None
                    else Some(Reconcile(k, id, CheckOutcome(Failed))))
  {
  }

  /** A request's error ends it; nothing is published for a row it did not learn of. */
  lemma RequestErrors(w: World, pc: ApiPc, c: Choice)
    requires !c.reply.Ok?
    ensures var n := TaskStep(w, Api(pc), c);
      n.task == None && (!pc.NotifyBuilders? && !pc.NotifyControllers? ==> n.note == Silent)
  {
  }

  // ------------------------------------------------------------- the code

  /** The turns of a task that finds at each call what its own last call left. */
  function Undisturbed(w: World, task: Option<Task>, choices: seq<Choice>): seq<Turn>
    decreases |choices|
  {
    if task.None? || choices == [] then []
    else
      var n := TaskStep(w, task.value, choices[0]);
      [Turn(w, choices[0])] + Undisturbed(n.world, n.task, choices[1..])
  }

  function Sent(effects: seq<Effect>): seq<Note> {
    if effects == [] then []
    else (if effects[0].note.Silent? then [] else [effects[0].note]) + Sent(effects[1..])
  }

  /** The code's trace on such turns: its last call leaves the rows stated above, and what it
      published is what was stated. */
  lemma {:induction false} CodeAlone(w: World, task: Option<Task>, choices: seq<Choice>)
    ensures var effects, left := Processors.Trace(task, Undisturbed(w, task, choices)), Alone(w, task, choices);
      && Sent(effects) == left.notes
      && (if effects == [] then left.world.db == w.db else effects[|effects| - 1].db == left.world.db)
    decreases |choices|
  {
    hide TaskStep;
    if task.Some? && choices != [] {
      var n := TaskStep(w, task.value, choices[0]);
      CodeAlone(n.world, n.task, choices[1..]);
      var turns := Undisturbed(w, task, choices);
      assert turns[1..] == Undisturbed(n.world, n.task, choices[1..]);
      var effects := Processors.Trace(task, turns);
      assert effects[1..] == Processors.Trace(n.task, turns[1..]);
      assert n.note.Silent? ==> [] + Sent(effects[1..]) == Sent(effects[1..]);
    }
  }
}
