/** The rows the control plane shares, and each SQL call on them as one atomic
    function (internal/store/deploys.go, builds.go, settings.go).

    A row keeps the columns that later calls read. Identities are handed out in
    increasing order and never reused, as GENERATED ALWAYS AS IDENTITY does. */
module Rows {
  import opened Basics
  import opened Lifecycle

  datatype Deploy = Deploy(service: nat, status: Status, commit: string, image: string,
                           kind: Kind, pr: Option<int>)

  datatype Build = Build(deploy: nat, status: BuildStatus, logs: string)

  datatype DB = DB(services: set<nat>, deploys: map<nat, Deploy>, builds: map<nat, Build>,
                   nextService: nat, nextDeploy: nat, nextBuild: nat)

  const EmptyDB := DB({}, map[], map[], 0, 0, 0)

  /** createBuildableDeploy: a queued deploy and its queued build, in one transaction. */
  function InsertBuildable(db: DB, service: nat, commit: string, kind: Kind, pr: Option<int>): DB {
    db.(deploys := db.deploys[db.nextDeploy := Deploy(service, Queued, commit, "", kind, pr)],
        builds := db.builds[db.nextBuild := Build(db.nextDeploy, BuildQueued, "")],
        nextDeploy := db.nextDeploy + 1,
        nextBuild := db.nextBuild + 1)
  }

  /** createImagedDeploy: a deploy that starts out deploying, with a synthetic
      succeeded build, in one transaction. */
  function InsertImaged(db: DB, service: nat, image: string, commit: string, log: string): DB {
    db.(deploys := db.deploys[db.nextDeploy := Deploy(service, Deploying, commit, image, Production, None)],
        builds := db.builds[db.nextBuild := Build(db.nextDeploy, BuildSucceeded, log)],
        nextDeploy := db.nextDeploy + 1,
        nextBuild := db.nextBuild + 1)
  }

  /** The UPDATE of UpdateDeployStatus: unconditional on the status. */
  function WriteStatus(db: DB, id: nat, to: Status): DB {
    if id in db.deploys then db.(deploys := db.deploys[id := db.deploys[id].(status := to)]) else db
  }

  predicate Claimable(db: DB, id: nat) {
    id in db.deploys && db.deploys[id].status == Queued
  }

  /** ClaimQueuedDeploy: one UPDATE guarded by the status. */
  function ClaimRow(db: DB, id: nat): DB {
    if Claimable(db, id) then WriteStatus(db, id, Building) else db
  }

  function WriteImage(db: DB, id: nat, image: string): DB {
    if id in db.deploys then db.(deploys := db.deploys[id := db.deploys[id].(image := image)]) else db
  }

  /** StartBuild and FinishBuild. */
  function WriteBuildStatus(db: DB, b: nat, to: BuildStatus): DB {
    if b in db.builds then db.(builds := db.builds[b := db.builds[b].(status := to)]) else db
  }

  function AppendLog(db: DB, b: nat, chunk: string): DB {
    if b in db.builds then db.(builds := db.builds[b := db.builds[b].(logs := db.builds[b].logs + chunk)]) else db
  }

  /** CreateService, as far as deploys go. */
  function AddService(db: DB): DB {
    db.(services := db.services + {db.nextService}, nextService := db.nextService + 1)
  }

  /** Deleting services (through a service's project or org) cascades to their
      deploys and to the builds of those. */
  function DropServices(db: DB, gone: set<nat>): DB {
    var deploys := map id | id in db.deploys && db.deploys[id].service !in gone :: db.deploys[id];
    db.(services := db.services - gone,
        deploys := deploys,
        builds := map b | b in db.builds && db.builds[b].deploy in deploys :: db.builds[b])
  }

  /** The row BuildByDeployID may return. */
  predicate IsBuildOf(db: DB, b: nat, id: nat) {
    b in db.builds && db.builds[b].deploy == id
  }

  /** The row LatestImagedDeploy returns: the newest of the service with an image. */
  predicate IsLatestImaged(db: DB, service: nat, id: nat) {
    && id in db.deploys && db.deploys[id].service == service && db.deploys[id].image != ""
    && forall j :: j in db.deploys && db.deploys[j].service == service && db.deploys[j].image != "" ==> j <= id
  }
}
