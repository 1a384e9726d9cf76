/** Every SQL call, taken alone: it keeps the rows good and moves them only along
    the lifecycle. The three shapes of a call are replacing one deploy row,
    replacing one build row, and inserting a deploy with its build. */
module Calls {
  import opened Basics
  import opened Lifecycle
  import opened Rows
  import opened Pipeline
  import opened Ownership

  ghost predicate CallOk(w: World, db: DB, id: nat) {
    WorldOk(w.(db := db)) && Frame(w, w.(db := db), id)
  }

  lemma NoCall(w: World, id: nat)
    requires WorldOk(w)
    ensures Frame(w, w, id)
  {
  }

  // ------------------------------------------------------ replacing a deploy

  function PutDeploy(db: DB, id: nat, row: Deploy): DB { db.(deploys := db.deploys[id := row]) }

  lemma PutDeployRows(db: DB, id: nat, row: Deploy)
    requires RowsOk(db) && id in db.deploys && DeployEvolves(db.deploys[id], row) && RowOk(row)
    ensures RowsOk(PutDeploy(db, id, row))
  {
  }

  lemma PutDeployBuilds(db: DB, id: nat, row: Deploy)
    requires BuildsOk(db) && id in db.deploys
    requires forall b :: IsBuildOf(db, b, id) ==> BuildOk(db.builds[b], row)
    ensures BuildsOk(PutDeploy(db, id, row))
  {
    forall b | b in db.builds
      ensures BuildOk(db.builds[b], PutDeploy(db, id, row).deploys[db.builds[b].deploy])
    {
      assert db.builds[b].deploy == id ==> IsBuildOf(db, b, id);
    }
  }

  lemma PutDeployOne(db: DB, id: nat, row: Deploy)
    requires OneBuildEach(db) && id in db.deploys
    ensures OneBuildEach(PutDeploy(db, id, row))
  {
    forall j | j in db.deploys ensures exists b :: IsBuildOf(PutDeploy(db, id, row), b, j) {
      var b :| IsBuildOf(db, b, j);
      assert IsBuildOf(PutDeploy(db, id, row), b, j);
    }
  }

  lemma PutDeployEvolves(db: DB, id: nat, row: Deploy)
    requires RowsOk(db) && BuildsOk(db) && id in db.deploys && DeployEvolves(db.deploys[id], row)
    ensures Evolves(db, PutDeploy(db, id, row)) && OnlyRow(db, PutDeploy(db, id, row), id)
  {
  }

  lemma PutDeployHistory(w: World, id: nat, row: Deploy)
    requires CallsOk(w) && SourcesOk(w) && id in w.db.deploys && DeployEvolves(w.db.deploys[id], row)
    requires row.status == Queued ==> w.db.deploys[id].status == Queued
    requires row.image != w.db.deploys[id].image ==> (id, row.image) in w.made
    ensures CallsOk(w.(db := PutDeploy(w.db, id, row)))
    ensures SourcesOk(w.(db := PutDeploy(w.db, id, row)))
  {
  }

  lemma PutDeployOk(w: World, id: nat, row: Deploy)
    requires WorldOk(w) && id in w.db.deploys && DeployEvolves(w.db.deploys[id], row) && RowOk(row)
    requires forall b :: IsBuildOf(w.db, b, id) ==> BuildOk(w.db.builds[b], row)
    requires row.status == Queued ==> w.db.deploys[id].status == Queued
    requires row.image != w.db.deploys[id].image ==> (id, row.image) in w.made
    ensures CallOk(w, PutDeploy(w.db, id, row), id)
  {
    hide RowsOk, BuildsOk, OneBuildEach, CallsOk, SourcesOk, Evolves, OnlyRow;
    PutDeployRows(w.db, id, row);
    PutDeployBuilds(w.db, id, row);
    PutDeployOne(w.db, id, row);
    PutDeployEvolves(w.db, id, row);
    PutDeployHistory(w, id, row);
  }

  // ------------------------------------------------------- replacing a build

  function PutBuild(db: DB, b: nat, row: Build): DB { db.(builds := db.builds[b := row]) }

  lemma PutBuildBuilds(db: DB, b: nat, row: Build)
    requires BuildsOk(db) && b in db.builds && BuildEvolves(db.builds[b], row)
    requires BuildOk(row, db.deploys[row.deploy])
    ensures BuildsOk(PutBuild(db, b, row))
  {
  }

  lemma PutBuildOne(db: DB, b: nat, row: Build)
    requires OneBuildEach(db) && b in db.builds && BuildEvolves(db.builds[b], row)
    ensures OneBuildEach(PutBuild(db, b, row))
  {
    forall j | j in db.deploys ensures exists b' :: IsBuildOf(PutBuild(db, b, row), b', j) {
      var b' :| IsBuildOf(db, b', j);
      assert IsBuildOf(PutBuild(db, b, row), b', j);
    }
  }

  lemma PutBuildEvolves(db: DB, b: nat, row: Build)
    requires RowsOk(db) && BuildsOk(db) && b in db.builds && BuildEvolves(db.builds[b], row)
    ensures Evolves(db, PutBuild(db, b, row)) && OnlyRow(db, PutBuild(db, b, row), row.deploy)
  {
  }

  lemma PutBuildOk(w: World, b: nat, row: Build)
    requires WorldOk(w) && b in w.db.builds && BuildEvolves(w.db.builds[b], row)
    requires BuildOk(row, w.db.deploys[row.deploy])
    ensures CallOk(w, PutBuild(w.db, b, row), row.deploy)
  {
    hide BuildsOk, OneBuildEach, Evolves, OnlyRow;
    PutBuildBuilds(w.db, b, row);
    PutBuildOne(w.db, b, row);
    PutBuildEvolves(w.db, b, row);
  }

  // ------------------------------------------------------------- inserting

  function Insert(db: DB, row: Deploy, build: Build): DB {
    db.(deploys := db.deploys[db.nextDeploy := row], builds := db.builds[db.nextBuild := build],
        nextDeploy := db.nextDeploy + 1, nextBuild := db.nextBuild + 1)
  }

  lemma InsertTables(db: DB, row: Deploy, build: Build)
    requires TablesOk(db) && row.service in db.services && RowOk(row)
    requires build.deploy == db.nextDeploy && BuildOk(build, row)
    ensures RowsOk(Insert(db, row, build)) && BuildsOk(Insert(db, row, build))
  {
  }

  lemma InsertOne(db: DB, row: Deploy, build: Build)
    requires TablesOk(db) && build.deploy == db.nextDeploy
    ensures OneBuildEach(Insert(db, row, build))
  {
    var db' := Insert(db, row, build);
    forall j | j in db'.deploys ensures exists b :: IsBuildOf(db', b, j) {
      if j == db.nextDeploy {
        assert IsBuildOf(db', db.nextBuild, j);
      } else {
        var b :| IsBuildOf(db, b, j);
        assert IsBuildOf(db', b, j);
      }
    }
  }

  lemma InsertEvolves(db: DB, row: Deploy, build: Build)
    requires TablesOk(db) && build.deploy == db.nextDeploy && (row.status == Queued || row.status == Deploying)
    ensures Evolves(db, Insert(db, row, build)) && OnlyRow(db, Insert(db, row, build), db.nextDeploy)
  {
    hide OneBuildEach;
  }

  /** noted is the world with the origin of the new row recorded. */
  ghost predicate Notes(w: World, noted: World) {
    noted.db == w.db && noted.calls == w.calls && HistoryGrows(w, noted, w.db.nextDeploy)
  }

  lemma InsertHistory(w: World, noted: World, row: Deploy, build: Build)
    requires RowsOk(w.db) && CallsOk(w) && SourcesOk(w) && Notes(w, noted)
    requires row.image == "" || (w.db.nextDeploy, row.image) in noted.asked
      || (w.db.nextDeploy in noted.reused
          && noted.reused[w.db.nextDeploy] in w.db.deploys
          && w.db.deploys[noted.reused[w.db.nextDeploy]].service == row.service
          && w.db.deploys[noted.reused[w.db.nextDeploy]].image == row.image)
    ensures CallsOk(noted.(db := Insert(w.db, row, build)))
    ensures SourcesOk(noted.(db := Insert(w.db, row, build)))
  {
    var w' := noted.(db := Insert(w.db, row, build));
    forall j | j in w'.db.deploys && w'.db.deploys[j].image != "" ensures HasSource(w', j) {
      if j != w.db.nextDeploy {
        assert HasSource(w, j);
      }
    }
  }

  lemma InsertOk(w: World, noted: World, row: Deploy, build: Build)
    requires WorldOk(w) && Notes(w, noted)
    requires row.service in w.db.services && RowOk(row) && (row.status == Queued || row.status == Deploying)
    requires build.deploy == w.db.nextDeploy && BuildOk(build, row)
    requires row.image == "" || (w.db.nextDeploy, row.image) in noted.asked
      || (w.db.nextDeploy in noted.reused
          && noted.reused[w.db.nextDeploy] in w.db.deploys
          && w.db.deploys[noted.reused[w.db.nextDeploy]].service == row.service
          && w.db.deploys[noted.reused[w.db.nextDeploy]].image == row.image)
    ensures WorldOk(noted.(db := Insert(w.db, row, build)))
    ensures Frame(w, noted.(db := Insert(w.db, row, build)), w.db.nextDeploy)
  {
    hide RowsOk, BuildsOk, OneBuildEach, CallsOk, SourcesOk, Evolves, OnlyRow;
    InsertTables(w.db, row, build);
    InsertOne(w.db, row, build);
    InsertEvolves(w.db, row, build);
    InsertHistory(w, noted, row, build);
  }

  // ---------------------------------------------------- services come and go

  lemma DropTables(db: DB, gone: set<nat>)
    requires TablesOk(db)
    ensures TablesOk(DropServices(db, gone))
  {
    var db' := DropServices(db, gone);
    forall j | j in db'.deploys ensures exists b :: IsBuildOf(db', b, j) {
      var b :| IsBuildOf(db, b, j);
      assert IsBuildOf(db', b, j);
    }
  }

  lemma DropEvolves(db: DB, gone: set<nat>, id: nat)
    requires RowsOk(db) && BuildsOk(db)
    ensures Evolves(db, DropServices(db, gone)) && OnlyRow(db, DropServices(db, gone), id)
  {
  }

  lemma DropOk(w: World, gone: set<nat>, id: nat)
    requires WorldOk(w)
    ensures CallOk(w, DropServices(w.db, gone), id)
  {
    hide RowsOk, BuildsOk, OneBuildEach, Evolves, OnlyRow;
    DropTables(w.db, gone);
    DropEvolves(w.db, gone, id);
  }

  lemma AddServiceEvolves(db: DB, id: nat)
    requires RowsOk(db) && BuildsOk(db)
    ensures Evolves(db, AddService(db)) && OnlyRow(db, AddService(db), id)
  {
  }

  lemma AddServiceTables(db: DB)
    requires TablesOk(db)
    ensures TablesOk(AddService(db))
  {
    hide BuildOk;
    forall j | j in db.deploys ensures exists b :: IsBuildOf(AddService(db), b, j) {
      var b :| IsBuildOf(db, b, j);
      assert IsBuildOf(AddService(db), b, j);
    }
  }

  lemma CreateServiceOk(w: World, id: nat)
    requires WorldOk(w)
    ensures CallOk(w, AddService(w.db), id)
  {
    hide RowsOk, BuildsOk, OneBuildEach, Evolves, OnlyRow;
    AddServiceTables(w.db);
    AddServiceEvolves(w.db, id);
  }
}
