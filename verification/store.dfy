/** The store as one task sees it (internal/store): before each call other tasks may
    have changed the rows, and the call may fail or its goroutine may be gone. The rows found
    and the outcomes come from `turns`; `effects` records what the calls left. */
module StoreCalls {
  import opened Basics
  import opened Lifecycle
  import opened Rows
  import opened Pipeline

  /** The rows a call finds, and the environment's choices for it. */
  datatype Turn = Turn(world: World, choice: Choice)

  /** The rows a call leaves, and the notification it publishes. */
  datatype Effect = Effect(db: DB, note: Note)

  /** What a call returns: Gone when its goroutine stopped before it. */
  datatype Call<+T> = Gone | Err | Value(value: T)

  function Wrote(t: Turn, db: DB): Effect {
    Effect(if t.choice.reply.Error? then t.world.db else db, Silent)
  }

  /** UpdateDeployStatus as two calls: what it returns and what each call leaves. Its
      second call writes whatever the status has become since the first. */
  datatype Update = Update(result: Call<()>, effects: seq<Effect>)

  function UpdateStatus(turns: seq<Turn>, id: nat, to: Status): Update {
    if turns == [] then Update(Gone, [])
    else
      var t := turns[0];
      var read := Effect(t.world.db, Silent);
      if !t.choice.reply.Ok? || id !in t.world.db.deploys || !CanTransition(t.world.db.deploys[id].status, to)
      then Update(Err, [read])
      else if |turns| == 1 then Update(Gone, [read])
      else
        var u := turns[1];
        Update(if u.choice.reply.Ok? && id in u.world.db.deploys then Value(()) else Err,
               [read, Wrote(u, WriteStatus(u.world.db, id, to))])
  }

  class Store {
    var turns: seq<Turn>
    var effects: seq<Effect>
    var db: DB

    constructor (turns: seq<Turn>)
      ensures this.turns == turns && effects == []
    {
      this.turns, effects, db := turns, [], EmptyDB;
    }

    /** The start of a call: other tasks have run. */
    method Begin() returns (c: Option<Choice>)
      modifies this
      ensures effects == old(effects)
      ensures c.None? <==> old(turns) == []
      ensures c.None? ==> turns == []
      ensures c.Some? ==> turns == old(turns)[1..] && db == old(turns)[0].world.db && c.value == old(turns)[0].choice
    {
      if turns == [] { return None; }
      db, c, turns := turns[0].world.db, Some(turns[0].choice), turns[1..];
    }


    method DeployByID(id: nat) returns (r: Call<Deploy>)
      modifies this
      ensures r.Gone? <==> old(turns) == []
      ensures r.Gone? ==> turns == [] && effects == old(effects)
      ensures !r.Gone? ==>
        var t := old(turns)[0];
        && turns == old(turns)[1..] && effects == old(effects) + [Effect(t.world.db, Silent)]
        && r == if t.choice.reply.Ok? && id in t.world.db.deploys then Value(t.world.db.deploys[id]) else Err
    {
      var c := Begin();
      if c.None? { return Gone; }
      effects := effects + [Effect(db, Silent)];
      r := if c.value.reply.Ok? && id in db.deploys then Value(db.deploys[id]) else Err;
    }

    /** A read of a service or of rows that hang on one. */
    method ServiceByID(service: nat) returns (r: Call<()>)
      modifies this
      ensures r.Gone? <==> old(turns) == []
      ensures r.Gone? ==> turns == [] && effects == old(effects)
      ensures !r.Gone? ==>
        var t := old(turns)[0];
        && turns == old(turns)[1..] && effects == old(effects) + [Effect(t.world.db, Silent)]
        && r == if t.choice.reply.Ok? && service in t.world.db.services then Value(()) else Err
    {
      var c := Begin();
      if c.None? { return Gone; }
      effects := effects + [Effect(db, Silent)];
      r := if c.value.reply.Ok? && service in db.services then Value(()) else Err;
    }

    /** A call that neither reads nor changes these rows: environment variables, custom
        domains, the reconciler's Apply. */
    method Elsewhere() returns (r: Call<()>)
      modifies this
      ensures r.Gone? <==> old(turns) == []
      ensures r.Gone? ==> turns == [] && effects == old(effects)
      ensures !r.Gone? ==>
        var t := old(turns)[0];
        && turns == old(turns)[1..] && effects == old(effects) + [Effect(t.world.db, Silent)]
        && r == if t.choice.reply.Ok? then Value(()) else Err
    {
      var c := Begin();
      if c.None? { return Gone; }
      effects := effects + [Effect(db, Silent)];
      r := if c.value.reply.Ok? then Value(()) else Err;
    }

    method BuildByDeployID(id: nat) returns (r: Call<nat>)
      modifies this
      ensures r.Gone? <==> old(turns) == []
      ensures r.Gone? ==> turns == [] && effects == old(effects)
      ensures !r.Gone? ==>
        var t := old(turns)[0];
        && turns == old(turns)[1..] && effects == old(effects) + [Effect(t.world.db, Silent)]
        && r == if t.choice.reply.Ok? && IsBuildOf(t.world.db, t.choice.row, id) then Value(t.choice.row) else Err
    {
      var c := Begin();
      if c.None? { return Gone; }
      effects := effects + [Effect(db, Silent)];
      r := if c.value.reply.Ok? && IsBuildOf(db, c.value.row, id) then Value(c.value.row) else Err;
    }

    method ClaimQueuedDeploy(id: nat) returns (r: Call<bool>)
      modifies this
      ensures r.Gone? <==> old(turns) == []
      ensures r.Gone? ==> turns == [] && effects == old(effects)
      ensures !r.Gone? ==>
        var t := old(turns)[0];
        && turns == old(turns)[1..] && effects == old(effects) + [Wrote(t, ClaimRow(t.world.db, id))]
        && r == if t.choice.reply.Ok? then Value(Claimable(t.world.db, id)) else Err
    {
      var c := Begin();
      if c.None? { return Gone; }
      var affected := id in db.deploys && db.deploys[id].status == Queued;
      if affected && !c.value.reply.Error? {
        db := db.(deploys := db.deploys[id := db.deploys[id].(status := Building)]);
      }
      effects := effects + [Effect(db, Silent)];
      r := if c.value.reply.Ok? then Value(affected) else Err;
    }

    /** StartBuild and FinishBuild. */
    method SetBuildStatus(b: nat, to: BuildStatus) returns (r: Call<()>)
      modifies this
      ensures r.Gone? <==> old(turns) == []
      ensures r.Gone? ==> turns == [] && effects == old(effects)
      ensures !r.Gone? ==>
        var t := old(turns)[0];
        && turns == old(turns)[1..] && effects == old(effects) + [Wrote(t, WriteBuildStatus(t.world.db, b, to))]
        && r == if t.choice.reply.Ok? then Value(()) else Err
    {
      var c := Begin();
      if c.None? { return Gone; }
      if b in db.builds && !c.value.reply.Error? {
        db := db.(builds := db.builds[b := db.builds[b].(status := to)]);
      }
      effects := effects + [Effect(db, Silent)];
      r := if c.value.reply.Ok? then Value(()) else Err;
    }

    method AppendBuildLog(b: nat, chunk: string) returns (r: Call<()>)
      modifies this
      ensures r.Gone? <==> old(turns) == []
      ensures r.Gone? ==> turns == [] && effects == old(effects)
      ensures !r.Gone? ==>
        var t := old(turns)[0];
        && turns == old(turns)[1..] && effects == old(effects) + [Wrote(t, AppendLog(t.world.db, b, chunk))]
        && r == if t.choice.reply.Ok? then Value(()) else Err
    {
      var c := Begin();
      if c.None? { return Gone; }
      if b in db.builds && !c.value.reply.Error? {
        db := db.(builds := db.builds[b := db.builds[b].(logs := db.builds[b].logs + chunk)]);
      }
      effects := effects + [Effect(db, Silent)];
      r := if c.value.reply.Ok? then Value(()) else Err;
    }

    method SetDeployImage(id: nat, image: string) returns (r: Call<()>)
      modifies this
      ensures r.Gone? <==> old(turns) == []
      ensures r.Gone? ==> turns == [] && effects == old(effects)
      ensures !r.Gone? ==>
        var t := old(turns)[0];
        && turns == old(turns)[1..] && effects == old(effects) + [Wrote(t, WriteImage(t.world.db, id, image))]
        && r == if t.choice.reply.Ok? then Value(()) else Err
    {
      var c := Begin();
      if c.None? { return Gone; }
      if id in db.deploys && !c.value.reply.Error? {
        db := db.(deploys := db.deploys[id := db.deploys[id].(image := image)]);
      }
      effects := effects + [Effect(db, Silent)];
      r := if c.value.reply.Ok? then Value(()) else Err;
    }

    /** The UPDATE ... RETURNING of UpdateDeployStatus: unconditional on the status; no
        row returned is an error. */
    method WriteDeployStatus(id: nat, to: Status) returns (r: Call<()>)
      modifies this
      ensures r.Gone? <==> old(turns) == []
      ensures r.Gone? ==> turns == [] && effects == old(effects)
      ensures !r.Gone? ==>
        var t := old(turns)[0];
        && turns == old(turns)[1..] && effects == old(effects) + [Wrote(t, WriteStatus(t.world.db, id, to))]
        && r == if t.choice.reply.Ok? && id in t.world.db.deploys then Value(()) else Err
    {
      var c := Begin();
      if c.None? { return Gone; }
      var found := id in db.deploys;
      if found && !c.value.reply.Error? {
        db := db.(deploys := db.deploys[id := db.deploys[id].(status := to)]);
      }
      effects := effects + [Effect(db, Silent)];
      r := if c.value.reply.Ok? && found then Value(()) else Err;
    }

    method Notify(note: Note) returns (r: Call<()>)
      modifies this
      ensures r.Gone? <==> old(turns) == []
      ensures r.Gone? ==> turns == [] && effects == old(effects)
      ensures !r.Gone? ==>
        var t := old(turns)[0];
        && turns == old(turns)[1..]
        && effects == old(effects) + [Effect(t.world.db, if t.choice.reply.Error? then Silent else note)]
        && r == if t.choice.reply.Ok? then Value(()) else Err
    {
      var c := Begin();
      if c.None? { return Gone; }
      effects := effects + [Effect(db, if c.value.reply.Error? then Silent else note)];
      r := if c.value.reply.Ok? then Value(()) else Err;
    }

    /** createBuildableDeploy: the new id, or an error when the service is gone. */
    method CreateBuildable(service: nat, commit: string, kind: Kind, pr: Option<int>) returns (r: Call<nat>)
      modifies this
      ensures r.Gone? <==> old(turns) == []
      ensures r.Gone? ==> turns == [] && effects == old(effects)
      ensures !r.Gone? ==>
        var t := old(turns)[0];
        var ok := service in t.world.db.services;
        && turns == old(turns)[1..]
        && effects == old(effects)
             + [if ok then Wrote(t, InsertBuildable(t.world.db, service, commit, kind, pr)) else Effect(t.world.db, Silent)]
        && r == if t.choice.reply.Ok? && ok then Value(t.world.db.nextDeploy) else Err
    {
      var c := Begin();
      if c.None? { return Gone; }
      var id := db.nextDeploy;
      var ok := service in db.services;
      if ok && !c.value.reply.Error? {
        db := db.(deploys := db.deploys[id := Deploy(service, Queued, commit, "", kind, pr)], nextDeploy := id + 1);
        db := db.(builds := db.builds[db.nextBuild := Build(id, BuildQueued, "")], nextBuild := db.nextBuild + 1);
      }
      effects := effects + [Effect(db, Silent)];
      r := if c.value.reply.Ok? && ok then Value(id) else Err;
    }

    /** createImagedDeploy. */
    method CreateImaged(service: nat, image: string, commit: string, log: string) returns (r: Call<nat>)
      modifies this
      ensures r.Gone? <==> old(turns) == []
      ensures r.Gone? ==> turns == [] && effects == old(effects)
      ensures !r.Gone? ==>
        var t := old(turns)[0];
        var ok := service in t.world.db.services;
        && turns == old(turns)[1..]
        && effects == old(effects)
             + [if ok then Wrote(t, InsertImaged(t.world.db, service, image, commit, log)) else Effect(t.world.db, Silent)]
        && r == if t.choice.reply.Ok? && ok then Value(t.world.db.nextDeploy) else Err
    {
      var c := Begin();
      if c.None? { return Gone; }
      var id := db.nextDeploy;
      var ok := service in db.services;
      if ok && !c.value.reply.Error? {
        db := db.(deploys := db.deploys[id := Deploy(service, Deploying, commit, image, Production, None)], nextDeploy := id + 1);
        db := db.(builds := db.builds[db.nextBuild := Build(id, BuildSucceeded, log)], nextBuild := db.nextBuild + 1);
      }
      effects := effects + [Effect(db, Silent)];
      r := if c.value.reply.Ok? && ok then Value(id) else Err;
    }

    /** LatestImagedDeploy. */
    method LatestImagedDeploy(service: nat) returns (r: Call<(nat, Deploy)>)
      modifies this
      ensures r.Gone? <==> old(turns) == []
      ensures r.Gone? ==> turns == [] && effects == old(effects)
      ensures !r.Gone? ==>
        var t := old(turns)[0];
        && turns == old(turns)[1..] && effects == old(effects) + [Effect(t.world.db, Silent)]
        && r == if t.choice.reply.Ok? && IsLatestImaged(t.world.db, service, t.choice.row)
                then Value((t.choice.row, t.world.db.deploys[t.choice.row])) else Err
    {
      var c := Begin();
      if c.None? { return Gone; }
      effects := effects + [Effect(db, Silent)];
      r := if c.value.reply.Ok? && IsLatestImaged(db, service, c.value.row)
           then Value((c.value.row, db.deploys[c.value.row])) else Err;
    }

    method UpdateDeployStatus(id: nat, to: Status) returns (r: Call<()>)
      modifies this
      ensures var u := UpdateStatus(old(turns), id, to);
        && r == u.result && |u.effects| <= |old(turns)|
        && effects == old(effects) + u.effects && turns == old(turns)[|u.effects|..]
    {
      var current := DeployByID(id);
      if current.Gone? { return Gone; }
      if current.Err? { return Err; }
      if !CanTransition(current.value.status, to) { return Err; }
      r := WriteDeployStatus(id, to);
    }
  }
}
