/** Apply and Delete over whole histories of interrupted runs: convergence,
    removal, framing between workloads, and referential integrity. */
module Convergence {
  import opened Basics
  import opened Cluster

  /** One serial run of the reconciler, cut off after some number of calls; the
      removal of a namespace; or cert-manager writing a TLS secret. */
  datatype Event =
    | Applied(spec: ServiceSpec, upTo: nat)
    | Deleted(ns: string, name: string, upTo: nat)
    | NamespaceDeleted(ns: string)
    | Issued(ns: string, name: string)

  function AfterEvent(domain: string, c: Objects, e: Event): Objects {
    match e
    case Applied(spec, upTo) => Perform(c, ApplyOps(domain, spec), Min(upTo, |ApplyOps(domain, spec)|))
    case Deleted(ns, name, upTo) => Perform(c, DeleteOps(ns, name), Min(upTo, |DeleteOps(ns, name)|))
    case NamespaceDeleted(ns) => map k | k in c && k.ns != ns && k != Key(Namespace, "", ns) :: c[k]
    case Issued(ns, name) =>
      if Key(Certificate, ns, name) in c then c[Key(Secret, ns, TlsSecretName(name)) := TlsSecret] else c
  }

  /** The cluster after a history of events, from an empty one. */
  function After(domain: string, events: seq<Event>): Objects {
    if events == [] then map[]
    else AfterEvent(domain, After(domain, events[..|events| - 1]), events[|events| - 1])
  }

  function Complete(domain: string, spec: ServiceSpec): Event { Applied(spec, |ApplyOps(domain, spec)|) }

  function CompleteDelete(ns: string, name: string): Event { Deleted(ns, name, |DeleteOps(ns, name)|) }

  // ------------------------------------------------------------ one program

  function Index(spec: ServiceSpec, k: Key): nat {
    match k.kind
    case Namespace => 0
    case ResourceQuota => 1
    case LimitRange => 2
    case NetworkPolicy => 3
    case Secret => if k.name == PullSecretName then 4 else 5
    case CronJob => 6
    case VolumeClaim => 6
    case Deployment => 7
    case Autoscaler => 8
    case Certificate => 9
    case NetService => 10
    case IngressRoute => if k.name == spec.name then 11 else 12
  }

  /** The pieces of Apply and where they start. */
  lemma Pieces(domain: string, spec: ServiceSpec)
    ensures var ops := ApplyOps(domain, spec);
      && |PreludeOps(spec)| == 6 && |CronOps(spec)| == 1 && |RunOps(spec)| == 3 && |NetworkOps(domain, spec)| == 4
      && |ops| == (if spec.typ == Cron then 7 else if IsRoutable(spec.typ) then 13 else 9)
      && (forall i :: 0 <= i < 6 ==> ops[i] == PreludeOps(spec)[i])
      && (spec.typ == Cron ==> ops[6] == CronOps(spec)[0])
      && (spec.typ != Cron ==> forall i :: 6 <= i < 9 ==> ops[i] == RunOps(spec)[i - 6])
      && (IsRoutable(spec.typ) ==> forall i :: 9 <= i < 13 ==> ops[i] == NetworkOps(domain, spec)[i - 9])
  {
  }

  lemma PreludeHasCall(spec: ServiceSpec, k: Key)
    requires k in SharedKeys(spec.ns) || k == Key(Secret, spec.ns, EnvSecretName(spec.name))
    ensures Index(spec, k) < 6 && PreludeOps(spec)[Index(spec, k)].key == k
  {
    SuffixesDiffer(spec.name, spec.name);
  }

  lemma RunHasCall(domain: string, spec: ServiceSpec, k: Key)
    requires k in Governed(spec) && k != Key(Secret, spec.ns, EnvSecretName(spec.name))
    ensures
      if spec.typ == Cron then Index(spec, k) == 6 && CronOps(spec)[0].key == k
      else if Index(spec, k) < 9 then 6 <= Index(spec, k) && RunOps(spec)[Index(spec, k) - 6].key == k
      else IsRoutable(spec.typ) && Index(spec, k) < 13 && NetworkOps(domain, spec)[Index(spec, k) - 9].key == k
  {
    SuffixesDiffer(spec.name, spec.name);
  }

  /** Apply has a call about every key it governs or shares. */
  lemma EveryKeyHasCall(domain: string, spec: ServiceSpec, k: Key)
    requires k in Governed(spec) + SharedKeys(spec.ns)
    ensures Index(spec, k) < |ApplyOps(domain, spec)| && ApplyOps(domain, spec)[Index(spec, k)].key == k
  {
    hide ApplyOps, PreludeOps, RunOps, NetworkOps, CronOps, Governed, SharedKeys, Index;
    Pieces(domain, spec);
    if k in SharedKeys(spec.ns) || k == Key(Secret, spec.ns, EnvSecretName(spec.name)) {
      PreludeHasCall(spec, k);
    } else {
      RunHasCall(domain, spec, k);
    }
  }

  ghost predicate MeetsDesired(domain: string, spec: ServiceSpec, op: Op) {
    op.key in Governed(spec) + SharedKeys(spec.ns) && Outcome(op) == Desired(domain, spec, op.key)
  }

  lemma PreludeMeets(domain: string, spec: ServiceSpec)
    ensures forall i :: 0 <= i < 6 ==> MeetsDesired(domain, spec, PreludeOps(spec)[i])
  {
    SuffixesDiffer(spec.name, spec.name);
  }

  lemma RunMeets(domain: string, spec: ServiceSpec)
    requires spec.typ != Cron
    ensures forall i :: 0 <= i < 3 ==> MeetsDesired(domain, spec, RunOps(spec)[i])
  {
  }

  lemma NetworkMeets(domain: string, spec: ServiceSpec)
    requires IsRoutable(spec.typ)
    ensures forall i :: 0 <= i < 4 ==> MeetsDesired(domain, spec, NetworkOps(domain, spec)[i])
  {
    SuffixesDiffer(spec.name, spec.name);
  }

  /** Every call of Apply is about a key it governs or shares, and writes what is
      desired there. */
  lemma CallsMeetDesired(domain: string, spec: ServiceSpec, i: nat)
    requires i < |ApplyOps(domain, spec)|
    ensures MeetsDesired(domain, spec, ApplyOps(domain, spec)[i])
  {
    Pieces(domain, spec);
    PreludeMeets(domain, spec);
    if spec.typ != Cron { RunMeets(domain, spec); }
    if IsRoutable(spec.typ) { NetworkMeets(domain, spec); }
    if spec.typ == Cron { assert MeetsDesired(domain, spec, CronOps(spec)[0]); }
    hide ApplyOps, PreludeOps, RunOps, NetworkOps, CronOps, MeetsDesired;
  }

  /** A complete Apply leaves exactly the desired objects at the keys it governs,
      whatever was there before, and leaves all other keys alone. */
  lemma ApplyMeetsDesired(domain: string, spec: ServiceSpec, c: Objects, k: Key)
    ensures
      Lookup(AfterEvent(domain, c, Complete(domain, spec)), k) ==
        if k in Governed(spec) + SharedKeys(spec.ns) then Desired(domain, spec, k) else Lookup(c, k)
  {
    var ops := ApplyOps(domain, spec);
    ApplyKeysDistinct(domain, spec);
    PerformAt(c, ops, |ops|, k);
    hide ApplyOps, Governed, SharedKeys, Desired;
    if k in Governed(spec) + SharedKeys(spec.ns) {
      EveryKeyHasCall(domain, spec, k);
      CallsMeetDesired(domain, spec, Index(spec, k));
    } else {
      forall i | 0 <= i < |ops| ensures ops[i].key != k { CallsMeetDesired(domain, spec, i); }
    }
  }

  /** However far an Apply gets, a key it neither governs nor shares is untouched. */
  lemma ApplyFrame(domain: string, spec: ServiceSpec, c: Objects, upTo: nat, k: Key)
    requires k !in Governed(spec) + SharedKeys(spec.ns)
    ensures Lookup(AfterEvent(domain, c, Applied(spec, upTo)), k) == Lookup(c, k)
  {
    var ops := ApplyOps(domain, spec);
    ApplyKeysDistinct(domain, spec);
    PerformAt(c, ops, Min(upTo, |ops|), k);
    hide ApplyOps, Governed, SharedKeys;
    forall i | 0 <= i < |ops| ensures ops[i].key != k { CallsMeetDesired(domain, spec, i); }
  }

  lemma DeleteCalls(ns: string, name: string)
    ensures forall i :: 0 <= i < |DeleteOps(ns, name)| ==>
      DeleteOps(ns, name)[i].Del? && DeleteOps(ns, name)[i].key in WorkloadKeys(ns, name)
    ensures forall k :: k in WorkloadKeys(ns, name) ==> exists i :: 0 <= i < 10 && DeleteOps(ns, name)[i].key == k
  {
    var ops := DeleteOps(ns, name);
    assert WorkloadKeys(ns, name) == {ops[0].key, ops[1].key, ops[2].key, ops[3].key, ops[4].key,
                                      ops[5].key, ops[6].key, ops[7].key, ops[8].key, ops[9].key};
  }

  lemma DeleteEffect(domain: string, ns: string, name: string, c: Objects, upTo: nat, k: Key)
    ensures k !in WorkloadKeys(ns, name) ==> Lookup(AfterEvent(domain, c, Deleted(ns, name, upTo)), k) == Lookup(c, k)
    ensures k in WorkloadKeys(ns, name) ==>
      Lookup(AfterEvent(domain, c, Deleted(ns, name, upTo)), k) in {Lookup(c, k), None}
    ensures k in WorkloadKeys(ns, name) && 10 <= upTo ==> k !in AfterEvent(domain, c, Deleted(ns, name, upTo))
  {
    var ops := DeleteOps(ns, name);
    var n := Min(upTo, |ops|);
    DeleteKeysDistinct(ns, name);
    DeleteCalls(ns, name);
    PerformAt(c, ops, n, k);
    if k in WorkloadKeys(ns, name) {
      var i :| 0 <= i < 10 && ops[i].key == k;
      assert i < n ==> Lookup(Perform(c, ops, n), k) == Outcome(ops[i]);
    }
  }

  // ------------------------------------------------------------- convergence

  lemma GovernedIsOwned(spec: ServiceSpec)
    ensures Governed(spec) <= WorkloadKeys(spec.ns, spec.name)
    ensures SharedKeys(spec.ns) !! WorkloadKeys(spec.ns, spec.name)
    ensures Key(Secret, spec.ns, TlsSecretName(spec.name)) !in Governed(spec)
  {
    SuffixesDiffer(spec.name, spec.name);
  }

  predicate SameWorkload(a: ServiceSpec, b: ServiceSpec) {
    a.ns == b.ns && a.name == b.name && a.typ == b.typ
  }

  /** A whole series of interrupted runs, then one complete Apply. */
  function Series(domain: string, c: Objects, runs: seq<Event>): Objects {
    if runs == [] then c
    else AfterEvent(domain, Series(domain, c, runs[..|runs| - 1]), runs[|runs| - 1])
  }

  lemma SameObjects(c: Objects, c': Objects)
    requires forall k :: Lookup(c, k) == Lookup(c', k)
    ensures c == c'
  {
    forall k ensures k in c <==> k in c' { assert Lookup(c, k) == Lookup(c', k); }
    forall k | k in c ensures c[k] == c'[k] { assert Lookup(c, k) == Lookup(c', k); }
  }

  lemma {:induction false} SeriesFrame(domain: string, c: Objects, runs: seq<Event>, spec: ServiceSpec, k: Key)
    requires forall r :: r in runs ==> r.Applied? && SameWorkload(r.spec, spec)
    requires k !in Governed(spec) + SharedKeys(spec.ns)
    ensures Lookup(Series(domain, c, runs), k) == Lookup(c, k)
  {
    if runs != [] {
      var front, last := runs[..|runs| - 1], runs[|runs| - 1];
      SeriesFrame(domain, c, front, spec, k);
      assert last in runs;
      ApplyFrame(domain, last.spec, Series(domain, c, front), last.upTo, k);
    }
  }

  /** Interrupted runs leave no trace: any series of Apply runs of one workload
      with arbitrary specs, each cut off anywhere, followed by one complete Apply,
      leaves the very cluster that complete Apply alone would have left. */
  lemma InterruptedRunsLeaveNoTrace(domain: string, c: Objects, runs: seq<Event>, spec: ServiceSpec)
    requires forall r :: r in runs ==> r.Applied? && SameWorkload(r.spec, spec)
    ensures AfterEvent(domain, Series(domain, c, runs), Complete(domain, spec))
         == AfterEvent(domain, c, Complete(domain, spec))
  {
    var dirty := Series(domain, c, runs);
    forall k ensures Lookup(AfterEvent(domain, dirty, Complete(domain, spec)), k)
                  == Lookup(AfterEvent(domain, c, Complete(domain, spec)), k)
    {
      ApplyMeetsDesired(domain, spec, dirty, k);
      ApplyMeetsDesired(domain, spec, c, k);
      hide AfterEvent, Governed, SharedKeys;
      if k !in Governed(spec) + SharedKeys(spec.ns) { SeriesFrame(domain, c, runs, spec, k); }
    }
    SameObjects(AfterEvent(domain, dirty, Complete(domain, spec)), AfterEvent(domain, c, Complete(domain, spec)));
  }

  /** Objects of the workload that its current type does not govern. */
  predicate HasStrays(c: Objects, spec: ServiceSpec) {
    exists k :: k in WorkloadKeys(spec.ns, spec.name) - {Key(Secret, spec.ns, TlsSecretName(spec.name))}
                && k !in Governed(spec) && k in c
  }

  /** A complete Apply over any cluster gives the same workload objects as on an
      empty one exactly when the cluster held no stray object of the workload. */
  lemma ConvergesIffNoStrays(domain: string, c: Objects, spec: ServiceSpec)
    ensures
      (forall k :: k in WorkloadKeys(spec.ns, spec.name) - {Key(Secret, spec.ns, TlsSecretName(spec.name))} ==>
         Lookup(AfterEvent(domain, c, Complete(domain, spec)), k)
         == Lookup(AfterEvent(domain, map[], Complete(domain, spec)), k))
      <==> !HasStrays(c, spec)
  {
    var owned := WorkloadKeys(spec.ns, spec.name) - {Key(Secret, spec.ns, TlsSecretName(spec.name))};
    GovernedIsOwned(spec);
    hide WorkloadKeys, Governed, SharedKeys, AfterEvent, Desired;
    forall k | k in owned
      ensures (Lookup(AfterEvent(domain, c, Complete(domain, spec)), k)
               == Lookup(AfterEvent(domain, map[], Complete(domain, spec)), k))
              <==> (k in Governed(spec) || k !in c)
    {
      ApplyMeetsDesired(domain, spec, c, k);
      ApplyMeetsDesired(domain, spec, map[], k);
    }
  }

  /** Changing the type between runs is what leaves strays: once a cron service of
      that name was applied, no complete Apply of another type removes its CronJob. */
  lemma TypeChangeLeavesCronJob(domain: string, c: Objects, old_: ServiceSpec, spec: ServiceSpec)
    requires old_.typ == Cron && spec.typ != Cron && old_.ns == spec.ns && old_.name == spec.name
    ensures Key(CronJob, spec.ns, spec.name) in Series(domain, c, [Complete(domain, old_), Complete(domain, spec)])
  {
    var k := Key(CronJob, spec.ns, spec.name);
    var runs := [Complete(domain, old_), Complete(domain, spec)];
    assert runs[..1] == [Complete(domain, old_)] && runs[..1][..0] == [];
    ApplyMeetsDesired(domain, old_, c, k);
    ApplyMeetsDesired(domain, spec, AfterEvent(domain, c, Complete(domain, old_)), k);
    hide AfterEvent;
    assert Series(domain, c, runs[..1]) == AfterEvent(domain, Series(domain, c, []), runs[0]);
  }

  /** The shape a complete Apply of a long-running service leaves. */
  lemma FinalShape(domain: string, c: Objects, spec: ServiceSpec)
    requires spec.typ != Cron
    ensures
      var c' := AfterEvent(domain, c, Complete(domain, spec));
      var dep, pvc, hpa := Key(Deployment, spec.ns, spec.name), Key(VolumeClaim, spec.ns, ClaimName(spec.name)),
                           Key(Autoscaler, spec.ns, spec.name);
      && dep in c' && c'[dep].DeploymentSpec?
      && (pvc in c' <==> spec.HasDisk())
      && (pvc in c' <==> c'[dep].mount.Some?)
      && (hpa in c' <==> spec.Autoscaled())
      && (hpa in c' <==> c'[dep].replicas == None)
      && (spec.suspended ==> c'[dep].replicas == Some(0))
      && (!spec.suspended && spec.HasDisk() ==> c'[dep].replicas == Some(1))
      && (!spec.suspended && !spec.HasDisk() && spec.maxReplicas <= 0 ==> c'[dep].replicas == Some(spec.replicas))
  {
    var c' := AfterEvent(domain, c, Complete(domain, spec));
    ApplyMeetsDesired(domain, spec, c, Key(Deployment, spec.ns, spec.name));
    ApplyMeetsDesired(domain, spec, c, Key(VolumeClaim, spec.ns, ClaimName(spec.name)));
    ApplyMeetsDesired(domain, spec, c, Key(Autoscaler, spec.ns, spec.name));
    hide AfterEvent;
  }

  // ----------------------------------------------------------------- removal

  /** The keys an event may write or remove. */
  predicate Touches(e: Event, k: Key) {
    match e
    case Applied(spec, _) => k in Governed(spec) + SharedKeys(spec.ns)
    case Deleted(ns, name, _) => k in WorkloadKeys(ns, name)
    case NamespaceDeleted(ns) => k.ns == ns || k == Key(Namespace, "", ns)
    case Issued(ns, name) => k == Key(Secret, ns, TlsSecretName(name))
  }

  lemma EventFrame(domain: string, c: Objects, e: Event, k: Key)
    requires !Touches(e, k)
    ensures Lookup(AfterEvent(domain, c, e), k) == Lookup(c, k)
  {
    match e
    case Applied(spec, upTo) => ApplyFrame(domain, spec, c, upTo, k);
    case Deleted(ns, name, upTo) => DeleteEffect(domain, ns, name, c, upTo, k);
    case _ =>
  }

  /** The event set up the object, its namespace, or its certificate. */
  predicate Owns(e: Event, k: Key) {
    || (e.Applied? && k in WorkloadKeys(e.spec.ns, e.spec.name) + SharedKeys(e.spec.ns))
    || (e.Issued? && k in WorkloadKeys(e.ns, e.name))
  }

  /** Everything on the cluster belongs to a workload that some event named, or to
      a namespace some Apply set up. */
  lemma {:induction false} EveryObjectHasAnOwner(domain: string, events: seq<Event>, k: Key)
    requires k in After(domain, events)
    ensures exists e :: e in events && Owns(e, k)
  {
    var front, e := events[..|events| - 1], events[|events| - 1];
    if k in After(domain, front) {
      EveryObjectHasAnOwner(domain, front, k);
      var e' :| e' in front && Owns(e', k);
      assert e' in events;
    } else {
      assert e in events;
      if e.Applied? {
        GovernedIsOwned(e.spec);
        if !Touches(e, k) { EventFrame(domain, After(domain, front), e, k); }
      } else if e.Deleted? {
        DeleteEffect(domain, e.ns, e.name, After(domain, front), e.upTo, k);
      }
    }
  }

  /** Whatever runs came before, complete or cut off, of whatever type: a complete
      Delete leaves no object of the workload, TLS secret included. */
  lemma DeleteRemovesAll(domain: string, events: seq<Event>, ns: string, name: string)
    ensures forall k :: k in WorkloadKeys(ns, name) ==> k !in After(domain, events + [CompleteDelete(ns, name)])
  {
    var all := events + [CompleteDelete(ns, name)];
    assert all[..|all| - 1] == events;
    forall k | k in WorkloadKeys(ns, name) ensures k !in After(domain, all) {
      DeleteEffect(domain, ns, name, After(domain, events), 10, k);
    }
  }

  /** Delete is idempotent and completes its own interruption: after a Delete cut
      off anywhere, a complete Delete leaves the cluster an uninterrupted one would. */
  lemma DeleteCompletesItself(domain: string, c: Objects, ns: string, name: string, upTo: nat)
    ensures AfterEvent(domain, AfterEvent(domain, c, Deleted(ns, name, upTo)), CompleteDelete(ns, name))
         == AfterEvent(domain, c, CompleteDelete(ns, name))
  {
    var cut := AfterEvent(domain, c, Deleted(ns, name, upTo));
    forall k ensures Lookup(AfterEvent(domain, cut, CompleteDelete(ns, name)), k)
                  == Lookup(AfterEvent(domain, c, CompleteDelete(ns, name)), k)
    {
      DeleteEffect(domain, ns, name, c, upTo, k);
      DeleteEffect(domain, ns, name, c, 10, k);
      DeleteEffect(domain, ns, name, cut, 10, k);
      hide AfterEvent, WorkloadKeys;
    }
    SameObjects(AfterEvent(domain, cut, CompleteDelete(ns, name)), AfterEvent(domain, c, CompleteDelete(ns, name)));
  }

  // ----------------------------------------------------------------- framing

  /** The names of two workloads of one namespace do not clash. */
  predicate Unrelated(a: string, b: string) {
    a != b && a != HttpRouteName(b) && b != HttpRouteName(a)
  }

  /** Membership in WorkloadKeys, by kind. */
  predicate IsWorkloadKey(ns: string, name: string, k: Key) {
    k.ns == ns &&
    match k.kind
    case Secret => k.name == EnvSecretName(name) || k.name == TlsSecretName(name)
    case VolumeClaim => k.name == ClaimName(name)
    case IngressRoute => k.name == name || k.name == HttpRouteName(name)
    case Deployment => k.name == name
    case CronJob => k.name == name
    case Autoscaler => k.name == name
    case NetService => k.name == name
    case Certificate => k.name == name
    case _ => false
  }

  lemma WorkloadKeysByKind(ns: string, name: string, k: Key)
    ensures k in WorkloadKeys(ns, name) <==> IsWorkloadKey(ns, name, k)
  {
  }

  lemma UnrelatedAreDisjoint(ns: string, a: string, b: string, k: Key)
    requires Unrelated(a, b) && k in WorkloadKeys(ns, a)
    ensures k !in WorkloadKeys(ns, b)
  {
    hide WorkloadKeys, EnvSecretName, TlsSecretName, ClaimName, HttpRouteName;
    SuffixesDiffer(a, b);
    SuffixesDiffer(b, a);
    WorkloadKeysByKind(ns, a, k);
    WorkloadKeysByKind(ns, b, k);
  }

  /** Two workloads have no object in common exactly when they live in different
      namespaces, or their names differ and neither is the other plus "-http":
      a service called web-http shares its route with the service web. */
  lemma DisjointIffUnrelated(ns: string, a: string, ns': string, b: string)
    ensures WorkloadKeys(ns, a) !! WorkloadKeys(ns', b) <==> (ns != ns' || Unrelated(a, b))
  {
    if ns != ns' {
      assert forall k :: k in WorkloadKeys(ns, a) ==> k.ns == ns;
      assert forall k :: k in WorkloadKeys(ns', b) ==> k.ns == ns';
    } else if Unrelated(a, b) {
      hide WorkloadKeys;
      forall k | k in WorkloadKeys(ns, a) ensures k !in WorkloadKeys(ns, b) { UnrelatedAreDisjoint(ns, a, b, k); }
    } else {
      var k := if a == b then Key(Deployment, ns, a)
               else if a == HttpRouteName(b) then Key(IngressRoute, ns, a)
               else Key(IngressRoute, ns, b);
      assert k in WorkloadKeys(ns, a) && k in WorkloadKeys(ns, b);
    }
  }

  lemma SharedAreNotOwned(ns: string, ns': string, name: string)
    ensures SharedKeys(ns) !! WorkloadKeys(ns', name)
  {
    SuffixesDiffer(name, name);
  }

  /** The workload an event acts on, where it acts on one. */
  predicate ActsOn(e: Event, ns: string, name: string) {
    match e
    case Applied(spec, _) => spec.ns == ns && spec.name == name
    case Deleted(n, m, _) => n == ns && m == name
    case Issued(n, m) => n == ns && m == name
    case NamespaceDeleted(n) => n == ns
  }

  /** The event belongs to another workload, whose name does not clash. */
  predicate Elsewhere(e: Event, ns: string, name: string) {
    match e
    case Applied(spec, _) => spec.ns != ns || Unrelated(spec.name, name)
    case Deleted(n, m, _) => n != ns || Unrelated(m, name)
    case Issued(n, m) => n != ns || Unrelated(m, name)
    case NamespaceDeleted(n) => n != ns
  }

  /** Apply, Delete and certificate issue for one workload, cut off anywhere, leave
      the objects of every other workload as they were. */
  lemma OtherWorkloadsKept(domain: string, c: Objects, e: Event, ns: string, name: string, k: Key)
    requires Elsewhere(e, ns, name) && k in WorkloadKeys(ns, name)
    ensures Lookup(AfterEvent(domain, c, e), k) == Lookup(c, k)
  {
    match e {
      case Applied(spec, _) =>
        GovernedIsOwned(spec);
        SharedAreNotOwned(spec.ns, ns, name);
        DisjointIffUnrelated(spec.ns, spec.name, ns, name);
      case Deleted(n, m, _) => DisjointIffUnrelated(n, m, ns, name);
      case Issued(n, m) => DisjointIffUnrelated(n, m, ns, name);
      case NamespaceDeleted(n) =>
    }
    assert !Touches(e, k);
    EventFrame(domain, c, e, k);
  }

  /** Convergence over whole histories: runs of this workload with arbitrary specs
      of its type, deletes, certificate issues, namespace removals and the runs of
      other workloads, each cut off anywhere; then one complete Apply leaves the
      workload's objects as on an empty cluster. */
  lemma ConvergesAfterAnyHistory(domain: string, events: seq<Event>, spec: ServiceSpec, k: Key)
    requires forall e :: e in events ==>
      (ActsOn(e, spec.ns, spec.name) && (e.Applied? ==> e.spec.typ == spec.typ)) || Elsewhere(e, spec.ns, spec.name)
    requires k in WorkloadKeys(spec.ns, spec.name) && k != Key(Secret, spec.ns, TlsSecretName(spec.name))
    ensures Lookup(After(domain, events + [Complete(domain, spec)]), k)
         == Lookup(After(domain, [Complete(domain, spec)]), k)
  {
    var all, one := events + [Complete(domain, spec)], [Complete(domain, spec)];
    assert all[..|all| - 1] == events && one[..|one| - 1] == [];
    ApplyMeetsDesired(domain, spec, After(domain, events), k);
    ApplyMeetsDesired(domain, spec, map[], k);
    hide WorkloadKeys, Governed, SharedKeys, AfterEvent, Desired;
    GovernedIsOwned(spec);
    if k !in Governed(spec) { NoStrays(domain, events, spec, k); }
  }

  lemma {:induction false} NoStrays(domain: string, events: seq<Event>, spec: ServiceSpec, k: Key)
    requires forall e :: e in events ==>
      (ActsOn(e, spec.ns, spec.name) && (e.Applied? ==> e.spec.typ == spec.typ)) || Elsewhere(e, spec.ns, spec.name)
    requires k in WorkloadKeys(spec.ns, spec.name) && k != Key(Secret, spec.ns, TlsSecretName(spec.name))
    requires k !in Governed(spec)
    ensures k !in After(domain, events)
  {
    if events != [] {
      var front, e := events[..|events| - 1], events[|events| - 1];
      NoStrays(domain, front, spec, k);
      assert e in events;
      GovernedIsOwned(spec);
      if Elsewhere(e, spec.ns, spec.name) {
        OtherWorkloadsKept(domain, After(domain, front), e, spec.ns, spec.name, k);
      } else if e.Applied? {
        assert Governed(e.spec) == Governed(spec);
        ApplyFrame(domain, e.spec, After(domain, front), e.upTo, k);
      } else if e.Deleted? {
        DeleteEffect(domain, e.ns, e.name, After(domain, front), e.upTo, k);
      }
    }
  }

  // --------------------------------------------------- referential integrity

  /** A Deployment or CronJob has its environment Secret, and a route has the
      Certificate whose secret it serves. */
  predicate Sound(c: Objects, ns: string, name: string) {
    && (Key(Deployment, ns, name) in c || Key(CronJob, ns, name) in c ==> Key(Secret, ns, EnvSecretName(name)) in c)
    && (Key(IngressRoute, ns, name) in c || Key(IngressRoute, ns, HttpRouteName(name)) in c ==>
          Key(Certificate, ns, name) in c)
  }

  /** What the first n calls of an Apply do at one key: nothing, if its call comes
      later or there is none; else what is desired. */
  lemma ApplyAt(domain: string, spec: ServiceSpec, c: Objects, n: nat, k: Key)
    requires n <= |ApplyOps(domain, spec)|
    ensures Lookup(Perform(c, ApplyOps(domain, spec), n), k) ==
      if k in Governed(spec) + SharedKeys(spec.ns) && Index(spec, k) < n then Desired(domain, spec, k) else Lookup(c, k)
  {
    var ops := ApplyOps(domain, spec);
    ApplyKeysDistinct(domain, spec);
    PerformAt(c, ops, n, k);
    hide ApplyOps, Governed, SharedKeys, Desired, Index;
    if k in Governed(spec) + SharedKeys(spec.ns) {
      EveryKeyHasCall(domain, spec, k);
      CallsMeetDesired(domain, spec, Index(spec, k));
    } else {
      forall i | 0 <= i < |ops| ensures ops[i].key != k { CallsMeetDesired(domain, spec, i); }
    }
  }

  lemma EnvAt(domain: string, spec: ServiceSpec, c: Objects, n: nat)
    requires n <= |ApplyOps(domain, spec)|
    ensures Key(Secret, spec.ns, EnvSecretName(spec.name)) in Perform(c, ApplyOps(domain, spec), n)
      <==> 5 < n || Key(Secret, spec.ns, EnvSecretName(spec.name)) in c
  {
    SuffixesDiffer(spec.name, spec.name);
    ApplyAt(domain, spec, c, n, Key(Secret, spec.ns, EnvSecretName(spec.name)));
    hide ApplyOps, Perform;
  }

  lemma WorkAt(domain: string, spec: ServiceSpec, c: Objects, n: nat)
    requires n <= |ApplyOps(domain, spec)|
    ensures Key(Deployment, spec.ns, spec.name) in Perform(c, ApplyOps(domain, spec), n)
      ==> 5 < n || Key(Deployment, spec.ns, spec.name) in c
    ensures Key(CronJob, spec.ns, spec.name) in Perform(c, ApplyOps(domain, spec), n)
      ==> 5 < n || Key(CronJob, spec.ns, spec.name) in c
  {
    ApplyAt(domain, spec, c, n, Key(Deployment, spec.ns, spec.name));
    ApplyAt(domain, spec, c, n, Key(CronJob, spec.ns, spec.name));
    hide ApplyOps, Perform;
  }

  lemma CertificateAt(domain: string, spec: ServiceSpec, c: Objects, n: nat)
    requires n <= |ApplyOps(domain, spec)|
    ensures Key(Certificate, spec.ns, spec.name) in Perform(c, ApplyOps(domain, spec), n)
      <==> 9 < n || Key(Certificate, spec.ns, spec.name) in c
  {
    Pieces(domain, spec);
    ApplyAt(domain, spec, c, n, Key(Certificate, spec.ns, spec.name));
    hide ApplyOps, Perform;
  }

  lemma RoutesAt(domain: string, spec: ServiceSpec, c: Objects, n: nat, name: string)
    requires n <= |ApplyOps(domain, spec)| && (name == spec.name || name == HttpRouteName(spec.name))
    ensures Key(IngressRoute, spec.ns, name) in Perform(c, ApplyOps(domain, spec), n)
      ==> 9 < n || Key(IngressRoute, spec.ns, name) in c
  {
    ApplyAt(domain, spec, c, n, Key(IngressRoute, spec.ns, name));
    hide ApplyOps, Perform;
  }

  lemma ApplySound(domain: string, spec: ServiceSpec, c: Objects, n: nat)
    requires n <= |ApplyOps(domain, spec)| && Sound(c, spec.ns, spec.name)
    ensures Sound(Perform(c, ApplyOps(domain, spec), n), spec.ns, spec.name)
  {
    hide ApplyOps, Perform;
    EnvAt(domain, spec, c, n);
    WorkAt(domain, spec, c, n);
    CertificateAt(domain, spec, c, n);
    RoutesAt(domain, spec, c, n, spec.name);
    RoutesAt(domain, spec, c, n, HttpRouteName(spec.name));
  }

  lemma DeleteSound(ns: string, name: string, c: Objects, n: nat)
    requires n <= |DeleteOps(ns, name)| && Sound(c, ns, name)
    ensures Sound(Perform(c, DeleteOps(ns, name), n), ns, name)
  {
    var ops := DeleteOps(ns, name);
    DeleteKeysDistinct(ns, name);
    forall k ensures forall i :: 0 <= i < n && ops[i].key == k ==> Lookup(Perform(c, ops, n), k) == None
             ensures (forall i :: 0 <= i < n ==> ops[i].key != k) ==> Lookup(Perform(c, ops, n), k) == Lookup(c, k)
    {
      PerformAt(c, ops, n, k);
    }
    hide Perform;
    DeleteOrder(ns, name, c, Perform(c, ops, n), n);
  }

  /** Delete removes dependents before what they depend on. */
  lemma DeleteOrder(ns: string, name: string, c: Objects, c': Objects, n: nat)
    requires n <= |DeleteOps(ns, name)| && DistinctKeys(DeleteOps(ns, name)) && Sound(c, ns, name)
    requires forall k, i :: 0 <= i < n && DeleteOps(ns, name)[i].key == k ==> Lookup(c', k) == None
    requires forall k :: (forall i :: 0 <= i < n ==> DeleteOps(ns, name)[i].key != k) ==> Lookup(c', k) == Lookup(c, k)
    ensures Sound(c', ns, name)
  {
    var ops := DeleteOps(ns, name);
    forall j | 0 <= j < |ops| ensures Lookup(c', ops[j].key) == if j < n then None else Lookup(c, ops[j].key) {
      if n <= j { assert forall i :: 0 <= i < n ==> ops[i].key != ops[j].key; }
    }
    assert ops[0].key == Key(Deployment, ns, name) && ops[1].key == Key(CronJob, ns, name);
    assert ops[5].key == Key(Secret, ns, EnvSecretName(name)) && ops[8].key == Key(Certificate, ns, name);
    assert ops[6].key == Key(IngressRoute, ns, name) && ops[7].key == Key(IngressRoute, ns, HttpRouteName(name));
  }

  /** The event applies a routable workload one of whose routes has the name of a route of
      the given workload. No other clash of names matters to referential integrity. */
  predicate PutsClashingRoute(e: Event, ns: string, name: string) {
    && e.Applied? && e.spec.ns == ns && IsRoutable(e.spec.typ)
    && (e.spec.name == HttpRouteName(name) || name == HttpRouteName(e.spec.name))
  }

  /** Referential integrity in every intermediate state: since a run may be cut off
      after any call, the state after a history is any state the reconciler ever
      passes through. Deletes and certificates of workloads with clashing names, and
      clashing workers and cron jobs, do no harm. */
  lemma {:induction false} AlwaysSound(domain: string, events: seq<Event>, ns: string, name: string)
    requires forall e :: e in events ==> !PutsClashingRoute(e, ns, name)
    ensures Sound(After(domain, events), ns, name)
  {
    if events != [] {
      var front, e := events[..|events| - 1], events[|events| - 1];
      AlwaysSound(domain, front, ns, name);
      var c := After(domain, front);
      assert e in events;
      if ActsOn(e, ns, name) {
        OwnEventSound(domain, c, e, ns, name);
      } else {
        OtherEventSound(domain, c, e, ns, name);
      }
    }
  }

  lemma OwnEventSound(domain: string, c: Objects, e: Event, ns: string, name: string)
    requires ActsOn(e, ns, name) && Sound(c, ns, name)
    ensures Sound(AfterEvent(domain, c, e), ns, name)
  {
    match e
    case Applied(spec, upTo) => ApplySound(domain, spec, c, Min(upTo, |ApplyOps(domain, spec)|));
    case Deleted(_, _, upTo) => DeleteSound(ns, name, c, Min(upTo, |DeleteOps(ns, name)|));
    case Issued(_, _) => SuffixesDiffer(name, name);
    case NamespaceDeleted(_) =>
  }

  /** What Sound looks at. */
  predicate Watched(ns: string, name: string, k: Key) {
    k in {Key(Deployment, ns, name), Key(CronJob, ns, name), Key(Secret, ns, EnvSecretName(name)),
          Key(Certificate, ns, name), Key(IngressRoute, ns, name), Key(IngressRoute, ns, HttpRouteName(name))}
  }

  lemma UnroutableApart(spec: ServiceSpec, ns: string, name: string, k: Key)
    requires Watched(ns, name, k) && spec.name != name && !IsRoutable(spec.typ)
    ensures k !in Governed(spec) + SharedKeys(spec.ns)
  {
    SuffixesDiffer(spec.name, name);
    SuffixesDiffer(name, name);
    hide EnvSecretName, TlsSecretName, HttpRouteName, ClaimName;
  }

  lemma WatchedOfAnother(ns: string, m: string, name: string, k: Key)
    requires Watched(ns, name, k) && m != name
    ensures k in WorkloadKeys(ns, m) ==> k.kind == IngressRoute
    ensures k != Key(Secret, ns, TlsSecretName(m))
  {
    SuffixesDiffer(m, name);
    SuffixesDiffer(name, m);
    WorkloadKeysByKind(ns, m, k);
    hide WorkloadKeys, EnvSecretName, TlsSecretName, HttpRouteName, ClaimName;
  }

  lemma WatchedIsOwned(ns: string, name: string, k: Key)
    requires Watched(ns, name, k)
    ensures k in WorkloadKeys(ns, name)
  {
  }

  /** Another workload's event changes nothing but, at most, that it removes a route. */
  lemma BystanderKept(domain: string, c: Objects, e: Event, ns: string, name: string, k: Key)
    requires !ActsOn(e, ns, name) && !PutsClashingRoute(e, ns, name)
    requires Watched(ns, name, k)
    ensures Lookup(AfterEvent(domain, c, e), k) == Lookup(c, k)
      || (k.kind == IngressRoute && Lookup(AfterEvent(domain, c, e), k) == None)
  {
    hide AfterEvent, WorkloadKeys, Watched, Governed, SharedKeys, HttpRouteName, TlsSecretName;
    if Elsewhere(e, ns, name) {
      WatchedIsOwned(ns, name, k);
      OtherWorkloadsKept(domain, c, e, ns, name, k);
    } else {
      match e
      case Applied(spec, _) =>
        UnroutableApart(spec, ns, name, k);
        EventFrame(domain, c, e, k);
      case Deleted(_, m, upTo) =>
        WatchedOfAnother(ns, m, name, k);
        DeleteEffect(domain, ns, m, c, upTo, k);
      case Issued(_, m) =>
        WatchedOfAnother(ns, m, name, k);
        EventFrame(domain, c, e, k);
      case NamespaceDeleted(_) =>
    }
  }

  lemma OtherEventSound(domain: string, c: Objects, e: Event, ns: string, name: string)
    requires !ActsOn(e, ns, name) && !PutsClashingRoute(e, ns, name) && Sound(c, ns, name)
    ensures Sound(AfterEvent(domain, c, e), ns, name)
  {
    forall k | Watched(ns, name, k)
      ensures Lookup(AfterEvent(domain, c, e), k) == Lookup(c, k)
        || (k.kind == IngressRoute && Lookup(AfterEvent(domain, c, e), k) == None)
    {
      BystanderKept(domain, c, e, ns, name, k);
    }
    var env, certificate := Key(Secret, ns, EnvSecretName(name)), Key(Certificate, ns, name);
    var route, plain := Key(IngressRoute, ns, name), Key(IngressRoute, ns, HttpRouteName(name));
    assert Watched(ns, name, Key(Deployment, ns, name)) && Watched(ns, name, Key(CronJob, ns, name));
    assert Watched(ns, name, env) && Watched(ns, name, certificate);
    assert Watched(ns, name, route) && Watched(ns, name, plain);
    hide AfterEvent, PutsClashingRoute, ActsOn;
  }

  /** The condition is needed, of every such workload: alone on a cluster, one workload
      keeps another sound exactly when it is not routable under a clashing name. Applying
      `web-http` gives `web` a route without a certificate, and `web` one to `web-http`. */
  lemma SoundIffNoClashingRoute(domain: string, spec: ServiceSpec, ns: string, name: string)
    requires spec.ns != ns || spec.name != name
    ensures Sound(After(domain, [Complete(domain, spec)]), ns, name)
      <==> !PutsClashingRoute(Complete(domain, spec), ns, name)
  {
    var e := Complete(domain, spec);
    if PutsClashingRoute(e, ns, name) {
      RouteWithoutCertificate(domain, spec, name);
    } else {
      hide PutsClashingRoute, Sound, After;
      AlwaysSound(domain, [e], ns, name);
    }
  }

  lemma RouteWithoutCertificate(domain: string, spec: ServiceSpec, name: string)
    requires IsRoutable(spec.typ) && (spec.name == HttpRouteName(name) || name == HttpRouteName(spec.name))
    ensures !Sound(After(domain, [Complete(domain, spec)]), spec.ns, name)
  {
    var e := Complete(domain, spec);
    var shared := Key(IngressRoute, spec.ns, if spec.name == HttpRouteName(name) then spec.name else name);
    var certificate := Key(Certificate, spec.ns, name);
    assert [e][..0] == [];
    assert After(domain, [e]) == AfterEvent(domain, map[], e);
    RouteGoverned(domain, spec, name, shared);
    hide AfterEvent, After, ApplyOps, Governed, SharedKeys, Desired;
    ApplyMeetsDesired(domain, spec, map[], shared);
    ApplyFrame(domain, spec, map[], |ApplyOps(domain, spec)|, certificate);
  }

  lemma RouteGoverned(domain: string, spec: ServiceSpec, name: string, shared: Key)
    requires IsRoutable(spec.typ) && (spec.name == HttpRouteName(name) || name == HttpRouteName(spec.name))
    requires shared == Key(IngressRoute, spec.ns, if spec.name == HttpRouteName(name) then spec.name else name)
    ensures shared in Governed(spec) && Desired(domain, spec, shared).Some?
    ensures Key(Certificate, spec.ns, name) !in Governed(spec) + SharedKeys(spec.ns)
  {
    SuffixesDiffer(name, name);
    SuffixesDiffer(spec.name, spec.name);
    hide HostMatch, Hosts, EnvSecretName, TlsSecretName, ClaimName, DesiredDeployment, Auths;
  }

  /** Framing does need names that do not clash: applying `web` and then deleting
      `web-http` removes the plain-HTTP route of `web`. */
  lemma ClashingDeleteTakesRoute(domain: string, c: Objects, spec: ServiceSpec)
    requires IsRoutable(spec.typ)
    ensures
      var route := Key(IngressRoute, spec.ns, HttpRouteName(spec.name));
      var applied := AfterEvent(domain, c, Complete(domain, spec));
      && route in applied
      && route !in AfterEvent(domain, applied, CompleteDelete(spec.ns, HttpRouteName(spec.name)))
  {
    var route := Key(IngressRoute, spec.ns, HttpRouteName(spec.name));
    ApplyMeetsDesired(domain, spec, c, route);
    DeleteEffect(domain, spec.ns, HttpRouteName(spec.name), AfterEvent(domain, c, Complete(domain, spec)), 10, route);
  }
}
