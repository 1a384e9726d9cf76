/** The reconciler as it runs: one API call after another on a cluster it updates
    in place, returning at the first error (internal/k8s). Every method is proved
    to perform exactly the calls the Cluster module lists, up to that error. */
module Reconciler {
  import opened Basics
  import opened Cluster
  import opened Convergence

  lemma {:induction false} PerformSplit(c: Objects, a: seq<Op>, b: seq<Op>, n: nat)
    requires n <= |a| + |b|
    ensures Perform(c, a + b, n) ==
      if n <= |a| then Perform(c, a, n) else Perform(Perform(c, a, |a|), b, n - |a|)
  {
    if n > 0 {
      PerformSplit(c, a, b, n - 1);
    }
  }

  lemma PerformPrefix(c: Objects, ops: seq<Op>, n: nat)
    requires n <= |ops|
    ensures Perform(c, ops, n) == Perform(c, ops[..n], n)
  {
    assert ops[..n] + ops[n..] == ops;
    PerformSplit(c, ops[..n], ops[n..], n);
  }

  function Join(parts: seq<string>, sep: string): string {
    if parts == [] then ""
    else if |parts| == 1 then parts[0]
    else Join(parts[..|parts| - 1], sep) + sep + parts[|parts| - 1]
  }

  method BuildHostMatch(hosts: seq<string>) returns (rule: string)
    ensures rule == HostMatch(hosts)
  {
    var parts: seq<string> := [];
    for i := 0 to |hosts|
      invariant |parts| == i && Join(parts, " || ") == HostMatch(hosts[..i])
    {
      assert hosts[..i + 1][..i] == hosts[..i];
      assert (parts + [HostRule(hosts[i])])[..i] == parts;
      parts := parts + [HostRule(hosts[i])];
    }
    assert hosts[..|hosts|] == hosts;
    rule := Join(parts, " || ");
  }

  method BuildAuths(creds: seq<RegistryCred>) returns (auths: map<string, Auth>)
    ensures auths == Auths(creds)
  {
    auths := map[];
    for i := 0 to |creds|
      invariant auths == Auths(creds[..i])
    {
      assert creds[..i + 1][..i] == creds[..i];
      auths := auths[creds[i].registry := Auth(creds[i].username, creds[i].password)];
    }
    assert creds[..|creds|] == creds;
  }

  /** ops were called in order, up to the first error; ok says whether there was
      none. left is how many more calls succeed. */
  ghost predicate Called(done: seq<Op>, left: nat, ops: seq<Op>, done': seq<Op>, left': nat, ok: bool) {
    && ok == (|ops| <= left)
    && left' == left - Min(left, |ops|)
    && done' == done + ops[..Min(left, |ops|)]
  }

  lemma CalledThen(d0: seq<Op>, l0: nat, a: seq<Op>, d1: seq<Op>, l1: nat, b: seq<Op>,
                   d2: seq<Op>, l2: nat, ok: bool)
    requires Called(d0, l0, a, d1, l1, true) && Called(d1, l1, b, d2, l2, ok)
    ensures Called(d0, l0, a + b, d2, l2, ok)
  {
    var m := Min(l1, |b|);
    assert (a + b)[..|a| + m] == a + b[..m];
    assert a[..|a|] == a;
  }

  lemma CalledStop(d0: seq<Op>, l0: nat, a: seq<Op>, b: seq<Op>, d1: seq<Op>, l1: nat)
    requires Called(d0, l0, a, d1, l1, false)
    ensures Called(d0, l0, a + b, d1, l1, false)
  {
    assert (a + b)[..l0] == a[..l0];
  }

  lemma Stopped(d0: seq<Op>, l0: nat, a: seq<Op>, d1: seq<Op>, l1: nat, b: seq<Op>, rest: seq<Op>,
                d2: seq<Op>, l2: nat)
    requires Called(d0, l0, a, d1, l1, true) && Called(d1, l1, b, d2, l2, false)
    ensures Called(d0, l0, a + (b + rest), d2, l2, false)
    ensures Called(d0, l0, a + b + rest, d2, l2, false)
  {
    CalledThen(d0, l0, a, d1, l1, b, d2, l2, false);
    CalledStop(d0, l0, a + b, rest, d2, l2);
    assert a + b + rest == a + (b + rest);
  }

  lemma StartOf(c: Objects, ops: seq<Op>)
    ensures Perform(c, ops, 0) == c
  {
  }

  /** The calls made, as an effect on the objects. */
  lemma {:induction false} EffectOf(start: Objects, d0: seq<Op>, l0: nat, ops: seq<Op>, d1: seq<Op>, l1: nat, ok: bool)
    requires Called(d0, l0, ops, d1, l1, ok)
    ensures Perform(start, d1, |d1|) == Perform(Perform(start, d0, |d0|), ops, Min(l0, |ops|))
  {
    var n := Min(l0, |ops|);
    hide Perform;
    PerformPrefix(Perform(start, d0, |d0|), ops, n);
    PerformSplit(start, d0, ops[..n], |d0| + n);
    StartOf(Perform(start, d0, |d0|), ops);
  }

  /** The Kubernetes API. Calls succeed until `left` runs out; deleting a missing
      object succeeds. */
  class KubeApi {
    var objects: Objects
    var left: nat
    ghost var start: Objects
    ghost var done: seq<Op>

    ghost predicate Valid()
      reads this
    {
      objects == Perform(start, done, |done|)
    }

    constructor (objects: Objects, left: nat)
      ensures Valid() && this.objects == objects && this.left == left && start == objects && done == []
    {
      this.objects, this.left := objects, left;
      this.start, this.done := objects, [];
    }

    method Apply(k: Key, o: Object) returns (ok: bool)
      requires Valid()
      modifies this
      ensures Valid() && start == old(start)
      ensures Called(old(done), old(left), [Put(k, o)], done, left, ok)
    {
      ok := left > 0;
      if ok {
        PerformSplit(start, done, [Put(k, o)], |done| + 1);
        objects, left, done := objects[k := o], left - 1, done + [Put(k, o)];
      }
    }

    method Delete(k: Key) returns (ok: bool)
      requires Valid()
      modifies this
      ensures Valid() && start == old(start)
      ensures Called(old(done), old(left), [Del(k)], done, left, ok)
    {
      ok := left > 0;
      if ok {
        PerformSplit(start, done, [Del(k)], |done| + 1);
        objects, left, done := objects - {k}, left - 1, done + [Del(k)];
      }
    }
  }

  /** What a poll of a Deployment shows of its rollout. */
  datatype Rollout = Rollout(replicas: Option<int>, generation: int, observed: int, updated: int, available: int)

  /** rolloutComplete: every copy asked for runs the newest specification and serves. */
  predicate RolloutComplete(d: Rollout) {
    var desired := if d.replicas.Some? then d.replicas.value else 1;
    d.generation == d.observed && d.updated == desired && d.available == desired
  }

  predicate RollsOut(polls: seq<Option<Rollout>>) {
    exists i :: 0 <= i < |polls| && polls[i].Some? && RolloutComplete(polls[i].value)
  }

  /** waitForRollout: polls are the reads up to the time limit, None for an error. It
      succeeds exactly when one of them shows a complete rollout. */
  method WaitForRollout(polls: seq<Option<Rollout>>) returns (ok: bool)
    ensures ok <==> RollsOut(polls)
    ensures ok <==> exists i :: (
      && 0 <= i < |polls| && polls[i].Some?
      && polls[i].value.observed == polls[i].value.generation
      && polls[i].value.updated == polls[i].value.available
      && polls[i].value.available == (if polls[i].value.replicas == None then 1 else polls[i].value.replicas.value))
  {
    for i := 0 to |polls|
      invariant forall j :: 0 <= j < i ==> !(polls[j].Some? && RolloutComplete(polls[j].value))
    {
      if polls[i].Some? && RolloutComplete(polls[i].value) { return true; }
    }
    return false;
  }

  class Reconciler {
    const api: KubeApi
    const baseDomain: string

    constructor (api: KubeApi, baseDomain: string)
      ensures this.api == api && this.baseDomain == baseDomain
    {
      this.api := api;
      this.baseDomain := baseDomain;
    }

    method EnsureNamespace(ns: string) returns (ok: bool)
      requires api.Valid()
      modifies api
      ensures api.Valid() && api.start == old(api.start)
      ensures Called(old(api.done), old(api.left), [Put(Key(Namespace, "", ns), Policy)], api.done, api.left, ok)
    {
      ok := api.Apply(Key(Namespace, "", ns), Policy);
    }

    method ApplyNamespacePolicies(ns: string) returns (ok: bool)
      requires api.Valid()
      modifies api
      ensures api.Valid() && api.start == old(api.start)
      ensures Called(old(api.done), old(api.left), PolicyOps(ns), api.done, api.left, ok)
    {
      ok := api.Apply(Key(ResourceQuota, ns, "uran-quota"), Policy);
      if !ok { return; }
      ok := api.Apply(Key(LimitRange, ns, "uran-limits"), Policy);
      if !ok { return; }
      ok := api.Apply(Key(NetworkPolicy, ns, "uran-isolation"), Policy);
    }

    method ReconcilePullSecret(ns: string, creds: seq<RegistryCred>) returns (ok: bool)
      requires api.Valid()
      modifies api
      ensures api.Valid() && api.start == old(api.start)
      ensures Called(old(api.done), old(api.left), [PullSecretOp(ns, creds)], api.done, api.left, ok)
    {
      if |creds| == 0 {
        ok := api.Delete(Key(Secret, ns, PullSecretName));
        return;
      }
      var auths := BuildAuths(creds);
      ok := api.Apply(Key(Secret, ns, PullSecretName), PullSecret(auths));
    }

    method ApplyEnvSecret(spec: ServiceSpec) returns (ok: bool)
      requires api.Valid()
      modifies api
      ensures api.Valid() && api.start == old(api.start)
      ensures Called(old(api.done), old(api.left), [Put(Key(Secret, spec.ns, EnvSecretName(spec.name)), EnvSecret(spec.env))], api.done, api.left, ok)
    {
      ok := api.Apply(Key(Secret, spec.ns, EnvSecretName(spec.name)), EnvSecret(spec.env));
    }

    method ApplyCronJob(spec: ServiceSpec) returns (ok: bool)
      requires api.Valid()
      modifies api
      ensures api.Valid() && api.start == old(api.start)
      ensures Called(old(api.done), old(api.left), CronOps(spec), api.done, api.left, ok)
    {
      var pull := false;
      if |spec.pullCreds| > 0 { pull := true; }
      ok := api.Apply(Key(CronJob, spec.ns, spec.name),
                      CronJobSpec(spec.image, spec.schedule, spec.size, EnvSecretName(spec.name), pull));
    }

    method ReconcileDisk(spec: ServiceSpec) returns (ok: bool)
      requires api.Valid()
      modifies api
      ensures api.Valid() && api.start == old(api.start)
      ensures Called(old(api.done), old(api.left), [DiskOp(spec)], api.done, api.left, ok)
    {
      if !spec.HasDisk() {
        ok := api.Delete(Key(VolumeClaim, spec.ns, ClaimName(spec.name)));
        return;
      }
      ok := api.Apply(Key(VolumeClaim, spec.ns, ClaimName(spec.name)), ClaimSpec(spec.diskSize));
    }

    /** The deployment is assembled field by field before it is applied. */
    method ApplyDeployment(spec: ServiceSpec) returns (ok: bool)
      requires api.Valid()
      modifies api
      ensures api.Valid() && api.start == old(api.start)
      ensures Called(old(api.done), old(api.left), [Put(Key(Deployment, spec.ns, spec.name), DesiredDeployment(spec))], api.done, api.left, ok)
    {
      var probe: Option<Probe> := None;
      if IsRoutable(spec.typ) {
        probe := Some(if spec.healthPath != "" then HttpGet(spec.healthPath, spec.port) else TcpConnect(spec.port));
      }
      var mount: Option<Mount> := None;
      if spec.HasDisk() { mount := Some(Mount(spec.diskPath, ClaimName(spec.name))); }
      var pull := false;
      if |spec.pullCreds| > 0 { pull := true; }
      var replicas: Option<int>, oneAtATime := None, false;
      if spec.suspended {
        replicas := Some(0);
      } else if spec.HasDisk() {
        replicas, oneAtATime := Some(1), true;
      } else if !spec.Autoscaled() {
        replicas := Some(spec.replicas);
      }
      var dep := DeploymentSpec(spec.image, spec.port, spec.size, EnvSecretName(spec.name), probe, mount, pull,
                                replicas, oneAtATime);
      ok := api.Apply(Key(Deployment, spec.ns, spec.name), dep);
    }

    method ReconcileAutoscaler(spec: ServiceSpec) returns (ok: bool)
      requires api.Valid()
      modifies api
      ensures api.Valid() && api.start == old(api.start)
      ensures Called(old(api.done), old(api.left), [AutoscalerOp(spec)], api.done, api.left, ok)
    {
      if !spec.Autoscaled() {
        ok := api.Delete(Key(Autoscaler, spec.ns, spec.name));
        return;
      }
      ok := api.Apply(Key(Autoscaler, spec.ns, spec.name),
                      AutoscalerSpec(spec.name, spec.minReplicas, spec.maxReplicas));
    }

    /** applyCertificate, applyService and applyIngressRoute. */
    method ApplyNetworking(spec: ServiceSpec) returns (ok: bool)
      requires api.Valid()
      modifies api
      ensures api.Valid() && api.start == old(api.start)
      ensures Called(old(api.done), old(api.left), NetworkOps(baseDomain, spec), api.done, api.left, ok)
    {
      var hosts := Hosts(baseDomain, spec);
      ok := api.Apply(Key(Certificate, spec.ns, spec.name), CertificateSpec(TlsSecretName(spec.name), hosts));
      if !ok { return; }
      ok := api.Apply(Key(NetService, spec.ns, spec.name), ServicePort(spec.port));
      if !ok { return; }
      var rule := BuildHostMatch(hosts);
      ok := api.Apply(Key(IngressRoute, spec.ns, spec.name),
                      Route(spec.name, rule, "websecure", Some(TlsSecretName(spec.name))));
      if !ok { return; }
      ok := api.Apply(Key(IngressRoute, spec.ns, HttpRouteName(spec.name)), Route(spec.name, rule, "web", None));
    }

    method ApplyPrelude(spec: ServiceSpec) returns (ok: bool)
      requires api.Valid()
      modifies api
      ensures api.Valid() && api.start == old(api.start)
      ensures Called(old(api.done), old(api.left), PreludeOps(spec), api.done, api.left, ok)
    {
      ghost var d0, l0 := api.done, api.left;
      ghost var head, policies := [Put(Key(Namespace, "", spec.ns), Policy)], PolicyOps(spec.ns);
      ghost var pull, env := [PullSecretOp(spec.ns, spec.pullCreds)],
                             [Put(Key(Secret, spec.ns, EnvSecretName(spec.name)), EnvSecret(spec.env))];
      assert head + (policies + pull + env) == PreludeOps(spec);
      assert head + (policies + (pull + env)) == PreludeOps(spec);
      assert head + policies + (pull + env) == PreludeOps(spec);
      assert head + policies + pull + env == PreludeOps(spec);
      hide Called, PolicyOps, PreludeOps;
      ok := EnsureNamespace(spec.ns);
      if !ok { CalledStop(d0, l0, head, policies + pull + env, api.done, api.left); return; }
      ghost var d1, l1 := api.done, api.left;
      ok := ApplyNamespacePolicies(spec.ns);
      if !ok { Stopped(d0, l0, head, d1, l1, policies, pull + env, api.done, api.left); return; }
      CalledThen(d0, l0, head, d1, l1, policies, api.done, api.left, ok);
      d1, l1 := api.done, api.left;
      ok := ReconcilePullSecret(spec.ns, spec.pullCreds);
      if !ok { Stopped(d0, l0, head + policies, d1, l1, pull, env, api.done, api.left); return; }
      CalledThen(d0, l0, head + policies, d1, l1, pull, api.done, api.left, ok);
      d1, l1 := api.done, api.left;
      ok := ApplyEnvSecret(spec);
      CalledThen(d0, l0, head + policies + pull, d1, l1, env, api.done, api.left, ok);
    }

    method ApplyWorkload(spec: ServiceSpec) returns (ok: bool)
      requires api.Valid()
      modifies api
      ensures api.Valid() && api.start == old(api.start)
      ensures Called(old(api.done), old(api.left), RunOps(spec), api.done, api.left, ok)
    {
      ok := ReconcileDisk(spec);
      if !ok { return; }
      ok := ApplyDeployment(spec);
      if !ok { return; }
      ok := ReconcileAutoscaler(spec);
    }

    /** The calls of Apply up to the rollout wait. */
    method ApplyCalls(spec: ServiceSpec) returns (ok: bool)
      requires api.Valid()
      modifies api
      ensures api.Valid() && api.start == old(api.start)
      ensures Called(old(api.done), old(api.left), ApplyOps(baseDomain, spec), api.done, api.left, ok)
    {
      ghost var d0, l0 := api.done, api.left;
      ghost var prelude, run, net := PreludeOps(spec), RunOps(spec), NetworkOps(baseDomain, spec);
      assert prelude + (run + net) == prelude + run + net;
      hide Called, PreludeOps, RunOps, CronOps, NetworkOps;
      ok := ApplyPrelude(spec);
      if !ok {
        CalledStop(d0, l0, prelude, if spec.typ == Cron then CronOps(spec) else if IsRoutable(spec.typ) then run + net else run,
                   api.done, api.left);
        return;
      }
      ghost var d1, l1 := api.done, api.left;
      if spec.typ == Cron {
        ok := ApplyCronJob(spec);
        CalledThen(d0, l0, prelude, d1, l1, CronOps(spec), api.done, api.left, ok);
        return;
      }
      ok := ApplyWorkload(spec);
      CalledThen(d0, l0, prelude, d1, l1, run, api.done, api.left, ok);
      if !ok {
        if IsRoutable(spec.typ) { CalledStop(d0, l0, prelude + run, net, api.done, api.left); }
        return;
      }
      if IsRoutable(spec.typ) {
        d1, l1 := api.done, api.left;
        ok := ApplyNetworking(spec);
        CalledThen(d0, l0, prelude + run, d1, l1, net, api.done, api.left, ok);
      }
    }

    /** Apply; polls are what the rollout wait reads, which sends no writes. */
    method Apply(spec: ServiceSpec, polls: seq<Option<Rollout>>) returns (ok: bool)
      requires api.Valid()
      modifies api
      ensures api.Valid() && api.start == old(api.start)
      ensures api.objects == AfterEvent(baseDomain, old(api.objects), Applied(spec, old(api.left)))
      ensures ok == (|ApplyOps(baseDomain, spec)| <= old(api.left) && (spec.typ == Cron || RollsOut(polls)))
    {
      ghost var d0, l0 := api.done, api.left;
      ok := ApplyCalls(spec);
      EffectOf(api.start, d0, l0, ApplyOps(baseDomain, spec), api.done, api.left, ok);
      if ok && spec.typ != Cron { ok := WaitForRollout(polls); }
    }

    /** The three parts of Delete: the workload, its data, its networking. */
    method DeleteWorkload(ns: string, name: string) returns (ok: bool)
      requires api.Valid()
      modifies api
      ensures api.Valid() && api.start == old(api.start)
      ensures Called(old(api.done), old(api.left), DeleteWorkloadOps(ns, name), api.done, api.left, ok)
    {
      ok := api.Delete(Key(Deployment, ns, name));
      if !ok { return; }
      ok := api.Delete(Key(CronJob, ns, name));
      if !ok { return; }
      ok := api.Delete(Key(Autoscaler, ns, name));
    }

    method DeleteStorage(ns: string, name: string) returns (ok: bool)
      requires api.Valid()
      modifies api
      ensures api.Valid() && api.start == old(api.start)
      ensures Called(old(api.done), old(api.left), DeleteStorageOps(ns, name), api.done, api.left, ok)
    {
      ok := api.Delete(Key(VolumeClaim, ns, ClaimName(name)));
      if !ok { return; }
      ok := api.Delete(Key(NetService, ns, name));
      if !ok { return; }
      ok := api.Delete(Key(Secret, ns, EnvSecretName(name)));
    }

    method DeleteNetworking(ns: string, name: string) returns (ok: bool)
      requires api.Valid()
      modifies api
      ensures api.Valid() && api.start == old(api.start)
      ensures Called(old(api.done), old(api.left), DeleteNetworkOps(ns, name), api.done, api.left, ok)
    {
      ok := api.Delete(Key(IngressRoute, ns, name));
      if !ok { return; }
      ok := api.Delete(Key(IngressRoute, ns, HttpRouteName(name)));
      if !ok { return; }
      ok := api.Delete(Key(Certificate, ns, name));
      if !ok { return; }
      ok := api.Delete(Key(Secret, ns, TlsSecretName(name)));
    }

    method DeleteCalls(ns: string, name: string) returns (ok: bool)
      requires api.Valid()
      modifies api
      ensures api.Valid() && api.start == old(api.start)
      ensures Called(old(api.done), old(api.left), DeleteOps(ns, name), api.done, api.left, ok)
    {
      ghost var d0, l0 := api.done, api.left;
      ghost var work, data, net := DeleteWorkloadOps(ns, name), DeleteStorageOps(ns, name), DeleteNetworkOps(ns, name);
      hide Called, DeleteWorkloadOps, DeleteStorageOps, DeleteNetworkOps;
      assert work + (data + net) == work + data + net;
      ok := DeleteWorkload(ns, name);
      if !ok { CalledStop(d0, l0, work, data + net, api.done, api.left); return; }
      ghost var d1, l1 := api.done, api.left;
      ok := DeleteStorage(ns, name);
      CalledThen(d0, l0, work, d1, l1, data, api.done, api.left, ok);
      if !ok { CalledStop(d0, l0, work + data, net, api.done, api.left); return; }
      d1, l1 := api.done, api.left;
      ok := DeleteNetworking(ns, name);
      CalledThen(d0, l0, work + data, d1, l1, net, api.done, api.left, ok);
    }

    method Delete(ns: string, name: string) returns (ok: bool)
      requires api.Valid()
      modifies api
      ensures api.Valid() && api.start == old(api.start)
      ensures api.objects == AfterEvent(baseDomain, old(api.objects), Deleted(ns, name, old(api.left)))
      ensures ok == (|DeleteOps(ns, name)| <= old(api.left))
    {
      ghost var d0, l0 := api.done, api.left;
      ok := DeleteCalls(ns, name);
      EffectOf(api.start, d0, l0, DeleteOps(ns, name), api.done, api.left, ok);
    }
  }
}
