/** The cluster as an object map, and the desired objects of one workload
    (internal/k8s/reconcile.go, volume.go, hpa.go, pullsecret.go, cronjob.go,
    policies.go). */
module Cluster {
  import opened Basics

  datatype ResourceKind =
    | Namespace | ResourceQuota | LimitRange | NetworkPolicy | Secret | CronJob | Deployment
    | Autoscaler | VolumeClaim | Certificate | NetService | IngressRoute

  datatype Key = Key(kind: ResourceKind, ns: string, name: string)

  datatype Auth = Auth(username: string, password: string)

  datatype Probe = HttpGet(path: string, httpPort: int) | TcpConnect(tcpPort: int)

  datatype Mount = Mount(path: string, claim: string)

  datatype Object =
    | Policy
    | PullSecret(auths: map<string, Auth>)
    | EnvSecret(data: map<string, string>)
    | TlsSecret
    | CronJobSpec(image: string, schedule: string, size: string, env: string, pull: bool)
    | DeploymentSpec(image: string, port: int, size: string, env: string, probe: Option<Probe>,
                     mount: Option<Mount>, pull: bool, replicas: Option<int>, oneAtATime: bool)
    | AutoscalerSpec(target: string, min: int, max: int)
    | ClaimSpec(storage: string)
    | CertificateSpec(tlsSecret: string, dnsNames: seq<string>)
    | ServicePort(port: int)
    | Route(service: string, rule: string, entryPoint: string, tls: Option<string>)

  type Objects = map<Key, Object>

  datatype ServiceType = Web | Static | Worker | Cron

  predicate IsRoutable(t: ServiceType) {
    t == Web || t == Static
  }

  datatype RegistryCred = RegistryCred(registry: string, username: string, password: string)

  datatype ServiceSpec = ServiceSpec(
    ns: string, name: string, typ: ServiceType, image: string, port: int, schedule: string,
    env: map<string, string>, domains: seq<string>, replicas: int, size: string, healthPath: string,
    minReplicas: int, maxReplicas: int, diskSize: string, diskPath: string,
    pullCreds: seq<RegistryCred>, suspended: bool)
  {
    predicate HasDisk() { diskSize != "" && diskPath != "" }

    predicate Autoscaled() { maxReplicas > 0 && !HasDisk() && !suspended }
  }

  function EnvSecretName(name: string): string { name + "-env" }

  function TlsSecretName(name: string): string { name + "-tls" }

  function ClaimName(name: string): string { name + "-data" }

  function HttpRouteName(name: string): string { name + "-http" }

  const PullSecretName := "uran-pull"

  function Hosts(baseDomain: string, spec: ServiceSpec): seq<string> {
    [spec.name + "." + baseDomain] + spec.domains
  }

  /** The route rule matching any of the hosts: Host(`a`) || Host(`b`). */
  function HostMatch(hosts: seq<string>): string {
    if hosts == [] then ""
    else if |hosts| == 1 then HostRule(hosts[0])
    else HostMatch(hosts[..|hosts| - 1]) + " || " + HostRule(hosts[|hosts| - 1])
  }

  function HostRule(host: string): string { "Host(`" + host + "`)" }

  /** The registry entries of the pull secret: the last credential of a registry wins. */
  function Auths(creds: seq<RegistryCred>): map<string, Auth> {
    if creds == [] then map[]
    else
      var c := creds[|creds| - 1];
      Auths(creds[..|creds| - 1])[c.registry := Auth(c.username, c.password)]
  }

  // ------------------------------------------------------------------- keys

  /** Objects every workload of a namespace shares. */
  function SharedKeys(ns: string): set<Key> {
    {Key(Namespace, "", ns), Key(ResourceQuota, ns, "uran-quota"), Key(LimitRange, ns, "uran-limits"),
     Key(NetworkPolicy, ns, "uran-isolation"), Key(Secret, ns, PullSecretName)}
  }

  /** Objects one workload may own. */
  function WorkloadKeys(ns: string, name: string): set<Key> {
    {Key(Deployment, ns, name), Key(CronJob, ns, name), Key(Autoscaler, ns, name),
     Key(VolumeClaim, ns, ClaimName(name)), Key(NetService, ns, name), Key(Secret, ns, EnvSecretName(name)),
     Key(IngressRoute, ns, name), Key(IngressRoute, ns, HttpRouteName(name)),
     Key(Certificate, ns, name), Key(Secret, ns, TlsSecretName(name))}
  }

  /** The workload objects Apply decides on for a type of service; the others it
      leaves alone. The TLS secret is cert-manager's. */
  function Governed(spec: ServiceSpec): set<Key> {
    var ns, name := spec.ns, spec.name;
    if spec.typ == Cron then {Key(Secret, ns, EnvSecretName(name)), Key(CronJob, ns, name)}
    else
      {Key(Secret, ns, EnvSecretName(name)), Key(VolumeClaim, ns, ClaimName(name)),
       Key(Deployment, ns, name), Key(Autoscaler, ns, name)}
      + if IsRoutable(spec.typ)
        then {Key(Certificate, ns, name), Key(NetService, ns, name), Key(IngressRoute, ns, name),
              Key(IngressRoute, ns, HttpRouteName(name))}
        else {}
  }

  // --------------------------------------------------------- desired objects

  function DesiredReplicas(spec: ServiceSpec): Option<int> {
    if spec.suspended then Some(0)
    else if spec.HasDisk() then Some(1)
    else if spec.Autoscaled() then None
    else Some(spec.replicas)
  }

  function DesiredDeployment(spec: ServiceSpec): Object {
    DeploymentSpec(
      spec.image, spec.port, spec.size, EnvSecretName(spec.name),
      if !IsRoutable(spec.typ) then None
      else if spec.healthPath != "" then Some(HttpGet(spec.healthPath, spec.port))
      else Some(TcpConnect(spec.port)),
      if spec.HasDisk() then Some(Mount(spec.diskPath, ClaimName(spec.name))) else None,
      spec.pullCreds != [],
      DesiredReplicas(spec),
      !spec.suspended && spec.HasDisk())
  }

  /** What one complete Apply must leave at a key: the reference the step program
      is compared with. None means no object. */
  function Desired(baseDomain: string, spec: ServiceSpec, k: Key): Option<Object> {
    match k.kind
    case Secret =>
      if k.name == PullSecretName
      then (if spec.pullCreds == [] then None else Some(PullSecret(Auths(spec.pullCreds))))
      else Some(EnvSecret(spec.env))
    case CronJob =>
      Some(CronJobSpec(spec.image, spec.schedule, spec.size, EnvSecretName(spec.name), spec.pullCreds != []))
    case VolumeClaim => if spec.HasDisk() then Some(ClaimSpec(spec.diskSize)) else None
    case Deployment => Some(DesiredDeployment(spec))
    case Autoscaler =>
      if spec.Autoscaled() then Some(AutoscalerSpec(spec.name, spec.minReplicas, spec.maxReplicas)) else None
    case Certificate => Some(CertificateSpec(TlsSecretName(spec.name), Hosts(baseDomain, spec)))
    case NetService => Some(ServicePort(spec.port))
    case IngressRoute =>
      if k.name == spec.name
      then Some(Route(spec.name, HostMatch(Hosts(baseDomain, spec)), "websecure", Some(TlsSecretName(spec.name))))
      else Some(Route(spec.name, HostMatch(Hosts(baseDomain, spec)), "web", None))
    case _ => Some(Policy)
  }

  // ---------------------------------------------------------------- programs

  datatype Op = Put(key: Key, obj: Object) | Del(key: Key)

  function Lookup(c: Objects, k: Key): Option<Object> {
    if k in c then Some(c[k]) else None
  }

  function Do(c: Objects, op: Op): Objects {
    match op
    case Put(k, o) => c[k := o]
    case Del(k) => c - {k}
  }

  /** The objects after the first n operations of a program. */
  function Perform(c: Objects, ops: seq<Op>, n: nat): Objects
    requires n <= |ops|
  {
    if n == 0 then c else Do(Perform(c, ops, n - 1), ops[n - 1])
  }

  function Outcome(op: Op): Option<Object> {
    if op.Put? then Some(op.obj) else None
  }

  predicate DistinctKeys(ops: seq<Op>) {
    forall i, j :: 0 <= i < j < |ops| ==> ops[i].key != ops[j].key
  }

  /** applyNamespacePolicies. */
  function PolicyOps(ns: string): seq<Op> {
    [Put(Key(ResourceQuota, ns, "uran-quota"), Policy),
     Put(Key(LimitRange, ns, "uran-limits"), Policy),
     Put(Key(NetworkPolicy, ns, "uran-isolation"), Policy)]
  }

  /** reconcilePullSecret. */
  function PullSecretOp(ns: string, creds: seq<RegistryCred>): Op {
    if creds == [] then Del(Key(Secret, ns, PullSecretName))
    else Put(Key(Secret, ns, PullSecretName), PullSecret(Auths(creds)))
  }

  /** ensureNamespace, applyNamespacePolicies, reconcilePullSecret, applyEnvSecret. */
  function PreludeOps(spec: ServiceSpec): seq<Op> {
    [Put(Key(Namespace, "", spec.ns), Policy)] + PolicyOps(spec.ns)
    + [PullSecretOp(spec.ns, spec.pullCreds),
       Put(Key(Secret, spec.ns, EnvSecretName(spec.name)), EnvSecret(spec.env))]
  }

  /** applyCronJob. */
  function CronOps(spec: ServiceSpec): seq<Op> {
    [Put(Key(CronJob, spec.ns, spec.name),
         CronJobSpec(spec.image, spec.schedule, spec.size, EnvSecretName(spec.name), spec.pullCreds != []))]
  }

  /** reconcileDisk. */
  function DiskOp(spec: ServiceSpec): Op {
    if spec.HasDisk() then Put(Key(VolumeClaim, spec.ns, ClaimName(spec.name)), ClaimSpec(spec.diskSize))
    else Del(Key(VolumeClaim, spec.ns, ClaimName(spec.name)))
  }

  /** reconcileAutoscaler. */
  function AutoscalerOp(spec: ServiceSpec): Op {
    if spec.Autoscaled()
    then Put(Key(Autoscaler, spec.ns, spec.name), AutoscalerSpec(spec.name, spec.minReplicas, spec.maxReplicas))
    else Del(Key(Autoscaler, spec.ns, spec.name))
  }

  /** reconcileDisk, applyDeployment, reconcileAutoscaler. */
  function RunOps(spec: ServiceSpec): seq<Op> {
    [DiskOp(spec), Put(Key(Deployment, spec.ns, spec.name), DesiredDeployment(spec)), AutoscalerOp(spec)]
  }

  /** applyCertificate, applyService, applyIngressRoute. */
  function NetworkOps(baseDomain: string, spec: ServiceSpec): seq<Op> {
    var ns, name := spec.ns, spec.name;
    var hosts := Hosts(baseDomain, spec);
    [Put(Key(Certificate, ns, name), CertificateSpec(TlsSecretName(name), hosts)),
     Put(Key(NetService, ns, name), ServicePort(spec.port)),
     Put(Key(IngressRoute, ns, name), Route(name, HostMatch(hosts), "websecure", Some(TlsSecretName(name)))),
     Put(Key(IngressRoute, ns, HttpRouteName(name)), Route(name, HostMatch(hosts), "web", None))]
  }

  /** The calls of Apply, in order. */
  function ApplyOps(baseDomain: string, spec: ServiceSpec): seq<Op> {
    if spec.typ == Cron then PreludeOps(spec) + CronOps(spec)
    else if IsRoutable(spec.typ) then PreludeOps(spec) + RunOps(spec) + NetworkOps(baseDomain, spec)
    else PreludeOps(spec) + RunOps(spec)
  }

  function DeleteWorkloadOps(ns: string, name: string): seq<Op> {
    [Del(Key(Deployment, ns, name)), Del(Key(CronJob, ns, name)), Del(Key(Autoscaler, ns, name))]
  }

  function DeleteStorageOps(ns: string, name: string): seq<Op> {
    [Del(Key(VolumeClaim, ns, ClaimName(name))), Del(Key(NetService, ns, name)),
     Del(Key(Secret, ns, EnvSecretName(name)))]
  }

  function DeleteNetworkOps(ns: string, name: string): seq<Op> {
    [Del(Key(IngressRoute, ns, name)), Del(Key(IngressRoute, ns, HttpRouteName(name))),
     Del(Key(Certificate, ns, name)), Del(Key(Secret, ns, TlsSecretName(name)))]
  }

  /** The calls of Delete, in order. */
  function DeleteOps(ns: string, name: string): seq<Op> {
    DeleteWorkloadOps(ns, name) + DeleteStorageOps(ns, name) + DeleteNetworkOps(ns, name)
  }

  // ---------------------------------------------- what a program does to a key

  /** A key not among the first n operations keeps its object; with distinct keys,
      the key of an operation already performed has that operation's outcome. */
  lemma {:induction false} PerformAt(c: Objects, ops: seq<Op>, n: nat, k: Key)
    requires n <= |ops| && DistinctKeys(ops)
    ensures (forall i :: 0 <= i < n ==> ops[i].key != k) ==> Lookup(Perform(c, ops, n), k) == Lookup(c, k)
    ensures forall i :: 0 <= i < n && ops[i].key == k ==> Lookup(Perform(c, ops, n), k) == Outcome(ops[i])
  {
    if n > 0 {
      PerformAt(c, ops, n - 1, k);
    }
  }

  lemma SuffixesDiffer(a: string, b: string)
    ensures EnvSecretName(a) != TlsSecretName(b)
    ensures EnvSecretName(a) != PullSecretName && TlsSecretName(a) != PullSecretName
    ensures HttpRouteName(a) != a
    ensures EnvSecretName(a) == EnvSecretName(b) ==> a == b
    ensures TlsSecretName(a) == TlsSecretName(b) ==> a == b
    ensures ClaimName(a) == ClaimName(b) ==> a == b
    ensures HttpRouteName(a) == HttpRouteName(b) ==> a == b
  {
    assert EnvSecretName(a)[|EnvSecretName(a)| - 1] == 'v';
    assert TlsSecretName(b)[|TlsSecretName(b)| - 1] == 's';
    assert TlsSecretName(a)[|TlsSecretName(a)| - 1] == 's';
    assert |HttpRouteName(a)| == |a| + 5;
    assert EnvSecretName(a)[..|a|] == a && EnvSecretName(b)[..|b|] == b;
    assert TlsSecretName(a)[..|a|] == a && TlsSecretName(b)[..|b|] == b;
    assert ClaimName(a)[..|a|] == a && ClaimName(b)[..|b|] == b;
    assert HttpRouteName(a)[..|a|] == a && HttpRouteName(b)[..|b|] == b;
  }

  lemma DistinctConcat(a: seq<Op>, b: seq<Op>)
    requires DistinctKeys(a) && DistinctKeys(b)
    requires forall i, j :: 0 <= i < |a| && 0 <= j < |b| ==> a[i].key != b[j].key
    ensures DistinctKeys(a + b)
  {
  }

  lemma PreludeDistinct(spec: ServiceSpec)
    ensures DistinctKeys(PreludeOps(spec))
    ensures forall i :: 0 <= i < 6 ==>
      PreludeOps(spec)[i].key.kind in {Namespace, ResourceQuota, LimitRange, NetworkPolicy, Secret}
  {
    SuffixesDiffer(spec.name, spec.name);
  }

  lemma WorkDistinct(domain: string, spec: ServiceSpec)
    ensures DistinctKeys(CronOps(spec)) && CronOps(spec)[0].key.kind == CronJob
    ensures DistinctKeys(RunOps(spec))
    ensures forall i :: 0 <= i < 3 ==> RunOps(spec)[i].key.kind in {VolumeClaim, Deployment, Autoscaler}
    ensures DistinctKeys(NetworkOps(domain, spec))
    ensures forall i :: 0 <= i < 4 ==>
      NetworkOps(domain, spec)[i].key.kind in {Certificate, NetService, IngressRoute}
  {
    SuffixesDiffer(spec.name, spec.name);
  }

  lemma ApplyKeysDistinct(baseDomain: string, spec: ServiceSpec)
    ensures DistinctKeys(ApplyOps(baseDomain, spec))
  {
    var prelude, run, net := PreludeOps(spec), RunOps(spec), NetworkOps(baseDomain, spec);
    assert |prelude| == 6 && |run| == 3 && |net| == 4 && |CronOps(spec)| == 1;
    PreludeDistinct(spec);
    WorkDistinct(baseDomain, spec);
    hide PreludeOps, RunOps, NetworkOps, CronOps;
    DistinctConcat(prelude, CronOps(spec));
    DistinctConcat(prelude, run);
    DistinctConcat(prelude + run, net);
  }

  lemma DeleteKeysDistinct(ns: string, name: string)
    ensures DistinctKeys(DeleteOps(ns, name))
  {
    SuffixesDiffer(name, name);
  }
}
