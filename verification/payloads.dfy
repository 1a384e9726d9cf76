/** The payloads of teardown notifications, as the API prints them and as the
    controller parses them, and the API loops that send them
    (internal/api/resource_handlers.go, internal/api/webhook_handlers.go,
    internal/controller/processor.go). */
module Payloads {
  import opened Basics
  import opened Lifecycle
  import opened Rows
  import opened Naming
  import Decimal
  import Slug
  import Pipeline
  import Runs

  const COLON := ':'

  // ------------------------------------------------------------- splitting

  function Index(s: string): (n: nat)
    ensures n <= |s| && (forall i :: 0 <= i < n ==> s[i] != COLON) && (n < |s| ==> s[n] == COLON)
  {
    if s == "" || s[0] == COLON then 0 else 1 + Index(s[1..])
  }

  /** strings.SplitN(s, ":", max); strings.Split is the same without a limit. */
  function SplitN(s: string, max: nat): (parts: seq<string>)
    requires max > 0
    ensures 0 < |parts| <= max
  {
    var n := Index(s);
    if max == 1 || n == |s| then [s] else [s[..n]] + SplitN(s[n + 1..], max - 1)
  }

  function Split(s: string): (parts: seq<string>)
    ensures parts != []
    decreases |s|
  {
    var n := Index(s);
    if n == |s| then [s] else [s[..n]] + Split(s[n + 1..])
  }

  lemma IndexOfPart(part: string, rest: string)
    requires COLON !in part
    ensures Index(part + [COLON] + rest) == |part| && Index(part) == |part|
    ensures (part + [COLON] + rest)[..|part|] == part && (part + [COLON] + rest)[|part| + 1..] == rest
  {
    var s := part + [COLON] + rest;
    assert s[|part|] == COLON && forall i :: 0 <= i < |part| ==> s[i] == part[i];
  }

  lemma {:induction false} PartsHaveNoColon(s: string)
    ensures forall i :: 0 <= i < |Split(s)| ==> COLON !in Split(s)[i]
    decreases |s|
  {
    var n := Index(s);
    if n < |s| { PartsHaveNoColon(s[n + 1..]); }
  }

  // --------------------------------------------------------------- parsing

  /** parseTeardown. */
  function ParseTeardown(payload: string): Option<(int, int)> {
    var n := Index(payload);
    if n == |payload| then None
    else
      var id, pr := Decimal.ParseInt(payload[..n]), Decimal.ParseInt(payload[n + 1..]);
      if id.Some? && pr.Some? then Some((id.value, pr.value)) else None
  }

  function PrintTeardown(service: int, pr: int): string {
    Decimal.FormatInt(service) + ":" + Decimal.FormatInt(pr)
  }

  datatype Teardown = DeleteNamespace(namespace: string) | DeleteWorkload(namespace: string, name: string) | Unknown

  /** The switch of resourceTeardown. */
  function ParseResource(payload: string): Teardown {
    var parts := SplitN(payload, 3);
    if parts[0] == "ns" && |parts| == 2 then DeleteNamespace(parts[1])
    else if parts[0] == "svc" && |parts| == 3 then DeleteWorkload(parts[1], parts[2])
    else Unknown
  }

  function PrintNamespace(namespace: string): string { "ns:" + namespace }

  function PrintWorkload(namespace: string, slug: string): string { "svc:" + namespace + ":" + slug }

  datatype Instance = Instance(namespace: string, cluster: string, engine: string)

  /** teardownDatabase: exactly three parts. */
  function ParseDatabase(payload: string): Option<Instance> {
    var parts := Split(payload);
    if |parts| == 3 then Some(Instance(parts[0], parts[1], parts[2])) else None
  }

  function PrintDatabase(d: Instance): string { d.namespace + ":" + d.cluster + ":" + d.engine }

  // ----------------------------------------------------------- round trips

  /** A preview teardown is understood as printed, for every service id and pull
      request number that fit 64 bits and for no others. */
  lemma TeardownRoundTrip(service: int, pr: int)
    ensures ParseTeardown(PrintTeardown(service, pr)) ==
      if Decimal.InInt64(service) && Decimal.InInt64(pr) then Some((service, pr)) else None
  {
    IndexOfPart(Decimal.FormatInt(service), Decimal.FormatInt(pr));
    Decimal.ParseOfFormat(service);
    Decimal.ParseOfFormat(pr);
    hide Decimal.FormatInt, Decimal.ParseInt;
  }

  /** A namespace teardown is understood as printed exactly when the namespace has no
      colon, which holds of every organisation's. */
  lemma NamespaceRoundTrip(namespace: string)
    ensures ParseResource(PrintNamespace(namespace)) == DeleteNamespace(namespace) <==> COLON !in namespace
  {
    IndexOfPart("ns", namespace);
    assert PrintNamespace(namespace) == "ns" + ":" + namespace;
    assert SplitN(PrintNamespace(namespace), 3) == ["ns"] + SplitN(namespace, 2);
    if COLON !in namespace { IndexOfPart(namespace, ""); }
  }

  /** A workload teardown is understood as printed exactly when the namespace has no
      colon; the name may hold any, since the payload is cut at most twice. */
  lemma WorkloadRoundTrip(namespace: string, slug: string)
    ensures ParseResource(PrintWorkload(namespace, slug)) == DeleteWorkload(namespace, slug) <==> COLON !in namespace
  {
    var tail := namespace + ":" + slug;
    IndexOfPart("svc", tail);
    assert PrintWorkload(namespace, slug) == "svc" + ":" + tail;
    assert SplitN(PrintWorkload(namespace, slug), 3) == ["svc"] + SplitN(tail, 2);
    assert SplitN(PrintWorkload(namespace, slug), 3)[1..] == SplitN(tail, 2);
    if COLON !in namespace {
      IndexOfPart(namespace, slug);
      assert SplitN(tail, 2) == [namespace, slug];
    } else {
      assert COLON !in SplitN(tail, 2)[0];
    }
  }

  /** A database teardown is understood as printed exactly when no field has a colon. */
  lemma DatabaseRoundTrip(d: Instance)
    ensures ParseDatabase(PrintDatabase(d)) == Some(d)
      <==> COLON !in d.namespace && COLON !in d.cluster && COLON !in d.engine
  {
    var payload := PrintDatabase(d);
    PartsHaveNoColon(payload);
    if COLON !in d.namespace && COLON !in d.cluster && COLON !in d.engine {
      var tail := d.cluster + ":" + d.engine;
      assert payload == d.namespace + ":" + tail;
      IndexOfPart(d.namespace, tail);
      IndexOfPart(d.cluster, d.engine);
      IndexOfPart(d.engine, "");
      assert Split(d.engine) == [d.engine];
      assert Split(tail) == [d.cluster] + Split(d.engine);
      assert Split(payload) == [d.namespace] + Split(tail);
    }
  }

  lemma NoColons(org: int, slug: string)
    requires Slug.IsSlug(slug)
    ensures COLON !in NamespaceForOrg(org) && COLON !in slug && COLON !in DatabaseCluster(slug)
  {
    hide Decimal.FormatInt;
    assert forall i :: 0 <= i < |slug| ==> slug[i] != COLON;
    assert forall i :: 0 <= i < |Decimal.FormatInt(org)| ==> Decimal.FormatInt(org)[i] != COLON;
  }

  /** For every organisation and every name a resource can be given, the payloads
      printed for it are parsed back to the same namespace, name and engine. */
  lemma PrintedTeardownsAreUnderstood(org: int, name: string, engine: string)
    requires COLON !in engine
    ensures var namespace, slug := NamespaceForOrg(org), Slug.SlugOf(name);
      && ParseResource(PrintNamespace(namespace)) == DeleteNamespace(namespace)
      && ParseResource(PrintWorkload(namespace, slug)) == DeleteWorkload(namespace, slug)
      && ParseDatabase(PrintDatabase(Instance(namespace, DatabaseCluster(slug), engine)))
           == Some(Instance(namespace, DatabaseCluster(slug), engine))
  {
    var namespace, slug := NamespaceForOrg(org), Slug.SlugOf(name);
    Slug.FixedPointsAreSlugs(name);
    NoColons(org, slug);
    NamespaceRoundTrip(namespace);
    WorkloadRoundTrip(namespace, slug);
    DatabaseRoundTrip(Instance(namespace, DatabaseCluster(slug), engine));
  }

  // ----------------------------------------- a closed pull request's previews

  /** The workload name the controller derives for a deploy row. */
  function NameOf(slug: string, d: Deploy): string { WorkloadName(slug, d.kind, d.pr) }

  /** In every reachable state, of all deploys of a service, those of the closed pull
      request and no others apply the workload that the printed teardown, once parsed,
      deletes. */
  lemma TeardownDeletesItsPreviews(acts: seq<Pipeline.Action>, id: nat, slug: string, service: int, pr: int)
    requires id in Runs.Table(acts).deploys
    requires Decimal.InInt64(service) && Decimal.InInt64(pr)
    ensures ParseTeardown(PrintTeardown(service, pr)) == Some((service, pr))
    ensures NameOf(slug, Runs.Table(acts).deploys[id]) == WorkloadName(slug, Preview, Some(pr))
      <==> Runs.Table(acts).deploys[id].pr == Some(pr)
  {
    TeardownRoundTrip(service, pr);
    Runs.DeployBuildAgreement(acts, id);
    var d := Runs.Table(acts).deploys[id];
    if d.pr.Some? {
      PreviewNames(slug, d.pr.value, slug, pr);
    } else {
      PreviewNames(slug, pr, slug, pr);
    }
  }
}
