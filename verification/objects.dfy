/** The objects of a workload after a complete Apply, field by field from its
    specification (internal/k8s/reconcile.go, cronjob.go, hpa.go, pullsecret.go). */
module AppliedObjects {
  import opened Basics
  import opened Cluster
  import opened Convergence

  function Applied(domain: string, c: Objects, spec: ServiceSpec): Objects {
    AfterEvent(domain, c, Complete(domain, spec))
  }

  /** The Deployment runs the specified image, port and size. */
  lemma DeploymentRuns(domain: string, c: Objects, spec: ServiceSpec)
    requires spec.typ != Cron
    ensures var c', dep := Applied(domain, c, spec), Key(Deployment, spec.ns, spec.name);
      && dep in c' && c'[dep].DeploymentSpec?
      && c'[dep].image == spec.image && c'[dep].port == spec.port && c'[dep].size == spec.size
  {
    ApplyMeetsDesired(domain, spec, c, Key(Deployment, spec.ns, spec.name));
    hide AfterEvent;
  }

  /** Its environment is the Secret named after it, which holds the specified variables. */
  lemma DeploymentEnvironment(domain: string, c: Objects, spec: ServiceSpec)
    requires spec.typ != Cron
    ensures var c', dep := Applied(domain, c, spec), Key(Deployment, spec.ns, spec.name);
      && dep in c' && c'[dep].DeploymentSpec? && c'[dep].env == spec.name + "-env"
      && Key(Secret, spec.ns, c'[dep].env) in c'
      && c'[Key(Secret, spec.ns, c'[dep].env)] == EnvSecret(spec.env)
  {
    SuffixesDiffer(spec.name, spec.name);
    ApplyMeetsDesired(domain, spec, c, Key(Deployment, spec.ns, spec.name));
    ApplyMeetsDesired(domain, spec, c, Key(Secret, spec.ns, EnvSecretName(spec.name)));
    hide AfterEvent;
  }

  /** It is probed exactly when it is a web or static service: by a request to the health
      path when there is one, else by a connection, each to the specified port. */
  lemma DeploymentProbe(domain: string, c: Objects, spec: ServiceSpec)
    requires spec.typ != Cron
    ensures var c', dep := Applied(domain, c, spec), Key(Deployment, spec.ns, spec.name);
      && dep in c' && c'[dep].DeploymentSpec?
      && (c'[dep].probe.Some? <==> spec.typ == Web || spec.typ == Static)
      && (c'[dep].probe.Some? && spec.healthPath != "" ==> c'[dep].probe.value == HttpGet(spec.healthPath, spec.port))
      && (c'[dep].probe.Some? && spec.healthPath == "" ==> c'[dep].probe.value == TcpConnect(spec.port))
  {
    ApplyMeetsDesired(domain, spec, c, Key(Deployment, spec.ns, spec.name));
    hide AfterEvent;
  }

  /** With a disk, and only then, it mounts the claim that is there, of the specified size, at
      the specified path; one copy then replaces another only after it has stopped. */
  lemma DeploymentDisk(domain: string, c: Objects, spec: ServiceSpec)
    requires spec.typ != Cron
    ensures var c', dep := Applied(domain, c, spec), Key(Deployment, spec.ns, spec.name);
      && dep in c' && c'[dep].DeploymentSpec?
      && (c'[dep].mount.Some? <==> spec.diskSize != "" && spec.diskPath != "")
      && (c'[dep].mount.Some? ==>
            && c'[dep].mount.value == Mount(spec.diskPath, spec.name + "-data")
            && Key(VolumeClaim, spec.ns, c'[dep].mount.value.claim) in c'
            && c'[Key(VolumeClaim, spec.ns, c'[dep].mount.value.claim)] == ClaimSpec(spec.diskSize))
      && (c'[dep].mount.None? ==> Key(VolumeClaim, spec.ns, spec.name + "-data") !in c')
      && (c'[dep].oneAtATime <==> c'[dep].replicas == Some(1) && c'[dep].mount.Some?)
  {
    ApplyMeetsDesired(domain, spec, c, Key(Deployment, spec.ns, spec.name));
    ApplyMeetsDesired(domain, spec, c, Key(VolumeClaim, spec.ns, ClaimName(spec.name)));
    hide AfterEvent;
  }

  /** It and the CronJob pull with the namespace's pull secret exactly when that is there,
      which is exactly when the organisation has credentials. */
  lemma PullsWithSecret(domain: string, c: Objects, spec: ServiceSpec)
    ensures var c', pull := Applied(domain, c, spec), Key(Secret, spec.ns, "uran-pull");
      var work := if spec.typ == Cron then Key(CronJob, spec.ns, spec.name) else Key(Deployment, spec.ns, spec.name);
      && (pull in c' <==> spec.pullCreds != [])
      && (pull in c' ==> c'[pull] == PullSecret(Auths(spec.pullCreds)))
      && work in c'
      && (if spec.typ == Cron then c'[work].CronJobSpec? && (c'[work].pull <==> pull in c')
          else c'[work].DeploymentSpec? && (c'[work].pull <==> pull in c'))
  {
    SuffixesDiffer(spec.name, spec.name);
    ApplyMeetsDesired(domain, spec, c, Key(Deployment, spec.ns, spec.name));
    ApplyMeetsDesired(domain, spec, c, Key(CronJob, spec.ns, spec.name));
    ApplyMeetsDesired(domain, spec, c, Key(Secret, spec.ns, PullSecretName));
    hide AfterEvent;
  }

  /** Of several credentials for one registry the last one is in the pull secret. */
  lemma {:induction false} LastCredentialCounts(creds: seq<RegistryCred>, i: nat)
    requires i < |creds| && forall j :: i < j < |creds| ==> creds[j].registry != creds[i].registry
    ensures creds[i].registry in Auths(creds)
    ensures Auths(creds)[creds[i].registry] == Auth(creds[i].username, creds[i].password)
  {
    if i < |creds| - 1 {
      LastCredentialCounts(creds[..|creds| - 1], i);
    }
  }

  /** A cron service runs the specified image on the specified schedule, with its variables. */
  lemma CronJobRuns(domain: string, c: Objects, spec: ServiceSpec)
    requires spec.typ == Cron
    ensures var c', job := Applied(domain, c, spec), Key(CronJob, spec.ns, spec.name);
      && job in c' && c'[job].CronJobSpec?
      && c'[job].image == spec.image && c'[job].schedule == spec.schedule && c'[job].size == spec.size
      && c'[job].env == spec.name + "-env"
      && Key(Secret, spec.ns, c'[job].env) in c' && c'[Key(Secret, spec.ns, c'[job].env)] == EnvSecret(spec.env)
  {
    SuffixesDiffer(spec.name, spec.name);
    ApplyMeetsDesired(domain, spec, c, Key(CronJob, spec.ns, spec.name));
    ApplyMeetsDesired(domain, spec, c, Key(Secret, spec.ns, EnvSecretName(spec.name)));
    hide AfterEvent;
  }

  /** The autoscaler, when there is one, moves this Deployment between the specified bounds. */
  lemma AutoscalerTargets(domain: string, c: Objects, spec: ServiceSpec)
    requires spec.typ != Cron && spec.maxReplicas > 0 && !spec.suspended && (spec.diskSize == "" || spec.diskPath == "")
    ensures var c', hpa := Applied(domain, c, spec), Key(Autoscaler, spec.ns, spec.name);
      && hpa in c' && c'[hpa] == AutoscalerSpec(spec.name, spec.minReplicas, spec.maxReplicas)
      && Key(Deployment, spec.ns, spec.name) in c'
  {
    ApplyMeetsDesired(domain, spec, c, Key(Autoscaler, spec.ns, spec.name));
    ApplyMeetsDesired(domain, spec, c, Key(Deployment, spec.ns, spec.name));
    hide AfterEvent;
  }

  // -------------------------------------------------------------- host names

  /** The host of a clause Host(`host`) at the head of a rule, and what follows the clause. */
  function Clause(rule: string): Option<(string, string)> {
    if !("Host(`" <= rule) then None
    else
      var rest := rule[6..];
      var n := Tick(rest);
      if "`)" <= rest[n..] then Some((rest[..n], rest[n + 2..])) else None
  }

  /** The hosts a rule of the form Host(`a`) || Host(`b`) matches. */
  function Matched(rule: string): Option<seq<string>>
    decreases |rule|
  {
    var clause := Clause(rule);
    if clause.None? then None
    else if clause.value.1 == "" then Some([clause.value.0])
    else if !(" || " <= clause.value.1) then None
    else
      var more := Matched(clause.value.1[4..]);
      if more.None? then None else Some([clause.value.0] + more.value)
  }

  function Tick(s: string): (n: nat)
    ensures n <= |s| && (forall i :: 0 <= i < n ==> s[i] != '`') && (n < |s| ==> s[n] == '`')
  {
    if s == "" || s[0] == '`' then 0 else 1 + Tick(s[1..])
  }

  lemma {:induction false} HostMatchCons(hosts: seq<string>)
    requires |hosts| > 1
    ensures HostMatch(hosts) == HostRule(hosts[0]) + " || " + HostMatch(hosts[1..])
  {
    hide HostRule;
    var front, last := hosts[..|hosts| - 1], hosts[|hosts| - 1];
    if |hosts| == 2 {
      assert hosts[1..] == [last] && front == [hosts[0]];
    } else {
      HostMatchCons(front);
      assert front[1..] == hosts[1..][..|hosts| - 2];
      assert HostMatch(hosts[1..]) == HostMatch(front[1..]) + " || " + HostRule(last);
    }
  }

  lemma SplitAt(host: string, rest: string)
    ensures var s := host + ("`" + rest);
      s[..|host|] == host && s[|host|..] == "`" + rest && (forall i :: 0 <= i < |host| ==> s[i] == host[i])
      && s[|host|] == '`'
  {
  }

  lemma TickOf(host: string, rest: string)
    requires '`' !in host
    ensures Tick(host + ("`" + rest)) == |host|
  {
    SplitAt(host, rest);
    var s := host + ("`" + rest);
    assert forall i :: 0 <= i < |host| ==> s[i] != '`';
  }

  lemma ClauseOf(host: string, rest: string)
    requires '`' !in host
    ensures Clause(HostRule(host) + rest) == Some((host, rest))
  {
    var rule := HostRule(host) + rest;
    var tail := host + ("`" + (")" + rest));
    assert rule == "Host(`" + tail;
    assert rule[..6] == "Host(`" && rule[6..] == tail;
    TickOf(host, ")" + rest);
    SplitAt(host, ")" + rest);
    hide Tick;
    assert ("`" + (")" + rest))[..2] == "`)" && ("`" + (")" + rest))[2..] == rest;
    assert rule[6..][|host|..][2..] == rule[6..][|host| + 2..];
  }

  /** The rule matches exactly the given hosts. */
  lemma {:induction false} RuleMatchesHosts(hosts: seq<string>)
    requires hosts != [] && NoTicks(hosts)
    ensures Matched(HostMatch(hosts)) == Some(hosts)
  {
    hide HostRule, Clause;
    if |hosts| == 1 {
      ClauseOf(hosts[0], "");
      assert HostRule(hosts[0]) + "" == HostRule(hosts[0]) && hosts == [hosts[0]];
    } else {
      HostMatchCons(hosts);
      RuleMatchesHosts(hosts[1..]);
      var more := HostMatch(hosts[1..]);
      ClauseOf(hosts[0], " || " + more);
      assert HostRule(hosts[0]) + " || " + more == HostRule(hosts[0]) + (" || " + more);
      assert (" || " + more)[..4] == " || " && (" || " + more)[4..] == more;
      hide HostMatch;
      assert [hosts[0]] + hosts[1..] == hosts;
    }
  }

  /** The hosts of a workload: its own name under the base domain, and every custom domain. */
  function Names(domain: string, spec: ServiceSpec): seq<string> {
    [spec.name + "." + domain] + spec.domains
  }

  predicate NoTicks(hosts: seq<string>) { forall i :: 0 <= i < |hosts| ==> '`' !in hosts[i] }

  /** The certificate of a routable service covers its default name and every custom domain,
      and its service leads to the specified port. */
  lemma CertificateCoversHosts(domain: string, c: Objects, spec: ServiceSpec)
    requires spec.typ == Web || spec.typ == Static
    ensures var c', cert, svc := Applied(domain, c, spec), Key(Certificate, spec.ns, spec.name), Key(NetService, spec.ns, spec.name);
      && cert in c' && c'[cert] == CertificateSpec(spec.name + "-tls", Names(domain, spec))
      && svc in c' && c'[svc] == ServicePort(spec.port)
  {
    DesiredCertificate(domain, spec);
    hide AfterEvent, Governed, SharedKeys, Desired, Names;
    ApplyMeetsDesired(domain, spec, c, Key(Certificate, spec.ns, spec.name));
    ApplyMeetsDesired(domain, spec, c, Key(NetService, spec.ns, spec.name));
  }

  lemma DesiredCertificate(domain: string, spec: ServiceSpec)
    requires spec.typ == Web || spec.typ == Static
    ensures var cert, svc := Key(Certificate, spec.ns, spec.name), Key(NetService, spec.ns, spec.name);
      && cert in Governed(spec) && svc in Governed(spec)
      && Desired(domain, spec, cert) == Some(CertificateSpec(spec.name + "-tls", Names(domain, spec)))
      && Desired(domain, spec, svc) == Some(ServicePort(spec.port))
  {
    assert Hosts(domain, spec) == Names(domain, spec);
    hide HostMatch;
  }

  lemma DesiredRoutes(domain: string, spec: ServiceSpec)
    requires spec.typ == Web || spec.typ == Static
    ensures var https, http := Key(IngressRoute, spec.ns, spec.name), Key(IngressRoute, spec.ns, spec.name + "-http");
      && https in Governed(spec) && http in Governed(spec)
      && Desired(domain, spec, https)
           == Some(Route(spec.name, HostMatch(Names(domain, spec)), "websecure", Some(spec.name + "-tls")))
      && Desired(domain, spec, http) == Some(Route(spec.name, HostMatch(Names(domain, spec)), "web", None))
  {
    SuffixesDiffer(spec.name, spec.name);
    assert HttpRouteName(spec.name) == spec.name + "-http";
    assert Hosts(domain, spec) == Names(domain, spec);
    hide HostMatch;
  }

  /** Both routes of a routable service match exactly its default name and every custom
      domain, and lead to its service; the secure one serves the certificate's secret. */
  lemma RoutesCoverHosts(domain: string, c: Objects, spec: ServiceSpec)
    requires (spec.typ == Web || spec.typ == Static) && NoTicks(Names(domain, spec))
    ensures var c' := Applied(domain, c, spec);
      var https, http := Key(IngressRoute, spec.ns, spec.name), Key(IngressRoute, spec.ns, spec.name + "-http");
      && https in c' && c'[https].Route? && http in c' && c'[http].Route?
      && Matched(c'[https].rule) == Matched(c'[http].rule) == Some(Names(domain, spec))
      && c'[https].service == c'[http].service == spec.name
      && c'[https].entryPoint == "websecure" && c'[https].tls == Some(spec.name + "-tls")
      && c'[http].entryPoint == "web" && c'[http].tls == None
  {
    DesiredRoutes(domain, spec);
    hide AfterEvent, HostMatch, Matched, Governed, Desired;
    ApplyMeetsDesired(domain, spec, c, Key(IngressRoute, spec.ns, spec.name));
    ApplyMeetsDesired(domain, spec, c, Key(IngressRoute, spec.ns, spec.name + "-http"));
    RuleMatchesHosts(Names(domain, spec));
  }
}
