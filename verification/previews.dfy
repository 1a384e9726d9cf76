/** A closed pull request on the cluster: what the controller's teardown removes and what
    it leaves (internal/api/webhook_handlers.go, internal/controller/processor.go,
    internal/k8s/reconcile.go). */
module Previews {
  import opened Basics
  import opened Lifecycle
  import opened Naming
  import opened Cluster
  import opened Convergence
  import Decimal
  import Payloads

  function PreviewName(slug: string, pr: int): string { WorkloadName(slug, Preview, Some(pr)) }

  lemma EndsInDigit(n: int)
    ensures Decimal.IsDigit(Decimal.FormatInt(n)[|Decimal.FormatInt(n)| - 1])
  {
    var f := Decimal.FormatNat(if n < 0 then -n else n);
    assert Decimal.IsDigit(f[|f| - 1]);
  }

  /** A preview shares objects with the workload of its own name and of that name
      followed by -http, and with no other. */
  lemma PreviewClashesWith(slug: string, pr: int, other: string)
    ensures Unrelated(PreviewName(slug, pr), other)
      <==> other != PreviewName(slug, pr) && other != HttpRouteName(PreviewName(slug, pr))
  {
    var name := PreviewName(slug, pr);
    EndsInDigit(pr);
    var f := Decimal.FormatInt(pr);
    assert name[|name| - 1] == f[|f| - 1];
    assert HttpRouteName(other)[|other| + 4] == 'p';
  }

  /** The production workload and the other previews of a service are unrelated to a
      preview of it. */
  lemma OwnWorkloadsAreApart(slug: string, pr: int, pr': int)
    ensures Unrelated(PreviewName(slug, pr), slug)
    ensures pr != pr' ==> Unrelated(PreviewName(slug, pr), PreviewName(slug, pr'))
  {
    PreviewClashesWith(slug, pr, slug);
    PreviewClashesWith(slug, pr, PreviewName(slug, pr'));
    PreviewNames(slug, pr, slug, pr');
    EndsInDigit(pr');
    var f, g, name := Decimal.FormatInt(pr), Decimal.FormatInt(pr'), PreviewName(slug, pr');
    hide Decimal.FormatInt;
    assert name[|name| - 1] == g[|g| - 1];
    assert HttpRouteName(PreviewName(slug, pr))[|PreviewName(slug, pr)| + 4] == 'p';
  }

  /** Whatever the cluster went through: once the teardown printed for a closed pull
      request is parsed and its Delete completes, no object of that preview is left, and
      production, the other previews of the service and every other workload but the one
      or two that share the preview's names have what they had. */
  lemma ClosedPreviewIsGone(domain: string, events: seq<Event>, org: int, service: int, slug: string, pr: int)
    requires Decimal.InInt64(service) && Decimal.InInt64(pr)
    ensures Payloads.ParseTeardown(Payloads.PrintTeardown(service, pr)) == Some((service, pr))
    ensures
      var ns, name := NamespaceForOrg(org), PreviewName(slug, pr);
      var before, after := After(domain, events), After(domain, events + [CompleteDelete(ns, name)]);
      && (forall k :: k in WorkloadKeys(ns, name) ==> k !in after)
      && (forall k :: k in WorkloadKeys(ns, slug) ==> Lookup(after, k) == Lookup(before, k))
      && (forall pr', k :: pr' != pr && k in WorkloadKeys(ns, PreviewName(slug, pr')) ==> Lookup(after, k) == Lookup(before, k))
      && (forall other, k :: other != name && other != HttpRouteName(name) && k in WorkloadKeys(ns, other) ==>
            Lookup(after, k) == Lookup(before, k))
  {
    var ns, name := NamespaceForOrg(org), PreviewName(slug, pr);
    var all := events + [CompleteDelete(ns, name)];
    assert all[..|all| - 1] == events;
    Payloads.TeardownRoundTrip(service, pr);
    DeleteRemovesAll(domain, events, ns, name);
    var before, after := After(domain, events), After(domain, all);
    assert after == AfterEvent(domain, before, CompleteDelete(ns, name));
    hide WorkloadKeys, AfterEvent, After, PreviewName, NamespaceForOrg, Payloads.ParseTeardown, Payloads.PrintTeardown, HttpRouteName;
    forall other, k | Unrelated(name, other) && k in WorkloadKeys(ns, other) ensures Lookup(after, k) == Lookup(before, k) {
      OtherWorkloadsKept(domain, before, CompleteDelete(ns, name), ns, other, k);
    }
    forall pr' | pr' != pr ensures Unrelated(name, PreviewName(slug, pr')) { OwnWorkloadsAreApart(slug, pr, pr'); }
    OwnWorkloadsAreApart(slug, pr, pr);
    forall other | other != name && other != HttpRouteName(name) ensures Unrelated(name, other) {
      PreviewClashesWith(slug, pr, other);
    }
  }
}
