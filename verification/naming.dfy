/** Kubernetes object names derived from rows (internal/naming/naming.go). */
module Naming {
  import opened Basics
  import opened Lifecycle
  import Decimal
  import Slug

  function NamespaceForOrg(org: int): string { "uran-org-" + Decimal.FormatInt(org) }

  function WorkloadName(slug: string, kind: Kind, pr: Option<int>): string {
    if kind == Preview && pr.Some? then slug + "-pr-" + Decimal.FormatInt(pr.value) else slug
  }

  function DatabaseCluster(slug: string): string { "db-" + slug }

  /** A decimal number printed at the end of two equal names is the same one. */
  lemma SameTail(a: string, x: int, b: string, y: int)
    requires a + "-pr-" + Decimal.FormatInt(x) == b + "-pr-" + Decimal.FormatInt(y)
    requires |Decimal.FormatInt(x)| <= |Decimal.FormatInt(y)|
    ensures a == b && Decimal.FormatInt(x) == Decimal.FormatInt(y)
  {
    hide Decimal.FormatInt;
    var f, g := Decimal.FormatInt(x), Decimal.FormatInt(y);
    var name := a + "-pr-" + f;
    var n := |name|;
    assert name[n - |f| - 2] == 'r' && name[n - |f| - 1] == '-';
    assert forall i :: n - |g| <= i < n ==> name[i] == g[i - (n - |g|)];
    if |f| < |g| {
      // the r before the first number would be in the second or be a dash
      assert false;
    }
    assert name[..|a|] == a && (b + "-pr-" + g)[..|b|] == b;
    assert name[n - |f|..] == f && (b + "-pr-" + g)[n - |g|..] == g;
  }

  lemma FormatIsInjective(x: int, y: int)
    requires Decimal.FormatInt(x) == Decimal.FormatInt(y)
    ensures x == y
  {
    Decimal.ValueOfFormat(if x < 0 then -x else x);
    Decimal.ValueOfFormat(if y < 0 then -y else y);
    assert x < 0 ==> Decimal.FormatInt(x)[0] == '-' && Decimal.FormatInt(x)[1..] == Decimal.FormatNat(-x);
    assert y < 0 ==> Decimal.FormatInt(y)[0] == '-' && Decimal.FormatInt(y)[1..] == Decimal.FormatNat(-y);
    assert x >= 0 ==> Decimal.FormatInt(x)[0] != '-';
    assert y >= 0 ==> Decimal.FormatInt(y)[0] != '-';
    hide Decimal.FormatNat;
  }

  /** Two previews share a name only if they are of the same slug and the same pull
      request, and no preview has the name of its own service's production workload. */
  lemma PreviewNames(a: string, x: int, b: string, y: int)
    ensures WorkloadName(a, Preview, Some(x)) == WorkloadName(b, Preview, Some(y)) <==> a == b && x == y
    ensures WorkloadName(a, Preview, Some(x)) != WorkloadName(a, Production, None)
  {
    if WorkloadName(a, Preview, Some(x)) == WorkloadName(b, Preview, Some(y)) {
      if |Decimal.FormatInt(x)| <= |Decimal.FormatInt(y)| { SameTail(a, x, b, y); } else { SameTail(b, y, a, x); }
      FormatIsInjective(x, y);
    }
    assert |WorkloadName(a, Preview, Some(x))| > |a|;
  }

  /** A preview name is itself a slug, which another service may have, exactly when the
      service has a name with letters or digits and the pull request number is not
      negative; so a preview can share its name with the production workload of another
      service. */
  lemma PreviewNameIsASlug(slug: string, pr: int)
    requires Slug.IsSlug(slug)
    ensures Slug.IsSlug(WorkloadName(slug, Preview, Some(pr))) <==> slug != "" && pr >= 0
  {
    var f, name := Decimal.FormatInt(pr), WorkloadName(slug, Preview, Some(pr));
    assert name == slug + "-pr-" + f;
    if slug == "" {
      assert name[0] == '-';
    } else if pr >= 0 {
      SlugsJoin(slug, "pr");
      SlugsJoin(slug + "-" + "pr", f);
      assert name == (slug + "-" + "pr") + "-" + f;
    } else {
      assert name[|slug| + 3] == '-' && name[|slug| + 4] == f[0] == '-';
    }
  }

  lemma SlugsJoin(a: string, b: string)
    requires Slug.IsSlug(a) && a != "" && Slug.IsSlug(b) && b != ""
    ensures Slug.IsSlug(a + "-" + b)
  {
    var s := a + "-" + b;
    assert forall i :: 0 <= i < |a| ==> s[i] == a[i];
    assert s[|a|] == '-';
    assert forall i :: 0 <= i < |b| ==> s[|a| + 1 + i] == b[i];
    forall i | 0 < i < |s| ensures s[i - 1] != '-' || s[i] != '-' {
      if i > |a| + 1 { assert s[i] == b[i - |a| - 1] && s[i - 1] == b[i - |a| - 2]; }
    }
  }

  /** The db- prefix does not keep a database apart from the services: a production
      workload has the database's name exactly when its slug starts with it, and slugify
      produces that slug exactly when the database's own slug is not empty. */
  lemma DatabasePrefixCollides(db: string, service: string)
    ensures DatabaseCluster(db) == WorkloadName(service, Production, None) <==> service == "db-" + db
    ensures Slug.IsSlug(db) ==> (Slug.SlugOf(DatabaseCluster(db)) == DatabaseCluster(db) <==> db != "")
  {
    Slug.FixedPointsAreSlugs(DatabaseCluster(db));
    if Slug.IsSlug(db) { ClusterNameIsASlug(db); }
    hide Slug.SlugOf, Slug.IsSlug;
  }

  lemma ClusterNameIsASlug(db: string)
    requires Slug.IsSlug(db)
    ensures Slug.IsSlug(DatabaseCluster(db)) <==> db != ""
  {
    if db == "" {
      assert DatabaseCluster(db)[2] == '-';
    } else {
      SlugsJoin("db", db);
      assert "db-" + db == "db" + "-" + db;
    }
  }

  /** Organisations have different namespaces. */
  lemma NamespacesDiffer(x: int, y: int)
    ensures NamespaceForOrg(x) == NamespaceForOrg(y) <==> x == y
  {
    if NamespaceForOrg(x) == NamespaceForOrg(y) {
      assert NamespaceForOrg(x)[9..] == Decimal.FormatInt(x) && NamespaceForOrg(y)[9..] == Decimal.FormatInt(y);
      FormatIsInjective(x, y);
    }
  }

  /** The forms of the names, by example. */
  lemma NameForms()
    ensures NamespaceForOrg(7) == "uran-org-7"
    ensures WorkloadName("web", Production, None) == "web"
    ensures WorkloadName("web", Preview, Some(42)) == "web-pr-42"
    ensures DatabaseCluster("main") == "db-main"
  {
    assert Decimal.FormatNat(42) == Decimal.FormatNat(4) + "2";
  }
}
